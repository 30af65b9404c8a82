/**
 * The name of the downloaded offer file (`downloadEmail`): the candidate name
 * with every run of whitespace replaced by one underscore, "Candidate" when
 * that is empty, between the prefix "Offer_" and the suffix ".html".
 */
module DownloadName {

  /** The characters the regular-expression class `\s` matches: white space and line terminators. */
  predicate IsWhitespace(c: char)
  {
    || c == '\t' || c == '\n' || c == '\U{000B}' || c == '\U{000C}' || c == '\r' || c == ' '
    || c == '\U{00A0}' || c == '\U{1680}' || ('\U{2000}' <= c <= '\U{200A}')
    || c == '\U{2028}' || c == '\U{2029}' || c == '\U{202F}' || c == '\U{205F}' || c == '\U{3000}'
    || c == '\U{FEFF}'
  }

  predicate NoWhitespace(s: string)
  {
    forall i :: 0 <= i < |s| ==> !IsWhitespace(s[i])
  }

  predicate AllWhitespace(s: string)
  {
    forall i :: 0 <= i < |s| ==> IsWhitespace(s[i])
  }

  /** `s` without its leading run of whitespace. */
  function SkipWhitespace(s: string): (rest: string)
    ensures |rest| <= |s| && rest == s[|s| - |rest|..]
    ensures AllWhitespace(s[..|s| - |rest|])
    ensures rest == [] || !IsWhitespace(rest[0])
    decreases |s|
  {
    if s != [] && IsWhitespace(s[0]) then SkipWhitespace(s[1..]) else s
  }

  /**
   * `s.replace(/\s+/g, "_")`: the pattern matches a maximal whitespace run
   * (it is greedy), the run becomes one underscore, and the search resumes
   * after it.
   */
  function ReplaceWhitespaceRuns(s: string): (r: string)
    ensures NoWhitespace(r)
    ensures |r| <= |s|
    ensures r == [] <==> s == []
    decreases |s|
  {
    if s == [] then ""
    else if IsWhitespace(s[0]) then "_" + ReplaceWhitespaceRuns(SkipWhitespace(s[1..]))
    else [s[0]] + ReplaceWhitespaceRuns(s[1..])
  }

  /** The download file name for a candidate. */
  function DownloadFilename(candidateName: string): (fileName: string)
    ensures |fileName| > 11 && fileName[..6] == "Offer_" && fileName[|fileName| - 5..] == ".html"
    ensures NoWhitespace(fileName[6..|fileName| - 5])
    ensures candidateName == "" ==> fileName[6..|fileName| - 5] == "Candidate"
    ensures candidateName != "" ==> fileName[6..|fileName| - 5] == ReplaceWhitespaceRuns(candidateName)
  {
    var stem := ReplaceWhitespaceRuns(candidateName);
    "Offer_" + (if stem == "" then "Candidate" else stem) + ".html"
  }

  /**
   * A character-by-character reading of the same rewrite: a whitespace
   * character emits an underscore only when it starts a run.
   */
  function ScanRuns(s: string, inRun: bool): string
    decreases |s|
  {
    if s == [] then ""
    else if IsWhitespace(s[0]) then (if inRun then "" else "_") + ScanRuns(s[1..], true)
    else [s[0]] + ScanRuns(s[1..], false)
  }

  /** How many whitespace runs start in `s` (a run already open at the start is not counted). */
  function RunStarts(s: string, inRun: bool): nat
    decreases |s|
  {
    if s == [] then 0
    else if IsWhitespace(s[0]) then (if inRun then 0 else 1) + RunStarts(s[1..], true)
    else RunStarts(s[1..], false)
  }

  /** How many times `c` occurs in `s`. */
  function Count(s: string, c: char): nat
    decreases |s|
  {
    if s == [] then 0 else (if s[0] == c then 1 else 0) + Count(s[1..], c)
  }

  /** Inside a run, the scan emits nothing until the run is over. */
  lemma {:induction false} ScanSkipsOpenRun(s: string)
    ensures ScanRuns(s, true) == ScanRuns(SkipWhitespace(s), false)
    decreases |s|
  {
    if s != [] && IsWhitespace(s[0]) {
      ScanSkipsOpenRun(s[1..]);
    }
  }

  /** The greedy rewrite agrees with the run-by-run scan: one underscore per maximal run. */
  lemma {:induction false} ReplaceMatchesScan(s: string)
    ensures ReplaceWhitespaceRuns(s) == ScanRuns(s, false)
    decreases |s|
  {
    if s != [] {
      if IsWhitespace(s[0]) {
        ScanSkipsOpenRun(s[1..]);
        ReplaceMatchesScan(SkipWhitespace(s[1..]));
      } else {
        ReplaceMatchesScan(s[1..]);
      }
    }
  }

  lemma {:induction false} CountAppend(a: string, b: string, c: char)
    ensures Count(a + b, c) == Count(a, c) + Count(b, c)
    decreases |a|
  {
    if a == [] {
      assert a + b == b;
    } else {
      assert (a + b)[1..] == a[1..] + b;
      CountAppend(a[1..], b, c);
    }
  }

  lemma {:induction false} ScanUnderscores(s: string, inRun: bool)
    ensures Count(ScanRuns(s, inRun), '_') == Count(s, '_') + RunStarts(s, inRun)
    decreases |s|
  {
    if s != [] {
      ScanUnderscores(s[1..], IsWhitespace(s[0]));
      var head := if IsWhitespace(s[0]) then (if inRun then "" else "_") else [s[0]];
      CountAppend(head, ScanRuns(s[1..], IsWhitespace(s[0])), '_');
      assert Count(s, '_') == Count([s[0]], '_') + Count(s[1..], '_');
    }
  }

  /** The rewrite adds exactly one underscore per maximal whitespace run, no more. */
  lemma UnderscorePerRun(s: string)
    ensures Count(ReplaceWhitespaceRuns(s), '_') == Count(s, '_') + RunStarts(s, false)
  {
    ReplaceMatchesScan(s);
    ScanUnderscores(s, false);
  }

  /** A string without whitespace is left as it is. */
  lemma {:induction false} ReplaceKeepsPlainText(s: string)
    requires NoWhitespace(s)
    ensures ReplaceWhitespaceRuns(s) == s
    decreases |s|
  {
    if s != [] {
      assert !IsWhitespace(s[0]);
      ReplaceKeepsPlainText(s[1..]);
    }
  }

  /** Rewriting twice is rewriting once. */
  lemma ReplaceIdempotent(s: string)
    ensures ReplaceWhitespaceRuns(ReplaceWhitespaceRuns(s)) == ReplaceWhitespaceRuns(s)
  {
    ReplaceKeepsPlainText(ReplaceWhitespaceRuns(s));
  }

  /** A name made only of whitespace becomes a single underscore, not the "Candidate" fallback. */
  lemma WhitespaceOnlyName(s: string)
    requires s != [] && AllWhitespace(s)
    ensures ReplaceWhitespaceRuns(s) == "_"
    ensures DownloadFilename(s) == "Offer_" + "_" + ".html"
  {
  }
}
