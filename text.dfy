/** Strings built from parts, and where a piece sits inside a text. */
module Text {

  /** The concatenation of all parts, in order. */
  function Join(parts: seq<string>): (s: string)
    decreases |parts|
  {
    if parts == [] then "" else parts[0] + Join(parts[1..])
  }

  /** `piece` occurs in `text` starting at offset `i`. */
  predicate OccursAt(piece: string, text: string, i: int)
  {
    0 <= i && i + |piece| <= |text| && text[i..i + |piece|] == piece
  }

  /** Cutting `n` characters out of `text` at offset `k` leaves `rest`. */
  predicate RemovedAt(text: string, k: int, n: int, rest: string)
  {
    0 <= k && 0 <= n && k + n <= |text| && text[..k] + text[k + n..] == rest
  }

  /** `text` ends with `suffix`. */
  predicate EndsWith(text: string, suffix: string)
  {
    |suffix| <= |text| && text[|text| - |suffix|..] == suffix
  }

  /** `piece` occurs somewhere in `text`. */
  ghost predicate Contains(text: string, piece: string)
  {
    exists i :: OccursAt(piece, text, i)
  }

  lemma {:induction false} JoinAppend(a: seq<string>, b: seq<string>)
    ensures Join(a + b) == Join(a) + Join(b)
    decreases |a|
  {
    if a == [] {
      assert a + b == b;
    } else {
      assert (a + b)[1..] == a[1..] + b;
      JoinAppend(a[1..], b);
    }
  }

  /** The offset at which part `k` starts in the joined text. */
  function PartOffset(parts: seq<string>, k: nat): nat
    requires k <= |parts|
  {
    |Join(parts[..k])|
  }

  lemma JoinAround(parts: seq<string>, k: nat)
    requires k < |parts|
    ensures Join(parts) == Join(parts[..k]) + parts[k] + Join(parts[k + 1..])
  {
    var front, back := parts[..k], parts[k..];
    assert parts == front + back;
    JoinAppend(front, back);
    assert back[1..] == parts[k + 1..];
    assert Join(back) == parts[k] + Join(parts[k + 1..]);
    AppendAssoc(Join(front), parts[k], Join(parts[k + 1..]));
  }

  /** Text between two joined runs of parts begins with the first part and ends with the last. */
  lemma Framed(head: seq<string>, middle: string, tail: seq<string>)
    requires head != [] && tail != []
    ensures var s := Join(head) + middle + Join(tail);
      head[0] <= s && EndsWith(s, tail[|tail| - 1])
  {
    StartsWithPrepended(head[0], Join(head[1..]));
    StartsWithPrepended(Join(head), middle);
    StartsWithPrepended(Join(head) + middle, Join(tail));
    PrefixOfPrefix(head[0], Join(head), Join(head) + middle);
    PrefixOfPrefix(head[0], Join(head) + middle, Join(head) + middle + Join(tail));
    JoinEnds(tail);
    EndsWithExtended(Join(head) + middle, Join(tail), tail[|tail| - 1]);
  }

  /** A joined text ends with its last part. */
  lemma JoinEnds(parts: seq<string>)
    requires parts != []
    ensures EndsWith(Join(parts), parts[|parts| - 1])
  {
    var n := |parts| - 1;
    var front, last := parts[..n], parts[n];
    assert parts == front + [last];
    JoinAppend(front, [last]);
    assert [last][1..] == [];
    assert Join([last]) == last;
    EndsWithAppended(Join(front), last);
  }

  lemma EndsWithAppended(front: string, suffix: string)
    ensures EndsWith(front + suffix, suffix)
  {
    assert (front + suffix)[|front|..] == suffix;
  }

  lemma StartsWithPrepended(prefix: string, rest: string)
    ensures prefix <= prefix + rest
  {
    assert (prefix + rest)[..|prefix|] == prefix;
  }

  lemma PrefixOfPrefix(a: string, b: string, c: string)
    requires a <= b && b <= c
    ensures a <= c
  {
  }

  /** Text in front keeps a suffix. */
  lemma EndsWithExtended(front: string, text: string, suffix: string)
    requires EndsWith(text, suffix)
    ensures EndsWith(front + text, suffix)
  {
    assert (front + text)[|front + text| - |suffix|..] == text[|text| - |suffix|..];
  }

  lemma AppendAssoc(a: string, b: string, c: string)
    ensures a + (b + c) == a + b + c
  {
  }

  lemma OccursBetween(before: string, piece: string, after: string)
    ensures OccursAt(piece, before + piece + after, |before|)
  {
    var text := before + piece + after;
    assert text[|before|..|before| + |piece|] == piece;
  }

  /** A piece written inside part `k` occurs in the joined text, inside that part. */
  lemma {:induction false} PieceOfPart(parts: seq<string>, k: nat, x: string, piece: string, y: string)
    requires k < |parts| && parts[k] == x + piece + y
    ensures OccursAt(piece, Join(parts), PartOffset(parts, k) + |x|)
    ensures PartOffset(parts, k) + |x| + |piece| <= PartOffset(parts, k) + |parts[k]|
  {
    JoinAround(parts, k);
    var a, b := Join(parts[..k]), Join(parts[k + 1..]);
    assert Join(parts) == (a + x) + piece + (y + b);
    OccursBetween(a + x, piece, y + b);
  }

  lemma CancelPrefix(p: string, a: string, b: string)
    requires p + a == p + b
    ensures a == b
  {
    assert a == (p + a)[|p|..];
    assert b == (p + b)[|p|..];
  }

  lemma CancelSuffix(a: string, b: string, q: string)
    requires a + q == b + q
    ensures a == b
  {
    assert a == (a + q)[..|a|];
    assert b == (b + q)[..|b|];
  }

  lemma OccursInPrefix(piece: string, a: string, b: string, i: int)
    requires OccursAt(piece, a, i)
    ensures OccursAt(piece, a + b, i)
  {
    assert (a + b)[i..i + |piece|] == a[i..i + |piece|];
  }

  lemma OccursInSuffix(piece: string, a: string, b: string, i: int)
    requires OccursAt(piece, b, i)
    ensures OccursAt(piece, a + b, |a| + i)
  {
    assert (a + b)[|a| + i..|a| + i + |piece|] == b[i..i + |piece|];
  }

  lemma OccursAtEnd(a: string, piece: string)
    ensures OccursAt(piece, a + piece, |a|)
  {
    assert (a + piece)[|a|..|a| + |piece|] == piece;
  }

  /** A piece of a part that occurs in a text occurs in that text. */
  lemma OccursWithin(piece: string, part: string, text: string, i: int, j: int)
    requires OccursAt(piece, part, i) && OccursAt(part, text, j)
    ensures OccursAt(piece, text, j + i)
  {
    forall k | 0 <= k < |piece|
      ensures text[j + i + k] == piece[k]
    {
      assert piece[k] == part[i..i + |piece|][k] == part[i + k];
      assert part[i + k] == text[j..j + |part|][i + k];
    }
    assert text[j + i..j + i + |piece|] == piece;
  }

  /** Every part lies within the joined text. */
  lemma PartWithin(parts: seq<string>, k: nat)
    requires k < |parts|
    ensures PartOffset(parts, k) + |parts[k]| <= |Join(parts)|
  {
    JoinAround(parts, k);
  }

  /** Cutting `middle` out of `a + middle + b` leaves `a` and `b` side by side. */
  lemma CutOut(a: string, middle: string, b: string)
    ensures var t := a + middle + b; t[..|a|] + t[|a| + |middle|..] == a + "" + b
  {
    var t := a + middle + b;
    assert t[..|a|] == a;
    assert t[|a| + |middle|..] == b;
    assert a + "" == a;
  }
}
