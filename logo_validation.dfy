/**
 * The logo check: two flags, "loading" and "error", driven by changes of the
 * logo address and by the load or error callback of the image started for it.
 * Callbacks are applied in the order they arrive; none of them checks which
 * address its image was started for.
 */
module LogoValidation {

  datatype LogoFlags = LogoFlags(loading: bool, error: bool)

  /** What drives the flags; `src` names the address an image callback belongs to. */
  datatype LogoEvent = UrlChanged(url: string) | ImageLoaded(src: string) | ImageFailed(src: string)

  /** Both flags start off. */
  const Initial: LogoFlags := LogoFlags(false, false)

  /** An address the effect tries to load: non-empty and starting with "http". */
  predicate LooksRemote(url: string)
  {
    url != "" && "http" <= url
  }

  /**
   * One event: a remote address raises "loading" and an image callback
   * lowers it; a failed image raises "error", and a loaded image or a
   * non-remote address lowers it. Anything else keeps a flag as it was.
   */
  function Step(flags: LogoFlags, event: LogoEvent): (next: LogoFlags)
    ensures next.loading <==> StartsLoad(event) || (flags.loading && !EndsLoad(event))
    ensures next.error <==> event.ImageFailed? || (flags.error && !ClearsError(event))
  {
    match event
    case UrlChanged(url) => if LooksRemote(url) then flags.(loading := true) else flags.(error := false)
    case ImageLoaded(_) => LogoFlags(false, false)
    case ImageFailed(_) => LogoFlags(false, true)
  }

  /**
   * Events applied in arrival order, the last one last. A flag that was off
   * is on afterwards only if some event can raise it.
   */
  function Run(flags: LogoFlags, events: seq<LogoEvent>): (last: LogoFlags)
    ensures last.loading ==> flags.loading || exists i :: 0 <= i < |events| && StartsLoad(events[i])
    ensures last.error ==> flags.error || exists i :: 0 <= i < |events| && events[i].ImageFailed?
    decreases |events|
  {
    if events == [] then flags
    else
      var before := events[..|events| - 1];
      assert forall i :: 0 <= i < |before| ==> before[i] == events[i];
      Step(Run(flags, before), events[|events| - 1])
  }

  /** Events that raise the loading flag. */
  predicate StartsLoad(event: LogoEvent)
  {
    event.UrlChanged? && LooksRemote(event.url)
  }

  /** Events that lower the loading flag: the image callbacks. */
  predicate EndsLoad(event: LogoEvent)
  {
    event.ImageLoaded? || event.ImageFailed?
  }

  /** Events that lower the error flag. */
  predicate ClearsError(event: LogoEvent)
  {
    event.ImageLoaded? || (event.UrlChanged? && !LooksRemote(event.url))
  }

  /** Some load was started and no image callback has arrived since (or none arrived at all and one was pending). */
  ghost predicate LoadPending(flags: LogoFlags, events: seq<LogoEvent>)
  {
    || (exists i :: 0 <= i < |events| && StartsLoad(events[i]) && forall j :: i < j < |events| ==> !EndsLoad(events[j]))
    || (flags.loading && forall j :: 0 <= j < |events| ==> !EndsLoad(events[j]))
  }

  /** Some image failed and nothing has cleared the error since (or nothing cleared one already shown). */
  ghost predicate FailureStands(flags: LogoFlags, events: seq<LogoEvent>)
  {
    || (exists i :: 0 <= i < |events| && events[i].ImageFailed? && forall j :: i < j < |events| ==> !ClearsError(events[j]))
    || (flags.error && forall j :: 0 <= j < |events| ==> !ClearsError(events[j]))
  }

  /** An event that neither starts nor ends a load leaves "a load is pending" as it was. */
  lemma PendingKept(flags: LogoFlags, events: seq<LogoEvent>)
    requires events != [] && !StartsLoad(events[|events| - 1]) && !EndsLoad(events[|events| - 1])
    ensures LoadPending(flags, events[..|events| - 1]) <==> LoadPending(flags, events)
  {
    var n := |events| - 1;
    var before := events[..n];
    assert forall j :: 0 <= j < n ==> before[j] == events[j];
    if LoadPending(flags, before) {
      if flags.loading && forall j :: 0 <= j < n ==> !EndsLoad(before[j]) {
        assert forall j :: 0 <= j < |events| ==> !EndsLoad(events[j]);
      } else {
        var i :| 0 <= i < n && StartsLoad(before[i]) && forall j :: i < j < n ==> !EndsLoad(before[j]);
        assert StartsLoad(events[i]) && forall j :: i < j < |events| ==> !EndsLoad(events[j]);
      }
    }
    if LoadPending(flags, events) {
      if flags.loading && forall j :: 0 <= j < |events| ==> !EndsLoad(events[j]) {
        assert forall j :: 0 <= j < n ==> !EndsLoad(before[j]);
      } else {
        var i :| 0 <= i < |events| && StartsLoad(events[i]) && forall j :: i < j < |events| ==> !EndsLoad(events[j]);
        assert StartsLoad(before[i]) && forall j :: i < j < n ==> !EndsLoad(before[j]);
      }
    }
  }

  /** The spinner shows exactly while a load started by a remote address has had no callback yet. */
  lemma {:induction false} LoadingIffPending(flags: LogoFlags, events: seq<LogoEvent>)
    ensures Run(flags, events).loading <==> LoadPending(flags, events)
    decreases |events|
  {
    if events != [] {
      var n := |events| - 1;
      LoadingIffPending(flags, events[..n]);
      if StartsLoad(events[n]) {
        assert LoadPending(flags, events);
      } else if EndsLoad(events[n]) {
        assert !LoadPending(flags, events);
      } else {
        PendingKept(flags, events);
      }
    }
  }

  /** An event that neither fails an image nor clears the error leaves "a failure stands" as it was. */
  lemma FailureKept(flags: LogoFlags, events: seq<LogoEvent>)
    requires events != [] && !events[|events| - 1].ImageFailed? && !ClearsError(events[|events| - 1])
    ensures FailureStands(flags, events[..|events| - 1]) <==> FailureStands(flags, events)
  {
    var n := |events| - 1;
    var before := events[..n];
    assert forall j :: 0 <= j < n ==> before[j] == events[j];
    if FailureStands(flags, before) {
      if flags.error && forall j :: 0 <= j < n ==> !ClearsError(before[j]) {
        assert forall j :: 0 <= j < |events| ==> !ClearsError(events[j]);
      } else {
        var i :| 0 <= i < n && before[i].ImageFailed? && forall j :: i < j < n ==> !ClearsError(before[j]);
        assert events[i].ImageFailed? && forall j :: i < j < |events| ==> !ClearsError(events[j]);
      }
    }
    if FailureStands(flags, events) {
      if flags.error && forall j :: 0 <= j < |events| ==> !ClearsError(events[j]) {
        assert forall j :: 0 <= j < n ==> !ClearsError(before[j]);
      } else {
        var i :| 0 <= i < |events| && events[i].ImageFailed? && forall j :: i < j < |events| ==> !ClearsError(events[j]);
        assert before[i].ImageFailed? && forall j :: i < j < n ==> !ClearsError(before[j]);
      }
    }
  }

  /** The error message shows exactly while an image failure stands uncleared. */
  lemma {:induction false} ErrorIffFailureStands(flags: LogoFlags, events: seq<LogoEvent>)
    ensures Run(flags, events).error <==> FailureStands(flags, events)
    decreases |events|
  {
    if events != [] {
      var n := |events| - 1;
      ErrorIffFailureStands(flags, events[..n]);
      if events[n].ImageFailed? {
        assert FailureStands(flags, events);
      } else if ClearsError(events[n]) {
        assert !FailureStands(flags, events);
      } else {
        FailureKept(flags, events);
      }
    }
  }

  /**
   * There is no stale-response guard: a failure reported for an address the
   * user has already replaced still raises the error flag, after the current
   * address loaded fine.
   */
  lemma StaleFailureWins(replaced: string, current: string)
    requires LooksRemote(replaced) && LooksRemote(current)
    ensures Run(Initial, [UrlChanged(replaced), UrlChanged(current), ImageLoaded(current), ImageFailed(replaced)])
         == LogoFlags(false, true)
  {
  }

  /** The spinner and the error message can show together: a new remote address keeps an earlier error. */
  lemma LoadingWithError(first: string, second: string)
    requires LooksRemote(first) && LooksRemote(second)
    ensures Run(Initial, [UrlChanged(first), ImageFailed(first), UrlChanged(second)]) == LogoFlags(true, true)
  {
  }
}
