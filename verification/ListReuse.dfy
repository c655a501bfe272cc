/**
 * The shared device-list fetch (`refreshedList` in src/client/device-registry.ts): callers that want a fresher
 * list join the fetch in flight, or reuse a list fetched less than five seconds ago.
 *
 * Time is any non-decreasing integer, given with each step. Between a fetch's end and the moment its slot is
 * given up other steps may run, as they may between any two.
 */
module ListReuse {
  import opened Wrappers

  const LIST_REUSE_MS := 5000

  /** The slot `listInFlight`: nothing, a fetch running, or one that has ended and is still in the slot. */
  datatype Slot = Free | Running(fetch: nat) | Ended(fetch: nat, ok: bool)

  /** `starts` are the times at which fetches were started, one after the other. */
  datatype State = State(now: int, fetchedAt: int, slot: Slot, starts: seq<int>)

  const INITIAL := State(0, 0, Free, [])

  /** What a caller is told: the list at hand, or the fetch it waits for. */
  datatype Answer = Cached | Awaits(fetch: nat)

  function Call(s: State): (State, Answer) {
    if s.now - s.fetchedAt < LIST_REUSE_MS then (s, Cached)
    else
      match s.slot
      case Free => (s.(slot := Running(|s.starts|), starts := s.starts + [s.now]), Awaits(|s.starts|))
      case Running(f) => (s, Awaits(f))
      case Ended(f, _) => (s, Awaits(f))
  }

  /** The fetch ends: one that resolved opens the reuse window, one that rejected does not. */
  function End(s: State, ok: bool): State
    requires s.slot.Running?
  {
    s.(fetchedAt := if ok then s.now else s.fetchedAt, slot := Ended(s.slot.fetch, ok))
  }

  datatype Event = Calling(now: int) | Ending(now: int, ok: bool) | Clearing(now: int)

  predicate Enabled(s: State, e: Event) {
    e.now >= s.now && (e.Ending? ==> s.slot.Running?) && (e.Clearing? ==> s.slot.Ended?)
  }

  function Step(s: State, e: Event): State
    requires Enabled(s, e)
  {
    var s := s.(now := e.now);
    match e
    case Calling(_) => Call(s).0
    case Ending(_, ok) => End(s, ok)
    case Clearing(_) => s.(slot := Free)
  }

  function After(events: seq<Event>): Option<State> {
    if events == [] then Some(INITIAL)
    else
      match After(events[..|events| - 1])
      case None => None
      case Some(s) =>
        var e := events[|events| - 1];
        if Enabled(s, e) then Some(Step(s, e)) else None
  }

  // ---------------------------------------------------------------------------------------------
  // Results
  // ---------------------------------------------------------------------------------------------

  /** How many fetches have ended, from the events alone. */
  function EndedCount(events: seq<Event>): nat {
    if events == [] then 0
    else EndedCount(events[..|events| - 1]) + if events[|events| - 1].Ending? then 1 else 0
  }

  /**
   * However many callers there are, at most one fetch is running: of the fetches started, all but the one in
   * the slot have ended, and the slot always holds the latest.
   */
  lemma {:induction false} AtMostOneInFlight(events: seq<Event>)
    requires After(events).Some?
    ensures var s := After(events).value;
      && |s.starts| - EndedCount(events) == (if s.slot.Running? then 1 else 0)
      && (!s.slot.Free? ==> s.slot.fetch == |s.starts| - 1)
  {
    if events != [] { AtMostOneInFlight(events[..|events| - 1]); }
  }

  /** When the last fetch that resolved did so. */
  function LastResolved(events: seq<Event>): int {
    if events == [] then 0
    else
      match events[|events| - 1]
      case Ending(now, true) => now
      case _ => LastResolved(events[..|events| - 1])
  }

  lemma {:induction false} WindowOpensAtTheEnd(events: seq<Event>)
    requires After(events).Some?
    ensures After(events).value.fetchedAt == LastResolved(events)
  {
    if events != [] { WindowOpensAtTheEnd(events[..|events| - 1]); }
  }

  /**
   * In every run a caller is answered from the list at hand exactly within five seconds of the last fetch that
   * resolved. Otherwise it waits for the latest fetch, which it starts exactly when none holds the slot.
   */
  lemma CallerIsAnswered(events: seq<Event>, now: int)
    requires After(events).Some? && now >= After(events).value.now
    ensures var s := After(events).value;
      var (s', answer) := Call(s.(now := now));
      if now - LastResolved(events) < 5000 then answer == Cached && s'.starts == s.starts
      else
        && |s'.starts| > 0 && answer == Awaits(|s'.starts| - 1)
        && s'.starts == (if s.slot.Free? then s.starts + [now] else s.starts)
  {
    WindowOpensAtTheEnd(events);
    AtMostOneInFlight(events);
  }

  /** How the fetches that have ended ended, in order, from the events alone: `true` is resolved. */
  function Outcomes(events: seq<Event>): seq<bool> {
    if events == [] then []
    else
      var e := events[|events| - 1];
      Outcomes(events[..|events| - 1]) + if e.Ending? then [e.ok] else []
  }

  /** Fetch `i` resolved. */
  predicate Resolved(outcomes: seq<bool>, i: nat) {
    i < |outcomes| && outcomes[i]
  }

  /** Starts never go back, and the one after a fetch that resolved comes at least five seconds later. */
  predicate Spaced(s: State, outcomes: seq<bool>) {
    && (forall i: nat | 0 < i < |s.starts| :: s.starts[i - 1] <= s.starts[i])
    && (forall i: nat | 0 < i < |s.starts| && Resolved(outcomes, i - 1) ::
          s.starts[i] - s.starts[i - 1] >= LIST_REUSE_MS)
    && |outcomes| == |s.starts| - (if s.slot.Running? then 1 else 0)
    && (|s.starts| > 0 ==> s.starts[|s.starts| - 1] <= s.now)
    && (|outcomes| > 0 && outcomes[|outcomes| - 1] && !s.slot.Running? ==> s.fetchedAt >= s.starts[|outcomes| - 1])
  }

  lemma CallKeepsSpaced(s: State, now: int, outcomes: seq<bool>)
    requires Spaced(s, outcomes) && now >= s.now
    ensures Spaced(Call(s.(now := now)).0, outcomes)
  {
    var s' := Call(s.(now := now)).0;
    if |s'.starts| > |s.starts| {
      var n := |s.starts|;
      assert s'.starts[..n] == s.starts;
      assert forall i: nat | i < n :: s'.starts[i] == s.starts[i];
      assert n > 0 ==> s.starts[n - 1] <= s'.starts[n];
      assert n > 0 && Resolved(outcomes, n - 1) ==> s'.starts[n] - s.starts[n - 1] >= LIST_REUSE_MS;
    }
  }

  lemma EndKeepsSpaced(s: State, now: int, ok: bool, outcomes: seq<bool>)
    requires Spaced(s, outcomes) && now >= s.now && s.slot.Running?
    ensures Spaced(End(s.(now := now), ok), outcomes + [ok])
  {
    var n := |outcomes|;
    assert forall i: nat | i < n :: Resolved(outcomes + [ok], i) == Resolved(outcomes, i);
    assert (outcomes + [ok])[n] == ok;
  }

  lemma StepKeepsSpaced(s: State, e: Event, outcomes: seq<bool>)
    requires Spaced(s, outcomes) && Enabled(s, e)
    ensures Spaced(Step(s, e), outcomes + if e.Ending? then [e.ok] else [])
  {
    assert outcomes + [] == outcomes;
    match e
    case Calling(now) => CallKeepsSpaced(s, now, outcomes);
    case Ending(now, ok) => EndKeepsSpaced(s, now, ok, outcomes);
    case Clearing(_) =>
  }

  lemma {:induction false} SpacedInEveryRun(events: seq<Event>)
    requires After(events).Some?
    ensures Spaced(After(events).value, Outcomes(events))
  {
    hide Step, Spaced, Enabled;
    if events == [] {
      NothingStarted();
    } else {
      var n := |events| - 1;
      SpacedInEveryRun(events[..n]);
      StepKeepsSpaced(After(events[..n]).value, events[n], Outcomes(events[..n]));
    }
  }

  lemma NothingStarted()
    ensures Spaced(INITIAL, [])
  {
  }

  /** In every run, the fetch after one that resolved starts at least five seconds after that one did. */
  lemma StartsAreSpaced(events: seq<Event>, i: nat)
    requires After(events).Some? && 0 < i < |After(events).value.starts|
    ensures After(events).value.starts[i - 1] <= After(events).value.starts[i]
    ensures Resolved(Outcomes(events), i - 1) ==>
      After(events).value.starts[i] - After(events).value.starts[i - 1] >= LIST_REUSE_MS
  {
    SpacedInEveryRun(events);
  }

  /** How many of the fetches `i` up to `j` did not resolve. */
  function Failures(outcomes: seq<bool>, i: nat, j: nat): nat
    decreases j
  {
    if j <= i then 0 else Failures(outcomes, i, j - 1) + if Resolved(outcomes, j - 1) then 0 else 1
  }

  lemma {:induction false} Distance(s: State, outcomes: seq<bool>, i: nat, j: nat)
    requires Spaced(s, outcomes) && i <= j < |s.starts|
    ensures s.starts[j] - s.starts[i] >= LIST_REUSE_MS * (j - i - Failures(outcomes, i, j))
  {
    if i < j { Distance(s, outcomes, i, j - 1); }
  }

  /** So any window of `length` milliseconds holds at most length / 5000 + 1 starts, and one more for each failure. */
  lemma FewStartsInAnyWindow(events: seq<Event>, from: int, length: nat, i: nat, j: nat)
    requires After(events).Some?
    requires i <= j < |After(events).value.starts|
    requires from <= After(events).value.starts[i] && After(events).value.starts[j] <= from + length
    ensures j - i + 1 <= length / LIST_REUSE_MS + 1 + Failures(Outcomes(events), i, j)
  {
    SpacedInEveryRun(events);
    Distance(After(events).value, Outcomes(events), i, j);
  }

  /** A caller who comes back each time its fetch has failed. */
  function Retries(now: int, n: nat): seq<Event> {
    if n == 0 then [] else Retries(now, n - 1) + [Calling(now)] + [Ending(now, false)] + [Clearing(now)]
  }

  lemma AfterOneMore(events: seq<Event>, e: Event)
    requires After(events).Some? && Enabled(After(events).value, e)
    ensures After(events + [e]) == Some(Step(After(events).value, e))
  {
    assert (events + [e])[..|events|] == events;
  }

  /** The bound is sharp: a failed fetch opens no window, and any number of them can start at one instant. */
  lemma {:induction false} FailuresAreNotSpaced(now: int, n: nat)
    requires now >= LIST_REUSE_MS
    ensures After(Retries(now, n)).Some?
    ensures var s := After(Retries(now, n)).value;
      |s.starts| == n && s.now <= now && s.fetchedAt == 0 && s.slot.Free? && forall i: nat | i < n :: s.starts[i] == now
  {
    hide After;
    if n == 0 {
      AfterNothing();
    } else {
      FailuresAreNotSpaced(now, n - 1);
      var before := Retries(now, n - 1);
      AfterOneMore(before, Calling(now));
      AfterOneMore(before + [Calling(now)], Ending(now, false));
      AfterOneMore(before + [Calling(now)] + [Ending(now, false)], Clearing(now));
    }
  }

  lemma AfterNothing()
    ensures After([]) == Some(INITIAL)
  {
  }

  // ---------------------------------------------------------------------------------------------
  // The class
  // ---------------------------------------------------------------------------------------------

  class DeviceRegistry {
    var now: int
    var listFetchedAtMs: int
    var listInFlight: Slot
    var starts: seq<int>

    function Contents(): State
      reads this
    {
      State(now, listFetchedAtMs, listInFlight, starts)
    }

    constructor ()
      ensures Contents() == INITIAL
    {
      now, listFetchedAtMs, listInFlight, starts := 0, 0, Free, [];
    }

    method RefreshedList(at: int) returns (answer: Answer)
      requires at >= now
      modifies this
      ensures (Contents(), answer) == Call(old(Contents()).(now := at))
    {
      now := at;
      if now - listFetchedAtMs < LIST_REUSE_MS { return Cached; }
      if listInFlight.Free? {
        listInFlight := Running(|starts|);
        starts := starts + [now];
      }
      return Awaits(listInFlight.fetch);
    }

    method FetchEnds(at: int, ok: bool)
      requires at >= now && listInFlight.Running?
      modifies this
      ensures Contents() == End(old(Contents()).(now := at), ok)
    {
      now := at;
      if ok { listFetchedAtMs := now; }
      listInFlight := Ended(listInFlight.fetch, ok);
    }

    method FetchCleared(at: int)
      requires at >= now && listInFlight.Ended?
      modifies this
      ensures Contents() == old(Contents()).(now := at, slot := Free)
    {
      now := at;
      listInFlight := Free;
    }
  }
}
