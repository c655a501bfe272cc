/** What the device registry guarantees over every run of polls, other refreshes and realtime reports. */
module DeviceRegistryRuns {
  import opened Wrappers
  import opened DeviceRegistry

  /** Whatever holds a record holds one that exists. */
  ghost predicate Valid(s: State) {
    Held(s.devices, s.records) && (s.poll.Landed? ==> Held(s.poll.list, s.records))
  }

  lemma {:induction false} IndexIsHeld(response: seq<Record>, from: nat)
    ensures forall sn | sn in Index(response, from) :: from <= Index(response, from)[sn] < from + |response|
  {
    if response != [] { IndexIsHeld(response[..|response| - 1], from); }
  }

  lemma StepKeepsValid(s: State, e: Event)
    requires Valid(s) && Enabled(s, e)
    ensures Valid(Step(s, e))
  {
    if e.Refreshing? || e.Polling? { IndexIsHeld(e.response, |s.records|); }
  }

  /** So a poll whose refresh has landed can always go on to diff. */
  lemma {:induction false} ValidInEveryRun(events: seq<Event>)
    requires After(events).Some?
    ensures Valid(After(events).value)
    ensures After(events).value.poll.Landed? ==> CanDiff(After(events).value)
  {
    if events != [] {
      var n := |events| - 1;
      ValidInEveryRun(events[..n]);
      StepKeepsValid(After(events[..n]).value, events[n]);
    }
  }

  // ---------------------------------------------------------------------------------------------
  // Replaying the reported changes
  // ---------------------------------------------------------------------------------------------

  /** The value a landed poll brought for a param. */
  function CloudAt(s: State, sn: string, id: int): Option<string>
    requires CanDiff(s)
  {
    if sn in s.poll.list && id in s.records[s.poll.list[sn]].params
    then Some(s.records[s.poll.list[sn]].params[id]) else None
  }

  function ChangeAt(d: PollDiff, sn: string, id: int): Option<Move> {
    if sn in d.params && id in d.params[sn] then Some(d.params[sn][id]) else None
  }

  /** What a listener holds: the value at the first poll that had the param, then the reported changes. */
  function Replayed(events: seq<Event>, sn: string, id: int): Option<string>
    requires After(events).Some?
  {
    if events == [] then None
    else
      var n := |events| - 1;
      var held, s := Replayed(events[..n], sn, id), After(events[..n]).value;
      if !events[n].Diffing? then held
      else
        var change := ChangeAt(CurrentDiff(s), sn, id);
        if CloudAt(s, sn, id).None? then None
        else if held.None? then CloudAt(s, sn, id)
        else if change.Some? then Some(change.value.to)
        else held
  }

  function BaselineAt(s: State, sn: string, id: int): Option<string> {
    if s.pollSnapshot.Some? && sn in s.pollSnapshot.value.devices && id in s.pollSnapshot.value.devices[sn].params
    then Some(s.pollSnapshot.value.devices[sn].params[id]) else None
  }

  lemma DiffIsExact(s: State, sn: string, id: int)
    requires CanDiff(s)
    ensures var change, was, now := ChangeAt(CurrentDiff(s), sn, id), BaselineAt(s, sn, id), CloudAt(s, sn, id);
      && (change.Some? <==> was.Some? && now.Some? && was != now)
      && (change.Some? ==> change.value == Move(was.value, now.value))
    ensures BaselineAt(PollDiffs(s), sn, id) == CloudAt(s, sn, id)
  {
  }

  /**
   * In any interleaving of polls, other refreshes and reports, the replay is the value the last poll saw: no
   * change is absorbed by anything that happened in between.
   */
  lemma {:induction false} ReplayIsTheLastPolledValue(events: seq<Event>, sn: string, id: int)
    requires After(events).Some?
    ensures Replayed(events, sn, id) == BaselineAt(After(events).value, sn, id)
  {
    if events != [] {
      var n := |events| - 1;
      ReplayIsTheLastPolledValue(events[..n], sn, id);
      var s := After(events[..n]).value;
      if events[n].Diffing? {
        DiffIsExact(s, sn, id);
        hide CurrentDiff, PollDiffs, ChangeAt, CloudAt, BaselineAt;
        assert After(events).value == PollDiffs(s);
      }
    }
  }

  /** A change is reported exactly when the poll brings another value than the replay holds, and from that one. */
  lemma ReportedExactlyWhenMoved(events: seq<Event>, sn: string, id: int)
    requires After(events).Some? && CanDiff(After(events).value)
    ensures var held, now := Replayed(events, sn, id), CloudAt(After(events).value, sn, id);
      ChangeAt(CurrentDiff(After(events).value), sn, id)
      == if held.Some? && now.Some? && held != now then Some(Move(held.value, now.value)) else None
  {
    ReplayIsTheLastPolledValue(events, sn, id);
    DiffIsExact(After(events).value, sn, id);
  }

  /** When the device was last seen, as the last poll found it. */
  function SeenByLastPoll(events: seq<Event>, sn: string): Option<Option<int>>
    requires After(events).Some?
  {
    if events == [] then None
    else
      var n := |events| - 1;
      var s := After(events[..n]).value;
      if !events[n].Diffing? then SeenByLastPoll(events[..n], sn)
      else if sn in s.poll.list then Some(s.records[s.poll.list[sn]].lastSeenMs)
      else None
  }

  /**
   * A device is reported as seen exactly when its stamp has advanced since the last poll found it, although
   * every realtime report in between stamps the shared record.
   */
  lemma LivenessIsNotAbsorbed(events: seq<Event>, sn: string)
    requires After(events).Some? && CanDiff(After(events).value)
    ensures var s := After(events).value;
      sn in CurrentDiff(s).reported <==>
        && sn in s.poll.list && SeenByLastPoll(events, sn).Some?
        && var before, now := SeenByLastPoll(events, sn).value, s.records[s.poll.list[sn]].lastSeenMs;
        now.Some? && (before == None || before.value < now.value)
  {
    BaselineKeepsTheStamp(events, sn);
  }

  lemma {:induction false} BaselineKeepsTheStamp(events: seq<Event>, sn: string)
    requires After(events).Some?
    ensures var base := After(events).value.pollSnapshot;
      SeenByLastPoll(events, sn) ==
        if base.Some? && sn in base.value.devices then Some(base.value.devices[sn].lastSeenMs) else None
  {
    if events != [] {
      BaselineKeepsTheStamp(events[..|events| - 1], sn);
    }
  }

  // ---------------------------------------------------------------------------------------------
  // The roster
  // ---------------------------------------------------------------------------------------------

  predicate PollsOnly(events: seq<Event>) {
    forall i: nat | i < |events| :: !events[i].Refreshing?
  }

  predicate AllComplete(events: seq<Event>) {
    forall i: nat | i < |events| && events[i].Polling? :: !events[i].partial
  }

  function BaselineKeys(s: State): set<string> {
    if s.pollSnapshot.None? then {} else s.pollSnapshot.value.devices.Keys
  }

  /** While polls make every refresh, the list is the baseline between polls, and a partial poll only adds. */
  ghost predicate InStep(s: State) {
    if s.poll.Landed? then
      s.poll.list == s.devices && (s.lastRefreshPartial ==> BaselineKeys(s) <= s.devices.Keys)
    else s.devices.Keys == BaselineKeys(s)
  }

  lemma {:induction false} PollsKeepInStep(events: seq<Event>)
    requires After(events).Some? && PollsOnly(events)
    ensures InStep(After(events).value)
  {
    if events != [] {
      var n := |events| - 1;
      PollsKeepInStep(events[..n]);
    }
  }

  /** When polls make every refresh, a serial leaves the baseline only by being reported removed. */
  lemma LeavesOnlyByRemoval(events: seq<Event>, sn: string)
    requires After(events).Some? && PollsOnly(events) && CanDiff(After(events).value)
    ensures var s := After(events).value;
      sn in CurrentDiff(s).removed <==> sn in BaselineKeys(s) && sn !in BaselineKeys(PollDiffs(s))
  {
    PollsKeepInStep(events);
  }

  datatype RosterEvent = Added | Removed

  /** The last thing the diffs said about a serial joining or leaving. */
  function LastSaid(events: seq<Event>, sn: string): Option<RosterEvent>
    requires After(events).Some?
  {
    if events == [] then None
    else
      var n := |events| - 1;
      var s := After(events[..n]).value;
      if !events[n].Diffing? then LastSaid(events[..n], sn)
      else if sn in CurrentDiff(s).added then Some(Added)
      else if sn in CurrentDiff(s).removed then Some(Removed)
      else LastSaid(events[..n], sn)
  }

  lemma {:induction false} AddedIsStillThere(events: seq<Event>, sn: string)
    requires After(events).Some? && PollsOnly(events)
    ensures LastSaid(events, sn) == Some(Added) ==> sn in BaselineKeys(After(events).value)
  {
    if events != [] {
      var n := |events| - 1;
      AddedIsStillThere(events[..n], sn);
      if events[n].Diffing? { LeavesOnlyByRemoval(events[..n], sn); }
    }
  }

  /** When polls make every refresh, two `added` of a serial have a `removed` between them. */
  lemma AddedTwiceIsRemovedBetween(events: seq<Event>, sn: string)
    requires After(events).Some? && PollsOnly(events) && CanDiff(After(events).value)
    requires sn in CurrentDiff(After(events).value).added
    ensures LastSaid(events, sn) != Some(Added)
  {
    AddedIsStillThere(events, sn);
  }

  /** The first roster, and then what was added less what was removed. */
  function Roster(events: seq<Event>): set<string>
    requires After(events).Some?
  {
    if events == [] then {}
    else
      var n := |events| - 1;
      var s := After(events[..n]).value;
      if !events[n].Diffing? then Roster(events[..n])
      else if s.pollSnapshot.None? then s.poll.list.Keys
      else Roster(events[..n]) + CurrentDiff(s).added - CurrentDiff(s).removed
  }

  lemma {:induction false} CompletePollsAreComplete(events: seq<Event>)
    requires After(events).Some? && PollsOnly(events) && AllComplete(events)
    ensures var s := After(events).value;
      (s.poll.Landed? ==> !s.lastRefreshPartial) && (s.pollSnapshot.Some? ==> s.pollSnapshot.value.complete)
  {
    if events != [] { CompletePollsAreComplete(events[..|events| - 1]); }
  }

  /** When polls make every refresh and all are complete: first roster + added - removed = current roster. */
  lemma {:induction false} RosterIsConserved(events: seq<Event>)
    requires After(events).Some? && PollsOnly(events) && AllComplete(events)
    ensures Roster(events) == BaselineKeys(After(events).value)
  {
    if events != [] {
      var n := |events| - 1;
      RosterIsConserved(events[..n]);
      CompletePollsAreComplete(events[..n]);
    }
  }

  function Serials(response: seq<Record>): set<string> {
    set r | r in response :: r.sn
  }

  lemma {:induction false} IndexKeys(response: seq<Record>, from: nat)
    ensures Index(response, from).Keys == Serials(response)
  {
    if response != [] {
      var n := |response| - 1;
      IndexKeys(response[..n], from);
      assert response == response[..n] + [response[n]];
    }
  }

  // What the list and the baseline hold, told by the responses alone.

  /** Whether the last refresh to land, the poll's or another caller's, was partial. */
  function LastPartial(events: seq<Event>): bool {
    if events == [] then false
    else
      match events[|events| - 1]
      case Refreshing(_, partial) => partial
      case Polling(_, partial) => partial
      case _ => LastPartial(events[..|events| - 1])
  }

  /** The serials of the last complete response and of the partial ones since. */
  function Known(events: seq<Event>): set<string> {
    if events == [] then {}
    else
      var before := Known(events[..|events| - 1]);
      match events[|events| - 1]
      case Refreshing(response, partial) => Serials(response) + if partial then before else {}
      case Polling(response, partial) => Serials(response) + if partial then before else {}
      case _ => before
  }

  /** What was known when the last poll landed. */
  function KnownAtLanding(events: seq<Event>): set<string> {
    if events == [] then {}
    else if events[|events| - 1].Polling? then Known(events)
    else KnownAtLanding(events[..|events| - 1])
  }

  /** What was known when the last poll that has diffed landed. */
  function KnownAtLastDiff(events: seq<Event>): set<string> {
    if events == [] then {}
    else if events[|events| - 1].Diffing? then KnownAtLanding(events[..|events| - 1])
    else KnownAtLastDiff(events[..|events| - 1])
  }

  lemma {:induction false} HoldsWhatIsKnown(events: seq<Event>)
    requires After(events).Some?
    ensures var s := After(events).value;
      && s.lastRefreshPartial == LastPartial(events)
      && s.devices.Keys == Known(events)
      && (s.poll.Landed? ==> s.poll.list.Keys == KnownAtLanding(events))
      && BaselineKeys(s) == KnownAtLastDiff(events)
  {
    if events != [] {
      var n := |events| - 1;
      HoldsWhatIsKnown(events[..n]);
      if events[n].Refreshing? || events[n].Polling? {
        IndexKeys(events[n].response, |After(events[..n]).value.records|);
      }
    }
  }

  /** A device of the baseline that the poll about to diff has lost, and does not report as removed. */
  predicate LostSilently(s: State, sn: string)
    requires CanDiff(s)
  {
    sn in BaselineKeys(s) && sn !in BaselineKeys(PollDiffs(s)) && sn !in CurrentDiff(s).removed
  }

  /**
   * In every run, whatever other refreshes land and whenever they do, a poll about to diff loses a device
   * silently exactly when the last diff had it, this poll did not know it when it landed, and the last refresh
   * to land since, its own or another caller's, was partial.
   */
  lemma LostSilentlyIff(events: seq<Event>, sn: string)
    requires After(events).Some? && CanDiff(After(events).value)
    ensures LostSilently(After(events).value, sn) <==>
      sn in KnownAtLastDiff(events) && sn !in KnownAtLanding(events) && LastPartial(events)
  {
    HoldsWhatIsKnown(events);
  }

  /** The same, said of the state alone: a lost device is reported exactly when the last refresh was complete. */
  lemma LossIsReportedIff(s: State, sn: string)
    requires CanDiff(s) && sn in BaselineKeys(s) && sn !in s.poll.list
    ensures sn !in BaselineKeys(PollDiffs(s))
    ensures sn in CurrentDiff(s).removed <==> !s.lastRefreshPartial
  {
  }

  lemma AfterOneMore(events: seq<Event>, e: Event)
    requires After(events).Some? && Enabled(After(events).value, e)
    ensures After(events + [e]) == Some(Step(After(events).value, e))
  {
    assert (events + [e])[..|events|] == events;
  }

  lemma KnownAfterOneMore(events: seq<Event>, e: Event)
    ensures LastPartial(events + [e]) == (if e.Refreshing? || e.Polling? then e.partial else LastPartial(events))
    ensures Known(events + [e]) ==
      (if e.Refreshing? || e.Polling? then Serials(e.response) + (if e.partial then Known(events) else {})
       else Known(events))
    ensures KnownAtLanding(events + [e]) == (if e.Polling? then Known(events + [e]) else KnownAtLanding(events))
    ensures KnownAtLastDiff(events + [e]) == (if e.Diffing? then KnownAtLanding(events) else KnownAtLastDiff(events))
  {
    assert (events + [e])[..|events|] == events;
  }

  /** One complete poll of `d`, a second landed without it, and then a partial refresh of another caller. */
  function Overtaken(d: Record): seq<Event> {
    [Polling([d], false)] + [Diffing] + [Applying] + [Polling([], false)] + [Refreshing([], true)]
  }

  lemma OvertakenRuns(d: Record)
    ensures After(Overtaken(d)).Some? && CanDiff(After(Overtaken(d)).value)
    ensures KnownAtLastDiff(Overtaken(d)) == {d.sn} && KnownAtLanding(Overtaken(d)) == {}
    ensures LastPartial(Overtaken(d))
  {
    hide After, Known, KnownAtLanding, KnownAtLastDiff, LastPartial, DiffOf, Snapshot;
    Nothing();
    var e0, e1: seq<Event> := [], [Polling([d], false)];
    assert e0 + [Polling([d], false)] == e1;
    Grow(e0, Polling([d], false));
    Grow(e1, Diffing);
    Grow(e1 + [Diffing], Applying);
    Grow(e1 + [Diffing] + [Applying], Polling([], false));
    Grow(e1 + [Diffing] + [Applying] + [Polling([], false)], Refreshing([], true));
    assert Serials([d]) == {d.sn} && Serials([]) == {};
  }

  lemma Nothing()
    ensures After([]) == Some(EMPTY) && Known([]) == {} && KnownAtLanding([]) == {} && KnownAtLastDiff([]) == {}
  {
  }

  /** One more step of a run, with what it keeps. */
  lemma Grow(events: seq<Event>, e: Event)
    requires After(events).Some? && Enabled(After(events).value, e)
    ensures After(events + [e]) == Some(Step(After(events).value, e)) && Valid(After(events + [e]).value)
    ensures After(events + [e]).value.poll.Landed? ==> CanDiff(After(events + [e]).value)
    ensures LastPartial(events + [e]) == (if e.Refreshing? || e.Polling? then e.partial else LastPartial(events))
    ensures Known(events + [e]) ==
      (if e.Refreshing? || e.Polling? then Serials(e.response) + (if e.partial then Known(events) else {})
       else Known(events))
    ensures KnownAtLanding(events + [e]) == (if e.Polling? then Known(events + [e]) else KnownAtLanding(events))
    ensures KnownAtLastDiff(events + [e]) == (if e.Diffing? then KnownAtLanding(events) else KnownAtLastDiff(events))
  {
    AfterOneMore(events, e);
    ValidInEveryRun(events + [e]);
    KnownAfterOneMore(events, e);
  }

  /** A complete poll can lose a device silently: another caller's partial refresh landed before it diffed. */
  lemma CompletePollCanLoseSilently(d: Record)
    ensures var run := Overtaken(d);
      After(run).Some? && CanDiff(After(run).value) && LostSilently(After(run).value, d.sn)
  {
    hide LostSilently, Overtaken;
    OvertakenRuns(d);
    LostSilentlyIff(Overtaken(d), d.sn);
  }

  function WholePoll(s: State, response: seq<Record>, partial: bool): (State, PollDiff)
    requires Valid(s) && s.poll.Idle?
  {
    IndexIsHeld(response, |s.records|);
    var landed := PollLands(s, response, partial);
    var diffed := PollDiffs(landed);
    (PollApplies(diffed), diffed.poll.diff)
  }

  lemma WholePollIsValid(s: State, response: seq<Record>, partial: bool)
    requires Valid(s) && s.poll.Idle?
    ensures var (s', d) := WholePoll(s, response, partial);
      && Valid(s') && s'.poll.Idle?
      && BaselineKeys(s') == s'.devices.Keys
      && s'.devices.Keys == (if partial then s.devices.Keys else {}) + Serials(response)
      && s'.pollSnapshot.Some? && s'.pollSnapshot.value.complete == !partial
      && d.removed == (if partial then {} else BaselineKeys(s) - s'.devices.Keys)
      && d.added ==
        (if s.pollSnapshot.Some? && s.pollSnapshot.value.complete then s'.devices.Keys - BaselineKeys(s) else {})
  {
    IndexIsHeld(response, |s.records|);
    IndexKeys(response, |s.records|);
  }

  /** And then it can be added twice with nothing removed in between: another caller's refresh dropped it. */
  lemma AddedTwiceWithoutRemoval(d: Record)
    ensures Valid(EMPTY)
    ensures
      var s1 := WholePoll(EMPTY, [], false).0;
      && Valid(s1) && s1.poll.Idle?
      && var (s2, d2) := WholePoll(s1, [d], false);
      && d2.added == {d.sn} && Valid(s2) && s2.poll.Idle?
      && var dropped := Refresh(s2, [], false);
      && Valid(dropped) && dropped.poll.Idle?
      && var (s3, d3) := WholePoll(dropped, [], true);
      && d3.removed == {} && Valid(s3) && s3.poll.Idle?
      && var (s4, d4) := WholePoll(s3, [], false);
      && d4.removed == {} && Valid(s4) && s4.poll.Idle?
      && WholePoll(s4, [d], false).1.added == {d.sn}
  {
    hide WholePoll;
    assert Serials([]) == {} && Serials([d]) == {d.sn};
    WholePollIsValid(EMPTY, [], false);
    var s1 := WholePoll(EMPTY, [], false).0;
    WholePollIsValid(s1, [d], false);
    var s2 := WholePoll(s1, [d], false).0;
    var dropped := Refresh(s2, [], false);
    WholePollIsValid(dropped, [], true);
    var s3 := WholePoll(dropped, [], true).0;
    WholePollIsValid(s3, [], false);
    var s4 := WholePoll(s3, [], false).0;
    WholePollIsValid(s4, [d], false);
  }

  /** Whether the refresh the last diff went by was partial, the last to land before it. */
  function PartialAtLastDiff(events: seq<Event>): bool {
    if events == [] then false
    else if events[|events| - 1].Diffing? then LastPartial(events[..|events| - 1])
    else PartialAtLastDiff(events[..|events| - 1])
  }

  predicate HasDiffed(events: seq<Event>) {
    exists i :: 0 <= i < |events| && events[i].Diffing?
  }

  lemma {:induction false} BaselineSaysSo(events: seq<Event>)
    requires After(events).Some?
    ensures var base := After(events).value.pollSnapshot;
      && (base.Some? <==> HasDiffed(events))
      && (base.Some? ==> base.value.complete == !PartialAtLastDiff(events))
  {
    if events != [] {
      var n := |events| - 1;
      BaselineSaysSo(events[..n]);
      HoldsWhatIsKnown(events[..n]);
      assert HasDiffed(events) <==> HasDiffed(events[..n]) || events[n].Diffing? by {
        if HasDiffed(events) {
          var i :| 0 <= i < |events| && events[i].Diffing?;
          assert i < n ==> events[..n][i].Diffing?;
        }
        if HasDiffed(events[..n]) {
          var i :| 0 <= i < n && events[..n][i].Diffing?;
          assert events[i].Diffing?;
        }
      }
    }
  }

  /**
   * In every run, a poll reports a device added exactly when an earlier poll had a baseline to compare with, that
   * baseline was complete and without the device, and this poll knew it when it landed.
   */
  lemma AddedIff(events: seq<Event>, sn: string)
    requires After(events).Some? && CanDiff(After(events).value)
    ensures sn in CurrentDiff(After(events).value).added <==>
      && HasDiffed(events) && !PartialAtLastDiff(events)
      && sn in KnownAtLanding(events) && sn !in KnownAtLastDiff(events)
  {
    BaselineSaysSo(events);
    HoldsWhatIsKnown(events);
  }

  /** Of several records of one serial in a response, the list takes the last. */
  lemma {:induction false} LastRecordCounts(response: seq<Record>, from: nat, sn: string, k: nat)
    requires k < |response| && response[k].sn == sn
    requires forall j: nat | k < j < |response| :: response[j].sn != sn
    ensures sn in Index(response, from) && Index(response, from)[sn] == from + k
  {
    var n := |response| - 1;
    if k < n { LastRecordCounts(response[..n], from, sn, k); }
  }

  /** A report stamps the record the list holds with the time it came, and no other, and moves no param of any. */
  lemma ReportStamps(s: State, sn: string, params: Params, now: int)
    requires Valid(s)
    ensures var s' := Report(s, sn, params, now);
      && |s'.records| == |s.records| && s'.devices == s.devices && s'.pollSnapshot == s.pollSnapshot
      && (forall i: nat | i < |s.records| ::
            && s'.records[i].params == s.records[i].params && s'.records[i].sn == s.records[i].sn
            && s'.records[i].lastSeenMs ==
                 if params != map[] && sn in s.devices && s.devices[sn] == i then Some(now) else s.records[i].lastSeenMs)
  {
  }

  // ---------------------------------------------------------------------------------------------
  // Report over cloud
  // ---------------------------------------------------------------------------------------------

  /** A poll has landed that moves this param, and has not been applied yet. */
  predicate MovePending(s: State, sn: string, id: int) {
    || (CanDiff(s) && ChangeAt(CurrentDiff(s), sn, id).Some?)
    || (s.poll.Diffed? && ChangeAt(s.poll.diff, sn, id).Some?)
  }

  predicate Reports(e: Event, sn: string, id: int) {
    e.Reporting? && e.sn == sn && id in e.params
  }

  /** The last report of a param, unless a poll that landed after it saw the cloud move that param. */
  function LastReport(events: seq<Event>, sn: string, id: int): Option<string>
    requires After(events).Some?
  {
    if events == [] then None
    else
      var e, before := events[|events| - 1], events[..|events| - 1];
      if Reports(e, sn, id) then Some(e.params[id])
      else if e.Polling? && MovePending(After(events).value, sn, id) then None
      else LastReport(before, sn, id)
  }

  /** The last report of a param came after a poll that moves it had landed and before it was applied. */
  function CameWhilePending(events: seq<Event>, sn: string, id: int): bool
    requires After(events).Some?
  {
    if events == [] then false
    else
      var e, before := events[|events| - 1], events[..|events| - 1];
      if Reports(e, sn, id) then MovePending(After(before).value, sn, id)
      else if e.Polling? && MovePending(After(events).value, sn, id) then false
      else CameWhilePending(before, sn, id)
  }

  /** The reported value the registry holds. */
  function HeldReport(s: State, sn: string, id: int): Option<string> {
    if sn in s.dpParams && id in s.dpParams[sn] then Some(s.dpParams[sn][id]) else None
  }

  /** What the registry holds beside what it should: the same, but for a pending move and for a report in its way. */
  predicate HeldBeside(held: Option<string>, report: Option<string>, cameWhilePending: bool, pending: bool) {
    if cameWhilePending then report.Some? && held == (if pending then report else None)
    else if pending then report == None
    else held == report
  }

  /** While a poll is on its way, the params it has landed with and those of the baseline stay what they were. */
  lemma PendingStays(s: State, e: Event, sn: string, id: int)
    requires Valid(s) && Enabled(s, e) && !e.Polling? && !e.Applying?
    ensures MovePending(Step(s, e), sn, id) == MovePending(s, sn, id)
  {
    StepKeepsValid(s, e);
    if s.poll.Landed? && !e.Diffing? {
      DiffIsExact(s, sn, id);
      DiffIsExact(Step(s, e), sn, id);
      CloudStays(s, e, sn, id);
      hide CurrentDiff, CloudAt, PollDiffs;
      assert BaselineAt(Step(s, e), sn, id) == BaselineAt(s, sn, id);
    }
  }

  lemma CloudStays(s: State, e: Event, sn: string, id: int)
    requires Valid(s) && CanDiff(s) && (e.Refreshing? || e.Reporting?)
    ensures CanDiff(Step(s, e)) && CloudAt(Step(s, e), sn, id) == CloudAt(s, sn, id)
  {
  }

  lemma NothingPendingWhenIdle(s: State, e: Event, sn: string, id: int)
    ensures s.poll.Idle? ==> !MovePending(s, sn, id)
    ensures Enabled(s, e) && e.Applying? ==> !MovePending(Step(s, e), sn, id)
  {
  }

  lemma HeldAfterStep(s: State, e: Event, sn: string, id: int)
    requires Enabled(s, e)
    ensures HeldReport(Step(s, e), sn, id) ==
      if Reports(e, sn, id) then Some(e.params[id])
      else if e.Applying? && MovePending(s, sn, id) then None
      else HeldReport(s, sn, id)
  {
  }

  lemma {:induction false} HeldBesideInEveryRun(events: seq<Event>, sn: string, id: int)
    requires After(events).Some?
    ensures var s := After(events).value;
      HeldBeside(
        HeldReport(s, sn, id), LastReport(events, sn, id), CameWhilePending(events, sn, id), MovePending(s, sn, id))
  {
    hide MovePending, HeldReport, Step, Enabled, Valid;
    if events == [] {
      NothingHeld(sn, id);
    } else {
      var n := |events| - 1;
      var s, e := After(events[..n]).value, events[n];
      HeldBesideInEveryRun(events[..n], sn, id);
      ValidInEveryRun(events[..n]);
      HeldAfterStep(s, e, sn, id);
      NothingPendingWhenIdle(s, e, sn, id);
      PollsStartIdle(s, e);
      if !e.Polling? && !e.Applying? { PendingStays(s, e, sn, id); }
    }
  }

  lemma NothingHeld(sn: string, id: int)
    ensures HeldReport(EMPTY, sn, id) == None && !MovePending(EMPTY, sn, id)
  {
  }

  lemma PollsStartIdle(s: State, e: Event)
    requires Enabled(s, e)
    ensures e.Polling? ==> s.poll.Idle?
  {
  }

  /**
   * In every run, with no poll on its way that moves the param: the report held is the last one, unless a later
   * poll saw the cloud move it, exactly when that report did not come between the landing and the application
   * of a poll that moves the param. One that did was dropped.
   */
  lemma ReportSurvivesIff(events: seq<Event>, sn: string, id: int)
    requires After(events).Some? && !MovePending(After(events).value, sn, id)
    ensures HeldReport(After(events).value, sn, id) == LastReport(events, sn, id)
      <==> !CameWhilePending(events, sn, id)
    ensures CameWhilePending(events, sn, id) ==> HeldReport(After(events).value, sn, id) == None
  {
    hide MovePending, HeldReport, LastReport, CameWhilePending;
    HeldBesideInEveryRun(events, sn, id);
  }

  /**
   * So the joined value of a param is its last report, unless a later poll saw the cloud move it, and then it
   * is the cloud's as the list now has it; reports that come while such a poll is on its way excepted.
   */
  lemma JoinedIsLastReportOrCloud(events: seq<Event>, sn: string, id: int)
    requires After(events).Some? && !MovePending(After(events).value, sn, id) && !CameWhilePending(events, sn, id)
    ensures var s, report := After(events).value, LastReport(events, sn, id);
      && (id in Joined(s, sn) <==> report.Some? || id in CloudOf(s, sn))
      && (id in Joined(s, sn) ==> Joined(s, sn)[id] == if report.Some? then report.value else CloudOf(s, sn)[id])
  {
    hide MovePending, LastReport, CameWhilePending, CloudOf;
    ReportSurvivesIff(events, sn, id);
  }

  /**
   * While a poll that moves the param is on its way, a report that came after it landed still stands, and one
   * from before is already superseded.
   */
  lemma WhileAMoveIsPending(events: seq<Event>, sn: string, id: int)
    requires After(events).Some? && MovePending(After(events).value, sn, id)
    ensures var held, report := HeldReport(After(events).value, sn, id), LastReport(events, sn, id);
      if CameWhilePending(events, sn, id) then report.Some? && held == report else report == None
  {
    hide MovePending, HeldReport, LastReport, CameWhilePending;
    HeldBesideInEveryRun(events, sn, id);
  }

  /** What the cloud says of a device with one param, in two polls. */
  function OneParam(sn: string, id: int, value: string): Record {
    Record(sn, map[id := value], None)
  }

  /** The cloud moves a param from "a" to "b", and the report comes between the diff and its application. */
  function DroppedReport(sn: string, id: int, reported: string): seq<Event> {
    [Polling([OneParam(sn, id, "a")], false)] + [Diffing] + [Applying]
    + [Polling([OneParam(sn, id, "b")], false)] + [Diffing] + [Reporting(sn, map[id := reported], 0)] + [Applying]
  }

  /** A run in which the last thing known of a param is a report, and the join answers the cloud's older value. */
  lemma AReportCanBeDropped(sn: string, id: int, reported: string)
    requires reported != "b"
    ensures var run := DroppedReport(sn, id, reported);
      && After(run).Some?
      && LastReport(run, sn, id) == Some(reported) && CameWhilePending(run, sn, id)
      && id in Joined(After(run).value, sn) && Joined(After(run).value, sn)[id] == "b"
  {
    hide After, LastReport, CameWhilePending;
    var a, b := OneParam(sn, id, "a"), OneParam(sn, id, "b");
    var e3: seq<Event> := [Polling([a], false)] + [Diffing] + [Applying];
    FirstPoll(sn, id, a);
    var s3 := After(e3).value;
    var e4, e5 := e3 + [Polling([b], false)], e3 + [Polling([b], false)] + [Diffing];
    var e6 := e5 + [Reporting(sn, map[id := reported], 0)];
    MovesOne(s3, sn, id, reported);
    AfterOneMore(e3, Polling([b], false));
    AfterOneMore(e4, Diffing);
    AfterOneMore(e5, Reporting(sn, map[id := reported], 0));
    AfterOneMore(e6, Applying);
    ReportNext(e5, Reporting(sn, map[id := reported], 0), sn, id);
    ReportNext(e6, Applying, sn, id);
  }

  lemma ReportNext(events: seq<Event>, e: Event, sn: string, id: int)
    requires After(events).Some? && After(events + [e]).Some? && !e.Polling?
    ensures LastReport(events + [e], sn, id) ==
      if Reports(e, sn, id) then Some(e.params[id]) else LastReport(events, sn, id)
    ensures CameWhilePending(events + [e], sn, id) ==
      if Reports(e, sn, id) then MovePending(After(events).value, sn, id) else CameWhilePending(events, sn, id)
  {
    assert (events + [e])[..|events|] == events;
  }

  lemma IndexOne(d: Record, from: nat)
    ensures Index([d], from) == map[d.sn := from]
  {
    assert [d][..0] == [];
  }

  lemma FirstPoll(sn: string, id: int, a: Record)
    requires a == OneParam(sn, id, "a")
    ensures var events := [Polling([a], false)] + [Diffing] + [Applying];
      && After(events).Some?
      && After(events).value.pollSnapshot == Some(Baseline(map[sn := Polled(a.params, None)], true))
      && After(events).value.poll.Idle?
  {
    hide After;
    Nothing();
    IndexOne(a, 0);
    var e0, e1: seq<Event> := [], [Polling([a], false)];
    assert e0 + [Polling([a], false)] == e1;
    AfterOneMore(e0, Polling([a], false));
    AfterOneMore(e1, Diffing);
    AfterOneMore(e1 + [Diffing], Applying);
    var landed := PollLands(EMPTY, [a], false);
    assert landed.records == [a] && landed.devices == map[sn := 0];
    assert Snapshot(landed.devices, landed.records, false).devices == map[sn := Polled(a.params, None)];
  }

  lemma MovesOne(s: State, sn: string, id: int, reported: string)
    requires s.poll.Idle?
    requires s.pollSnapshot == Some(Baseline(map[sn := Polled(map[id := "a"], None)], true))
    ensures var landed := PollLands(s, [OneParam(sn, id, "b")], false);
      && CanDiff(landed)
      && var diffed := PollDiffs(landed);
      && MovePending(diffed, sn, id)
      && var told := Report(diffed, sn, map[id := reported], 0);
      && told.poll.Diffed?
      && var applied := PollApplies(told);
      id in Joined(applied, sn) && Joined(applied, sn)[id] == "b"
  {
    IndexOne(OneParam(sn, id, "b"), |s.records|);
  }
}
