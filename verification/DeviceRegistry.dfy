/**
 * The device registry (src/client/device-registry.ts): the device list and its refreshes, the poll that diffs it
 * against a copied baseline, and what devices report over their realtime wire.
 *
 * Device records are shared: the list, a poll in progress and the realtime path all hold the same ones, and a
 * report stamps a record in place. So records live in an arena, `records`, and everything else holds their
 * indices; the baseline holds copies. A refresh lands in one step, a poll diffs in a later one, and retires
 * reported values in a third; reports and other callers' refreshes come in between. Polls do not overlap.
 */
module DeviceRegistry {
  import opened Wrappers
  import opened Sets

  type Params = map<int, string>

  datatype Record = Record(sn: string, params: Params, lastSeenMs: Option<int>)

  /** The copied values a poll diffs against. */
  datatype Polled = Polled(params: Params, lastSeenMs: Option<int>)

  datatype Baseline = Baseline(devices: map<string, Polled>, complete: bool)

  datatype Move = Move(from: string, to: string)

  datatype PollDiff = PollDiff(
    params: map<string, map<int, Move>>,
    added: set<string>,
    removed: set<string>,
    reported: set<string>)

  datatype Poll = Idle | Landed(list: map<string, nat>) | Diffed(diff: PollDiff)

  datatype State = State(
    records: seq<Record>,
    devices: map<string, nat>,
    lastRefreshPartial: bool,
    pollSnapshot: Option<Baseline>,
    dpParams: map<string, Params>,
    poll: Poll)

  const EMPTY := State([], map[], false, None, map[], Idle)

  // ---------------------------------------------------------------------------------------------
  // Steps
  // ---------------------------------------------------------------------------------------------

  /** The response by serial; a later record of a serial replaces an earlier one. */
  function Index(response: seq<Record>, from: nat): map<string, nat> {
    if response == [] then map[]
    else
      var n := |response| - 1;
      Index(response[..n], from)[response[n].sn := from + n]
  }

  /** `getDevices`: a partial answer keeps the devices it did not return. */
  function Refresh(s: State, response: seq<Record>, partial: bool): State {
    var seen := Index(response, |s.records|);
    s.(records := s.records + response,
       lastRefreshPartial := partial,
       devices := if partial then s.devices + seen else seen)
  }

  function PollLands(s: State, response: seq<Record>, partial: bool): State {
    var s := Refresh(s, response, partial);
    s.(poll := Landed(s.devices))
  }

  /** Parameters that were there before with another value. */
  function Moved(was: Params, now: Params): map<int, Move> {
    map id | id in now && id in was && was[id] != now[id] :: Move(was[id], now[id])
  }

  predicate Advanced(before: Option<int>, now: Option<int>) {
    now.Some? && (before.None? || now.value > before.value)
  }

  predicate Held(list: map<string, nat>, records: seq<Record>) {
    forall sn | sn in list :: list[sn] < |records|
  }

  function Moves(base: Baseline, list: map<string, nat>, records: seq<Record>, sn: string): map<int, Move>
    requires Held(list, records) && sn in list && sn in base.devices
  {
    Moved(base.devices[sn].params, records[list[sn]].params)
  }

  /** The device has been seen since the baseline was taken. */
  predicate Seen(base: Baseline, list: map<string, nat>, records: seq<Record>, sn: string)
    requires Held(list, records) && sn in list && sn in base.devices
  {
    Advanced(base.devices[sn].lastSeenMs, records[list[sn]].lastSeenMs)
  }

  function DiffOf(base: Option<Baseline>, list: map<string, nat>, records: seq<Record>, partial: bool): PollDiff
    requires Held(list, records)
  {
    if base.None? then PollDiff(map[], {}, {}, {})
    else
      var was := base.value.devices;
      PollDiff(
        map sn | sn in list && sn in was :: Moves(base.value, list, records, sn),
        if base.value.complete then list.Keys - was.Keys else {},
        if partial then {} else was.Keys - list.Keys,
        set sn | sn in list && sn in was && Seen(base.value, list, records, sn))
  }

  function Snapshot(list: map<string, nat>, records: seq<Record>, partial: bool): Baseline
    requires Held(list, records)
  {
    Baseline(map sn | sn in list :: Polled(records[list[sn]].params, records[list[sn]].lastSeenMs), !partial)
  }

  predicate CanDiff(s: State) {
    s.poll.Landed? && Held(s.poll.list, s.records)
  }

  function CurrentDiff(s: State): PollDiff
    requires CanDiff(s)
  {
    DiffOf(s.pollSnapshot, s.poll.list, s.records, s.lastRefreshPartial)
  }

  function PollDiffs(s: State): State
    requires CanDiff(s)
  {
    s.(pollSnapshot := Some(Snapshot(s.poll.list, s.records, s.lastRefreshPartial)), poll := Diffed(CurrentDiff(s)))
  }

  function Retire(dp: map<string, Params>, moved: map<string, map<int, Move>>): map<string, Params> {
    map sn | sn in dp :: if sn in moved then dp[sn] - moved[sn].Keys else dp[sn]
  }

  /** `applyPolledParams`: what the cloud was seen to move, the report no longer outranks. */
  function PollApplies(s: State): State
    requires s.poll.Diffed?
  {
    s.(dpParams := Retire(s.dpParams, s.poll.diff.params), poll := Idle)
  }

  /** `applyRealtimeParams`: merge the report and stamp the live record. */
  function Report(s: State, sn: string, params: Params, now: int): State {
    if params == map[] then s
    else
      var known := if sn in s.dpParams then s.dpParams[sn] else map[];
      var stamped :=
        if sn in s.devices && s.devices[sn] < |s.records| then
          var i := s.devices[sn];
          s.records[i := s.records[i].(lastSeenMs := Some(now))]
        else s.records;
      s.(dpParams := s.dpParams[sn := known + params], records := stamped)
  }

  /** The cloud half of a device: the params of its record in the list. */
  function CloudOf(s: State, sn: string): Params {
    if sn in s.devices && s.devices[sn] < |s.records| then s.records[s.devices[sn]].params else map[]
  }

  /** The join of the two halves: a reported value over the cloud's. */
  function Joined(s: State, sn: string): Params {
    CloudOf(s, sn) + if sn in s.dpParams then s.dpParams[sn] else map[]
  }

  // ---------------------------------------------------------------------------------------------
  // Runs
  // ---------------------------------------------------------------------------------------------

  datatype Event =
    | Refreshing(response: seq<Record>, partial: bool)
    | Polling(response: seq<Record>, partial: bool)
    | Diffing
    | Applying
    | Reporting(sn: string, params: Params, now: int)

  predicate Enabled(s: State, e: Event) {
    match e
    case Refreshing(_, _) => true
    case Polling(_, _) => s.poll.Idle?
    case Diffing => CanDiff(s)
    case Applying => s.poll.Diffed?
    case Reporting(_, _, _) => true
  }

  function Step(s: State, e: Event): State
    requires Enabled(s, e)
  {
    match e
    case Refreshing(response, partial) => Refresh(s, response, partial)
    case Polling(response, partial) => PollLands(s, response, partial)
    case Diffing => PollDiffs(s)
    case Applying => PollApplies(s)
    case Reporting(sn, params, now) => Report(s, sn, params, now)
  }

  function After(events: seq<Event>): Option<State> {
    if events == [] then Some(EMPTY)
    else
      match After(events[..|events| - 1])
      case None => None
      case Some(s) =>
        var e := events[|events| - 1];
        if Enabled(s, e) then Some(Step(s, e)) else None
  }

  // ---------------------------------------------------------------------------------------------
  // The class
  // ---------------------------------------------------------------------------------------------

  class DeviceRegistry {
    var records: seq<Record>
    var devices: map<string, nat>
    var lastRefreshPartial: bool
    var pollSnapshot: Option<Baseline>
    var dpParams: map<string, Params>
    var poll: Poll

    function Contents(): State
      reads this
    {
      State(records, devices, lastRefreshPartial, pollSnapshot, dpParams, poll)
    }

    constructor ()
      ensures Contents() == EMPTY
    {
      records, devices, lastRefreshPartial, pollSnapshot, dpParams, poll := [], map[], false, None, map[], Idle;
    }

    /** Devices a partial answer did not return stay as they were. */
    static method KeepPrevious(seen: map<string, nat>, devices: map<string, nat>) returns (merged: map<string, nat>)
      ensures merged == devices + seen
    {
      merged := seen;
      var left := devices.Keys;
      while left != {}
        invariant left <= devices.Keys
        invariant forall sn :: sn in merged <==> sn in seen || (sn in devices && sn !in left)
        invariant forall sn | sn in merged :: merged[sn] == if sn in seen then seen[sn] else devices[sn]
        decreases |left|
      {
        var sn := Pick(left);
        if sn !in merged { merged := merged[sn := devices[sn]]; }
        left := left - {sn};
      }
    }

    method GetDevices(response: seq<Record>, partial: bool)
      modifies this
      ensures Contents() == Refresh(old(Contents()), response, partial)
    {
      var seen: map<string, nat> := map[];
      for i := 0 to |response|
        invariant seen == Index(response[..i], |records|)
      {
        assert response[..i + 1][..i] == response[..i];
        seen := seen[response[i].sn := |records| + i];
      }
      assert response[..|response|] == response;
      records := records + response;
      lastRefreshPartial := partial;
      if partial { seen := KeepPrevious(seen, devices); }
      devices := seen;
    }

    method PollChangesLands(response: seq<Record>, partial: bool)
      modifies this
      ensures Contents() == PollLands(old(Contents()), response, partial)
    {
      GetDevices(response, partial);
      poll := Landed(devices);
    }

    static method MovedParams(was: Params, now: Params) returns (moves: map<int, Move>)
      ensures moves == Moved(was, now)
    {
      moves := map[];
      var left := now.Keys;
      while left != {}
        invariant left <= now.Keys
        invariant moves == map id | id in now.Keys - left && id in was && was[id] != now[id] :: Move(was[id], now[id])
        decreases |left|
      {
        var id := Pick(left);
        if id in was && was[id] != now[id] { moves := moves[id := Move(was[id], now[id])]; }
        left := left - {id};
      }
    }

    /** The loop of `pollChanges` over the devices of the list. */
    static method DiffDevices(base: Baseline, list: map<string, nat>, records: seq<Record>)
      returns (params: map<string, map<int, Move>>, added: set<string>, reported: set<string>)
      requires Held(list, records)
      ensures params == map sn | sn in list && sn in base.devices :: Moves(base, list, records, sn)
      ensures added == if base.complete then list.Keys - base.devices.Keys else {}
      ensures reported == set sn | sn in list && sn in base.devices && Seen(base, list, records, sn)
    {
      hide Moved, Advanced;
      params, added, reported := map[], {}, {};
      var left := list.Keys;
      while left != {}
        invariant left <= list.Keys
        invariant forall sn :: sn in params <==> sn in list && sn !in left && sn in base.devices
        invariant forall sn | sn in params :: params[sn] == Moves(base, list, records, sn)
        invariant forall sn :: sn in added <==> base.complete && sn in list && sn !in left && sn !in base.devices
        invariant forall sn | sn in reported :: sn in params
        invariant forall sn | sn in params :: sn in reported <==> Seen(base, list, records, sn)
        decreases |left|
      {
        var sn := Pick(left);
        var dev := records[list[sn]];
        if sn !in base.devices {
          if base.complete { added := added + {sn}; }
        } else {
          var prev := base.devices[sn];
          if Advanced(prev.lastSeenMs, dev.lastSeenMs) { reported := reported + {sn}; }
          var moves := MovedParams(prev.params, dev.params);
          params := params[sn := moves];
        }
        left := left - {sn};
      }
    }

    /** The diff half of `pollChanges`. */
    method PollChangesDiffs() returns (diff: PollDiff)
      requires CanDiff(Contents())
      modifies this
      ensures Contents() == PollDiffs(old(Contents())) && diff == CurrentDiff(old(Contents()))
    {
      diff := PollDiff(map[], {}, {}, {});
      if pollSnapshot.Some? {
        var base := pollSnapshot.value;
        var params, added, reported := DiffDevices(base, poll.list, records);
        var removed := if lastRefreshPartial then {} else base.devices.Keys - poll.list.Keys;
        diff := PollDiff(params, added, removed, reported);
      }
      pollSnapshot := Some(Snapshot(poll.list, records, lastRefreshPartial));
      poll := Diffed(diff);
    }

    method ApplyPolledParams()
      requires poll.Diffed?
      modifies this
      ensures Contents() == PollApplies(old(Contents()))
    {
      RetireAll(poll.diff.params);
      poll := Idle;
    }

    method RetireAll(moved: map<string, map<int, Move>>)
      modifies this`dpParams
      ensures dpParams == Retire(old(dpParams), moved)
    {
      ghost var before := dpParams;
      var left := moved.Keys;
      while left != {}
        invariant left <= moved.Keys
        invariant dpParams.Keys == before.Keys
        invariant forall sn | sn in before ::
          dpParams[sn] == if sn in moved && sn !in left then before[sn] - moved[sn].Keys else before[sn]
        decreases |left|
      {
        var sn := Pick(left);
        RetireRealtimeParams(sn, moved[sn].Keys);
        left := left - {sn};
      }
    }

    method RetireRealtimeParams(sn: string, ids: set<int>)
      modifies this`dpParams
      ensures dpParams == old(if sn in dpParams then dpParams[sn := dpParams[sn] - ids] else dpParams)
    {
      if sn in dpParams { dpParams := dpParams[sn := dpParams[sn] - ids]; }
    }

    method ApplyRealtimeParams(sn: string, params: Params, now: int)
      modifies this
      ensures Contents() == Report(old(Contents()), sn, params, now)
    {
      if params == map[] { return; }
      var known := if sn in dpParams then dpParams[sn] else map[];
      dpParams := dpParams[sn := known + params];
      if sn in devices && devices[sn] < |records| {
        var i := devices[sn];
        records := records[i := records[i].(lastSeenMs := Some(now))];
      }
    }
  }
}
