/**
 * Observed writes and the keyed transaction queue behind them (src/client/eufy-mega.ts).
 *
 * A write whose command names a param to observe is routed, acknowledged, and then waits for that param to
 * converge, all inside one transaction queued behind the others for the same device and param. A push that
 * asks for the same refresh is swallowed while such a write is outstanding. Everything between two awaits
 * is one step here, and steps of different transactions, pushes and disconnects come in any order.
 *
 * Two assumptions of the code are assumptions here: event listeners do not throw, and an operation does not
 * queue a transaction before its first await.
 */
module ObservedWrites {
  import opened Wrappers

  /** Where a transaction stands. `Operated` is its promise settled, `Finished` its queue entry given up. */
  datatype Phase =
    | Waiting
    | Routing
    | Refreshing
    | Recycling
    | Operated(ok: bool, refreshed: bool)
    | Finished

  datatype Kind = Write(owner: nat, resets: bool) | PushRefresh

  /** What a transaction has told the outside: counts, so that "exactly once" can be said. */
  datatype Told = Told(settled: nat, rejected: bool, announced: nat, unconfirmed: nat, errors: nat, released: nat)

  const NOTHING := Told(0, false, 0, 0, 0, 0)

  datatype Transaction = Transaction(
    key: string,
    epoch: nat,
    predecessor: Option<nat>,
    kind: Kind,
    phase: Phase,
    told: Told)

  /** The shared counter of one key's writes; `id` is the identity of the object that holds it. */
  datatype Owner = Owner(id: nat, epoch: nat, count: int)

  /**
   * The client's maps and epoch, with the transactions its promises stand for. `transitions` holds the tail of
   * each key's queue by its index, `owners` is `commandRefreshes`.
   */
  datatype World = World(
    epoch: nat,
    transitions: map<string, nat>,
    owners: map<string, Owner>,
    nextOwner: nat,
    queue: seq<Transaction>)

  const INITIAL := World(0, map[], map[], 0, [])

  /** How the wait for convergence can end. */
  datatype Refresh = Converged | Superseded | NotConverged | Broken

  datatype PushResult = Swallowed | Queued | Announced

  // ---------------------------------------------------------------------------------------------
  // Steps
  // ---------------------------------------------------------------------------------------------

  /** `enqueueStateTransition`: with no predecessor the operation starts at once, in phase `first`. */
  function Enqueue(w: World, key: string, kind: Kind, first: Phase): World {
    var predecessor := if key in w.transitions then Some(w.transitions[key]) else None;
    var phase := if predecessor.None? then first else Waiting;
    w.(queue := w.queue + [Transaction(key, w.epoch, predecessor, kind, phase, NOTHING)],
       transitions := w.transitions[key := |w.queue|])
  }

  function CurrentOwner(w: World, key: string): Owner {
    if key in w.owners && w.owners[key].epoch == w.epoch then w.owners[key]
    else Owner(w.nextOwner, w.epoch, 0)
  }

  /** A write with an observation is dispatched. */
  function Dispatch(w: World, key: string, resets: bool): World {
    var owner := CurrentOwner(w, key);
    var counted := w.(owners := w.owners[key := owner.(count := owner.count + 1)],
                      nextOwner := w.nextOwner + 1);
    Enqueue(counted, key, Write(owner.id, resets), Routing)
  }

  /** `release`: give the key's counter back, unless it is no longer the one this write took. */
  function Release(owners: map<string, Owner>, key: string, id: nat): map<string, Owner> {
    if key in owners && owners[key].id == id then
      if owners[key].count == 1 then owners - {key}
      else owners[key := owners[key].(count := owners[key].count - 1)]
    else owners
  }

  /** A write's operation reaches its `finally`. */
  function Conclude(w: World, id: nat, told: Told): World
    requires id < |w.queue| && w.queue[id].kind.Write?
  {
    var t := w.queue[id];
    w.(queue := w.queue[id := t.(phase := Operated(true, true), told := told.(released := told.released + 1))],
       owners := Release(w.owners, t.key, t.kind.owner))
  }

  function Move(w: World, id: nat, phase: Phase, told: Told): World
    requires id < |w.queue|
  {
    w.(queue := w.queue[id := w.queue[id].(phase := phase, told := told)])
  }

  predicate PredecessorFinished(w: World, id: nat)
    requires id < |w.queue|
  {
    match w.queue[id].predecessor
    case None => true
    case Some(p) => p < |w.queue| && w.queue[p].phase == Finished
  }

  /** A waiting transaction's predecessor has settled, well or badly, and its operation starts. */
  function Begin(w: World, id: nat): World
    requires id < |w.queue| && w.queue[id].phase == Waiting
  {
    var t := w.queue[id];
    if t.kind.PushRefresh? then Move(w, id, Refreshing, t.told)
    else if t.epoch != w.epoch then Conclude(w, id, t.told.(settled := t.told.settled + 1, rejected := true))
    else Move(w, id, Routing, t.told)
  }

  /** The transport answered a routed command. */
  function Routed(w: World, id: nat, ok: bool): World
    requires id < |w.queue| && w.queue[id].kind.Write?
  {
    var told := w.queue[id].told;
    if ok then Move(w, id, Refreshing, told.(settled := told.settled + 1))
    else Conclude(w, id, told.(settled := told.settled + 1, rejected := true))
  }

  /** The wait for convergence ended. A failure after the acknowledgement is reported, not rejected. */
  function Refreshed(w: World, id: nat, outcome: Refresh): World
    requires id < |w.queue|
  {
    var t := w.queue[id];
    if t.kind.PushRefresh? then
      Move(w, id, Operated(outcome == Converged || outcome == Superseded, outcome == Converged), t.told)
    else
      match outcome
      case Converged =>
        if t.epoch != w.epoch then Conclude(w, id, t.told)
        else
          var told := t.told.(announced := t.told.announced + 1);
          if t.kind.resets then Move(w, id, Recycling, told) else Conclude(w, id, told)
      case Superseded => Conclude(w, id, t.told)
      case NotConverged => Conclude(w, id, t.told.(unconfirmed := t.told.unconfirmed + 1))
      case Broken => Conclude(w, id, t.told.(errors := t.told.errors + 1))
  }

  /** The session recycle ended; its failure is never the convergence error, which only the wait raises. */
  function Recycled(w: World, id: nat, ok: bool): World
    requires id < |w.queue| && w.queue[id].kind.Write?
  {
    var told := w.queue[id].told;
    Conclude(w, id, if ok then told else told.(errors := told.errors + 1))
  }

  /**
   * A settled transaction gives up its place: the map entry goes if it is still this one. A push that
   * refreshed is announced then, and a write whose operation had failed would be reported and released once
   * more, which `EachWriteSettlesOnce` shows never happens.
   */
  function Finish(w: World, id: nat): World
    requires id < |w.queue| && w.queue[id].phase.Operated?
  {
    var t := w.queue[id];
    var told :=
      if t.kind.PushRefresh? then
        if !t.phase.ok then t.told.(errors := t.told.errors + 1)
        else if t.phase.refreshed then t.told.(announced := t.told.announced + 1)
        else t.told
      else if t.phase.ok then t.told
      else t.told.(settled := t.told.settled + 1, released := t.told.released + 1);
    var owners :=
      if t.kind.Write? && !t.phase.ok then Release(w.owners, t.key, t.kind.owner) else w.owners;
    var transitions :=
      if t.key in w.transitions && w.transitions[t.key] == id then w.transitions - {t.key} else w.transitions;
    Move(w, id, Finished, told).(transitions := transitions, owners := owners)
  }

  /** A push asks for a refresh of `key` before it is announced; `live` is whether the device is held. */
  function PushArrives(w: World, key: string, live: bool): (World, PushResult) {
    if key in w.owners && w.owners[key].epoch == w.epoch && w.owners[key].count > 0 then (w, Swallowed)
    else if live then (Enqueue(w, key, PushRefresh, Refreshing), Queued)
    else (w, Announced)
  }

  function Disconnect(w: World): World {
    w.(epoch := w.epoch + 1, transitions := map[], owners := map[])
  }

  datatype Event =
    | Dispatching(key: string, resets: bool)
    | Pushing(key: string, live: bool)
    | Beginning(id: nat)
    | RouteEnding(id: nat, ok: bool)
    | RefreshEnding(id: nat, outcome: Refresh)
    | RecycleEnding(id: nat, ok: bool)
    | Finishing(id: nat)
    | Disconnecting

  predicate Enabled(w: World, e: Event) {
    match e
    case Dispatching(_, _) => true
    case Pushing(_, _) => true
    case Beginning(id) => id < |w.queue| && w.queue[id].phase == Waiting && PredecessorFinished(w, id)
    case RouteEnding(id, _) => id < |w.queue| && w.queue[id].phase == Routing && w.queue[id].kind.Write?
    case RefreshEnding(id, _) => id < |w.queue| && w.queue[id].phase == Refreshing
    case RecycleEnding(id, _) => id < |w.queue| && w.queue[id].phase == Recycling && w.queue[id].kind.Write?
    case Finishing(id) => id < |w.queue| && w.queue[id].phase.Operated?
    case Disconnecting => true
  }

  function Step(w: World, e: Event): World
    requires Enabled(w, e)
  {
    match e
    case Dispatching(key, resets) => Dispatch(w, key, resets)
    case Pushing(key, live) => PushArrives(w, key, live).0
    case Beginning(id) => Begin(w, id)
    case RouteEnding(id, ok) => Routed(w, id, ok)
    case RefreshEnding(id, outcome) => Refreshed(w, id, outcome)
    case RecycleEnding(id, ok) => Recycled(w, id, ok)
    case Finishing(id) => Finish(w, id)
    case Disconnecting => Disconnect(w)
  }

  function After(events: seq<Event>): Option<World> {
    if events == [] then Some(INITIAL)
    else
      match After(events[..|events| - 1])
      case None => None
      case Some(w) =>
        var e := events[|events| - 1];
        if Enabled(w, e) then Some(Step(w, e)) else None
  }

  // ---------------------------------------------------------------------------------------------
  // The client
  // ---------------------------------------------------------------------------------------------

  /** The part of the client that queues transactions and counts the writes it is waiting on. */
  class EufyMega {
    var realtimeEpoch: nat
    var stateTransitions: map<string, nat>
    var commandRefreshes: map<string, Owner>
    var nextOwner: nat
    var promises: seq<Transaction>

    function State(): World
      reads this
    {
      World(realtimeEpoch, stateTransitions, commandRefreshes, nextOwner, promises)
    }

    constructor ()
      ensures State() == INITIAL
    {
      realtimeEpoch, stateTransitions, commandRefreshes, nextOwner, promises := 0, map[], map[], 0, [];
    }

    method EnqueueStateTransition(key: string, kind: Kind, first: Phase)
      modifies this
      ensures State() == Enqueue(old(State()), key, kind, first)
    {
      var predecessor: Option<nat> := None;
      var phase := first;
      if key in stateTransitions {
        predecessor := Some(stateTransitions[key]);
        phase := Waiting;
      }
      var current := |promises|;
      promises := promises + [Transaction(key, realtimeEpoch, predecessor, kind, phase, NOTHING)];
      stateTransitions := stateTransitions[key := current];
    }

    method DispatchObserved(key: string, resets: bool)
      modifies this
      ensures State() == Dispatch(old(State()), key, resets)
    {
      var owner := Owner(nextOwner, realtimeEpoch, 0);
      if key in commandRefreshes && commandRefreshes[key].epoch == realtimeEpoch {
        owner := commandRefreshes[key];
      }
      nextOwner := nextOwner + 1;
      commandRefreshes := commandRefreshes[key := owner.(count := owner.count + 1)];
      EnqueueStateTransition(key, Write(owner.id, resets), Routing);
    }

    method EmitSemantic(key: string, live: bool) returns (result: PushResult)
      modifies this
      ensures (State(), result) == PushArrives(old(State()), key, live)
    {
      if key in commandRefreshes {
        var owner := commandRefreshes[key];
        if owner.epoch == realtimeEpoch && owner.count > 0 { return Swallowed; }
      }
      if !live { return Announced; }
      EnqueueStateTransition(key, PushRefresh, Refreshing);
      return Queued;
    }

    method ReleaseOwner(key: string, id: nat)
      modifies this`commandRefreshes
      ensures commandRefreshes == Release(old(commandRefreshes), key, id)
    {
      if key in commandRefreshes && commandRefreshes[key].id == id {
        var left := commandRefreshes[key].count - 1;
        if left == 0 {
          commandRefreshes := commandRefreshes - {key};
        } else {
          commandRefreshes := commandRefreshes[key := commandRefreshes[key].(count := left)];
        }
      }
    }

    /** Run one enabled step of one transaction. */
    method Resume(e: Event)
      requires e.Beginning? || e.RouteEnding? || e.RefreshEnding? || e.RecycleEnding? || e.Finishing?
      requires Enabled(State(), e)
      modifies this
      ensures State() == Step(old(State()), e)
    {
      var t := promises[e.id];
      var told, phase, over := t.told, t.phase, false;
      match e {
        case Beginning(_) =>
          if t.kind.PushRefresh? {
            phase := Refreshing;
          } else if t.epoch != realtimeEpoch {
            told, over := told.(settled := told.settled + 1, rejected := true), true;
          } else {
            phase := Routing;
          }
        case RouteEnding(_, ok) =>
          told := told.(settled := told.settled + 1);
          if ok { phase := Refreshing; } else { told, over := told.(rejected := true), true; }
        case RefreshEnding(_, outcome) =>
          if t.kind.PushRefresh? {
            phase := Operated(outcome == Converged || outcome == Superseded, outcome == Converged);
          } else {
            over := true;
            match outcome {
              case Converged =>
                if t.epoch == realtimeEpoch {
                  told := told.(announced := told.announced + 1);
                  if t.kind.resets { phase, over := Recycling, false; }
                }
              case Superseded =>
              case NotConverged => told := told.(unconfirmed := told.unconfirmed + 1);
              case Broken => told := told.(errors := told.errors + 1);
            }
          }
        case RecycleEnding(_, ok) =>
          over := true;
          if !ok { told := told.(errors := told.errors + 1); }
        case Finishing(_) =>
          phase := Finished;
          if t.kind.PushRefresh? {
            if !t.phase.ok {
              told := told.(errors := told.errors + 1);
            } else if t.phase.refreshed {
              told := told.(announced := told.announced + 1);
            }
          } else if !t.phase.ok {
            told := told.(settled := told.settled + 1, released := told.released + 1);
            ReleaseOwner(t.key, t.kind.owner);
          }
          if t.key in stateTransitions && stateTransitions[t.key] == e.id {
            stateTransitions := stateTransitions - {t.key};
          }
      }
      if over {
        told, phase := told.(released := told.released + 1), Operated(true, true);
        ReleaseOwner(t.key, t.kind.owner);
      }
      promises := promises[e.id := t.(phase := phase, told := told)];
    }

    /** The synchronous part of `disconnect`. */
    method BeginDisconnect()
      modifies this
      ensures State() == Disconnect(old(State()))
    {
      realtimeEpoch := realtimeEpoch + 1;
      stateTransitions := map[];
      commandRefreshes := map[];
    }
  }
}
