/** The counts of a generation, told by the events alone. */
module RealtimeTally {
  import opened Wrappers
  import opened Realtime
  import opened RealtimeRuns
  import opened RealtimeReady

  /** How many disconnects have begun. */
  function Epoch(events: seq<Event>): nat {
    if events == [] then 0
    else Epoch(events[..|events| - 1]) + if events[|events| - 1].Disconnecting? then 1 else 0
  }

  /**
   * What the outside has told one generation: the scopes and wired stations the list brought, or that it could
   * not say which stations are wired, and how its push start and its stations ended.
   */
  datatype Tally = Tally(
    scopes: set<string>,
    stations: int,
    stationsUnknown: bool,
    pushUp: int,
    pushDown: int,
    stationsUp: int,
    stationsDown: int)

  const UNTOLD := Tally({}, 0, false, 0, 0, 0, 0)

  /** One event more, for generation `g`; `current` is whether its epoch still lasts. */
  function Hear(t: Tally, e: Event, g: nat, current: bool): Tally {
    match e
    case ListArriving(k, scopes, wired) =>
      if k == g && current then
        t.(scopes := (set s | s in scopes), stations := if wired.Some? then wired.value else 0,
           stationsUnknown := wired.None?)
      else t
    case LoadFailing(k) => if k == g then t.(pushDown := t.pushDown + 1) else t
    case PushFailing(k, superseded) => if k == g && !superseded then t.(pushDown := t.pushDown + 1) else t
    case PushDelivering(k) => if k == g then t.(pushUp := t.pushUp + 1) else t
    case WiredDelivering(k, ok) =>
      if k != g then t
      else if ok then t.(stationsUp := t.stationsUp + 1)
      else if current then t.(stationsDown := t.stationsDown + 1)
      else t
    case _ => t
  }

  /** All that generation `g`, created in `epoch`, has been told. */
  function Told(events: seq<Event>, g: nat, epoch: nat): Tally {
    if events == [] then UNTOLD
    else
      var before := events[..|events| - 1];
      Hear(Told(before, g, epoch), events[|events| - 1], g, Epoch(before) == epoch)
  }

  /** The same, as the generation has counted it. */
  function CountedBy(gen: Generation): Tally {
    var r := gen.readiness;
    Tally(gen.mqttStarts.Keys, r.wired.required, gen.startupFailed, r.push.ready, r.push.failed, r.wired.ready,
          r.wired.failed)
  }

  // ---------------------------------------------------------------------------------------------
  // One step
  // ---------------------------------------------------------------------------------------------

  lemma LoadingCounts(gen: Generation)
    requires GenOk(gen) && gen.stage == Loading
    ensures gen.readiness.wired.ready == 0 && gen.readiness.wired.failed == 0 && gen.readiness.push.pending == 1
  {
    hide Balanced, VerdictOk;
  }

  /** Whatever settles a generation leaves its counts. */
  lemma SettledCounts(gen: Generation, state: Verdict)
    ensures CountedBy(Settle(gen, state).(stage := Over)) == CountedBy(gen)
    ensures CountedBy(Supersede(gen)) == CountedBy(gen)
  {
  }

  lemma ListedCounts(w: World, g: nat, scopes: seq<string>, wired: Option<nat>)
    requires GensOk(w) && GenerationIn(w, g, Loading)
    ensures CountedBy(Loaded(w, g, scopes, wired).generations[g]) ==
      Hear(CountedBy(w.generations[g]), ListArriving(g, scopes, wired), g, w.generations[g].epoch == w.epoch)
  {
    hide GensOk, GenOk, Settle, Quiet;
    CurrentGen(w, g);
    LoadingCounts(w.generations[g]);
    SettledCounts(w.generations[g], SupersededState);
    if w.generations[g].epoch == w.epoch {
      var w' := EnsureAll(w, scopes);
      assert Waits(scopes, w'.mqttReady).Keys == set s | s in scopes;
    }
  }

  lemma LoadFailedCounts(w: World, g: nat)
    requires GensOk(w) && GenerationIn(w, g, Loading)
    ensures CountedBy(LoadFailed(w, g).generations[g]) == Hear(CountedBy(w.generations[g]), LoadFailing(g), g, true)
  {
    hide GensOk, GenOk, Settle, Quiet;
    CurrentGen(w, g);
    var gen := w.generations[g];
    LoadingCounts(gen);
    var p := gen.readiness.push;
    var failed := gen.(readiness := gen.readiness.(push := p.(failed := p.failed + p.pending, pending := 0)));
    SettledCounts(failed, if gen.epoch == w.epoch then Partial else SupersededState);
  }

  lemma ReturnCounts(w: World, g: nat)
    requires GenerationIn(w, g, Starting)
    ensures CountedBy(Return(w, g).generations[g]) == CountedBy(w.generations[g])
  {
    hide Settle, VerdictAtReturn;
    SettledCounts(w.generations[g], VerdictAtReturn(w.generations[g], w.epoch));
  }

  lemma DeliveriesCount(w: World, e: Event)
    requires GensOk(w) && Enabled(w, e)
    requires e.PushConnecting? || e.PushFailing? || e.PushDelivering? || e.MqttDelivering? || e.WiredDelivering?
    ensures CountedBy(Step(w, e).generations[e.g]) ==
      Hear(CountedBy(w.generations[e.g]), e, e.g, w.generations[e.g].epoch == w.epoch)
  {
    hide GensOk, GenOk, Quiet;
    CurrentGen(w, e.g);
  }

  lemma OthersUntouched(w: World, e: Event, g: nat)
    requires Enabled(w, e) && g < |w.generations|
    requires e.ListArriving? || e.LoadFailing? || e.PushConnecting? || e.PushFailing? || e.PushDelivering?
      || e.MqttDelivering? || e.WiredDelivering? || e.Returning?
    requires e.g != g
    ensures Step(w, e).generations[g] == w.generations[g]
  {
    hide Settle, StartChannels, PushLost, PushWon, ScopeSettled, StationSettled, Returned;
  }

  lemma DisconnectCounts(w: World, g: nat)
    requires g < |w.generations|
    ensures CountedBy(Disconnect(w).generations[g]) == CountedBy(w.generations[g])
  {
    hide Supersede;
    SettledCounts(w.generations[g], SupersededState);
  }

  lemma OneGenerationCounts(w: World, e: Event, g: nat)
    requires GensOk(w) && Enabled(w, e) && g < |w.generations|
    requires e.ListArriving? || e.LoadFailing? || e.PushConnecting? || e.PushFailing? || e.PushDelivering?
      || e.MqttDelivering? || e.WiredDelivering? || e.Returning?
    ensures g < |Step(w, e).generations|
    ensures CountedBy(Step(w, e).generations[g]) ==
      Hear(CountedBy(w.generations[g]), e, g, w.generations[g].epoch == w.epoch)
  {
    hide GensOk, Quiet, CountedBy, Settle, StartChannels, PushLost, PushWon, ScopeSettled, StationSettled, Returned;
    if e.g != g {
      OthersUntouched(w, e, g);
    } else {
      match e {
        case ListArriving(_, scopes, wired) => ListedCounts(w, g, scopes, wired);
        case LoadFailing(_) => LoadFailedCounts(w, g);
        case Returning(_) => ReturnCounts(w, g);
        case _ => DeliveriesCount(w, e);
      }
    }
  }

  /** Each step counts exactly what it tells. */
  lemma StepCounts(w: World, e: Event, g: nat)
    requires GensOk(w) && Enabled(w, e) && g < |w.generations|
    ensures g < |Step(w, e).generations|
    ensures CountedBy(Step(w, e).generations[g]) ==
      Hear(CountedBy(w.generations[g]), e, g, w.generations[g].epoch == w.epoch)
  {
    hide GensOk, Quiet, CountedBy, Settle, StartChannels, PushLost, PushWon, ScopeSettled, StationSettled, Returned;
    hide Supersede, NewGeneration;
    match e {
      case Disconnecting => DisconnectCounts(w, g);
      case ListArriving(k, scopes, wired) => OneGenerationCounts(w, e, g);
      case LoadFailing(k) => OneGenerationCounts(w, e, g);
      case Returning(k) => OneGenerationCounts(w, e, g);
      case PushConnecting(k) => OneGenerationCounts(w, e, g);
      case PushFailing(k, _) => OneGenerationCounts(w, e, g);
      case PushDelivering(k) => OneGenerationCounts(w, e, g);
      case MqttDelivering(k, _) => OneGenerationCounts(w, e, g);
      case WiredDelivering(k, _) => OneGenerationCounts(w, e, g);
      case _ =>
    }
  }

  // ---------------------------------------------------------------------------------------------
  // Every run
  // ---------------------------------------------------------------------------------------------

  lemma {:induction false} EpochIsCounted(events: seq<Event>)
    requires After(events).Some?
    ensures After(events).value.epoch == Epoch(events)
  {
    if events != [] {
      var n := |events| - 1;
      EpochIsCounted(events[..n]);
      EpochStep(After(events[..n]).value, events[n]);
      hide Step, Enabled;
    }
  }

  lemma EpochStep(w: World, e: Event)
    requires Enabled(w, e)
    ensures Step(w, e).epoch == w.epoch + if e.Disconnecting? then 1 else 0
  {
    hide Settle, StartChannels, PushLost, PushWon, ScopeSettled, StationSettled, Returned, Supersede, NewGeneration;
  }

  lemma GenerationsStep(w: World, e: Event)
    requires Enabled(w, e)
    ensures |w.generations| <= |Step(w, e).generations|
    ensures |Step(w, e).generations| > |w.generations| ==>
      && e.LoggingIn? && |Step(w, e).generations| == |w.generations| + 1
      && Step(w, e).generations[|w.generations|] == NewGeneration(w.epoch)
  {
    hide Settle, StartChannels, PushLost, PushWon, ScopeSettled, StationSettled, Returned, Supersede, NewGeneration;
  }

  lemma HearsOnlyKnown(w: World, e: Event, g: nat, current: bool, t: Tally)
    requires Enabled(w, e) && g >= |w.generations|
    ensures Hear(t, e, g, current) == t
  {
  }

  lemma {:induction false} NothingToldBeforehand(events: seq<Event>, g: nat, epoch: nat)
    requires After(events).Some? && g >= |After(events).value.generations|
    ensures Told(events, g, epoch) == UNTOLD
  {
    hide Step, Enabled, Hear;
    if events != [] {
      var n := |events| - 1;
      var w := After(events[..n]).value;
      GenerationsStep(w, events[n]);
      NothingToldBeforehand(events[..n], g, epoch);
      HearsOnlyKnown(w, events[n], g, Epoch(events[..n]) == epoch, UNTOLD);
    }
  }

  lemma NewGenerationUntold(epoch: nat)
    ensures CountedBy(NewGeneration(epoch)) == UNTOLD && NewGeneration(epoch).epoch == epoch
  {
  }

  /**
   * In every run a generation's counts are exactly what it was told: the scopes and stations of its list, the end
   * of its push start, the stations that came up, and the stations that failed before a disconnect.
   */
  lemma {:induction false} CountsAreWhatWasTold(events: seq<Event>, g: nat)
    requires After(events).Some? && g < |After(events).value.generations|
    ensures var gen := After(events).value.generations[g];
      CountedBy(gen) == Told(events, g, gen.epoch)
  {
    hide Step, Enabled, Hear, CountedBy, NewGeneration, MqttOk, PushOk, GensOk, Stands, Quiet;
    if events != [] {
      var n := |events| - 1;
      var before := events[..n];
      var w := After(before).value;
      InvInEveryRun(before);
      HasGens(w);
      EpochIsCounted(before);
      GenerationsStep(w, events[n]);
      if g < |w.generations| {
        CountsAreWhatWasTold(before, g);
        StepCounts(w, events[n], g);
        SettledAnswerStands(w, events[n]);
        SameEpoch(w.generations[g], Step(w, events[n]).generations[g]);
      } else {
        NewGenerationUntold(w.epoch);
        NothingToldBeforehand(before, g, w.epoch);
        HearsOnlyKnown(w, events[n], g, true, UNTOLD);
      }
    }
  }

  lemma SameEpoch(gen: Generation, after: Generation)
    requires Stands(gen, after)
    ensures after.epoch == gen.epoch
  {
  }

  /** How many stations of a generation failed, before a disconnect or after. */
  function StationsLost(events: seq<Event>, g: nat): nat {
    if events == [] then 0
    else StationsLost(events[..|events| - 1], g) + if events[|events| - 1] == WiredDelivering(g, false) then 1 else 0
  }

  /** Until a disconnect, and for a generation that answered ready for good, every failed station is counted. */
  predicate AllLossesCounted(gen: Generation, lost: int) {
    !gen.aborted || IsReady(gen) ==> gen.readiness.wired.failed == lost
  }

  lemma StepCountsLosses(w: World, e: Event, g: nat, lost: int)
    requires GensOk(w) && Counted(w) && Enabled(w, e) && g < |w.generations|
    requires AllLossesCounted(w.generations[g], lost) && GensOk(Step(w, e)) && Counted(Step(w, e))
    ensures g < |Step(w, e).generations|
    ensures AllLossesCounted(Step(w, e).generations[g], lost + if e == WiredDelivering(g, false) then 1 else 0)
  {
    hide GensOk, GenOk, Counted, GenCounted, MqttCounted, Quiet, Step, Enabled, CountsOk, Balanced, Failures;
    var gen := w.generations[g];
    StepCounts(w, e, g);
    CurrentGen(w, g);
    CountedGen(w, g);
    SettledAnswerStands(w, e);
    var gen' := Step(w, e).generations[g];
    CurrentGen(Step(w, e), g);
    CountedGen(Step(w, e), g);
    EpochOnlyRises(w, e);
    StageOfGen(gen);
    StageOfGen(gen');
    if e == WiredDelivering(g, false) { LossStep(w, g); }
    ReadyIsNew(w, e, g);
  }

  lemma EpochOnlyRises(w: World, e: Event)
    requires Enabled(w, e)
    ensures w.epoch <= Step(w, e).epoch
  {
    EpochStep(w, e);
  }

  lemma LossStep(w: World, g: nat)
    requires Enabled(w, WiredDelivering(g, false))
    ensures w.generations[g].stage == Starting
    ensures var gen' := Step(w, WiredDelivering(g, false)).generations[g];
      gen'.aborted == w.generations[g].aborted && gen'.result == w.generations[g].result
  {
  }

  /** A verdict is only given to a generation that a disconnect has not reached, or by the disconnect. */
  lemma ReadyIsNew(w: World, e: Event, g: nat)
    requires GensOk(w) && Enabled(w, e) && g < |w.generations|
    ensures g < |Step(w, e).generations|
    ensures !w.generations[g].aborted || !IsReady(Step(w, e).generations[g]) || IsReady(w.generations[g])
  {
    hide GensOk, GenOk, Quiet, Step, Enabled, CountsOk, Balanced, Justified;
    SettledAnswerStands(w, e);
    CurrentGen(w, g);
    StageOfGen(w.generations[g]);
  }

  lemma {:induction false} LossesAreCounted(events: seq<Event>, g: nat)
    requires After(events).Some? && g < |After(events).value.generations|
    ensures AllLossesCounted(After(events).value.generations[g], StationsLost(events, g))
  {
    hide Step, Enabled, NewGeneration, MqttOk, PushOk, GensOk, Counted, UpOk, ReadyInstalled, AllLossesCounted;
    if events != [] {
      var n := |events| - 1;
      var before := events[..n];
      var w := After(before).value;
      InvInEveryRun(before);
      HasGens(w);
      ReadyInvInEveryRun(before);
      InvInEveryRun(events);
      HasGens(After(events).value);
      ReadyInvInEveryRun(events);
      GenerationsStep(w, events[n]);
      if g < |w.generations| {
        LossesAreCounted(before, g);
        StepCountsLosses(w, events[n], g, StationsLost(before, g));
      } else {
        NoLossBeforehand(before, g);
        NewLostNothing(w.epoch);
      }
    }
  }

  lemma NewLostNothing(epoch: nat)
    ensures AllLossesCounted(NewGeneration(epoch), 0)
  {
  }

  lemma {:induction false} NoLossBeforehand(events: seq<Event>, g: nat)
    requires After(events).Some? && g >= |After(events).value.generations|
    ensures StationsLost(events, g) == 0
  {
    hide Step;
    if events != [] {
      var n := |events| - 1;
      GenerationsStep(After(events[..n]).value, events[n]);
      NoLossBeforehand(events[..n], g);
    }
  }

  /** So no station of a generation that answered ready ever failed, and every one its list had came up. */
  lemma ReadyLostNoStation(events: seq<Event>, g: nat)
    requires After(events).Some? && g < |After(events).value.generations|
    requires IsReady(After(events).value.generations[g])
    ensures StationsLost(events, g) == 0
    ensures var t := Told(events, g, After(events).value.generations[g].epoch);
      t.stationsUp == t.stations && !t.stationsUnknown && t.pushUp == 1 && t.pushDown == 0
  {
    hide Told, Counted, UpOk, ReadyInstalled, MqttCounted, Balanced;
    var gen := After(events).value.generations[g];
    LossesAreCounted(events, g);
    CountsAreWhatWasTold(events, g);
    ReadyInvInEveryRun(events);
    CountedGen(After(events).value, g);
    VerdictsMeanWhatTheySay(events, g);
    VerdictOfGen(events, g);
    PushIsOne(gen.result.value);
    AllReady(gen.readiness.wired);
    AllReady(gen.readiness.push);
  }

  lemma VerdictOfGen(events: seq<Event>, g: nat)
    requires After(events).Some? && g < |After(events).value.generations|
    requires After(events).value.generations[g].result.Some?
    ensures Justified(After(events).value.generations[g].result.value)
  {
    hide MqttOk, GensOk, GenOk, CountsOk, Balanced, Justified, HoldingsOk, OpenClientsOk, InstalledClientOk;
    InvInEveryRun(events);
    CurrentGen(After(events).value, g);
    StageOfGen(After(events).value.generations[g]);
  }

  lemma PushIsOne(r: Readiness)
    requires Justified(r) && r.state == Ready
    ensures r.push.required == 1
  {
  }

  lemma AllReady(p: Plane)
    requires Balanced(p) && p.ready == p.required
    ensures p.failed == 0
  {
  }

  // ---------------------------------------------------------------------------------------------
  // How attempts end
  // ---------------------------------------------------------------------------------------------

  predicate EndsAs(attempt: Attempt, rejected: bool, subscribed: bool) {
    (attempt.phase == Rejected <==> rejected) && (attempt.phase == Resolved <==> subscribed)
  }

  lemma EndStep(w: World, e: Event, a: nat, rejected: bool, subscribed: bool)
    requires Enabled(w, e) && a < |w.attempts| && EndsAs(w.attempts[a], rejected, subscribed)
    ensures a < |Step(w, e).attempts|
    ensures EndsAs(Step(w, e).attempts[a], rejected || e == MqttRejecting(a), subscribed || e == Subscribed(a))
  {
    hide Settle, StartChannels, PushLost, PushWon, ScopeSettled, StationSettled, Returned, Supersede, NewGeneration;
    if e.ListArriving? { EnsureAllGrowsOnly(w, e.scopes); }
  }

  lemma {:induction false} EnsureAllGrowsOnly(w: World, scopes: seq<string>)
    ensures |w.attempts| <= |EnsureAll(w, scopes).attempts|
    ensures forall a: nat | a < |w.attempts| :: EnsureAll(w, scopes).attempts[a] == w.attempts[a]
    ensures forall a: nat | |w.attempts| <= a < |EnsureAll(w, scopes).attempts| ::
      EnsureAll(w, scopes).attempts[a].phase == Connecting
    decreases |scopes|
  {
    if scopes != [] { EnsureAllGrowsOnly(EnsureMqtt(w, scopes[0]), scopes[1..]); }
  }

  lemma NewAttempts(w: World, e: Event)
    requires Enabled(w, e)
    ensures |w.attempts| <= |Step(w, e).attempts|
    ensures forall a: nat | |w.attempts| <= a < |Step(w, e).attempts| :: Step(w, e).attempts[a].phase == Connecting
    ensures e.MqttRejecting? || e.Subscribed? ==> e.a < |w.attempts|
  {
    hide Settle, StartChannels, PushLost, PushWon, ScopeSettled, StationSettled, Returned, Supersede, NewGeneration;
    if e.ListArriving? { EnsureAllGrowsOnly(w, e.scopes); }
  }

  lemma {:induction false} NoEndBeforehand(events: seq<Event>, a: nat)
    requires After(events).Some? && a >= |After(events).value.attempts|
    ensures MqttRejecting(a) !in events && Subscribed(a) !in events
  {
    hide Step, Enabled;
    if events != [] {
      var n := |events| - 1;
      NewAttempts(After(events[..n]).value, events[n]);
      NoEndBeforehand(events[..n], a);
      assert events == events[..n] + [events[n]];
    }
  }

  /** In every run an attempt is rejected exactly when it was, and resolved exactly when it had subscribed. */
  lemma {:induction false} AttemptsEndAsTold(events: seq<Event>, a: nat)
    requires After(events).Some? && a < |After(events).value.attempts|
    ensures EndsAs(After(events).value.attempts[a], MqttRejecting(a) in events, Subscribed(a) in events)
  {
    hide Step, Enabled;
    if events != [] {
      var n := |events| - 1;
      var w := After(events[..n]).value;
      assert events == events[..n] + [events[n]];
      NewAttempts(w, events[n]);
      if a < |w.attempts| {
        AttemptsEndAsTold(events[..n], a);
        EndStep(w, events[n], a, MqttRejecting(a) in events[..n], Subscribed(a) in events[..n]);
      } else {
        NoEndBeforehand(events[..n], a);
      }
    }
  }
}
