/** What "ready" means: the counts are those of the channels, and a generation that is ready is connected. */
module RealtimeReady {
  import opened Wrappers
  import opened Realtime
  import opened RealtimeRuns

  // ---------------------------------------------------------------------------------------------
  // Counts of one generation
  // ---------------------------------------------------------------------------------------------

  /** The scopes whose attempt ended this way and whose outcome has reached the generation. */
  function Ended(gen: Generation, attempts: seq<Attempt>, phase: AttemptPhase): set<string> {
    set s | s in gen.mqttStarts && s !in gen.mqttWaits
            && gen.mqttStarts[s] < |attempts| && attempts[gen.mqttStarts[s]].phase == phase
  }

  predicate Final(attempt: Attempt) {
    attempt.phase == Resolved || attempt.phase == Rejected
  }

  /** A generation waits for attempts of its own epoch, and counts each that has ended as what it ended as. */
  ghost predicate MqttCounted(gen: Generation, attempts: seq<Attempt>) {
    && (forall s | s in gen.mqttStarts ::
          && gen.mqttStarts[s] < |attempts|
          && attempts[gen.mqttStarts[s]].scope == s && attempts[gen.mqttStarts[s]].epoch == gen.epoch
          && (s in gen.mqttWaits || Final(attempts[gen.mqttStarts[s]])))
    && (forall s | s in gen.mqttWaits :: s in gen.mqttStarts && gen.mqttWaits[s] == gen.mqttStarts[s])
    && gen.readiness.mqtt.required == |gen.mqttStarts|
    && gen.readiness.mqtt.ready == |Ended(gen, attempts, Resolved)|
    && gen.readiness.mqtt.failed == |Ended(gen, attempts, Rejected)|
  }

  predicate PushCounted(gen: Generation) {
    gen.readiness.push.ready == if gen.push.Some? then 1 else 0
  }

  function Failures(r: Readiness): int {
    r.push.failed + r.mqtt.failed + r.wired.failed
  }

  /** The grounds there are for a verdict: none failed, some failed, or the generation was superseded. */
  predicate Grounds(gen: Generation, r: Readiness, state: Verdict) {
    match state
    case Ready => Failures(r) == 0 && !gen.startupFailed
    case Partial => Failures(r) != 0 || gen.startupFailed
    case SupersededState => gen.aborted
  }

  /**
   * A verdict has its grounds; a ready one was given with nothing left to wait for, and the counts have not
   * changed since.
   */
  predicate ReadyOk(gen: Generation) {
    && (gen.result.Some? ==> Grounds(gen, gen.result.value, gen.result.value.state))
    && (gen.result.Some? && gen.result.value.state == Ready ==>
          gen.stage == Over && gen.mqttWaits == map[] && gen.readiness == gen.result.value)
  }

  ghost predicate GenCounted(gen: Generation, attempts: seq<Attempt>) {
    MqttCounted(gen, attempts) && PushCounted(gen) && ReadyOk(gen)
  }

  ghost predicate Counted(w: World) {
    forall g: nat | g < |w.generations| :: GenCounted(w.generations[g], w.attempts)
  }

  /** Attempts only grow, keep scope and epoch, and keep an end once they have one. */
  ghost predicate Grows(attempts: seq<Attempt>, after: seq<Attempt>) {
    && |attempts| <= |after|
    && forall a: nat | a < |attempts| ::
         && after[a].scope == attempts[a].scope && after[a].epoch == attempts[a].epoch
         && (Final(attempts[a]) ==> after[a].phase == attempts[a].phase)
  }

  lemma GrowthKeepsEnded(gen: Generation, attempts: seq<Attempt>, after: seq<Attempt>, phase: AttemptPhase)
    requires MqttCounted(gen, attempts) && Grows(attempts, after) && (phase == Resolved || phase == Rejected)
    ensures Ended(gen, after, phase) == Ended(gen, attempts, phase)
  {
    forall s | s in gen.mqttStarts && s !in gen.mqttWaits
      ensures s in Ended(gen, after, phase) <==> s in Ended(gen, attempts, phase)
    {
      assert Final(attempts[gen.mqttStarts[s]]);
    }
  }

  lemma GrowthKeepsCounted(gen: Generation, attempts: seq<Attempt>, after: seq<Attempt>)
    requires MqttCounted(gen, attempts) && Grows(attempts, after)
    ensures MqttCounted(gen, after)
  {
    GrowthKeepsEnded(gen, attempts, after, Resolved);
    GrowthKeepsEnded(gen, attempts, after, Rejected);
    hide Ended;
  }

  lemma MqttGrows(w: World, e: Event)
    requires Enabled(w, e)
    requires e.Demanding? || e.MqttConnecting? || e.MqttRejecting? || e.Deciding? || e.Subscribed?
    ensures Grows(w.attempts, Step(w, e).attempts) && Step(w, e).generations == w.generations
  {
  }

  lemma {:induction false} EnsureAllGrows(w: World, scopes: seq<string>)
    ensures Grows(w.attempts, EnsureAll(w, scopes).attempts)
    decreases |scopes|
  {
    if scopes != [] { EnsureAllGrows(EnsureMqtt(w, scopes[0]), scopes[1..]); }
  }

  lemma AttemptsGrow(w: World, w': World)
    requires Counted(w) && Grows(w.attempts, w'.attempts) && w'.generations == w.generations
    ensures Counted(w')
  {
    forall g: nat | g < |w.generations| ensures GenCounted(w'.generations[g], w'.attempts) {
      assert GenCounted(w.generations[g], w.attempts);
      GrowthKeepsCounted(w.generations[g], w.attempts, w'.attempts);
    }
  }

  lemma OneGeneration(w: World, w': World, g: nat)
    requires Counted(w) && g < |w.generations| && w'.attempts == w.attempts
    requires |w'.generations| == |w.generations| && w'.generations == w.generations[g := w'.generations[g]]
    requires GenCounted(w'.generations[g], w.attempts)
    ensures Counted(w')
  {
    hide GenCounted;
  }

  // ---------------------------------------------------------------------------------------------
  // Steps of one generation
  // ---------------------------------------------------------------------------------------------

  /** The MQTT half of a generation is left alone. */
  predicate SameMqtt(gen: Generation, after: Generation) {
    && after.epoch == gen.epoch && after.mqttStarts == gen.mqttStarts && after.mqttWaits == gen.mqttWaits
    && after.readiness.mqtt == gen.readiness.mqtt
  }

  lemma SameMqttCounted(gen: Generation, after: Generation, attempts: seq<Attempt>)
    requires MqttCounted(gen, attempts) && SameMqtt(gen, after)
    ensures MqttCounted(after, attempts)
  {
    assert Ended(after, attempts, Resolved) == Ended(gen, attempts, Resolved);
    assert Ended(after, attempts, Rejected) == Ended(gen, attempts, Rejected);
  }

  lemma NotReadyYet(gen: Generation)
    requires ReadyOk(gen) && gen.stage != Over
    ensures gen.result.Some? ==> gen.result.value.state != Ready
  {
  }

  lemma PushUpCounted(gen: Generation, attempts: seq<Attempt>, c: nat)
    requires GenCounted(gen, attempts) && gen.stage == Starting
    ensures GenCounted(gen.(pushStart := PushUp(c)), attempts)
  {
    hide MqttCounted, Failures;
    NotReadyYet(gen);
    SameMqttCounted(gen, gen.(pushStart := PushUp(c)), attempts);
  }

  lemma PushLostCounted(gen: Generation, attempts: seq<Attempt>, superseded: bool)
    requires GenCounted(gen, attempts) && gen.stage == Starting
    ensures GenCounted(PushLost(gen, superseded), attempts)
  {
    hide MqttCounted, Failures;
    NotReadyYet(gen);
    SameMqttCounted(gen, PushLost(gen, superseded), attempts);
  }

  lemma StationCounted(gen: Generation, attempts: seq<Attempt>, ok: bool)
    requires GenCounted(gen, attempts) && gen.stage == Starting && gen.wiredWaits > 0
    ensures GenCounted(StationSettled(gen, ok), attempts)
  {
    hide MqttCounted, Failures;
    NotReadyYet(gen);
    SameMqttCounted(gen, StationSettled(gen, ok), attempts);
  }

  lemma PushWonCounted(gen: Generation, attempts: seq<Attempt>)
    requires GenCounted(gen, attempts) && gen.stage == Starting && gen.pushStart.PushUp? && gen.push == None
    ensures GenCounted(PushWon(gen), attempts)
  {
    hide MqttCounted;
    NotReadyYet(gen);
    SameMqttCounted(gen, PushWon(gen), attempts);
  }

  lemma SettleCounted(gen: Generation, attempts: seq<Attempt>, state: Verdict)
    requires MqttCounted(gen, attempts) && PushCounted(gen) && ReadyOk(gen) && gen.stage != Over
    requires state == Ready ==> gen.mqttWaits == map[]
    requires gen.settled || Grounds(gen, gen.readiness, state)
    requires gen.settled <==> gen.result.Some?
    ensures GenCounted(Settle(gen, state).(stage := Over), attempts)
  {
    hide MqttCounted, Failures;
    NotReadyYet(gen);
    var after := Settle(gen, state).(stage := Over);
    SameMqttCounted(gen, after, attempts);
    assert Failures(gen.readiness.(state := state)) == Failures(gen.readiness) by { SameFailures(gen.readiness, state); }
  }

  lemma SameFailures(r: Readiness, state: Verdict)
    ensures Failures(r.(state := state)) == Failures(r)
  {
  }

  lemma SupersedeCounted(gen: Generation, attempts: seq<Attempt>)
    requires GenCounted(gen, attempts) && (gen.settled <==> gen.result.Some?)
    ensures GenCounted(Supersede(gen), attempts)
  {
    hide MqttCounted;
    SameMqttCounted(gen, Supersede(gen), attempts);
  }

  lemma EndedAfterDelivery(
    gen: Generation, after: Generation, attempts: seq<Attempt>, scope: string, phase: AttemptPhase)
    requires scope in gen.mqttStarts && gen.mqttStarts[scope] < |attempts| && scope in gen.mqttWaits
    requires after.mqttStarts == gen.mqttStarts && after.mqttWaits == gen.mqttWaits - {scope}
    ensures Ended(after, attempts, phase) ==
      Ended(gen, attempts, phase) + if attempts[gen.mqttStarts[scope]].phase == phase then {scope} else {}
    ensures scope !in Ended(gen, attempts, phase)
  {
    var gained := if attempts[gen.mqttStarts[scope]].phase == phase then {scope} else {};
    forall s ensures s in Ended(after, attempts, phase) <==> s in Ended(gen, attempts, phase) + gained {
      assert s in after.mqttWaits <==> s in gen.mqttWaits && s != scope;
    }
  }

  lemma ScopeSettledCounted(gen: Generation, attempts: seq<Attempt>, scope: string)
    requires GenCounted(gen, attempts) && gen.stage == Starting && scope in gen.mqttWaits
    requires Final(attempts[gen.mqttStarts[scope]])
    ensures GenCounted(ScopeSettled(gen, scope, attempts[gen.mqttStarts[scope]].phase == Resolved), attempts)
  {
    hide Ended;
    NotReadyYet(gen);
    var after := ScopeSettled(gen, scope, attempts[gen.mqttStarts[scope]].phase == Resolved);
    EndedAfterDelivery(gen, after, attempts, scope, Resolved);
    EndedAfterDelivery(gen, after, attempts, scope, Rejected);
  }

  lemma NewCounted(epoch: nat, attempts: seq<Attempt>)
    ensures GenCounted(NewGeneration(epoch), attempts)
  {
  }

  lemma StartChannelsCounted(gen: Generation, attempts: seq<Attempt>, waits: map<string, nat>, wired: Option<nat>)
    requires PushCounted(gen) && gen.stage == Loading && gen.result == None
    requires forall s | s in waits ::
      waits[s] < |attempts| && attempts[waits[s]].scope == s && attempts[waits[s]].epoch == gen.epoch
    ensures GenCounted(StartChannels(gen, |waits|, waits, wired), attempts)
  {
    var started := StartChannels(gen, |waits|, waits, wired);
    assert Ended(started, attempts, Resolved) == {} && Ended(started, attempts, Rejected) == {};
  }

  // ---------------------------------------------------------------------------------------------
  // Every step
  // ---------------------------------------------------------------------------------------------

  lemma CountedGen(w: World, g: nat)
    requires Counted(w) && g < |w.generations|
    ensures GenCounted(w.generations[g], w.attempts)
    ensures MqttCounted(w.generations[g], w.attempts) && PushCounted(w.generations[g]) && ReadyOk(w.generations[g])
  {
    hide MqttCounted, ReadyOk;
  }

  lemma MemosAreCurrent(w: World)
    requires MqttOk(w) && Quiet(w)
    ensures forall s | s in w.mqttReady ::
      var a := w.mqttReady[s]; a < |w.attempts| && w.attempts[a].scope == s && w.attempts[a].epoch == w.epoch
  {
    hide SocketsOk, AttemptEpochsOk, InstalledOk, OpenOk, ConnectedIsOpen, ClearedOk, Quiet;
  }

  lemma StartedCounted(w: World, g: nat, scopes: seq<string>, wired: Option<nat>)
    requires Counted(w) && MqttOk(w) && Quiet(w) && Distinct(scopes)
    requires GenerationIn(w, g, Loading) && w.generations[g].epoch == w.epoch && w.generations[g].result == None
    ensures Counted(Loaded(w, g, scopes, wired))
  {
    hide MqttOk, Quiet, Counted, GenCounted, MqttCounted, StartChannels;
    var w' := EnsureAll(w, scopes);
    EnsureAllKeeps(w, scopes);
    EnsureAllGrows(w, scopes);
    AttemptsGrow(w, w');
    MemosAreCurrent(w');
    WaitsCount(scopes, w'.mqttReady);
    var waits := Waits(scopes, w'.mqttReady);
    CountedGen(w, g);
    StartChannelsCounted(w.generations[g], w'.attempts, waits, wired);
    OneGeneration(w', Loaded(w, g, scopes, wired), g);
  }

  lemma LoadedCounted(w: World, g: nat, scopes: seq<string>, wired: Option<nat>)
    requires Counted(w) && MqttOk(w) && GensOk(w) && Distinct(scopes) && GenerationIn(w, g, Loading)
    ensures Counted(Loaded(w, g, scopes, wired))
  {
    hide MqttOk, GensOk, GenOk, CountsOk, AllBalanced, Justified, Quiet, Counted, GenCounted, MqttCounted;
    hide StartChannels, Settle;
    CurrentGen(w, g);
    StageOfGen(w.generations[g]);
    if w.generations[g].epoch == w.epoch {
      StartedCounted(w, g, scopes, wired);
    } else {
      CountedGen(w, g);
      SettleCounted(w.generations[g], w.attempts, SupersededState);
      OneGeneration(w, Loaded(w, g, scopes, wired), g);
    }
  }

  lemma LoadFailedCounted(w: World, g: nat)
    requires Counted(w) && GensOk(w) && GenerationIn(w, g, Loading)
    ensures Counted(LoadFailed(w, g))
  {
    hide GensOk, GenOk, CountsOk, AllBalanced, Justified, Quiet, Counted, GenCounted, MqttCounted, Settle, Failures;
    CurrentGen(w, g);
    StageOfGen(w.generations[g]);
    CountedGen(w, g);
    PushFailsLoading(w.generations[g]);
    var gen := w.generations[g];
    var p := gen.readiness.push;
    var failed := gen.(readiness := gen.readiness.(push := p.(failed := p.failed + p.pending, pending := 0)));
    NotReadyYet(gen);
    SameMqttCounted(gen, failed, w.attempts);
    SettleCounted(failed, w.attempts, if gen.epoch == w.epoch then Partial else SupersededState);
    OneGeneration(w, LoadFailed(w, g), g);
  }

  lemma PushFailsLoading(gen: Generation)
    requires GenOk(gen) && gen.stage == Loading
    ensures var p := gen.readiness.push;
      Failures(gen.readiness.(push := p.(failed := p.failed + p.pending, pending := 0))) == 1
  {
    hide Balanced, VerdictOk;
  }

  lemma ReturnCounted(w: World, g: nat)
    requires Counted(w) && GensOk(w) && GenerationIn(w, g, Starting) && AllDelivered(w.generations[g])
    ensures Counted(Return(w, g))
  {
    hide GensOk, GenOk, CountsOk, AllBalanced, Justified, Quiet, Counted, GenCounted, MqttCounted, Settle;
    CurrentGen(w, g);
    StageOfGen(w.generations[g]);
    CountedGen(w, g);
    SettleCounted(w.generations[g], w.attempts, VerdictAtReturn(w.generations[g], w.epoch));
    OneGeneration(w, Return(w, g), g);
  }

  lemma DeliveriesCounted(w: World, e: Event)
    requires Counted(w) && GensOk(w) && Enabled(w, e)
    requires e.PushConnecting? || e.PushFailing? || e.PushDelivering? || e.MqttDelivering? || e.WiredDelivering?
    ensures Counted(Step(w, e))
  {
    hide Counted, GensOk, GenOk, GenCounted, PushLost, PushWon, StationSettled, ScopeSettled, ReadyOk;
    var gen := w.generations[e.g];
    CountedGen(w, e.g);
    CurrentGen(w, e.g);
    match e {
      case PushConnecting(_) => PushUpCounted(gen, w.attempts, |w.clients|);
      case PushFailing(_, superseded) => PushLostCounted(gen, w.attempts, superseded);
      case WiredDelivering(_, ok) => StationCounted(gen, w.attempts, ok);
      case PushDelivering(_) =>
        DialingHoldsNothing(gen);
        PushWonCounted(gen, w.attempts);
      case MqttDelivering(_, scope) => ScopeSettledCounted(gen, w.attempts, scope);
    }
    OneGeneration(w, Step(w, e), e.g);
  }

  lemma LoginCounted(w: World)
    requires Counted(w)
    ensures Counted(Login(w))
  {
    hide GenCounted, NewGeneration;
    NewCounted(w.epoch, w.attempts);
    assert forall g: nat | g < |w.generations| :: Login(w).generations[g] == w.generations[g];
  }

  lemma DisconnectCounted(w: World)
    requires Counted(w) && GensOk(w)
    ensures Counted(Disconnect(w))
  {
    hide Counted, GenCounted, Supersede, GensOk, GenOk, CountsOk, AllBalanced, Justified, Quiet;
    var n := |w.generations|;
    if n > 0 {
      CurrentGen(w, n - 1);
      StageOfGen(w.generations[n - 1]);
      CountedGen(w, n - 1);
      SupersedeCounted(w.generations[n - 1], w.attempts);
      OneGeneration(w, Disconnect(w), n - 1);
    } else {
      NoGenerations(Disconnect(w));
    }
  }

  lemma NoGenerations(w: World)
    requires w.generations == []
    ensures Counted(w)
  {
  }

  lemma Unchanged(w: World, w': World)
    requires Counted(w) && w'.generations == w.generations && w'.attempts == w.attempts
    ensures Counted(w')
  {
    hide GenCounted;
  }

  lemma StepKeepsCounted(w: World, e: Event)
    requires Counted(w) && MqttOk(w) && GensOk(w) && Enabled(w, e)
    ensures Counted(Step(w, e))
  {
    hide Counted, MqttOk, GensOk, GenOk, Quiet, Grows, Supersede, Settle, StartChannels, CreatePlane;
    match e {
      case LoggingIn => LoginCounted(w);
      case ListArriving(g, scopes, wired) => LoadedCounted(w, g, scopes, wired);
      case LoadFailing(g) => LoadFailedCounted(w, g);
      case Returning(g) => ReturnCounted(w, g);
      case Disconnecting => DisconnectCounted(w);
      case ClearingMaps(d) => Unchanged(w, Step(w, e));
      case ClosingPush(d) => Unchanged(w, Step(w, e));
      case PushConnecting(_) => DeliveriesCounted(w, e);
      case PushFailing(_, _) => DeliveriesCounted(w, e);
      case PushDelivering(_) => DeliveriesCounted(w, e);
      case MqttDelivering(_, _) => DeliveriesCounted(w, e);
      case WiredDelivering(_, _) => DeliveriesCounted(w, e);
      case _ =>
        MqttGrows(w, e);
        AttemptsGrow(w, Step(w, e));
    }
  }

  // ---------------------------------------------------------------------------------------------
  // What stays up
  // ---------------------------------------------------------------------------------------------

  /** Every attempt of the current epoch that got past its epoch check has its transport installed. */
  ghost predicate UpOk(w: World) {
    forall a: nat | a < |w.attempts| && w.attempts[a].epoch == w.epoch ::
      && w.attempts[a].phase != Closing
      && (w.attempts[a].phase == Subscribing || w.attempts[a].phase == Resolved ==>
            && w.attempts[a].scope in w.transports
            && w.attempts[a].transport == Some(w.transports[w.attempts[a].scope]))
  }

  lemma UpUntouched(w: World, w': World)
    requires UpOk(w)
    requires w'.epoch == w.epoch && w'.attempts == w.attempts && w'.transports == w.transports
    ensures UpOk(w')
  {
  }

  lemma {:induction false} EnsureAllUp(w: World, scopes: seq<string>)
    requires UpOk(w)
    ensures UpOk(EnsureAll(w, scopes))
    decreases |scopes|
  {
    if scopes != [] {
      assert UpOk(EnsureMqtt(w, scopes[0]));
      EnsureAllUp(EnsureMqtt(w, scopes[0]), scopes[1..]);
    }
  }

  lemma LoadedUp(w: World, g: nat, scopes: seq<string>, wired: Option<nat>)
    requires UpOk(w) && g < |w.generations|
    ensures UpOk(Loaded(w, g, scopes, wired))
  {
    hide UpOk, StartChannels, Settle;
    EnsureAllUp(w, scopes);
    UpUntouched(EnsureAll(w, scopes), Put(EnsureAll(w, scopes), g, w.generations[g]));
    if w.generations[g].epoch == w.epoch {
      UpUntouched(EnsureAll(w, scopes), Loaded(w, g, scopes, wired));
    } else {
      UpUntouched(w, Loaded(w, g, scopes, wired));
    }
  }

  lemma DecideUp(w: World, a: nat)
    requires UpOk(w) && MqttOk(w) && AttemptIn(w, a, Connected) && w.attempts[a].transport.Some?
    ensures UpOk(Decide(w, a))
  {
    hide SocketsOk, InstalledOk, OpenOk, ConnectedIsOpen, ClearedOk, MemosOk, Quiet;
    if w.attempts[a].epoch == w.epoch { InstallsIntoFreeScope(w, a); }
    var w' := Decide(w, a);
    assert forall b: nat | b < |w.attempts| && b != a :: w'.attempts[b] == w.attempts[b];
  }

  lemma NothingIsCurrent(w: World)
    requires AttemptEpochsOk(w) && !Quiet(w)
    ensures UpOk(w)
  {
  }

  lemma StepKeepsUp(w: World, e: Event)
    requires UpOk(w) && MqttOk(w) && Enabled(w, e) && MqttOk(Step(w, e))
    ensures UpOk(Step(w, e))
  {
    hide MqttOk, Settle, PushLost, PushWon, ScopeSettled, StationSettled, Returned, StartChannels, Supersede;
    var w' := Step(w, e);
    match e {
      case ListArriving(g, scopes, wired) => LoadedUp(w, g, scopes, wired);
      case Deciding(a) => DecideUp(w, a);
      case Disconnecting =>
        assert w'.teardowns[|w.teardowns|] == ClosingMqtt;
        EpochsOf(w');
        NothingIsCurrent(w');
      case ClearingMaps(d) =>
        assert w'.teardowns[d] == ClosingP2p;
        EpochsOf(w');
        NothingIsCurrent(w');
      case _ =>
    }
  }

  lemma EpochsOf(w: World)
    requires MqttOk(w)
    ensures AttemptEpochsOk(w)
  {
    hide AttemptEpochsOk, SocketsOk, InstalledOk, OpenOk, ConnectedIsOpen, ClearedOk, MemosOk;
  }

  predicate IsReady(gen: Generation) {
    gen.result.Some? && gen.result.value.state == Ready
  }

  /** The push client of a ready generation of the current epoch is the one installed. */
  ghost predicate ReadyInstalled(w: World) {
    forall g: nat | g < |w.generations| && w.generations[g].epoch == w.epoch && IsReady(w.generations[g]) ::
      w.pushClient == w.generations[g].push
  }

  lemma ReturnInstalled(w: World, g: nat)
    requires ReadyInstalled(w) && GensOk(w) && Counted(w) && GenerationIn(w, g, Starting)
    ensures ReadyInstalled(Return(w, g))
  {
    hide GenOk, MqttCounted, VerdictAtReturn;
    CountedGen(w, g);
    var w' := Return(w, g);
    assert forall h: nat | h < |w.generations| && h != g :: w'.generations[h] == w.generations[h];
  }

  lemma OtherStepsInstalled(w: World, w': World, g: nat)
    requires ReadyInstalled(w) && g < |w.generations| && w'.epoch == w.epoch && w'.pushClient == w.pushClient
    requires |w'.generations| == |w.generations| && w'.generations == w.generations[g := w'.generations[g]]
    requires !IsReady(w'.generations[g])
    ensures ReadyInstalled(w')
  {
  }

  lemma StillNotReady(gen: Generation, state: Verdict)
    requires ReadyOk(gen) && gen.stage != Over
    ensures forall c :: !IsReady(gen.(pushStart := PushUp(c)))
    ensures forall b :: !IsReady(PushLost(gen, b))
    ensures gen.pushStart.PushUp? ==> !IsReady(PushWon(gen))
    ensures forall s, b :: !IsReady(ScopeSettled(gen, s, b))
    ensures gen.wiredWaits > 0 ==> forall b :: !IsReady(StationSettled(gen, b))
    ensures forall n, m, o :: !IsReady(StartChannels(gen, n, m, o))
    ensures forall r :: state != Ready ==> !IsReady(Settle(gen.(readiness := r), state).(stage := Over))
    ensures state != Ready ==> !IsReady(Settle(gen, state).(stage := Over))
  {
    hide Succeed, Fail, CreatePlane;
  }

  lemma GenerationStepInstalled(w: World, e: Event)
    requires ReadyInstalled(w) && Counted(w) && Enabled(w, e)
    requires e.ListArriving? || e.LoadFailing? || e.PushConnecting? || e.PushFailing? || e.PushDelivering?
      || e.MqttDelivering? || e.WiredDelivering?
    ensures ReadyInstalled(Step(w, e))
  {
    hide ReadyInstalled, IsReady, Counted, GenCounted, MqttCounted, ReadyOk, StartChannels, Settle;
    hide PushLost, PushWon, ScopeSettled, StationSettled;
    CountedGen(w, e.g);
    StillNotReady(w.generations[e.g], Partial);
    StillNotReady(w.generations[e.g], SupersededState);
    OtherStepsInstalled(w, Step(w, e), e.g);
  }

  lemma NoneIsCurrent(w: World)
    requires GensOk(w) && !Quiet(w)
    ensures ReadyInstalled(w)
  {
    hide GenOk;
  }

  lemma LoginInstalled(w: World)
    requires ReadyInstalled(w)
    ensures ReadyInstalled(Login(w))
  {
    assert forall g: nat | g < |w.generations| :: Login(w).generations[g] == w.generations[g];
  }

  lemma PushClosedInstalled(w: World, d: nat)
    requires GensOk(w) && d < |w.teardowns| && w.teardowns[d] == ClosingP2p
    ensures ReadyInstalled(PushClosed(w, d))
  {
    hide GenOk;
    assert !Quiet(w);
  }

  lemma StepKeepsInstalled(w: World, e: Event)
    requires ReadyInstalled(w) && GensOk(w) && Counted(w) && Enabled(w, e) && GensOk(Step(w, e))
    ensures ReadyInstalled(Step(w, e))
  {
    hide ReadyInstalled, GensOk, Counted, Supersede;
    var w' := Step(w, e);
    match e {
      case LoggingIn => LoginInstalled(w);
      case Returning(g) => ReturnInstalled(w, g);
      case Disconnecting =>
        assert w'.teardowns[|w.teardowns|] == ClosingMqtt;
        NoneIsCurrent(w');
      case ClosingPush(d) => PushClosedInstalled(w, d);
      case ListArriving(_, _, _) => GenerationStepInstalled(w, e);
      case LoadFailing(_) => GenerationStepInstalled(w, e);
      case PushConnecting(_) => GenerationStepInstalled(w, e);
      case PushFailing(_, _) => GenerationStepInstalled(w, e);
      case PushDelivering(_) => GenerationStepInstalled(w, e);
      case MqttDelivering(_, _) => GenerationStepInstalled(w, e);
      case WiredDelivering(_, _) => GenerationStepInstalled(w, e);
      case _ => SameInstalled(w, w');
    }
  }

  lemma SameInstalled(w: World, w': World)
    requires ReadyInstalled(w)
    requires w'.epoch == w.epoch && w'.generations == w.generations && w'.pushClient == w.pushClient
    ensures ReadyInstalled(w')
  {
  }

  // ---------------------------------------------------------------------------------------------
  // Results
  // ---------------------------------------------------------------------------------------------

  lemma {:induction false} ReadyInvInEveryRun(events: seq<Event>)
    requires After(events).Some?
    ensures var w := After(events).value; Counted(w) && UpOk(w) && ReadyInstalled(w)
  {
    hide MqttOk, PushOk, GensOk, Counted, UpOk, ReadyInstalled, Step, Enabled;
    if events == [] {
      AtFirst();
    } else {
      var n := |events| - 1;
      ReadyInvInEveryRun(events[..n]);
      InvInEveryRun(events[..n]);
      InvInEveryRun(events);
      var w := After(events[..n]).value;
      HasGens(w);
      HasGens(After(events).value);
      StepKeepsCounted(w, events[n]);
      StepKeepsUp(w, events[n]);
      StepKeepsInstalled(w, events[n]);
    }
  }

  lemma AtFirst()
    ensures Counted(INITIAL) && UpOk(INITIAL) && ReadyInstalled(INITIAL)
  {
  }

  /**
   * In every run a generation's MQTT counts are the scopes whose attempt came up and whose attempt failed, of
   * those whose outcome has reached it, and its push count says whether it has a client.
   */
  lemma CountsAreTheChannels(events: seq<Event>, g: nat)
    requires After(events).Some? && g < |After(events).value.generations|
    ensures var w := After(events).value;
      var gen := w.generations[g];
      && gen.readiness.mqtt.required == |gen.mqttStarts|
      && gen.readiness.mqtt.ready == |Ended(gen, w.attempts, Resolved)|
      && gen.readiness.mqtt.failed == |Ended(gen, w.attempts, Rejected)|
      && gen.readiness.push.ready == (if gen.push.Some? then 1 else 0)
  {
    hide Counted, UpOk, ReadyInstalled;
    ReadyInvInEveryRun(events);
    CountedGen(After(events).value, g);
  }

  lemma AllCameUp(gen: Generation, attempts: seq<Attempt>)
    requires MqttCounted(gen, attempts) && gen.mqttWaits == map[] && gen.readiness.mqtt.failed == 0
    ensures forall s | s in gen.mqttStarts ::
      gen.mqttStarts[s] < |attempts| && attempts[gen.mqttStarts[s]].phase == Resolved
  {
    forall s | s in gen.mqttStarts ensures attempts[gen.mqttStarts[s]].phase == Resolved {
      assert attempts[gen.mqttStarts[s]].phase == Rejected ==> s in Ended(gen, attempts, Rejected);
    }
  }

  lemma ReadyFails(r: Readiness)
    requires Justified(r) && r.state == Ready
    ensures r.mqtt.failed == 0 && r.push.ready == 1
  {
  }

  /**
   * A generation that answered ready is connected for as long as its epoch lasts: a transport for every scope
   * it started is installed and open, and its own push client is installed and open.
   */
  lemma ReadyMeansConnected(events: seq<Event>, g: nat)
    requires After(events).Some? && g < |After(events).value.generations|
    requires IsReady(After(events).value.generations[g])
    requires After(events).value.generations[g].epoch == After(events).value.epoch
    ensures var w := After(events).value;
      var gen := w.generations[g];
      && (forall s | s in gen.mqttStarts ::
            s in w.transports && w.transports[s] < |w.sockets| && w.sockets[w.transports[s]].open)
      && w.pushClient.Some? && w.pushClient.value < |w.clients| && w.clients[w.pushClient.value].open
      && w.pushClient == gen.push
  {
    hide Counted, GensOk, GenOk, Quiet, SocketsOk, AttemptEpochsOk, MemosOk, OpenOk, ConnectedIsOpen, ClearedOk;
    hide HoldingsOk, OpenClientsOk, Balanced, CountsOk, MqttCounted;
    ReadyInvInEveryRun(events);
    InvInEveryRun(events);
    var w := After(events).value;
    var gen := w.generations[g];
    CurrentGen(w, g);
    CountedGen(w, g);
    StageOfGen(gen);
    ReadyFails(gen.result.value);
    AllCameUp(gen, w.attempts);
    StartedInEpoch(gen, w.attempts);
  }

  /**
   * In every run a verdict has its grounds: ready when nothing failed, partial when something did, superseded
   * only when a disconnect came first.
   */
  lemma VerdictsHaveGrounds(events: seq<Event>, g: nat)
    requires After(events).Some? && g < |After(events).value.generations|
    requires After(events).value.generations[g].result.Some?
    ensures var w := After(events).value;
      var gen := w.generations[g];
      match gen.result.value.state
      case Ready => Failures(gen.result.value) == 0 && !gen.startupFailed
      case Partial => Failures(gen.result.value) != 0 || gen.startupFailed
      case SupersededState => gen.epoch < w.epoch
  {
    hide MqttOk, Counted, UpOk, ReadyInstalled, GensOk, GenOk, HoldingsOk, OpenClientsOk, InstalledClientOk, MqttCounted;
    hide Failures;
    ReadyInvInEveryRun(events);
    InvInEveryRun(events);
    CurrentGen(After(events).value, g);
    CountedGen(After(events).value, g);
  }

  lemma StartedInEpoch(gen: Generation, attempts: seq<Attempt>)
    requires MqttCounted(gen, attempts)
    ensures forall s | s in gen.mqttStarts ::
      && gen.mqttStarts[s] < |attempts|
      && attempts[gen.mqttStarts[s]].scope == s && attempts[gen.mqttStarts[s]].epoch == gen.epoch
  {
  }
}
