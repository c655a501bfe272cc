/**
 * Realtime bring-up and tear-down (src/client/eufy-mega.ts): one startup generation per epoch, the push
 * client and the secure-MQTT transports it brings up, and `disconnect`, which supersedes all of it.
 *
 * Every stretch of code between two awaits is one step; connections, failures, on-demand starts, logins and
 * disconnects interleave in any order, except that a login or an on-demand start waits until no `disconnect`
 * is still closing things.
 */
module Realtime {
  import opened Wrappers

  // ---------------------------------------------------------------------------------------------
  // State
  // ---------------------------------------------------------------------------------------------

  /**
   * The counts of one channel kind. The source's record has no `epoch`; here it names the generation whose counts
   * these are.
   */
  datatype Plane = Plane(epoch: nat, required: int, ready: int, failed: int, pending: int)

  datatype Verdict = Ready | Partial | SupersededState

  datatype Readiness = Readiness(state: Verdict, push: Plane, mqtt: Plane, wired: Plane)

  /** Where a generation's startup routine stands. */
  datatype Stage = Loading | Starting | Over

  /** Where its push start stands; `PushUp` is connected with the handler still to run. */
  datatype PushStart = Unstarted | Dialing | PushUp(client: nat) | Handled

  /**
   * One bring-up. `mqttStarts` are the attempts it waits for, by scope, and `mqttWaits` those of them whose
   * outcome has yet to reach it; `wiredWaits` counts stations in the same way.
   */
  datatype Generation = Generation(
    epoch: nat,
    readiness: Readiness,
    settled: bool,
    result: Option<Readiness>,
    superseded: Option<Readiness>,
    aborted: bool,
    stage: Stage,
    pushStart: PushStart,
    push: Option<nat>,
    mqttStarts: map<string, nat>,
    mqttWaits: map<string, nat>,
    wiredWaits: nat,
    startupFailed: bool)

  /** `ensureMqttStarted` for one scope; a connected transport has its epoch check still to come. */
  datatype AttemptPhase = Connecting | Connected | Subscribing | Closing | Resolved | Rejected

  datatype Attempt = Attempt(scope: string, epoch: nat, phase: AttemptPhase, transport: Option<nat>)

  /** A connected MQTT transport, by the attempt that made it; a connected push client, by its generation. */
  datatype Socket = Socket(owner: nat, open: bool)

  /** A `disconnect` in progress: closing MQTT, then closing the P2P sessions, then done. */
  datatype Teardown = ClosingMqtt | ClosingP2p | Done

  datatype World = World(
    epoch: nat,
    teardowns: seq<Teardown>,
    mqttReady: map<string, nat>,
    transports: map<string, nat>,
    attempts: seq<Attempt>,
    sockets: seq<Socket>,
    generations: seq<Generation>,
    pushClient: Option<nat>,
    clients: seq<Socket>)

  const INITIAL := World(0, [], map[], map[], [], [], [], None, [])

  function CreatePlane(epoch: nat, required: nat): Plane {
    Plane(epoch, required, 0, 0, required)
  }

  function Succeed(p: Plane): Plane {
    p.(ready := p.ready + 1, pending := p.pending - 1)
  }

  function Fail(p: Plane): Plane {
    p.(failed := p.failed + 1, pending := p.pending - 1)
  }

  // ---------------------------------------------------------------------------------------------
  // Startup
  // ---------------------------------------------------------------------------------------------

  predicate Quiet(w: World) {
    forall i: nat | i < |w.teardowns| :: w.teardowns[i] == Done
  }

  function NewGeneration(epoch: nat): Generation {
    Generation(epoch, Readiness(Ready, CreatePlane(epoch, 1), CreatePlane(epoch, 0), CreatePlane(epoch, 0)),
               false, None, None, false, Loading, Unstarted, None, map[], map[], 0, false)
  }

  /** `ensureRealtimeGeneration`: join the generation of this epoch, or create it. */
  function Login(w: World): World {
    var n := |w.generations|;
    if n > 0 && w.generations[n - 1].epoch == w.epoch then w
    else w.(generations := w.generations + [NewGeneration(w.epoch)])
  }

  /** `settleRealtimeGeneration`: the first verdict wins and is kept as a snapshot. */
  function Settle(g: Generation, state: Verdict): Generation {
    if g.settled then g
    else
      var readiness := g.readiness.(state := state);
      g.(settled := true, readiness := readiness, result := Some(readiness))
  }

  function Put(w: World, g: nat, gen: Generation): World
    requires g < |w.generations|
  {
    w.(generations := w.generations[g := gen])
  }

  /** `ensureMqttStarted`: share the scope's memo, or start an attempt for the current epoch. */
  function EnsureMqtt(w: World, scope: string): World {
    if scope in w.mqttReady then w
    else
      w.(attempts := w.attempts + [Attempt(scope, w.epoch, Connecting, None)],
         mqttReady := w.mqttReady[scope := |w.attempts|])
  }

  function EnsureAll(w: World, scopes: seq<string>): (r: World)
    ensures r == w.(attempts := r.attempts, mqttReady := r.mqttReady)
    ensures w.mqttReady.Keys <= r.mqttReady.Keys
    ensures forall s | s in scopes :: s in r.mqttReady
    decreases |scopes|
  {
    if scopes == [] then w else EnsureAll(EnsureMqtt(w, scopes[0]), scopes[1..])
  }

  /** Every channel is started at once; with no answer to which stations are wired, none is waited for. */
  function StartChannels(gen: Generation, scopes: nat, waits: map<string, nat>, wired: Option<nat>): Generation {
    var stations := if wired.Some? then wired.value else 0;
    var readiness := gen.readiness.(mqtt := CreatePlane(gen.epoch, scopes),
                                     wired := CreatePlane(gen.epoch, stations));
    gen.(stage := Starting, pushStart := Dialing, mqttStarts := waits, mqttWaits := waits,
         wiredWaits := stations, startupFailed := wired.None?, readiness := readiness)
  }

  function Waits(scopes: seq<string>, memo: map<string, nat>): map<string, nat>
    requires forall s | s in scopes :: s in memo
  {
    map s | s in scopes :: memo[s]
  }

  /** The device list arrived: start every channel of a generation that is still current. */
  function Loaded(w: World, g: nat, scopes: seq<string>, wired: Option<nat>): World
    requires g < |w.generations|
  {
    var gen := w.generations[g];
    if gen.epoch != w.epoch then Put(w, g, Settle(gen, SupersededState).(stage := Over))
    else
      var w' := EnsureAll(w, scopes);
      Put(w', g, StartChannels(gen, |scopes|, Waits(scopes, w'.mqttReady), wired))
  }

  /** The device list could not be had. */
  function LoadFailed(w: World, g: nat): World
    requires g < |w.generations|
  {
    var gen := w.generations[g];
    var p := gen.readiness.push;
    var failed := gen.(readiness := gen.readiness.(push := p.(failed := p.failed + p.pending, pending := 0)));
    Put(w, g, Settle(failed, if gen.epoch == w.epoch then Partial else SupersededState).(stage := Over))
  }

  /** The push client connected; an aborted start never gets here, it closes its own client. */
  function PushConnected(w: World, g: nat): World
    requires g < |w.generations|
  {
    Put(w, g, w.generations[g].(pushStart := PushUp(|w.clients|))).(clients := w.clients + [Socket(g, true)])
  }

  /** The push start failed; one superseded by the abort is not counted as a failure. */
  function PushLost(gen: Generation, superseded: bool): Generation {
    var counted := if superseded then gen else gen.(readiness := gen.readiness.(push := Fail(gen.readiness.push)));
    counted.(pushStart := Handled)
  }

  function PushFailed(w: World, g: nat, superseded: bool): World
    requires g < |w.generations|
  {
    Put(w, g, PushLost(w.generations[g], superseded))
  }

  function PushWon(gen: Generation): Generation
    requires gen.pushStart.PushUp?
  {
    gen.(push := Some(gen.pushStart.client), pushStart := Handled,
         readiness := gen.readiness.(push := Succeed(gen.readiness.push)))
  }

  function PushDelivered(w: World, g: nat): World
    requires g < |w.generations| && w.generations[g].pushStart.PushUp?
  {
    Put(w, g, PushWon(w.generations[g]))
  }

  function ScopeSettled(gen: Generation, scope: string, ok: bool): Generation {
    var plane := gen.readiness.mqtt;
    gen.(mqttWaits := gen.mqttWaits - {scope},
         readiness := gen.readiness.(mqtt := if ok then Succeed(plane) else Fail(plane)))
  }

  /** A scope the generation waits on settled. */
  function MqttDelivered(w: World, g: nat, scope: string): World
    requires g < |w.generations| && scope in w.generations[g].mqttWaits
    requires w.generations[g].mqttWaits[scope] < |w.attempts|
  {
    var gen := w.generations[g];
    Put(w, g, ScopeSettled(gen, scope, w.attempts[gen.mqttWaits[scope]].phase == Resolved))
  }

  /** A wired station connected or failed; a failure after the abort is not counted. */
  function StationSettled(gen: Generation, ok: bool): Generation
    requires gen.wiredWaits > 0
  {
    var plane := gen.readiness.wired;
    var counted := if ok then Succeed(plane) else if gen.aborted then plane else Fail(plane);
    gen.(wiredWaits := gen.wiredWaits - 1, readiness := gen.readiness.(wired := counted))
  }

  function WiredDelivered(w: World, g: nat, ok: bool): World
    requires g < |w.generations| && w.generations[g].wiredWaits > 0
  {
    Put(w, g, StationSettled(w.generations[g], ok))
  }

  predicate AllDelivered(gen: Generation) {
    gen.pushStart == Handled && gen.mqttWaits == map[] && gen.wiredWaits == 0
  }

  function Close(channels: seq<Socket>, c: Option<nat>): seq<Socket> {
    if c.Some? && c.value < |channels| then channels[c.value := channels[c.value].(open := false)] else channels
  }

  function VerdictAtReturn(gen: Generation, epoch: nat): Verdict {
    var r := gen.readiness;
    var failures := r.push.failed + r.mqtt.failed + r.wired.failed;
    if gen.epoch != epoch then SupersededState
    else if failures != 0 || gen.startupFailed then Partial else Ready
  }

  function Returned(gen: Generation, epoch: nat): Generation {
    Settle(gen, VerdictAtReturn(gen, epoch)).(stage := Over)
  }

  /** Every start is over: install the push client, or close it when the epoch has moved on. */
  function Return(w: World, g: nat): World
    requires g < |w.generations|
  {
    var gen := w.generations[g];
    var w' := Put(w, g, Returned(gen, w.epoch));
    if gen.epoch != w.epoch then w'.(clients := Close(w.clients, gen.push)) else w'.(pushClient := gen.push)
  }

  // ---------------------------------------------------------------------------------------------
  // Secure MQTT
  // ---------------------------------------------------------------------------------------------

  function PutAttempt(w: World, a: nat, attempt: Attempt): World
    requires a < |w.attempts|
  {
    w.(attempts := w.attempts[a := attempt])
  }

  /** An attempt that failed forgets its memo, if the memo is still its own. */
  function Reject(w: World, a: nat): World
    requires a < |w.attempts|
  {
    var scope := w.attempts[a].scope;
    PutAttempt(w, a, w.attempts[a].(phase := Rejected)).(
      mqttReady := if scope in w.mqttReady && w.mqttReady[scope] == a then w.mqttReady - {scope} else w.mqttReady)
  }

  function MqttConnected(w: World, a: nat): World
    requires a < |w.attempts|
  {
    PutAttempt(w, a, w.attempts[a].(phase := Connected, transport := Some(|w.sockets|))).(
      sockets := w.sockets + [Socket(a, true)])
  }

  /** The epoch check: install the transport, or close it when the epoch has moved on. */
  function Decide(w: World, a: nat): World
    requires a < |w.attempts| && w.attempts[a].transport.Some?
  {
    var attempt := w.attempts[a];
    if attempt.epoch != w.epoch then
      PutAttempt(w, a, attempt.(phase := Closing)).(sockets := Close(w.sockets, attempt.transport))
    else
      PutAttempt(w, a, attempt.(phase := Subscribing)).(
        transports := w.transports[attempt.scope := attempt.transport.value])
  }

  // ---------------------------------------------------------------------------------------------
  // Disconnect
  // ---------------------------------------------------------------------------------------------

  function CloseAll(sockets: seq<Socket>, installed: map<string, nat>): (r: seq<Socket>)
    ensures |r| == |sockets|
    ensures forall t: nat | t < |r| ::
      r[t] == sockets[t].(open := sockets[t].open && t !in installed.Values)
  {
    seq(|sockets|, t requires 0 <= t < |sockets| => sockets[t].(open := sockets[t].open && t !in installed.Values))
  }

  function Supersede(g: Generation): Generation {
    var seen := if g.result.Some? then g.result.value else g.readiness;
    Settle(g.(superseded := Some(seen.(state := SupersededState)), aborted := true), SupersededState)
  }

  /** The synchronous part of `disconnect`, up to the wait for the transports to close. */
  function Disconnect(w: World): World {
    var n := |w.generations|;
    w.(epoch := w.epoch + 1,
       teardowns := w.teardowns + [ClosingMqtt],
       generations := if n > 0 then w.generations[n - 1 := Supersede(w.generations[n - 1])] else w.generations,
       sockets := CloseAll(w.sockets, w.transports))
  }

  /** The transports are closed: forget them and the memos. */
  function MapsCleared(w: World, d: nat): World
    requires d < |w.teardowns|
  {
    w.(teardowns := w.teardowns[d := ClosingP2p], transports := map[], mqttReady := map[])
  }

  /** The P2P sessions are closed: close the push client, and `disconnect` resolves. */
  function PushClosed(w: World, d: nat): World
    requires d < |w.teardowns|
  {
    w.(teardowns := w.teardowns[d := Done], clients := Close(w.clients, w.pushClient), pushClient := None)
  }

  // ---------------------------------------------------------------------------------------------
  // Runs
  // ---------------------------------------------------------------------------------------------

  datatype Event =
    | LoggingIn
    | Demanding(scope: string)
    | ListArriving(g: nat, scopes: seq<string>, wired: Option<nat>)
    | LoadFailing(g: nat)
    | PushConnecting(g: nat)
    | PushFailing(g: nat, superseded: bool)
    | PushDelivering(g: nat)
    | MqttDelivering(g: nat, scope: string)
    | WiredDelivering(g: nat, ok: bool)
    | Returning(g: nat)
    | MqttConnecting(a: nat)
    | MqttRejecting(a: nat)
    | Deciding(a: nat)
    | Subscribed(a: nat)
    | Disconnecting
    | ClearingMaps(d: nat)
    | ClosingPush(d: nat)

  predicate Distinct(s: seq<string>) {
    forall i: nat, j: nat | i < j < |s| :: s[i] != s[j]
  }

  predicate GenerationIn(w: World, g: nat, stage: Stage) {
    g < |w.generations| && w.generations[g].stage == stage
  }

  predicate AttemptIn(w: World, a: nat, phase: AttemptPhase) {
    a < |w.attempts| && w.attempts[a].phase == phase
  }

  predicate Enabled(w: World, e: Event) {
    match e
    case LoggingIn => Quiet(w)
    case Demanding(_) => Quiet(w)
    case ListArriving(g, scopes, _) => GenerationIn(w, g, Loading) && Distinct(scopes)
    case LoadFailing(g) => GenerationIn(w, g, Loading)
    case PushConnecting(g) =>
      GenerationIn(w, g, Starting) && w.generations[g].pushStart == Dialing && !w.generations[g].aborted
    case PushFailing(g, superseded) =>
      GenerationIn(w, g, Starting) && w.generations[g].pushStart == Dialing
      && (superseded ==> w.generations[g].aborted)
    case PushDelivering(g) => GenerationIn(w, g, Starting) && w.generations[g].pushStart.PushUp?
    case MqttDelivering(g, scope) =>
      && GenerationIn(w, g, Starting) && scope in w.generations[g].mqttWaits
      && var a := w.generations[g].mqttWaits[scope];
      a < |w.attempts| && (w.attempts[a].phase == Resolved || w.attempts[a].phase == Rejected)
    case WiredDelivering(g, _) => GenerationIn(w, g, Starting) && w.generations[g].wiredWaits > 0
    case Returning(g) => GenerationIn(w, g, Starting) && AllDelivered(w.generations[g])
    case MqttConnecting(a) => AttemptIn(w, a, Connecting)
    case MqttRejecting(a) => AttemptIn(w, a, Connecting) || AttemptIn(w, a, Closing)
    case Deciding(a) => AttemptIn(w, a, Connected) && w.attempts[a].transport.Some?
    case Subscribed(a) => AttemptIn(w, a, Subscribing) || AttemptIn(w, a, Closing)
    case Disconnecting => true
    case ClearingMaps(d) => d < |w.teardowns| && w.teardowns[d] == ClosingMqtt
    case ClosingPush(d) => d < |w.teardowns| && w.teardowns[d] == ClosingP2p
  }

  function Step(w: World, e: Event): World
    requires Enabled(w, e)
  {
    match e
    case LoggingIn => Login(w)
    case Demanding(scope) => EnsureMqtt(w, scope)
    case ListArriving(g, scopes, wired) => Loaded(w, g, scopes, wired)
    case LoadFailing(g) => LoadFailed(w, g)
    case PushConnecting(g) => PushConnected(w, g)
    case PushFailing(g, superseded) => PushFailed(w, g, superseded)
    case PushDelivering(g) => PushDelivered(w, g)
    case MqttDelivering(g, scope) => MqttDelivered(w, g, scope)
    case WiredDelivering(g, ok) => WiredDelivered(w, g, ok)
    case Returning(g) => Return(w, g)
    case MqttConnecting(a) => MqttConnected(w, a)
    case MqttRejecting(a) => Reject(w, a)
    case Deciding(a) => Decide(w, a)
    case Subscribed(a) => PutAttempt(w, a, w.attempts[a].(phase := Resolved))
    case Disconnecting => Disconnect(w)
    case ClearingMaps(d) => MapsCleared(w, d)
    case ClosingPush(d) => PushClosed(w, d)
  }

  function After(events: seq<Event>): Option<World> {
    if events == [] then Some(INITIAL)
    else
      match After(events[..|events| - 1])
      case None => None
      case Some(w) =>
        var e := events[|events| - 1];
        if Enabled(w, e) then Some(Step(w, e)) else None
  }

  // ---------------------------------------------------------------------------------------------
  // The client
  // ---------------------------------------------------------------------------------------------

  lemma EnsureNext(w: World, scopes: seq<string>, i: nat)
    requires i < |scopes|
    ensures EnsureAll(w, scopes[i..]) == EnsureAll(EnsureMqtt(w, scopes[i]), scopes[i + 1..])
  {
    assert scopes[i..][1..] == scopes[i + 1..];
  }

  /** The part of the client that brings realtime channels up and tears them down. */
  class EufyMega {
    var realtimeEpoch: nat
    var mqttReady: map<string, nat>
    var transports: map<string, nat>
    var pushClient: Option<nat>
    var teardowns: seq<Teardown>
    var attempts: seq<Attempt>
    var sockets: seq<Socket>
    var generations: seq<Generation>
    var clients: seq<Socket>

    function State(): World
      reads this
    {
      World(realtimeEpoch, teardowns, mqttReady, transports, attempts, sockets, generations, pushClient, clients)
    }

    constructor ()
      ensures State() == INITIAL
    {
      realtimeEpoch, mqttReady, transports, pushClient := 0, map[], map[], None;
      teardowns, attempts, sockets, generations, clients := [], [], [], [], [];
    }

    method EnsureRealtimeGeneration() returns (g: nat)
      modifies this
      ensures State() == Login(old(State()))
      ensures g == |generations| - 1 && generations[g].epoch == realtimeEpoch
    {
      var n := |generations|;
      if n > 0 && generations[n - 1].epoch == realtimeEpoch { return n - 1; }
      generations := generations + [NewGeneration(realtimeEpoch)];
      return n;
    }

    method EnsureMqttStarted(scope: string) returns (attempt: nat)
      modifies this
      ensures State() == EnsureMqtt(old(State()), scope)
      ensures scope in mqttReady && mqttReady[scope] == attempt
    {
      if scope in mqttReady { return mqttReady[scope]; }
      attempt := |attempts|;
      attempts := attempts + [Attempt(scope, realtimeEpoch, Connecting, None)];
      mqttReady := mqttReady[scope := attempt];
    }

    method SettleRealtimeGeneration(g: nat, state: Verdict)
      requires g < |generations|
      modifies this`generations
      ensures State() == Put(old(State()), g, Settle(old(generations[g]), state))
    {
      var generation := generations[g];
      if generation.settled {
        assert generations == generations[g := generation];
        return;
      }
      var readiness := generation.readiness.(state := state);
      generations := generations[g := generation.(settled := true, readiness := readiness, result := Some(readiness))];
    }

    method MarkOver(g: nat)
      requires g < |generations|
      modifies this`generations
      ensures State() == Put(old(State()), g, old(generations[g]).(stage := Over))
    {
      generations := generations[g := generations[g].(stage := Over)];
    }

    method StartRealtimeGeneration(g: nat, scopes: seq<string>, wired: Option<nat>)
      requires g < |generations|
      modifies this
      ensures State() == Loaded(old(State()), g, scopes, wired)
    {
      if generations[g].epoch != realtimeEpoch {
        SettleRealtimeGeneration(g, SupersededState);
        MarkOver(g);
        return;
      }
      assert scopes[0..] == scopes;
      for i := 0 to |scopes|
        invariant generations == old(generations) && realtimeEpoch == old(realtimeEpoch)
        invariant EnsureAll(State(), scopes[i..]) == EnsureAll(old(State()), scopes)
      {
        EnsureNext(State(), scopes, i);
        var _ := EnsureMqttStarted(scopes[i]);
      }
      assert State() == EnsureAll(old(State()), scopes);
      var waits := map s | s in scopes :: mqttReady[s];
      generations := generations[g := StartChannels(generations[g], |scopes|, waits, wired)];
    }

    method CloseClient(client: Option<nat>)
      modifies this`clients
      ensures clients == Close(old(clients), client)
    {
      if client.Some? && client.value < |clients| {
        clients := clients[client.value := clients[client.value].(open := false)];
      }
    }

    method FinishRealtimeGeneration(g: nat)
      requires g < |generations|
      modifies this
      ensures State() == Return(old(State()), g)
    {
      var generation := generations[g];
      if generation.epoch != realtimeEpoch {
        CloseClient(generation.push);
        SettleRealtimeGeneration(g, SupersededState);
      } else {
        pushClient := generation.push;
        var r := generation.readiness;
        var failures := r.push.failed + r.mqtt.failed + r.wired.failed;
        SettleRealtimeGeneration(g, if failures != 0 || generation.startupFailed then Partial else Ready);
      }
      MarkOver(g);
    }

    method FailRealtimeGeneration(g: nat)
      requires g < |generations|
      modifies this
      ensures State() == LoadFailed(old(State()), g)
    {
      var generation := generations[g];
      var push := generation.readiness.push;
      push := push.(failed := push.failed + push.pending);
      push := push.(pending := 0);
      generations := generations[g := generation.(readiness := generation.readiness.(push := push))];
      SettleRealtimeGeneration(g, if generation.epoch == realtimeEpoch then Partial else SupersededState);
      MarkOver(g);
    }

    /** The push client connected; its handler has yet to run. */
    method PushStartConnected(g: nat)
      requires g < |generations|
      modifies this
      ensures State() == PushConnected(old(State()), g)
    {
      generations := generations[g := generations[g].(pushStart := PushUp(|clients|))];
      clients := clients + [Socket(g, true)];
    }

    /** The handlers on the push start. */
    method PushStartSucceeded(g: nat)
      requires g < |generations| && generations[g].pushStart.PushUp?
      modifies this
      ensures State() == PushDelivered(old(State()), g)
    {
      var generation := generations[g];
      var push := generation.readiness.push;
      push := push.(ready := push.ready + 1);
      push := push.(pending := push.pending - 1);
      generations := generations[g := generation.(
        push := Some(generation.pushStart.client), pushStart := Handled,
        readiness := generation.readiness.(push := push))];
    }

    method PushStartFailed(g: nat, superseded: bool)
      requires g < |generations|
      modifies this
      ensures State() == PushFailed(old(State()), g, superseded)
    {
      var generation := generations[g];
      if !superseded {
        var push := generation.readiness.push;
        push := push.(failed := push.failed + 1);
        push := push.(pending := push.pending - 1);
        generation := generation.(readiness := generation.readiness.(push := push));
      }
      generations := generations[g := generation.(pushStart := Handled)];
    }

    /** The handlers on one scope's start. */
    method ScopeStartEnded(g: nat, scope: string)
      requires g < |generations| && scope in generations[g].mqttWaits
      requires generations[g].mqttWaits[scope] < |attempts|
      modifies this
      ensures State() == MqttDelivered(old(State()), g, scope)
    {
      var generation := generations[g];
      var mqtt := generation.readiness.mqtt;
      if attempts[generation.mqttWaits[scope]].phase == Resolved {
        mqtt := mqtt.(ready := mqtt.ready + 1);
      } else {
        mqtt := mqtt.(failed := mqtt.failed + 1);
      }
      mqtt := mqtt.(pending := mqtt.pending - 1);
      generations := generations[g := generation.(
        mqttWaits := generation.mqttWaits - {scope}, readiness := generation.readiness.(mqtt := mqtt))];
    }

    /** The handlers on one wired station's start. */
    method StationStartEnded(g: nat, ok: bool)
      requires g < |generations| && generations[g].wiredWaits > 0
      modifies this
      ensures State() == WiredDelivered(old(State()), g, ok)
    {
      var generation := generations[g];
      var wired := generation.readiness.wired;
      if ok || !generation.aborted {
        wired := if ok then wired.(ready := wired.ready + 1) else wired.(failed := wired.failed + 1);
        wired := wired.(pending := wired.pending - 1);
      }
      generations := generations[g := generation.(
        wiredWaits := generation.wiredWaits - 1, readiness := generation.readiness.(wired := wired))];
    }

    method MqttAttemptConnected(a: nat)
      requires a < |attempts|
      modifies this
      ensures State() == MqttConnected(old(State()), a)
    {
      attempts := attempts[a := attempts[a].(phase := Connected, transport := Some(|sockets|))];
      sockets := sockets + [Socket(a, true)];
    }

    method CheckEpoch(a: nat)
      requires a < |attempts| && attempts[a].transport.Some?
      modifies this
      ensures State() == Decide(old(State()), a)
    {
      var attempt := attempts[a];
      var t := attempt.transport.value;
      if attempt.epoch != realtimeEpoch {
        if t < |sockets| { sockets := sockets[t := sockets[t].(open := false)]; }
        attempts := attempts[a := attempt.(phase := Closing)];
      } else {
        transports := transports[attempt.scope := t];
        attempts := attempts[a := attempt.(phase := Subscribing)];
      }
    }

    method MqttAttemptFailed(a: nat)
      requires a < |attempts|
      modifies this
      ensures State() == Reject(old(State()), a)
    {
      var scope := attempts[a].scope;
      if scope in mqttReady && mqttReady[scope] == a { mqttReady := mqttReady - {scope}; }
      attempts := attempts[a := attempts[a].(phase := Rejected)];
    }

    method BeginDisconnect()
      modifies this
      ensures State() == Disconnect(old(State()))
    {
      realtimeEpoch := realtimeEpoch + 1;
      var n := |generations|;
      if n > 0 {
        var generation := generations[n - 1];
        var seen := if generation.result.Some? then generation.result.value else generation.readiness;
        generations := generations[n - 1 :=
          generation.(superseded := Some(seen.(state := SupersededState)), aborted := true)];
        SettleRealtimeGeneration(n - 1, SupersededState);
      }
      teardowns := teardowns + [ClosingMqtt];
      CloseInstalled();
    }

    /** Ask every installed transport to close. */
    method CloseInstalled()
      modifies this`sockets
      ensures sockets == CloseAll(old(sockets), transports)
    {
      var left := transports.Keys;
      while left != {}
        invariant left <= transports.Keys && |sockets| == |old(sockets)|
        invariant forall t: nat | t < |sockets| ::
          sockets[t] == old(sockets)[t].(open := old(sockets)[t].open
                                                 && forall s | s in transports.Keys - left :: transports[s] != t)
        decreases |left|
      {
        var scope :| scope in left;
        var t := transports[scope];
        if t < |sockets| { sockets := sockets[t := sockets[t].(open := false)]; }
        left := left - {scope};
      }
      assert sockets == CloseAll(old(sockets), transports);
    }

    method ForgetTransports(d: nat)
      requires d < |teardowns|
      modifies this
      ensures State() == MapsCleared(old(State()), d)
    {
      transports, mqttReady := map[], map[];
      teardowns := teardowns[d := ClosingP2p];
    }

    method ClosePushClient(d: nat)
      requires d < |teardowns|
      modifies this
      ensures State() == PushClosed(old(State()), d)
    {
      CloseClient(pushClient);
      pushClient := None;
      teardowns := teardowns[d := Done];
    }
  }
}
