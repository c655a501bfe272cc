/** What holds in every run of realtime bring-up and tear-down. */
module RealtimeRuns {
  import opened Wrappers
  import opened Realtime

  // ---------------------------------------------------------------------------------------------
  // Secure MQTT
  // ---------------------------------------------------------------------------------------------

  /** An attempt and the transport it made know each other. */
  ghost predicate SocketsOk(w: World) {
    && (forall t: nat | t < |w.sockets| ::
          w.sockets[t].owner < |w.attempts| && w.attempts[w.sockets[t].owner].transport == Some(t))
    && (forall a: nat | a < |w.attempts| ::
          match w.attempts[a].transport
          case Some(t) => t < |w.sockets| && w.sockets[t].owner == a && w.attempts[a].phase != Connecting
          case None => w.attempts[a].phase == Connecting || w.attempts[a].phase == Rejected)
  }

  /** While a disconnect is closing things, nothing belongs to the new epoch yet. */
  ghost predicate AttemptEpochsOk(w: World) {
    forall a: nat | a < |w.attempts| ::
      w.attempts[a].epoch <= w.epoch && (!Quiet(w) ==> w.attempts[a].epoch < w.epoch)
  }

  /** A memo is a live attempt of its scope, and every live attempt of the current epoch is its scope's memo. */
  ghost predicate MemosOk(w: World) {
    && (forall s | s in w.mqttReady ::
          var a := w.mqttReady[s];
          a < |w.attempts| && w.attempts[a].scope == s && w.attempts[a].phase != Rejected
          && (Quiet(w) ==> w.attempts[a].epoch == w.epoch))
    && (forall a: nat | a < |w.attempts| && w.attempts[a].epoch == w.epoch && w.attempts[a].phase != Rejected ::
          w.attempts[a].scope in w.mqttReady && w.mqttReady[w.attempts[a].scope] == a)
  }

  /** An installed transport was made for its scope; outside a disconnect it is open and of this epoch. */
  ghost predicate InstalledOk(w: World) {
    forall s | s in w.transports ::
      var t := w.transports[s];
      && t < |w.sockets| && w.sockets[t].owner < |w.attempts|
      && var a := w.attempts[w.sockets[t].owner];
      && a.scope == s && (a.phase == Subscribing || a.phase == Resolved)
      && (if Quiet(w) then w.sockets[t].open && a.epoch == w.epoch else !w.sockets[t].open)
  }

  /** A transport that is open is installed, or its attempt has yet to run its epoch check. */
  ghost predicate OpenOk(w: World) {
    forall t: nat | t < |w.sockets| && w.sockets[t].open ::
      w.sockets[t].owner < |w.attempts|
      && var a := w.attempts[w.sockets[t].owner];
      a.phase == Connected || (a.scope in w.transports && w.transports[a.scope] == t)
  }

  ghost predicate ConnectedIsOpen(w: World) {
    forall a: nat | a < |w.attempts| && w.attempts[a].phase == Connected ::
      w.attempts[a].transport.Some? && w.attempts[a].transport.value < |w.sockets|
      && w.sockets[w.attempts[a].transport.value].open
  }

  /** Once a disconnect has forgotten the maps they stay empty until it is over. */
  ghost predicate ClearedOk(w: World) {
    forall d: nat | d < |w.teardowns| && w.teardowns[d] == ClosingP2p :: w.transports == map[] && w.mqttReady == map[]
  }

  ghost predicate MqttOk(w: World) {
    && SocketsOk(w) && AttemptEpochsOk(w) && MemosOk(w) && InstalledOk(w) && OpenOk(w) && ConnectedIsOpen(w)
    && ClearedOk(w)
  }

  /** Whatever leaves the MQTT side alone keeps it. */
  lemma MqttUntouched(w: World, w': World)
    requires MqttOk(w)
    requires w' == w.(generations := w'.generations, pushClient := w'.pushClient, clients := w'.clients)
    ensures MqttOk(w')
  {
  }

  lemma EnsureMqttKeepsSockets(w: World, scope: string)
    requires SocketsOk(w) && AttemptEpochsOk(w) && ConnectedIsOpen(w) && ClearedOk(w) && Quiet(w)
    ensures var w' := EnsureMqtt(w, scope);
      SocketsOk(w') && AttemptEpochsOk(w') && ConnectedIsOpen(w') && ClearedOk(w') && Quiet(w')
  {
    assert forall a: nat | a < |w.attempts| :: EnsureMqtt(w, scope).attempts[a] == w.attempts[a];
  }

  lemma EnsureMqttKeepsMaps(w: World, scope: string)
    requires MemosOk(w) && InstalledOk(w) && OpenOk(w) && Quiet(w)
    ensures var w' := EnsureMqtt(w, scope);
      MemosOk(w') && InstalledOk(w') && OpenOk(w')
  {
    assert forall a: nat | a < |w.attempts| :: EnsureMqtt(w, scope).attempts[a] == w.attempts[a];
    assert Quiet(EnsureMqtt(w, scope));
  }

  lemma EnsureMqttKeeps(w: World, scope: string)
    requires MqttOk(w) && Quiet(w)
    ensures MqttOk(EnsureMqtt(w, scope)) && Quiet(EnsureMqtt(w, scope))
  {
    hide SocketsOk, AttemptEpochsOk, MemosOk, InstalledOk, OpenOk, ConnectedIsOpen, ClearedOk;
    EnsureMqttKeepsSockets(w, scope);
    EnsureMqttKeepsMaps(w, scope);
  }

  lemma {:induction false} EnsureAllKeeps(w: World, scopes: seq<string>)
    requires MqttOk(w) && Quiet(w)
    ensures MqttOk(EnsureAll(w, scopes)) && Quiet(EnsureAll(w, scopes))
    decreases |scopes|
  {
    hide MqttOk;
    if scopes != [] {
      EnsureMqttKeeps(w, scopes[0]);
      EnsureAllKeeps(EnsureMqtt(w, scopes[0]), scopes[1..]);
    }
  }

  lemma RejectKeepsSockets(w: World, a: nat)
    requires SocketsOk(w) && AttemptEpochsOk(w) && ConnectedIsOpen(w) && ClearedOk(w)
    requires AttemptIn(w, a, Connecting) || AttemptIn(w, a, Closing)
    ensures var w' := Reject(w, a);
      SocketsOk(w') && AttemptEpochsOk(w') && ConnectedIsOpen(w') && ClearedOk(w')
  {
    assert forall b: nat | b < |w.attempts| && b != a :: Reject(w, a).attempts[b] == w.attempts[b];
    assert Quiet(Reject(w, a)) == Quiet(w);
  }

  lemma RejectKeepsMaps(w: World, a: nat)
    requires MemosOk(w) && InstalledOk(w) && OpenOk(w)
    requires AttemptIn(w, a, Connecting) || AttemptIn(w, a, Closing)
    ensures var w' := Reject(w, a); MemosOk(w') && InstalledOk(w') && OpenOk(w')
  {
    assert forall b: nat | b < |w.attempts| && b != a :: Reject(w, a).attempts[b] == w.attempts[b];
    assert Quiet(Reject(w, a)) == Quiet(w);
  }

  lemma RejectKeeps(w: World, a: nat)
    requires MqttOk(w) && (AttemptIn(w, a, Connecting) || AttemptIn(w, a, Closing))
    ensures MqttOk(Reject(w, a))
  {
    hide SocketsOk, AttemptEpochsOk, MemosOk, InstalledOk, OpenOk, ConnectedIsOpen, ClearedOk;
    RejectKeepsSockets(w, a);
    RejectKeepsMaps(w, a);
  }

  lemma MqttConnectedKeeps(w: World, a: nat)
    requires MqttOk(w) && AttemptIn(w, a, Connecting)
    ensures MqttOk(MqttConnected(w, a))
  {
    var w' := MqttConnected(w, a);
    assert forall b: nat | b < |w.attempts| && b != a :: w'.attempts[b] == w.attempts[b];
    assert forall t: nat | t < |w.sockets| :: w'.sockets[t] == w.sockets[t];
    assert Quiet(w') == Quiet(w);
  }

  /** An attempt that installs finds its scope free: no transport is ever overwritten. */
  lemma InstallsIntoFreeScope(w: World, a: nat)
    requires MemosOk(w) && InstalledOk(w) && AttemptEpochsOk(w)
    requires AttemptIn(w, a, Connected) && w.attempts[a].epoch == w.epoch
    ensures w.attempts[a].scope !in w.transports && Quiet(w)
  {
    assert w.mqttReady[w.attempts[a].scope] == a;
  }

  lemma DecideKeepsSockets(w: World, a: nat)
    requires SocketsOk(w) && AttemptEpochsOk(w) && ConnectedIsOpen(w) && ClearedOk(w)
    requires AttemptIn(w, a, Connected) && w.attempts[a].transport.Some?
    requires w.attempts[a].epoch == w.epoch ==> Quiet(w)
    ensures var w' := Decide(w, a);
      SocketsOk(w') && AttemptEpochsOk(w') && ConnectedIsOpen(w') && ClearedOk(w')
  {
    var w' := Decide(w, a);
    assert forall b: nat | b < |w.attempts| && b != a :: w'.attempts[b] == w.attempts[b];
    assert Quiet(w') == Quiet(w);
  }

  lemma DecideKeepsMemos(w: World, a: nat)
    requires MemosOk(w) && AttemptIn(w, a, Connected) && w.attempts[a].transport.Some?
    ensures MemosOk(Decide(w, a))
  {
    assert forall b: nat | b < |w.attempts| && b != a :: Decide(w, a).attempts[b] == w.attempts[b];
    assert Quiet(Decide(w, a)) == Quiet(w);
  }

  lemma ConnectedIsNotInstalled(w: World, a: nat)
    requires InstalledOk(w) && SocketsOk(w) && AttemptIn(w, a, Connected) && w.attempts[a].transport.Some?
    ensures forall s | s in w.transports :: w.transports[s] != w.attempts[a].transport.value
  {
  }

  lemma CloseKeepsInstalled(w: World, a: nat)
    requires InstalledOk(w) && AttemptIn(w, a, Connected) && w.attempts[a].transport.Some?
    requires w.attempts[a].epoch != w.epoch
    requires forall s | s in w.transports :: w.transports[s] != w.attempts[a].transport.value
    ensures InstalledOk(Decide(w, a))
  {
    var w' := Decide(w, a);
    assert forall b: nat | b < |w.attempts| && b != a :: w'.attempts[b] == w.attempts[b];
    assert Quiet(w') == Quiet(w);
  }

  lemma InstallKeepsInstalled(w: World, a: nat)
    requires InstalledOk(w) && SocketsOk(w) && ConnectedIsOpen(w)
    requires AttemptIn(w, a, Connected) && w.attempts[a].transport.Some?
    requires w.attempts[a].epoch == w.epoch && Quiet(w)
    ensures InstalledOk(Decide(w, a))
  {
    var w' := Decide(w, a);
    assert forall b: nat | b < |w.attempts| && b != a :: w'.attempts[b] == w.attempts[b];
    assert Quiet(w') == Quiet(w);
  }

  lemma DecideKeepsInstalled(w: World, a: nat)
    requires InstalledOk(w) && SocketsOk(w) && ConnectedIsOpen(w)
    requires AttemptIn(w, a, Connected) && w.attempts[a].transport.Some?
    requires w.attempts[a].epoch == w.epoch ==> Quiet(w)
    ensures InstalledOk(Decide(w, a))
  {
    hide InstalledOk, SocketsOk, ConnectedIsOpen, Quiet;
    if w.attempts[a].epoch == w.epoch {
      InstallKeepsInstalled(w, a);
    } else {
      ConnectedIsNotInstalled(w, a);
      CloseKeepsInstalled(w, a);
    }
  }

  lemma DecideKeepsOpen(w: World, a: nat)
    requires OpenOk(w) && SocketsOk(w) && ConnectedIsOpen(w)
    requires AttemptIn(w, a, Connected) && w.attempts[a].transport.Some?
    requires w.attempts[a].epoch == w.epoch ==> w.attempts[a].scope !in w.transports
    ensures OpenOk(Decide(w, a))
  {
    var w' := Decide(w, a);
    var t := w.attempts[a].transport.value;
    assert forall b: nat | b < |w.attempts| && b != a :: w'.attempts[b] == w.attempts[b];
    assert forall u: nat | u < |w.sockets| && u != t :: w'.sockets[u] == w.sockets[u];
  }

  lemma DecideKeeps(w: World, a: nat)
    requires MqttOk(w) && AttemptIn(w, a, Connected) && w.attempts[a].transport.Some?
    ensures MqttOk(Decide(w, a))
  {
    hide SocketsOk, AttemptEpochsOk, MemosOk, InstalledOk, OpenOk, ConnectedIsOpen, ClearedOk;
    if w.attempts[a].epoch == w.epoch { InstallsIntoFreeScope(w, a); }
    DecideKeepsSockets(w, a);
    DecideKeepsMemos(w, a);
    DecideKeepsInstalled(w, a);
    DecideKeepsOpen(w, a);
  }

  lemma SubscribedKeeps(w: World, a: nat)
    requires MqttOk(w) && (AttemptIn(w, a, Subscribing) || AttemptIn(w, a, Closing))
    ensures MqttOk(PutAttempt(w, a, w.attempts[a].(phase := Resolved)))
  {
    var w' := PutAttempt(w, a, w.attempts[a].(phase := Resolved));
    assert forall b: nat | b < |w.attempts| && b != a :: w'.attempts[b] == w.attempts[b];
    assert Quiet(w') == Quiet(w);
  }

  lemma DisconnectKeepsMqtt(w: World)
    requires MqttOk(w)
    ensures MqttOk(Disconnect(w)) && !Quiet(Disconnect(w))
  {
    var w' := Disconnect(w);
    assert w'.teardowns[|w.teardowns|] == ClosingMqtt;
  }

  lemma MapsClearedKeepsMqtt(w: World, d: nat)
    requires MqttOk(w) && d < |w.teardowns| && w.teardowns[d] == ClosingMqtt
    ensures MqttOk(MapsCleared(w, d))
  {
    var w' := MapsCleared(w, d);
    assert w'.teardowns[d] == ClosingP2p;
  }

  lemma PushClosedKeepsMqtt(w: World, d: nat)
    requires MqttOk(w) && d < |w.teardowns| && w.teardowns[d] == ClosingP2p
    ensures MqttOk(PushClosed(w, d))
  {
    var w' := PushClosed(w, d);
    assert w.transports == map[] && w.mqttReady == map[];
  }

  // ---------------------------------------------------------------------------------------------
  // One generation
  // ---------------------------------------------------------------------------------------------

  predicate Balanced(p: Plane) {
    p.required == p.ready + p.failed + p.pending && 0 <= p.ready && 0 <= p.failed && 0 <= p.pending
  }

  predicate AllBalanced(r: Readiness) {
    Balanced(r.push) && Balanced(r.mqtt) && Balanced(r.wired)
  }

  predicate Untouched(p: Plane, required: int) {
    p.required == required && p.ready == 0 && p.failed == 0 && p.pending == required
  }

  /** What each count still waits for, stage by stage. */
  predicate CountsOk(gen: Generation) {
    var r := gen.readiness;
    && AllBalanced(r) && r.push.required == 1
    && (gen.stage == Loading ==>
          && Untouched(r.push, 1) && Untouched(r.mqtt, 0) && Untouched(r.wired, 0)
          && gen.pushStart == Unstarted && gen.push == None && gen.mqttWaits == map[] && gen.wiredWaits == 0)
    && (gen.stage == Starting ==>
          && gen.pushStart != Unstarted
          && (gen.pushStart != Handled ==> r.push.pending == 1 && gen.push == None)
          && (gen.pushStart == Handled && !gen.aborted ==> r.push.pending == 0)
          && r.mqtt.pending == |gen.mqttWaits|
          && gen.wiredWaits <= r.wired.pending
          && (!gen.aborted ==> r.wired.pending == gen.wiredWaits))
  }

  lemma Created(epoch: nat, n: nat)
    ensures var p := CreatePlane(epoch, n); Balanced(p) && p.required == n && p.pending == n && Untouched(p, n)
  {
  }

  lemma Moved(p: Plane)
    requires Balanced(p) && p.pending > 0
    ensures Balanced(Succeed(p)) && Succeed(p).required == p.required && Succeed(p).pending == p.pending - 1
    ensures Balanced(Fail(p)) && Fail(p).required == p.required && Fail(p).pending == p.pending - 1
  {
  }

  /** What a verdict promises about the counts it was given with. */
  predicate Justified(r: Readiness) {
    && AllBalanced(r) && r.push.required == 1
    && (r.state == Ready ==>
          r.push.ready == r.push.required && r.mqtt.ready == r.mqtt.required && r.wired.ready == r.wired.required)
    && (r.state == Partial ==> r.push.pending == 0 && r.mqtt.pending == 0 && r.wired.pending == 0)
  }

  predicate VerdictOk(gen: Generation) {
    && (gen.settled <==> gen.result.Some?)
    && (gen.stage == Over || gen.aborted <==> gen.settled)
    && (gen.aborted <==> gen.superseded.Some?)
    && (gen.result.Some? ==> Justified(gen.result.value))
    && (gen.superseded.Some? ==> gen.superseded.value == gen.result.value.(state := SupersededState))
  }

  predicate GenOk(gen: Generation) {
    CountsOk(gen) && VerdictOk(gen)
  }

  ghost predicate GensOk(w: World) {
    && (forall g: nat | g < |w.generations| ::
          && GenOk(w.generations[g])
          && w.generations[g].epoch <= w.epoch
          && (w.generations[g].aborted <==> w.generations[g].epoch < w.epoch)
          && (!Quiet(w) ==> w.generations[g].epoch < w.epoch))
    && (forall g: nat, h: nat | g < h < |w.generations| :: w.generations[g].epoch < w.generations[h].epoch)
  }

  // ---------------------------------------------------------------------------------------------
  // Push clients
  // ---------------------------------------------------------------------------------------------

  /** A bring-up that is still running holds this client: connected, or handed over and waiting. */
  predicate Holds(gen: Generation, c: nat) {
    gen.stage == Starting && (gen.pushStart == PushUp(c) || gen.push == Some(c))
  }

  /** A client a running bring-up holds is its own and open. */
  predicate HoldsOpen(gen: Generation, g: nat, clients: seq<Socket>) {
    gen.stage == Starting ==>
      && (gen.pushStart.PushUp? ==>
            gen.pushStart.client < |clients| && clients[gen.pushStart.client] == Socket(g, true))
      && (gen.push.Some? ==> gen.push.value < |clients| && clients[gen.push.value] == Socket(g, true))
  }

  ghost predicate HoldingsOk(w: World) {
    forall g: nat | g < |w.generations| :: HoldsOpen(w.generations[g], g, w.clients)
  }

  /** A client that is open is installed, or the bring-up that made it is still running. */
  ghost predicate OpenClientsOk(w: World) {
    forall c: nat | c < |w.clients| ::
      w.clients[c].owner < |w.generations|
      && (w.clients[c].open ==> w.pushClient == Some(c) || Holds(w.generations[w.clients[c].owner], c))
  }

  /** The installed client came from a bring-up that returned; outside a disconnect it is open and current. */
  ghost predicate InstalledClientOk(w: World) {
    w.pushClient.Some? ==>
      var c := w.pushClient.value;
      && c < |w.clients| && w.clients[c].owner < |w.generations|
      && w.generations[w.clients[c].owner].stage == Over
      && (Quiet(w) ==> w.clients[c].open && w.generations[w.clients[c].owner].epoch == w.epoch)
  }

  ghost predicate PushOk(w: World) {
    GensOk(w) && HoldingsOk(w) && OpenClientsOk(w) && InstalledClientOk(w)
  }

  lemma HeldIsOpen(w: World, g: nat, c: nat)
    requires HoldingsOk(w) && g < |w.generations| && Holds(w.generations[g], c)
    ensures c < |w.clients| && w.clients[c] == Socket(g, true)
  {
  }

  lemma SettleKeepsCounts(gen: Generation, state: Verdict)
    requires AllBalanced(gen.readiness) && gen.readiness.push.required == 1
    ensures CountsOk(Settle(gen, state).(stage := Over))
  {
    hide Balanced, Untouched;
  }

  lemma SettleKeepsVerdict(gen: Generation, state: Verdict)
    requires VerdictOk(gen) && gen.stage != Over
    requires !gen.settled ==> Justified(gen.readiness.(state := state))
    ensures VerdictOk(Settle(gen, state).(stage := Over))
  {
    hide Justified;
  }

  lemma SettleKeeps(gen: Generation, state: Verdict)
    requires AllBalanced(gen.readiness) && gen.readiness.push.required == 1
    requires VerdictOk(gen) && gen.stage != Over
    requires !gen.settled ==> Justified(gen.readiness.(state := state))
    ensures GenOk(Settle(gen, state).(stage := Over))
  {
    SettleKeepsCounts(gen, state);
    SettleKeepsVerdict(gen, state);
    hide CountsOk, VerdictOk, Justified;
  }

  lemma PutKeepsGens(w: World, g: nat, gen: Generation)
    requires GensOk(w) && g < |w.generations| && GenOk(gen)
    requires gen.epoch == w.generations[g].epoch && gen.aborted == w.generations[g].aborted
    ensures GensOk(Put(w, g, gen))
  {
    hide GenOk;
    assert Quiet(Put(w, g, gen)) == Quiet(w);
  }

  predicate OnlyCounts(gen: Generation, after: Generation) {
    && after.epoch == gen.epoch && after.stage == gen.stage && after.aborted == gen.aborted
    && after.pushStart == gen.pushStart && after.push == gen.push
  }

  /** A step that leaves a generation's clients as they are. */
  lemma PutKeepsPush(w: World, g: nat, gen: Generation)
    requires PushOk(w) && GenerationIn(w, g, Starting) && GenOk(gen) && OnlyCounts(w.generations[g], gen)
    ensures PushOk(Put(w, g, gen))
  {
    hide GensOk, GenOk;
    PutKeepsGens(w, g, gen);
    var w' := Put(w, g, gen);
    assert Quiet(w') == Quiet(w);
    assert forall h: nat | h < |w.generations| && h != g :: w'.generations[h] == w.generations[h];
  }

  lemma NewGenOk(epoch: nat)
    ensures GenOk(NewGeneration(epoch))
  {
    hide Balanced, Untouched, CreatePlane, Justified;
    Created(epoch, 1);
    Created(epoch, 0);
  }

  lemma LoginKeepsGens(w: World)
    requires GensOk(w) && Quiet(w)
    ensures GensOk(Login(w))
  {
    hide GenOk;
    NewGenOk(w.epoch);
    var w' := Login(w);
    assert forall g: nat | g < |w.generations| :: w'.generations[g] == w.generations[g];
    assert Quiet(w');
  }

  lemma LoginKeepsPush(w: World)
    requires PushOk(w) && Quiet(w)
    ensures PushOk(Login(w))
  {
    hide GensOk;
    LoginKeepsGens(w);
    var w' := Login(w);
    hide NewGeneration, Quiet;
    assert forall g: nat | g < |w.generations| :: w'.generations[g] == w.generations[g];
    assert NewGeneration(w.epoch).stage == Loading;
  }

  lemma StartsHoldingNothing(w: World, g: nat, gen: Generation)
    requires PushOk(w) && GenerationIn(w, g, Loading) && GensOk(Put(w, g, gen))
    requires gen.stage == Starting && !gen.pushStart.PushUp? && gen.push.None?
    requires gen.epoch == w.generations[g].epoch
    ensures PushOk(Put(w, g, gen))
  {
    hide GensOk;
    var w' := Put(w, g, gen);
    assert Quiet(w') == Quiet(w);
    assert forall h: nat | h < |w.generations| && h != g :: w'.generations[h] == w.generations[h];
  }

  /** Whatever leaves the generations and push clients alone keeps them. */
  lemma MqttSideKeepsPush(w: World, w': World)
    requires PushOk(w)
    requires w'.epoch == w.epoch && w'.generations == w.generations
    requires w'.pushClient == w.pushClient && w'.clients == w.clients
    requires Quiet(w') == Quiet(w)
    ensures PushOk(w')
  {
    hide GenOk;
  }

  /** A bring-up that ends before it started any channel. */
  lemma EndsWhileLoading(w: World, g: nat, gen: Generation)
    requires PushOk(w) && GenerationIn(w, g, Loading)
    requires GenOk(gen) && gen.stage == Over
    requires gen.epoch == w.generations[g].epoch && gen.aborted == w.generations[g].aborted
    ensures PushOk(Put(w, g, gen))
  {
    hide GensOk, GenOk;
    PutKeepsGens(w, g, gen);
    var w' := Put(w, g, gen);
    assert Quiet(w') == Quiet(w);
    assert forall h: nat | h < |w.generations| && h != g :: w'.generations[h] == w.generations[h];
  }

  lemma {:induction false} DistinctCount(scopes: seq<string>)
    requires Distinct(scopes)
    ensures |set s | s in scopes| == |scopes|
  {
    if scopes != [] {
      var n := |scopes| - 1;
      var rest := scopes[..n];
      DistinctCount(rest);
      assert scopes == rest + [scopes[n]];
      assert (set s | s in scopes) == (set s | s in rest) + {scopes[n]};
    }
  }

  lemma WaitsCount(scopes: seq<string>, memo: map<string, nat>)
    requires Distinct(scopes) && forall s | s in scopes :: s in memo
    ensures |Waits(scopes, memo)| == |scopes|
  {
    DistinctCount(scopes);
    assert Waits(scopes, memo).Keys == set s | s in scopes;
  }

  lemma LoadedGen(gen: Generation, waits: map<string, nat>, wired: Option<nat>)
    requires GenOk(gen) && gen.stage == Loading && !gen.aborted
    ensures GenOk(StartChannels(gen, |waits|, waits, wired))
  {
    hide Balanced, CreatePlane, Justified;
    var stations := if wired.Some? then wired.value else 0;
    Created(gen.epoch, stations);
    Created(gen.epoch, |waits|);
  }

  lemma CurrentGen(w: World, g: nat)
    requires GensOk(w) && g < |w.generations|
    ensures GenOk(w.generations[g])
    ensures w.generations[g].aborted <==> w.generations[g].epoch < w.epoch
    ensures w.generations[g].epoch <= w.epoch
    ensures w.generations[g].epoch == w.epoch ==> Quiet(w)
  {
    hide GenOk;
  }

  lemma StageOfGen(gen: Generation)
    requires GenOk(gen)
    ensures AllBalanced(gen.readiness) && gen.readiness.push.required == 1 && VerdictOk(gen)
    ensures gen.stage == Loading ==> gen.push == None && gen.pushStart == Unstarted
  {
    hide Balanced, Justified;
  }

  lemma StartKeepsPush(w: World, g: nat, waits: map<string, nat>, wired: Option<nat>)
    requires PushOk(w) && GenerationIn(w, g, Loading) && !w.generations[g].aborted
    ensures PushOk(Put(w, g, StartChannels(w.generations[g], |waits|, waits, wired)))
  {
    hide GensOk, HoldingsOk, OpenClientsOk, InstalledClientOk, GenOk, CreatePlane;
    CurrentGen(w, g);
    StageOfGen(w.generations[g]);
    var started := StartChannels(w.generations[g], |waits|, waits, wired);
    LoadedGen(w.generations[g], waits, wired);
    PutKeepsGens(w, g, started);
    StartsHoldingNothing(w, g, started);
  }

  lemma SupersededWhileLoading(w: World, g: nat)
    requires PushOk(w) && GenerationIn(w, g, Loading) && w.generations[g].epoch != w.epoch
    ensures PushOk(Put(w, g, Settle(w.generations[g], SupersededState).(stage := Over)))
  {
    hide GensOk, HoldingsOk, OpenClientsOk, InstalledClientOk, GenOk, AllBalanced;
    CurrentGen(w, g);
    StageOfGen(w.generations[g]);
    SettleKeeps(w.generations[g], SupersededState);
    EndsWhileLoading(w, g, Settle(w.generations[g], SupersededState).(stage := Over));
  }

  lemma LoadedKeepsPush(w: World, g: nat, scopes: seq<string>, wired: Option<nat>)
    requires PushOk(w) && GenerationIn(w, g, Loading) && Distinct(scopes)
    ensures PushOk(Loaded(w, g, scopes, wired))
  {
    hide GensOk, HoldingsOk, OpenClientsOk, InstalledClientOk, GenOk, Settle, StartChannels;
    CurrentGen(w, g);
    if w.generations[g].epoch != w.epoch {
      SupersededWhileLoading(w, g);
    } else {
      var w' := EnsureAll(w, scopes);
      MqttSideKeepsPush(w, w');
      WaitsCount(scopes, w'.mqttReady);
      StartKeepsPush(w', g, Waits(scopes, w'.mqttReady), wired);
    }
  }

  lemma FailedLoadPlane(p: Plane)
    requires Balanced(p)
    ensures Balanced(p.(failed := p.failed + p.pending, pending := 0))
  {
  }

  lemma LoadFailedKeepsPush(w: World, g: nat)
    requires PushOk(w) && GenerationIn(w, g, Loading)
    ensures PushOk(LoadFailed(w, g))
  {
    hide GensOk, HoldingsOk, OpenClientsOk, InstalledClientOk, GenOk, Balanced, CountsOk;
    CurrentGen(w, g);
    var gen := w.generations[g];
    StageOfGen(gen);
    LoadingPlanes(gen);
    var p := gen.readiness.push;
    FailedLoadPlane(p);
    var failed := gen.(readiness := gen.readiness.(push := p.(failed := p.failed + p.pending, pending := 0)));
    var state := if gen.epoch == w.epoch then Partial else SupersededState;
    SettleKeeps(failed, state);
    EndsWhileLoading(w, g, Settle(failed, state).(stage := Over));
  }

  lemma LoadingPlanes(gen: Generation)
    requires GenOk(gen) && gen.stage == Loading
    ensures gen.readiness.mqtt.pending == 0 && gen.readiness.wired.pending == 0
  {
    hide Balanced, VerdictOk;
  }

  lemma PushUpGen(gen: Generation, c: nat)
    requires GenOk(gen) && gen.stage == Starting && gen.pushStart == Dialing
    ensures GenOk(gen.(pushStart := PushUp(c)))
  {
    hide Balanced, Justified;
  }

  lemma PushConnectedKeepsPush(w: World, g: nat)
    requires PushOk(w) && GenerationIn(w, g, Starting) && w.generations[g].pushStart == Dialing
    ensures PushOk(PushConnected(w, g))
  {
    hide GensOk, GenOk;
    CurrentGen(w, g);
    DialingHoldsNothing(w.generations[g]);
    var gen := w.generations[g].(pushStart := PushUp(|w.clients|));
    PushUpGen(w.generations[g], |w.clients|);
    PutKeepsGens(w, g, gen);
    var w' := PushConnected(w, g);
    MoreClients(Put(w, g, gen), w');
    assert Quiet(w') == Quiet(w);
    assert w'.generations[g] == gen && w'.clients[|w.clients|] == Socket(g, true);
    assert forall c {:trigger Holds(gen, c)} :: Holds(gen, c) <==> c == |w.clients|;
    assert forall c :: !Holds(w.generations[g], c);
    assert forall h: nat | h < |w.generations| && h != g :: w'.generations[h] == w.generations[h];
    assert forall c: nat | c < |w.clients| :: w'.clients[c] == w.clients[c];
  }

  lemma MoreClients(w: World, w': World)
    requires GensOk(w)
    requires w'.epoch == w.epoch && w'.generations == w.generations && w'.teardowns == w.teardowns
    ensures GensOk(w')
  {
    hide GenOk;
  }

  lemma DialingHoldsNothing(gen: Generation)
    requires GenOk(gen) && gen.stage == Starting && gen.pushStart != Handled
    ensures gen.push == None && gen.readiness.push.pending == 1
  {
    hide Balanced, VerdictOk;
  }

  lemma PushLostOk(gen: Generation, superseded: bool)
    requires GenOk(gen) && gen.stage == Starting && gen.pushStart == Dialing && (superseded ==> gen.aborted)
    ensures GenOk(PushLost(gen, superseded))
  {
    hide Balanced, Justified, Fail;
    Moved(gen.readiness.push);
  }

  lemma PushFailedKeepsPush(w: World, g: nat, superseded: bool)
    requires PushOk(w) && GenerationIn(w, g, Starting) && w.generations[g].pushStart == Dialing
    requires superseded ==> w.generations[g].aborted
    ensures PushOk(PushFailed(w, g, superseded))
  {
    hide GensOk, GenOk, Fail;
    CurrentGen(w, g);
    var gen := PushLost(w.generations[g], superseded);
    PushLostOk(w.generations[g], superseded);
    PutKeepsGens(w, g, gen);
    HandsOver(w, g, gen);
  }

  lemma PushWonOk(gen: Generation)
    requires GenOk(gen) && gen.stage == Starting && gen.pushStart.PushUp?
    ensures GenOk(PushWon(gen))
  {
    hide Balanced, Justified, Succeed;
    Moved(gen.readiness.push);
  }

  /** The push handler ran: whatever client the dialling held, the generation holds now. */
  lemma HandsOver(w: World, g: nat, gen: Generation)
    requires PushOk(w) && GenerationIn(w, g, Starting) && GensOk(Put(w, g, gen))
    requires gen.stage == Starting && gen.epoch == w.generations[g].epoch && gen.pushStart == Handled
    requires gen.push == match w.generations[g].pushStart
             case PushUp(c) => Some(c)
             case _ => w.generations[g].push
    requires w.generations[g].pushStart.PushUp? ==> w.generations[g].push == None
    ensures PushOk(Put(w, g, gen))
  {
    hide GensOk;
    var w' := Put(w, g, gen);
    assert Quiet(w') == Quiet(w);
    assert forall c {:trigger Holds(gen, c)} :: Holds(gen, c) == Holds(w.generations[g], c);
    assert forall h: nat | h < |w.generations| && h != g :: w'.generations[h] == w.generations[h];
    assert w'.generations[g] == gen;
  }

  lemma PushDeliveredKeepsPush(w: World, g: nat)
    requires PushOk(w) && GenerationIn(w, g, Starting) && w.generations[g].pushStart.PushUp?
    ensures PushOk(PushDelivered(w, g))
  {
    hide GensOk, GenOk, Succeed, HoldingsOk, OpenClientsOk, InstalledClientOk;
    CurrentGen(w, g);
    DialingHoldsNothing(w.generations[g]);
    PushWonOk(w.generations[g]);
    var gen := PushWon(w.generations[g]);
    PutKeepsGens(w, g, gen);
    HandsOver(w, g, gen);
  }

  lemma OneLess(m: map<string, nat>, k: string)
    requires k in m
    ensures |m - {k}| == |m| - 1
  {
    assert (m - {k}).Keys == m.Keys - {k};
  }

  lemma ScopeSettledOk(gen: Generation, scope: string, ok: bool)
    requires GenOk(gen) && gen.stage == Starting && scope in gen.mqttWaits
    ensures GenOk(ScopeSettled(gen, scope, ok)) && OnlyCounts(gen, ScopeSettled(gen, scope, ok))
  {
    hide Balanced, Justified, Succeed, Fail;
    OneLess(gen.mqttWaits, scope);
    Moved(gen.readiness.mqtt);
  }

  lemma MqttDeliveredKeepsPush(w: World, g: nat, scope: string)
    requires PushOk(w) && GenerationIn(w, g, Starting) && scope in w.generations[g].mqttWaits
    requires w.generations[g].mqttWaits[scope] < |w.attempts|
    ensures PushOk(MqttDelivered(w, g, scope))
  {
    hide GensOk, GenOk, ScopeSettled, HoldingsOk, OpenClientsOk, InstalledClientOk;
    CurrentGen(w, g);
    var ok := w.attempts[w.generations[g].mqttWaits[scope]].phase == Resolved;
    ScopeSettledOk(w.generations[g], scope, ok);
    PutKeepsPush(w, g, ScopeSettled(w.generations[g], scope, ok));
  }

  lemma StationSettledOk(gen: Generation, ok: bool)
    requires GenOk(gen) && gen.stage == Starting && gen.wiredWaits > 0
    ensures GenOk(StationSettled(gen, ok)) && OnlyCounts(gen, StationSettled(gen, ok))
  {
    hide Balanced, Justified, Succeed, Fail;
    Moved(gen.readiness.wired);
  }

  lemma WiredDeliveredKeepsPush(w: World, g: nat, ok: bool)
    requires PushOk(w) && GenerationIn(w, g, Starting) && w.generations[g].wiredWaits > 0
    ensures PushOk(WiredDelivered(w, g, ok))
  {
    hide GensOk, GenOk, StationSettled, HoldingsOk, OpenClientsOk, InstalledClientOk;
    CurrentGen(w, g);
    StationSettledOk(w.generations[g], ok);
    PutKeepsPush(w, g, StationSettled(w.generations[g], ok));
  }

  lemma Complete(p: Plane)
    requires Balanced(p) && p.pending == 0
    ensures p.failed >= 0 && (p.failed == 0 ==> p.ready == p.required)
  {
  }

  lemma VerdictIsJustified(r: Readiness, startupFailed: bool)
    requires AllBalanced(r) && r.push.required == 1
    requires r.push.pending == 0 && r.mqtt.pending == 0 && r.wired.pending == 0
    ensures var failures := r.push.failed + r.mqtt.failed + r.wired.failed;
      Justified(r.(state := if failures != 0 || startupFailed then Partial else Ready))
  {
    hide Balanced;
    Complete(r.push);
    Complete(r.mqtt);
    Complete(r.wired);
  }

  lemma NothingPending(gen: Generation)
    requires GenOk(gen) && gen.stage == Starting && AllDelivered(gen) && !gen.aborted
    ensures var r := gen.readiness; r.push.pending == 0 && r.mqtt.pending == 0 && r.wired.pending == 0
  {
    hide Balanced, VerdictOk;
  }

  lemma ReturnGen(gen: Generation, epoch: nat)
    requires GenOk(gen) && gen.stage == Starting && AllDelivered(gen)
    requires gen.epoch <= epoch && (gen.aborted <==> gen.epoch < epoch)
    ensures GenOk(Returned(gen, epoch))
  {
    hide GenOk, AllBalanced, Justified;
    StageOfGen(gen);
    if gen.epoch == epoch {
      NothingPending(gen);
      VerdictIsJustified(gen.readiness, gen.startupFailed);
    } else {
      SettledGen(gen);
    }
    SettleKeeps(gen, VerdictAtReturn(gen, epoch));
  }

  lemma SettledGen(gen: Generation)
    requires GenOk(gen) && gen.aborted
    ensures gen.settled
  {
    hide CountsOk;
  }

  lemma ReturnKeepsGens(w: World, g: nat)
    requires GensOk(w) && GenerationIn(w, g, Starting) && AllDelivered(w.generations[g])
    ensures GensOk(Put(w, g, Returned(w.generations[g], w.epoch)))
    ensures GensOk(Return(w, g))
  {
    hide GensOk, GenOk, VerdictAtReturn;
    CurrentGen(w, g);
    var gen := Returned(w.generations[g], w.epoch);
    ReturnGen(w.generations[g], w.epoch);
    PutKeepsGens(w, g, gen);
    MoreClients(Put(w, g, gen), Return(w, g));
  }

  lemma ReturnKeepsHoldings(w: World, g: nat)
    requires HoldingsOk(w) && GenerationIn(w, g, Starting)
    ensures HoldingsOk(Return(w, g))
  {
    hide VerdictAtReturn;
    var w' := Return(w, g);
    assert forall h: nat | h < |w.generations| && h != g :: w'.generations[h] == w.generations[h];
  }

  lemma ReturnKeepsOpen(w: World, g: nat)
    requires OpenClientsOk(w) && GenerationIn(w, g, Starting) && w.generations[g].pushStart == Handled
    requires w.generations[g].epoch == w.epoch ==> w.pushClient == None
    ensures OpenClientsOk(Return(w, g))
  {
    hide VerdictAtReturn;
    var w' := Return(w, g);
    assert forall h: nat | h < |w.generations| && h != g :: w'.generations[h] == w.generations[h];
  }

  lemma ReturnKeepsInstalled(w: World, g: nat)
    requires HoldingsOk(w) && InstalledClientOk(w) && GenerationIn(w, g, Starting)
    requires w.generations[g].epoch == w.epoch ==> Quiet(w) && w.pushClient == None
    ensures InstalledClientOk(Return(w, g))
  {
    hide HoldingsOk, VerdictAtReturn;
    var w', gen := Return(w, g), w.generations[g];
    assert Quiet(w') == Quiet(w);
    if gen.push.Some? { HeldIsOpen(w, g, gen.push.value); }
    assert forall h: nat | h < |w.generations| && h != g :: w'.generations[h] == w.generations[h];
  }

  /** A generation of the current epoch that has not returned finds no push client installed. */
  lemma NoClientToOverwrite(w: World, g: nat)
    requires GensOk(w) && InstalledClientOk(w) && GenerationIn(w, g, Starting)
    requires w.generations[g].epoch == w.epoch
    ensures Quiet(w) && w.pushClient == None
  {
    hide GenOk;
  }

  lemma ReturnKeepsPush(w: World, g: nat)
    requires PushOk(w) && GenerationIn(w, g, Starting) && AllDelivered(w.generations[g])
    ensures PushOk(Return(w, g))
  {
    hide GensOk, HoldingsOk, OpenClientsOk, InstalledClientOk;
    if w.generations[g].epoch == w.epoch { NoClientToOverwrite(w, g); }
    ReturnKeepsGens(w, g);
    ReturnKeepsHoldings(w, g);
    ReturnKeepsOpen(w, g);
    ReturnKeepsInstalled(w, g);
  }

  lemma SupersedeOk(gen: Generation)
    requires GenOk(gen)
    ensures GenOk(Supersede(gen))
  {
    hide Balanced;
  }

  lemma DisconnectKeepsGens(w: World)
    requires GensOk(w)
    ensures GensOk(Disconnect(w))
  {
    hide GenOk;
    var w', n := Disconnect(w), |w.generations|;
    if n > 0 { SupersedeOk(w.generations[n - 1]); }
    assert w'.teardowns[|w.teardowns|] == ClosingMqtt;
    assert forall h: nat | h < n - 1 :: w'.generations[h] == w.generations[h];
  }

  lemma DisconnectKeepsPush(w: World)
    requires PushOk(w)
    ensures PushOk(Disconnect(w))
  {
    hide GensOk, Supersede, Holds, HoldsOpen;
    DisconnectKeepsGens(w);
    SupersedeHolds(w);
    var w' := Disconnect(w);
    assert w'.teardowns[|w.teardowns|] == ClosingMqtt;
  }

  lemma SupersedeHolds(w: World)
    ensures var w' := Disconnect(w);
      forall g: nat | g < |w.generations| ::
        && w'.generations[g].stage == w.generations[g].stage
        && (forall c :: Holds(w'.generations[g], c) == Holds(w.generations[g], c))
        && (forall clients :: HoldsOpen(w'.generations[g], g, clients) == HoldsOpen(w.generations[g], g, clients))
  {
  }

  lemma MapsClearedKeepsPush(w: World, d: nat)
    requires PushOk(w) && d < |w.teardowns| && w.teardowns[d] == ClosingMqtt
    ensures PushOk(MapsCleared(w, d))
  {
    hide GensOk, HoldingsOk, OpenClientsOk, InstalledClientOk;
    assert MapsCleared(w, d).teardowns[d] == ClosingP2p;
    MqttSideKeepsPush(w, MapsCleared(w, d));
  }

  lemma PushClosedKeepsGens(w: World, d: nat)
    requires GensOk(w) && d < |w.teardowns| && w.teardowns[d] == ClosingP2p
    ensures GensOk(PushClosed(w, d))
  {
    hide GenOk;
    assert !Quiet(w);
  }

  lemma PushClosedKeepsHoldings(w: World, d: nat)
    requires HoldingsOk(w) && InstalledClientOk(w) && d < |w.teardowns|
    ensures HoldingsOk(PushClosed(w, d))
  {
  }

  lemma PushClosedKeepsPush(w: World, d: nat)
    requires PushOk(w) && d < |w.teardowns| && w.teardowns[d] == ClosingP2p
    ensures PushOk(PushClosed(w, d))
  {
    hide GensOk, HoldingsOk, Holds;
    PushClosedKeepsGens(w, d);
    PushClosedKeepsHoldings(w, d);
  }

  // ---------------------------------------------------------------------------------------------
  // Every step, every run
  // ---------------------------------------------------------------------------------------------

  lemma MqttStepKeepsPush(w: World, e: Event)
    requires PushOk(w) && Enabled(w, e)
    requires e.Demanding? || e.MqttConnecting? || e.MqttRejecting? || e.Deciding? || e.Subscribed?
    ensures PushOk(Step(w, e))
  {
    hide PushOk;
    var w' := Step(w, e);
    assert Quiet(w') == Quiet(w);
    MqttSideKeepsPush(w, w');
  }

  lemma StepKeepsPush(w: World, e: Event)
    requires PushOk(w) && Enabled(w, e)
    ensures PushOk(Step(w, e))
  {
    hide PushOk;
    match e {
      case LoggingIn => LoginKeepsPush(w);
      case ListArriving(g, scopes, wired) => LoadedKeepsPush(w, g, scopes, wired);
      case LoadFailing(g) => LoadFailedKeepsPush(w, g);
      case PushConnecting(g) => PushConnectedKeepsPush(w, g);
      case PushFailing(g, superseded) => PushFailedKeepsPush(w, g, superseded);
      case PushDelivering(g) => PushDeliveredKeepsPush(w, g);
      case MqttDelivering(g, scope) => MqttDeliveredKeepsPush(w, g, scope);
      case WiredDelivering(g, ok) => WiredDeliveredKeepsPush(w, g, ok);
      case Returning(g) => ReturnKeepsPush(w, g);
      case Disconnecting => DisconnectKeepsPush(w);
      case ClearingMaps(d) => MapsClearedKeepsPush(w, d);
      case ClosingPush(d) => PushClosedKeepsPush(w, d);
      case _ => MqttStepKeepsPush(w, e);
    }
  }

  lemma LoadedKeepsMqtt(w: World, g: nat, scopes: seq<string>, wired: Option<nat>)
    requires MqttOk(w) && g < |w.generations| && (w.generations[g].epoch == w.epoch ==> Quiet(w))
    ensures MqttOk(Loaded(w, g, scopes, wired))
  {
    hide MqttOk, Settle, StartChannels, Quiet;
    var w' := Loaded(w, g, scopes, wired);
    if w.generations[g].epoch == w.epoch {
      EnsureAllKeeps(w, scopes);
      MqttUntouched(EnsureAll(w, scopes), w');
    } else {
      MqttUntouched(w, w');
    }
  }

  lemma PushStepKeepsMqtt(w: World, e: Event)
    requires MqttOk(w) && Enabled(w, e)
    requires e.LoggingIn? || e.LoadFailing? || e.PushConnecting? || e.PushFailing? || e.PushDelivering?
      || e.MqttDelivering? || e.WiredDelivering? || e.Returning?
    ensures MqttOk(Step(w, e))
  {
    hide MqttOk, Settle, PushLost, PushWon, ScopeSettled, StationSettled, Returned;
    MqttUntouched(w, Step(w, e));
  }

  lemma StepKeepsMqtt(w: World, e: Event)
    requires MqttOk(w) && GensOk(w) && Enabled(w, e)
    ensures MqttOk(Step(w, e))
  {
    hide MqttOk, GensOk, GenOk, Quiet, Settle;
    match e {
      case Demanding(scope) => EnsureMqttKeeps(w, scope);
      case ListArriving(g, scopes, wired) =>
        CurrentGen(w, g);
        LoadedKeepsMqtt(w, g, scopes, wired);
      case MqttConnecting(a) => MqttConnectedKeeps(w, a);
      case MqttRejecting(a) => RejectKeeps(w, a);
      case Deciding(a) => DecideKeeps(w, a);
      case Subscribed(a) => SubscribedKeeps(w, a);
      case Disconnecting => DisconnectKeepsMqtt(w);
      case ClearingMaps(d) => MapsClearedKeepsMqtt(w, d);
      case ClosingPush(d) => PushClosedKeepsMqtt(w, d);
      case _ => PushStepKeepsMqtt(w, e);
    }
  }

  lemma {:induction false} InvInEveryRun(events: seq<Event>)
    requires After(events).Some?
    ensures MqttOk(After(events).value) && PushOk(After(events).value)
  {
    hide MqttOk, PushOk, Step, Enabled;
    if events == [] {
      NothingHappenedYet();
    } else {
      var n := |events| - 1;
      InvInEveryRun(events[..n]);
      var w := After(events[..n]).value;
      HasGens(w);
      StepKeepsMqtt(w, events[n]);
      StepKeepsPush(w, events[n]);
    }
  }

  lemma NothingHappenedYet()
    ensures MqttOk(INITIAL) && PushOk(INITIAL)
  {
  }

  lemma HasGens(w: World)
    requires PushOk(w)
    ensures GensOk(w)
  {
    hide GensOk, HoldingsOk, OpenClientsOk, InstalledClientOk;
  }

  // ---------------------------------------------------------------------------------------------
  // Results
  // ---------------------------------------------------------------------------------------------

  /** In every run each plane of every generation keeps required = ready + failed + pending. */
  lemma PlanesBalance(events: seq<Event>, g: nat)
    requires After(events).Some? && g < |After(events).value.generations|
    ensures AllBalanced(After(events).value.generations[g].readiness)
  {
    hide MqttOk, GensOk, GenOk, Balanced, HoldingsOk, OpenClientsOk, InstalledClientOk;
    InvInEveryRun(events);
    CurrentGen(After(events).value, g);
    StageOfGen(After(events).value.generations[g]);
  }

  /**
   * What a settled generation answered: `Ready` says every required channel of every plane came up, `Partial`
   * that none is still pending; and a `disconnect` after the verdict reports those same counts as superseded.
   */
  lemma VerdictsMeanWhatTheySay(events: seq<Event>, g: nat)
    requires After(events).Some? && g < |After(events).value.generations|
    ensures var gen := After(events).value.generations[g];
      && (gen.result.Some? <==> gen.settled)
      && (gen.settled ==>
            var r := gen.result.value;
            && AllBalanced(r)
            && (r.state == Ready ==>
                  r.push.ready == 1 && r.mqtt.ready == r.mqtt.required && r.wired.ready == r.wired.required)
            && (r.state == Partial ==> r.push.pending == 0 && r.mqtt.pending == 0 && r.wired.pending == 0))
      && (gen.superseded.Some? ==>
            gen.settled && gen.superseded.value == gen.result.value.(state := SupersededState))
  {
    hide MqttOk, GensOk, GenOk, Balanced, HoldingsOk, OpenClientsOk, InstalledClientOk;
    InvInEveryRun(events);
    CurrentGen(After(events).value, g);
    StageOfGen(After(events).value.generations[g]);
  }

  /** An answer given is given for good. */
  predicate Stands(gen: Generation, after: Generation) {
    && after.epoch == gen.epoch
    && (gen.settled ==> after.settled && after.result == gen.result)
    && (gen.superseded.Some? ==> after.superseded == gen.superseded)
  }

  predicate AllStand(w: World, w': World) {
    |w.generations| <= |w'.generations|
    && forall g: nat | g < |w.generations| :: Stands(w.generations[g], w'.generations[g])
  }

  lemma GenStepsStand(gen: Generation)
    ensures forall ok :: Stands(gen, PushLost(gen, ok))
    ensures gen.pushStart.PushUp? ==> Stands(gen, PushWon(gen))
    ensures forall scope, ok :: Stands(gen, ScopeSettled(gen, scope, ok))
    ensures gen.wiredWaits > 0 ==> forall ok :: Stands(gen, StationSettled(gen, ok))
    ensures forall epoch :: Stands(gen, Returned(gen, epoch))
    ensures forall scopes, waits, wired :: Stands(gen, StartChannels(gen, scopes, waits, wired))
    ensures forall state :: Stands(gen, Settle(gen, state).(stage := Over))
  {
    hide Succeed, Fail, CreatePlane, VerdictAtReturn;
  }

  lemma PutStands(w: World, w': World, g: nat)
    requires g < |w.generations| && |w'.generations| == |w.generations|
    requires w'.generations == w.generations[g := w'.generations[g]]
    requires Stands(w.generations[g], w'.generations[g])
    ensures AllStand(w, w')
  {
  }

  lemma ReachedByOneStep(w: World, e: Event)
    requires Enabled(w, e) && (e.ListArriving? || e.PushFailing? || e.PushDelivering? || e.MqttDelivering?
      || e.WiredDelivering? || e.Returning?)
    ensures AllStand(w, Step(w, e))
  {
    hide AllStand, Stands, PushLost, PushWon, ScopeSettled, StationSettled, Returned, StartChannels, Settle;
    GenStepsStand(w.generations[e.g]);
    PutStands(w, Step(w, e), e.g);
  }

  lemma SupersedeStands(gen: Generation)
    requires GenOk(gen)
    ensures Stands(gen, Supersede(gen))
  {
    hide CountsOk, Justified;
  }

  lemma LoadFailedStands(w: World, g: nat)
    requires GenerationIn(w, g, Loading)
    ensures AllStand(w, LoadFailed(w, g))
  {
    var gen := w.generations[g];
    assert Stands(gen, LoadFailed(w, g).generations[g]);
    PutStands(w, LoadFailed(w, g), g);
  }

  /** No step changes what a settled generation answered, or the epoch any generation belongs to. */
  lemma SettledAnswerStands(w: World, e: Event)
    requires GensOk(w) && Enabled(w, e)
    ensures AllStand(w, Step(w, e))
  {
    hide GensOk, GenOk, Quiet, Supersede, PushLost, PushWon, ScopeSettled, StationSettled, Returned, StartChannels;
    match e {
      case LoadFailing(g) => LoadFailedStands(w, g);
      case Disconnecting =>
        var n := |w.generations|;
        if n > 0 {
          CurrentGen(w, n - 1);
          SupersedeStands(w.generations[n - 1]);
        }
      case ListArriving(_, _, _) => ReachedByOneStep(w, e);
      case PushFailing(_, _) => ReachedByOneStep(w, e);
      case PushDelivering(_) => ReachedByOneStep(w, e);
      case MqttDelivering(_, _) => ReachedByOneStep(w, e);
      case WiredDelivering(_, _) => ReachedByOneStep(w, e);
      case Returning(_) => ReachedByOneStep(w, e);
      case _ =>
    }
  }

  /** Along any continuation of a run. */
  lemma {:induction false} AnswersStandForGood(before: seq<Event>, after: seq<Event>)
    requires After(before).Some? && After(before + after).Some?
    ensures AllStand(After(before).value, After(before + after).value)
    decreases |after|
  {
    hide GensOk, MqttOk, HoldingsOk, OpenClientsOk, InstalledClientOk, Step, Enabled, Stands;
    if after == [] {
      assert before + after == before;
      StandsAsIs(After(before).value);
    } else {
      var n := |after| - 1;
      assert (before + after)[..|before + after| - 1] == before + after[..n];
      AnswersStandForGood(before, after[..n]);
      InvInEveryRun(before + after[..n]);
      var w := After(before + after[..n]).value;
      SettledAnswerStands(w, after[n]);
      StandsOn(After(before).value, w, Step(w, after[n]));
    }
  }

  lemma StandsAsIs(w: World)
    ensures AllStand(w, w)
  {
  }

  lemma StandsOn(w: World, w': World, w'': World)
    requires AllStand(w, w') && AllStand(w', w'')
    ensures AllStand(w, w'')
  {
  }

  /**
   * Outside a disconnect, whatever is installed is open and belongs to the current epoch: the push client of
   * a superseded epoch is never left installed, nor is its MQTT transport.
   */
  lemma NothingStaleIsInstalled(events: seq<Event>)
    requires After(events).Some? && Quiet(After(events).value)
    ensures var w := After(events).value;
      && (forall s | s in w.transports ::
            var t := w.transports[s];
            && t < |w.sockets| && w.sockets[t].open && w.sockets[t].owner < |w.attempts|
            && w.attempts[w.sockets[t].owner].scope == s && w.attempts[w.sockets[t].owner].epoch == w.epoch)
      && (w.pushClient.Some? ==>
            var c := w.pushClient.value;
            && c < |w.clients| && w.clients[c].open && w.clients[c].owner < |w.generations|
            && w.generations[w.clients[c].owner].epoch == w.epoch)
  {
    InvInEveryRun(events);
    hide Quiet, GensOk, SocketsOk, MemosOk, OpenOk, ConnectedIsOpen, ClearedOk, AttemptEpochsOk;
  }

  /**
   * Outside a disconnect, a transport of an older epoch that is still open belongs to an attempt whose epoch
   * check is still to come, and that check closes it and leaves the installed transports alone.
   */
  lemma StaleTransportIsClosed(events: seq<Event>, t: nat)
    requires After(events).Some? && Quiet(After(events).value)
    requires var w := After(events).value;
      && t < |w.sockets| && w.sockets[t].open
      && (w.sockets[t].owner < |w.attempts| ==> w.attempts[w.sockets[t].owner].epoch < w.epoch)
    ensures var w := After(events).value;
      var check := Deciding(w.sockets[t].owner);
      Enabled(w, check) && !Step(w, check).sockets[t].open && Step(w, check).transports == w.transports
  {
    hide Quiet, PushOk, MemosOk, AttemptEpochsOk, ClearedOk;
    InvInEveryRun(events);
  }

  /**
   * The same for a push client: its bring-up is still running, and when every start of it is over it closes
   * the client and leaves the installed one alone.
   */
  lemma StalePushClientIsClosed(events: seq<Event>, c: nat)
    requires After(events).Some? && Quiet(After(events).value)
    requires var w := After(events).value;
      && c < |w.clients| && w.clients[c].open
      && (w.clients[c].owner < |w.generations| ==> w.generations[w.clients[c].owner].epoch < w.epoch)
    ensures var w := After(events).value;
      var g := w.clients[c].owner;
      && GenerationIn(w, g, Starting) && Holds(w.generations[g], c)
      && (AllDelivered(w.generations[g]) ==>
            !Return(w, g).clients[c].open && Return(w, g).pushClient == w.pushClient)
  {
    hide Quiet, GensOk, MqttOk, Returned, HoldingsOk;
    InvInEveryRun(events);
  }

  lemma ForgetsNothing(w: World, a: nat)
    requires MemosOk(w) && Quiet(w) && a < |w.attempts| && w.attempts[a].epoch < w.epoch
    ensures Reject(w, a).mqttReady == w.mqttReady
  {
  }

  /**
   * Outside a disconnect, an attempt of an older epoch that fails leaves every memo as it is, so it cannot
   * make room for a second bring-up beside its successor's.
   */
  lemma StaleFailureForgetsNothing(events: seq<Event>, a: nat)
    requires After(events).Some? && Quiet(After(events).value) && a < |After(events).value.attempts|
    requires After(events).value.attempts[a].epoch < After(events).value.epoch
    ensures Reject(After(events).value, a).mqttReady == After(events).value.mqttReady
  {
    hide Quiet, PushOk, MemosOk, InstalledOk, OpenOk, ClearedOk, SocketsOk, ConnectedIsOpen, AttemptEpochsOk;
    InvInEveryRun(events);
    ForgetsNothing(After(events).value, a);
  }

  predicate LiveNow(w: World, a: nat) {
    a < |w.attempts| && w.attempts[a].epoch == w.epoch && w.attempts[a].phase != Rejected
  }

  lemma MemoIsTheOne(w: World, a: nat)
    requires MemosOk(w) && LiveNow(w, a)
    ensures w.attempts[a].scope in w.mqttReady && w.mqttReady[w.attempts[a].scope] == a
  {
  }

  /** At most one bring-up of a scope lives per epoch, and installing a transport never overwrites another. */
  lemma OneBringUpPerScope(events: seq<Event>, a: nat, b: nat)
    requires After(events).Some? && LiveNow(After(events).value, a) && LiveNow(After(events).value, b)
    requires After(events).value.attempts[a].scope == After(events).value.attempts[b].scope
    ensures a == b
    ensures AttemptIn(After(events).value, a, Connected) ==>
      After(events).value.attempts[a].scope !in After(events).value.transports
  {
    hide Quiet, PushOk, MemosOk, InstalledOk, OpenOk, ClearedOk, SocketsOk, ConnectedIsOpen, AttemptEpochsOk;
    InvInEveryRun(events);
    var w := After(events).value;
    MemoIsTheOne(w, a);
    MemoIsTheOne(w, b);
    if AttemptIn(w, a, Connected) { InstallsIntoFreeScope(w, a); }
  }
}
