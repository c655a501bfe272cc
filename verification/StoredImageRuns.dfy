/** What holds in every run of the passive image cache. */
module StoredImageRuns {
  import opened Wrappers
  import opened Bytes
  import opened StoredImages

  /**
   * A cache in its world: the downloads still owed an answer, and, since the last clear, the distinct URLs
   * observed per device and how each delivered download ended.
   */
  datatype Run = Run(
    cache: Cache,
    outstanding: set<Candidate>,
    urls: map<string, seq<string>>,
    delivered: map<(string, nat), Outcome>)

  datatype Event =
    | Observing(key: string, url: string, now: int)
    | Completing(candidate: Candidate, outcome: Outcome)
    | Clearing

  const INITIAL := Run(EMPTY, {}, map[], map[])

  /** Only a download that is outstanding can complete, and each completes once. */
  predicate Enabled(r: Run, e: Event) {
    e.Completing? ==> e.candidate in r.outstanding
  }

  function UrlsOf(urls: map<string, seq<string>>, key: string): seq<string> {
    if key in urls then urls[key] else []
  }

  function Noted(urls: seq<string>, url: string): seq<string> {
    if url in urls then urls else urls + [url]
  }

  function Elements(s: seq<Candidate>): set<Candidate> {
    if s == [] then {} else {s[0]} + Elements(s[1..])
  }

  function Begin(r: Run, next: (Cache, seq<Candidate>)): Run {
    r.(cache := next.0, outstanding := r.outstanding + Elements(next.1))
  }

  function Step(r: Run, e: Event): Run
    requires Enabled(r, e)
  {
    match e
    case Observing(key, url, now) =>
      Begin(r, Observe(r.cache, key, url, now)).(urls := r.urls[key := Noted(UrlsOf(r.urls, key), url)])
    case Completing(candidate, outcome) =>
      Begin(Returned(r, candidate, outcome), Complete(r.cache, candidate, outcome))
    case Clearing => r.(cache := Clear(r.cache), urls := map[], delivered := map[])
  }

  /** The world after a download answered, before the cache reacts. */
  function Returned(r: Run, candidate: Candidate, outcome: Outcome): Run {
    r.(outstanding := r.outstanding - {candidate},
       delivered :=
         if candidate.generation == r.cache.generation then
           r.delivered[(candidate.deviceKey, candidate.sequence) := outcome]
         else r.delivered)
  }

  /** The state after a run of events, or `None` where one of them could not have happened. */
  function After(events: seq<Event>): Option<Run> {
    if events == [] then Some(INITIAL)
    else
      match After(events[..|events| - 1])
      case None => None
      case Some(r) =>
        var e := events[|events| - 1];
        if Enabled(r, e) then Some(Step(r, e)) else None
  }

  // ---------------------------------------------------------------------------------------------
  // The invariant
  // ---------------------------------------------------------------------------------------------

  function KeysOf(candidates: set<Candidate>): set<string> {
    set c | c in candidates :: c.deviceKey
  }

  predicate OnePerDevice(candidates: set<Candidate>) {
    forall c, d | c in candidates && d in candidates && c.deviceKey == d.deviceKey :: c == d
  }

  /** Slots: the counter, the device set and the outstanding downloads agree, two at most, one per device. */
  ghost predicate SlotsAgree(r: Run) {
    && 0 <= r.cache.activeDownloads <= SLOTS
    && |r.outstanding| == r.cache.activeDownloads
    && |r.cache.activeDevices| == r.cache.activeDownloads
    && r.cache.activeDevices == KeysOf(r.outstanding)
    && OnePerDevice(r.outstanding)
  }

  /** A device's download in flight is the outstanding one of this generation, and the other way round. */
  ghost predicate FlightsAgree(r: Run) {
    && (forall c | c in r.outstanding ::
          && c.generation <= r.cache.generation
          && (c.generation == r.cache.generation ==> Current(r.cache, c)))
    && (forall k | k in r.cache.devices && r.cache.devices[k].inFlight.Some? ::
          var f := r.cache.devices[k].inFlight.value;
          f in r.outstanding && f.deviceKey == k && f.generation == r.cache.generation)
  }

  /** No URL was lost: a candidate is the one made for the `sequence`-th distinct URL of its device. */
  predicate Names(c: Candidate, k: string, generation: nat, urls: seq<string>) {
    && c.deviceKey == k && c.generation == generation
    && 1 <= c.sequence <= |urls| && c.url == urls[c.sequence - 1]
  }

  /** Retained < in flight < queued, and the newest observed URL is the last of the three that is there. */
  predicate Ordered(s: DeviceState) {
    && (s.queued.Some? ==> s.queued.value.sequence == s.nextSequence)
    && (s.inFlight.Some? && s.queued.Some? ==> s.inFlight.value.sequence < s.queued.value.sequence)
    && (s.inFlight.Some? && s.queued.None? ==> s.inFlight.value.sequence == s.nextSequence)
    && (s.retained.Some? && s.inFlight.Some? ==> s.retained.value.sequence < s.inFlight.value.sequence)
    && (s.retained.Some? && s.queued.Some? ==> s.retained.value.sequence < s.queued.value.sequence)
    && (s.retained.Some? ==> s.retained.value.sequence <= s.nextSequence)
  }

  predicate IsGood(o: Outcome) {
    o.Arrived? && IsValidJpeg(o.image)
  }

  /** How the state of a device with nothing pending reflects the outcome of its newest download. */
  predicate Reflects(s: DeviceState, o: Outcome) {
    match o
    case LifecycleFailed(e) => s.lifecycleError == Some(e) && s.reason == None
    case Failed => s.lifecycleError == None && s.reason == Some(DownloadFailed)
    case Arrived(image) =>
      s.lifecycleError == None && s.reason == if IsValidJpeg(image) then None else Some(InvalidImage)
  }

  /** The deliveries of one device and what is retained of them. */
  ghost predicate Delivered(s: DeviceState, k: string, delivered: map<(string, nat), Outcome>) {
    && (forall n | (k, n) in delivered ::
          && 1 <= n <= s.nextSequence
          && (s.inFlight.Some? ==> n < s.inFlight.value.sequence)
          && (s.queued.Some? ==> n < s.queued.value.sequence)
          && (IsGood(delivered[(k, n)]) ==> s.retained.Some? && n <= s.retained.value.sequence))
    && (s.retained.Some? ==>
          && (k, s.retained.value.sequence) in delivered
          && delivered[(k, s.retained.value.sequence)] == Arrived(s.retained.value.image)
          && IsValidJpeg(s.retained.value.image))
    && (s.queued.None? && s.inFlight.None? ==>
          (k, s.nextSequence) in delivered && Reflects(s, delivered[(k, s.nextSequence)]))
  }

  ghost predicate DeviceOk(s: DeviceState, k: string, generation: nat, urls: seq<string>,
                           delivered: map<(string, nat), Outcome>) {
    && s.nextSequence == |urls| && 0 < |urls|
    && (forall u :: u in s.seenUrls <==> u in urls)
    && (s.queued.Some? ==> Names(s.queued.value, k, generation, urls))
    && (s.inFlight.Some? ==> Names(s.inFlight.value, k, generation, urls))
    && Ordered(s)
    && Delivered(s, k, delivered)
  }

  ghost predicate DevicesOk(r: Run) {
    && r.urls.Keys == r.cache.devices.Keys
    && (forall k | k in r.cache.devices ::
          DeviceOk(r.cache.devices[k], k, r.cache.generation, r.urls[k], r.delivered))
    && (forall k, n | (k, n) in r.delivered :: k in r.cache.devices)
    && (forall k :: k in r.cache.order <==> k in r.cache.devices)
  }

  ghost predicate Inv(r: Run) {
    SlotsAgree(r) && FlightsAgree(r) && DevicesOk(r)
  }

  /** A queued candidate waits only because both slots are taken or its own device is downloading. */
  predicate NothingIdle(c: Cache) {
    forall k | k in c.devices && c.devices[k].queued.Some? :: c.activeDownloads >= SLOTS || k in c.activeDevices
  }

  // ---------------------------------------------------------------------------------------------
  // The invariant holds in every run
  // ---------------------------------------------------------------------------------------------

  function Started(r: Run, key: string): Run
    requires Ready(r.cache, key)
  {
    r.(cache := Start(r.cache, key), outstanding := r.outstanding + {r.cache.devices[key].queued.value})
  }

  lemma AddOne(candidates: set<Candidate>, q: Candidate)
    requires OnePerDevice(candidates) && q.deviceKey !in KeysOf(candidates)
    ensures q !in candidates && OnePerDevice(candidates + {q})
    ensures KeysOf(candidates + {q}) == KeysOf(candidates) + {q.deviceKey}
  {
    assert forall k :: k in KeysOf(candidates + {q}) <==> k in KeysOf(candidates) || k == q.deviceKey by {
      assert q in candidates + {q};
      assert forall c :: c in candidates ==> c in candidates + {q};
    }
  }

  lemma RemoveOne(candidates: set<Candidate>, q: Candidate)
    requires OnePerDevice(candidates) && q in candidates
    ensures OnePerDevice(candidates - {q})
    ensures KeysOf(candidates - {q}) == KeysOf(candidates) - {q.deviceKey}
    ensures q.deviceKey in KeysOf(candidates)
  {
    forall k | k in KeysOf(candidates) && k != q.deviceKey ensures k in KeysOf(candidates - {q}) {
      var c :| c in candidates && c.deviceKey == k;
      assert c in candidates - {q};
    }
  }

  lemma StartKeepsSlots(r: Run, key: string)
    requires SlotsAgree(r) && r.cache.activeDownloads < SLOTS && Ready(r.cache, key)
    requires r.cache.devices[key].queued.value.deviceKey == key
    ensures SlotsAgree(Started(r, key))
    ensures r.cache.devices[key].queued.value !in r.outstanding
  {
    AddOne(r.outstanding, r.cache.devices[key].queued.value);
  }

  lemma StartKeepsFlights(r: Run, key: string)
    requires SlotsAgree(r) && FlightsAgree(r) && Ready(r.cache, key)
    requires var q := r.cache.devices[key].queued.value; q.deviceKey == key && q.generation == r.cache.generation
    ensures FlightsAgree(Started(r, key))
  {
    var q := r.cache.devices[key].queued.value;
    var r' := Started(r, key);
    forall c | c in r'.outstanding
      ensures c.generation <= r'.cache.generation
      ensures c.generation == r'.cache.generation ==> Current(r'.cache, c)
    {
      if c != q {
        assert c in r.outstanding;
        assert c.deviceKey in KeysOf(r.outstanding);
      }
    }
  }

  lemma DeviceStarts(s: DeviceState, k: string, generation: nat, urls: seq<string>,
                     delivered: map<(string, nat), Outcome>)
    requires DeviceOk(s, k, generation, urls, delivered) && s.queued.Some? && s.inFlight.None?
    ensures DeviceOk(s.(queued := None, inFlight := s.queued), k, generation, urls, delivered)
  {
  }

  lemma ReadyIsNotFlying(r: Run, key: string)
    requires Inv(r) && Ready(r.cache, key)
    ensures r.cache.devices[key].inFlight.None?
    ensures Names(r.cache.devices[key].queued.value, key, r.cache.generation, r.urls[key])
  {
    var s := r.cache.devices[key];
    assert DeviceOk(s, key, r.cache.generation, r.urls[key], r.delivered);
    assert key !in KeysOf(r.outstanding);
  }

  lemma StartKeepsDevices(r: Run, key: string)
    requires DevicesOk(r) && Ready(r.cache, key) && r.cache.devices[key].inFlight.None?
    ensures DevicesOk(Started(r, key))
  {
    hide DeviceOk;
    var s := r.cache.devices[key];
    var r' := Started(r, key);
    DeviceStarts(s, key, r.cache.generation, r.urls[key], r.delivered);
    forall k | k in r'.cache.devices
      ensures DeviceOk(r'.cache.devices[k], k, r'.cache.generation, r'.urls[k], r'.delivered)
    {
      if k != key { assert r'.cache.devices[k] == r.cache.devices[k]; }
    }
  }

  /** A download starts only for a device without one, so it is never confused with another. */
  lemma StartKeeps(r: Run, key: string)
    requires Inv(r) && r.cache.activeDownloads < SLOTS && Ready(r.cache, key)
    ensures r.cache.devices[key].queued.value !in r.outstanding
    ensures Inv(Started(r, key))
  {
    ReadyIsNotFlying(r, key);
    StartKeepsSlots(r, key);
    StartKeepsFlights(r, key);
    StartKeepsDevices(r, key);
  }

  lemma NoneReadyMeansNothingIdle(r: Run)
    requires Inv(r)
    requires r.cache.activeDownloads >= SLOTS || FirstReady(r.cache, r.cache.order).None?
    ensures NothingIdle(r.cache)
  {
  }

  lemma {:induction false} PumpKeeps(r: Run)
    requires Inv(r)
    ensures Inv(Begin(r, Pump(r.cache))) && NothingIdle(Pump(r.cache).0)
    decreases SLOTS - r.cache.activeDownloads
  {
    hide Inv, NothingIdle;
    if r.cache.activeDownloads < SLOTS && FirstReady(r.cache, r.cache.order).Some? {
      var key := FirstReady(r.cache, r.cache.order).value;
      var q := r.cache.devices[key].queued.value;
      var next := Started(r, key);
      StartKeeps(r, key);
      PumpKeeps(next);
      var more := Pump(next.cache).1;
      assert Pump(r.cache) == (Pump(next.cache).0, [q] + more);
      assert Elements([q] + more) == {q} + Elements(more) by { assert ([q] + more)[1..] == more; }
      assert Begin(r, Pump(r.cache)) == Begin(next, Pump(next.cache));
    } else {
      assert Begin(r, Pump(r.cache)) == r;
      NoneReadyMeansNothingIdle(r);
    }
  }

  lemma DeviceObserves(s: DeviceState, k: string, generation: nat, urls: seq<string>,
                       delivered: map<(string, nat), Outcome>, c: Candidate)
    requires DeviceOk(s, k, generation, urls, delivered)
      || (s == FRESH_DEVICE && urls == [] && forall n | (k, n) in delivered :: false)
    requires c.url !in s.seenUrls
    requires c.deviceKey == k && c.generation == generation && c.sequence == s.nextSequence + 1
    ensures DeviceOk(Observed(s, c), k, generation, urls + [c.url], delivered)
  {
    assert forall n | (k, n) in delivered :: n <= s.nextSequence;
  }

  lemma SeenIsNoted(r: Run, key: string, url: string)
    requires Inv(r)
    ensures var s := Admit(r.cache, key).devices[key];
      url in s.seenUrls <==> url in UrlsOf(r.urls, key)
  {
    if key in r.cache.devices {
      assert DeviceOk(r.cache.devices[key], key, r.cache.generation, r.urls[key], r.delivered);
    }
  }

  /** The state of an observation that is news, before the pump runs. */
  function Queued(r: Run, key: string, url: string, now: int): Run {
    var c := Admit(r.cache, key);
    var candidate := NewCandidate(c, key, url, now);
    r.(cache := c.(devices := c.devices[key := Observed(c.devices[key], candidate)]),
       urls := r.urls[key := UrlsOf(r.urls, key) + [url]])
  }

  lemma QueuedKeepsFlights(r: Run, key: string, url: string, now: int)
    requires FlightsAgree(r)
    ensures FlightsAgree(Queued(r, key, url, now))
  {
    var r' := Queued(r, key, url, now);
    forall c | c in r'.outstanding && c.generation == r'.cache.generation ensures Current(r'.cache, c) {
      assert Current(r.cache, c);
    }
    forall k | k in r'.cache.devices && r'.cache.devices[k].inFlight.Some?
      ensures var f := r'.cache.devices[k].inFlight.value;
        f in r'.outstanding && f.deviceKey == k && f.generation == r'.cache.generation
    {
      assert k in r.cache.devices && r.cache.devices[k].inFlight == r'.cache.devices[k].inFlight;
    }
  }

  lemma QueuedKeepsDevices(r: Run, key: string, url: string, now: int)
    requires DevicesOk(r) && url !in Admit(r.cache, key).devices[key].seenUrls
    ensures DevicesOk(Queued(r, key, url, now))
  {
    hide DeviceOk;
    var r' := Queued(r, key, url, now);
    var s := Admit(r.cache, key).devices[key];
    var candidate := NewCandidate(Admit(r.cache, key), key, url, now);
    DeviceObserves(s, key, r.cache.generation, UrlsOf(r.urls, key), r.delivered, candidate);
    forall k | k in r'.cache.devices
      ensures DeviceOk(r'.cache.devices[k], k, r'.cache.generation, r'.urls[k], r'.delivered)
    {
      if k != key { assert r'.cache.devices[k] == r.cache.devices[k]; }
    }
  }

  lemma ObserveKeeps(r: Run, key: string, url: string, now: int)
    requires Inv(r) && NothingIdle(r.cache)
    ensures var r' := Step(r, Observing(key, url, now)); Inv(r') && NothingIdle(r'.cache)
  {
    hide DeviceOk, NothingIdle, FlightsAgree, Pump;
    SeenIsNoted(r, key, url);
    if url in UrlsOf(r.urls, key) {
      assert Observe(r.cache, key, url, now) == (r.cache, []);
      assert r.urls[key := Noted(UrlsOf(r.urls, key), url)] == r.urls;
      assert Step(r, Observing(key, url, now)) == r;
    } else {
      var q := Queued(r, key, url, now);
      QueuedKeepsFlights(r, key, url, now);
      QueuedKeepsDevices(r, key, url, now);
      PumpKeeps(q);
      assert Step(r, Observing(key, url, now)) == Begin(q, Pump(q.cache));
    }
  }

  // A download answering.

  lemma DeviceLands(s: DeviceState, k: string, generation: nat, urls: seq<string>,
                    delivered: map<(string, nat), Outcome>, c: Candidate, o: Outcome)
    requires DeviceOk(s, k, generation, urls, delivered) && s.inFlight == Some(c)
    ensures DeviceOk(Land(s, c, o), k, generation, urls, delivered[(k, c.sequence) := o])
  {
  }

  lemma DeliveredElsewhere(s: DeviceState, k: string, generation: nat, urls: seq<string>,
                           delivered: map<(string, nat), Outcome>, other: string, n: nat, o: Outcome)
    requires DeviceOk(s, k, generation, urls, delivered) && other != k
    ensures DeviceOk(s, k, generation, urls, delivered[(other, n) := o])
  {
  }

  function Settled(r: Run, c: Candidate, o: Outcome): Run {
    Returned(r, c, o).(cache := Settle(r.cache, c, o))
  }

  lemma SettledKeepsSlots(r: Run, c: Candidate, o: Outcome)
    requires SlotsAgree(r) && c in r.outstanding
    ensures SlotsAgree(Settled(r, c, o))
  {
    RemoveOne(r.outstanding, c);
  }

  lemma SettledKeepsFlights(r: Run, c: Candidate, o: Outcome)
    requires OnePerDevice(r.outstanding) && FlightsAgree(r) && c in r.outstanding
    ensures FlightsAgree(Settled(r, c, o))
  {
    var r' := Settled(r, c, o);
    forall d | d in r'.outstanding && d.generation == r'.cache.generation ensures Current(r'.cache, d) {
      assert d in r.outstanding && Current(r.cache, d) && d.deviceKey != c.deviceKey;
    }
    forall k | k in r'.cache.devices && r'.cache.devices[k].inFlight.Some?
      ensures var f := r'.cache.devices[k].inFlight.value;
        f in r'.outstanding && f.deviceKey == k && f.generation == r'.cache.generation
    {
      var d := r.cache.devices[k].inFlight.value;
      assert d in r.outstanding && d.deviceKey == k;
      assert d == c ==> k == c.deviceKey;
    }
  }

  lemma SettledKeepsDevices(r: Run, c: Candidate, o: Outcome)
    requires DevicesOk(r) && (c.generation == r.cache.generation ==> Current(r.cache, c))
    ensures DevicesOk(Settled(r, c, o))
  {
    hide DeviceOk;
    var r' := Settled(r, c, o);
    forall k | k in r'.cache.devices
      ensures DeviceOk(r'.cache.devices[k], k, r'.cache.generation, r'.urls[k], r'.delivered)
    {
      assert DeviceOk(r.cache.devices[k], k, r.cache.generation, r.urls[k], r.delivered);
      if c.generation == r.cache.generation {
        if k == c.deviceKey {
          DeviceLands(r.cache.devices[k], k, r.cache.generation, r.urls[k], r.delivered, c, o);
        } else {
          DeliveredElsewhere(r.cache.devices[k], k, r.cache.generation, r.urls[k], r.delivered,
                             c.deviceKey, c.sequence, o);
        }
      }
    }
  }

  lemma CompleteKeeps(r: Run, c: Candidate, o: Outcome)
    requires Inv(r) && c in r.outstanding
    ensures var r' := Step(r, Completing(c, o)); Inv(r') && NothingIdle(r'.cache)
  {
    hide DevicesOk, NothingIdle;
    SettledKeepsSlots(r, c, o);
    SettledKeepsFlights(r, c, o);
    SettledKeepsDevices(r, c, o);
    PumpKeeps(Settled(r, c, o));
  }

  lemma StepKeeps(r: Run, e: Event)
    requires Inv(r) && NothingIdle(r.cache) && Enabled(r, e)
    ensures Inv(Step(r, e)) && NothingIdle(Step(r, e).cache)
  {
    hide DeviceOk;
    match e
    case Observing(key, url, now) => ObserveKeeps(r, key, url, now);
    case Completing(c, o) => CompleteKeeps(r, c, o);
    case Clearing =>
  }

  lemma {:induction false} InvInEveryRun(events: seq<Event>)
    requires After(events).Some?
    ensures Inv(After(events).value) && NothingIdle(After(events).value.cache)
    decreases |events|
  {
    if events != [] {
      InvInEveryRun(events[..|events| - 1]);
      StepKeeps(After(events[..|events| - 1]).value, events[|events| - 1]);
    }
  }

  // ---------------------------------------------------------------------------------------------
  // Results
  // ---------------------------------------------------------------------------------------------

  /**
   * In every run, across clears, the slot counter is the number of devices downloading and of downloads
   * outstanding, at most two and never two for one device, and a queued device waits only because both slots
   * are taken or a download of its own is outstanding.
   */
  lemma SlotsInEveryRun(events: seq<Event>)
    requires After(events).Some?
    ensures var r := After(events).value; var c := r.cache;
      && c.activeDownloads == |c.activeDevices| == |r.outstanding| <= SLOTS
      && (forall x, y | x in r.outstanding && y in r.outstanding && x != y :: x.deviceKey != y.deviceKey)
      && (forall k | k in c.devices && c.devices[k].queued.Some? ::
            c.activeDownloads == SLOTS || exists d :: d in r.outstanding && d.deviceKey == k)
  {
    InvInEveryRun(events);
  }

  /** In every run a device's retained image is older than its download in flight, and that than its queued one. */
  lemma OrderInEveryRun(events: seq<Event>, k: string)
    requires After(events).Some? && k in After(events).value.cache.devices
    ensures Ordered(After(events).value.cache.devices[k])
  {
    InvInEveryRun(events);
    var r := After(events).value;
    assert DeviceOk(r.cache.devices[k], k, r.cache.generation, r.urls[k], r.delivered);
  }

  /** Starting downloads moves candidates but changes no passive answer. */
  lemma {:induction false} PumpChangesNoAnswer(c: Cache, k: string)
    ensures SnapshotStored(Pump(c).0, k) == SnapshotStored(c, k)
    ensures Pump(c).0.devices.Keys == c.devices.Keys && Pump(c).0.generation == c.generation
    ensures k in c.devices ==> Pump(c).0.devices[k].retained == c.devices[k].retained
    decreases SLOTS - c.activeDownloads
  {
    if c.activeDownloads < SLOTS && FirstReady(c, c.order).Some? {
      PumpChangesNoAnswer(Start(c, FirstReady(c, c.order).value), k);
    }
  }

  /** A valid image that arrives for the state still held is always retained: the order guard never refuses it. */
  lemma ValidImageIsAlwaysRetained(r: Run, c: Candidate, image: seq<Byte>)
    requires Inv(r) && c in r.outstanding && c.generation == r.cache.generation && IsValidJpeg(image)
    ensures var s := Step(r, Completing(c, Arrived(image))).cache.devices;
      c.deviceKey in s && s[c.deviceKey].retained == Some(Retained(c.sequence, image))
  {
    var s := r.cache.devices[c.deviceKey];
    assert Current(r.cache, c);
    assert DeviceOk(s, c.deviceKey, r.cache.generation, r.urls[c.deviceKey], r.delivered);
    PumpChangesNoAnswer(Settle(r.cache, c, Arrived(image)), c.deviceKey);
  }

  /** Between clears a device's retained image is only ever replaced by a newer one. */
  lemma RetainedOnlyRises(r: Run, e: Event, k: string)
    requires Enabled(r, e) && !e.Clearing? && k in r.cache.devices && r.cache.devices[k].retained.Some?
    ensures var s := Step(r, e).cache.devices;
      && k in s && s[k].retained.Some?
      && s[k].retained.value.sequence >= r.cache.devices[k].retained.value.sequence
      && (s[k].retained.value.sequence == r.cache.devices[k].retained.value.sequence ==>
            s[k].retained == r.cache.devices[k].retained)
  {
    match e
    case Observing(key, url, now) =>
      if url !in Admit(r.cache, key).devices[key].seenUrls {
        PumpChangesNoAnswer(Queued(r, key, url, now).cache, k);
      }
    case Completing(c, o) =>
      PumpChangesNoAnswer(Settle(r.cache, c, o), k);
  }

  /** A completion from before a clear frees its slot and changes no device's answer. */
  lemma StaleCompletionChangesNoAnswer(r: Run, c: Candidate, o: Outcome, k: string)
    requires Enabled(r, Completing(c, o)) && c.generation != r.cache.generation
    ensures var r' := Step(r, Completing(c, o));
      && SnapshotStored(r'.cache, k) == SnapshotStored(r.cache, k)
      && r'.urls == r.urls && r'.delivered == r.delivered
      && r'.cache.devices.Keys == r.cache.devices.Keys
      && (k in r.cache.devices ==> r'.cache.devices[k].retained == r.cache.devices[k].retained)
  {
    PumpChangesNoAnswer(Release(r.cache, c), k);
  }

  /** The newest of a device's first `n` candidates to have arrived as a valid image. */
  function NewestGood(delivered: map<(string, nat), Outcome>, k: string, n: nat): Option<seq<Byte>> {
    if n == 0 then None
    else if (k, n) in delivered && IsGood(delivered[(k, n)]) then Some(delivered[(k, n)].image)
    else NewestGood(delivered, k, n - 1)
  }

  lemma {:induction false} RetainedIsNewestGood(s: DeviceState, k: string, delivered: map<(string, nat), Outcome>, n: nat)
    requires Delivered(s, k, delivered)
    requires s.retained.Some? ==> n >= s.retained.value.sequence
    ensures NewestGood(delivered, k, n) == if s.retained.Some? then Some(s.retained.value.image) else None
    decreases n
  {
    if n > 0 && !((k, n) in delivered && IsGood(delivered[(k, n)])) {
      RetainedIsNewestGood(s, k, delivered, n - 1);
    }
  }

  /** What a passive read should answer, told by the observed URLs and their deliveries alone. */
  function Expected(urls: seq<string>, delivered: map<(string, nat), Outcome>, k: string): Snapshot {
    var n := |urls|;
    var best := NewestGood(delivered, k, n);
    var answer := (reason: Reason) => if best.Some? then Resolved(best.value) else Unavailable(reason);
    if n == 0 then Unavailable(NotObserved)
    else if (k, n) !in delivered then answer(Pending)
    else
      match delivered[(k, n)]
      case LifecycleFailed(e) => LifecycleRejected(e)
      case Failed => answer(DownloadFailed)
      case Arrived(image) => if IsValidJpeg(image) then Resolved(image) else answer(InvalidImage)
  }

  /**
   * In every run a passive read is decided by what was observed and delivered since the last clear: the image
   * of the newest observed URL once it has arrived whole, until then the newest good image before it.
   */
  lemma PassiveReadFollowsHistory(events: seq<Event>, k: string)
    requires After(events).Some?
    ensures var r := After(events).value;
      SnapshotStored(r.cache, k) == Expected(UrlsOf(r.urls, k), r.delivered, k)
  {
    InvInEveryRun(events);
    var r := After(events).value;
    if k in r.cache.devices {
      var s := r.cache.devices[k];
      assert DeviceOk(s, k, r.cache.generation, r.urls[k], r.delivered);
      RetainedIsNewestGood(s, k, r.delivered, s.nextSequence);
    }
  }

  /** The devices observed since the last clear, in the order they were first observed. */
  function FirstObserved(events: seq<Event>): seq<string> {
    if events == [] then []
    else
      var before := FirstObserved(events[..|events| - 1]);
      match events[|events| - 1]
      case Observing(key, _, _) => if key in before then before else before + [key]
      case Completing(_, _) => before
      case Clearing => []
  }

  lemma {:induction false} PumpKeepsOrder(c: Cache)
    ensures Pump(c).0.order == c.order && Pump(c).0.devices.Keys == c.devices.Keys
    decreases SLOTS - c.activeDownloads
  {
    if c.activeDownloads < SLOTS && FirstReady(c, c.order).Some? {
      PumpKeepsOrder(Start(c, FirstReady(c, c.order).value));
    }
  }

  lemma StepOrders(r: Run, e: Event, order: seq<string>)
    requires Enabled(r, e) && r.cache.order == order && forall k :: k in order <==> k in r.cache.devices
    ensures Step(r, e).cache.order ==
      match e
      case Observing(key, _, _) => if key in order then order else order + [key]
      case Completing(_, _) => order
      case Clearing => []
    ensures forall k :: k in Step(r, e).cache.order <==> k in Step(r, e).cache.devices
  {
    hide IsValidJpeg, Land;
    match e
    case Observing(key, url, now) =>
      var c := Admit(r.cache, key);
      if url !in c.devices[key].seenUrls { PumpKeepsOrder(Queued(r, key, url, now).cache); }
    case Completing(candidate, outcome) => PumpKeepsOrder(Settle(r.cache, candidate, outcome));
    case Clearing =>
  }

  /** In every run, the devices are served in the order in which they were first observed since the last clear. */
  lemma {:induction false} ServedInOrderObserved(events: seq<Event>)
    requires After(events).Some?
    ensures After(events).value.cache.order == FirstObserved(events)
    ensures forall k :: k in FirstObserved(events) <==> k in After(events).value.cache.devices
  {
    hide Step, Enabled;
    if events != [] {
      var n := |events| - 1;
      ServedInOrderObserved(events[..n]);
      StepOrders(After(events[..n]).value, events[n], FirstObserved(events[..n]));
    }
  }

  lemma {:induction false} PumpKeepsOrStarts(c: Cache, k: string)
    requires k in c.devices && c.devices[k].queued.Some?
    ensures k in Pump(c).0.devices
    ensures Pump(c).0.devices[k].queued == c.devices[k].queued || c.devices[k].queued.value in Pump(c).1
    decreases SLOTS - c.activeDownloads
  {
    PumpKeepsOrder(c);
    if c.activeDownloads < SLOTS && FirstReady(c, c.order).Some? {
      var key := FirstReady(c, c.order).value;
      if key != k { PumpKeepsOrStarts(Start(c, key), k); }
    }
  }

  /** A URL not seen before is queued or handed out as it was observed: its device, its address and its time. */
  lemma NewsGoesOutAsObserved(c: Cache, key: string, url: string, now: int)
    requires key in c.devices ==> url !in c.devices[key].seenUrls
    ensures var (after, started) := Observe(c, key, url, now);
      && key in after.devices
      && exists q: Candidate ::
           && q.deviceKey == key && q.url == url && q.observedAt == now && q.generation == c.generation
           && (after.devices[key].queued == Some(q) || q in started)
  {
    var admitted := Admit(c, key);
    var q := NewCandidate(admitted, key, url, now);
    var queued := admitted.(devices := admitted.devices[key := Observed(admitted.devices[key], q)]);
    PumpKeepsOrStarts(queued, key);
  }
}
