/**
 * The passive image cache (src/transport/stored-image-cache.ts): at most two downloads at a time, one per
 * device, the newest image wins, and clearing starts a new generation.
 *
 * The cache's state is a value, `Cache`; the class updates its fields in place and is proved to follow the
 * functions on that value. A run adds the downloads the outside world still owes an answer for and what has
 * been observed and delivered since the last clear; the results hold in every run.
 */
module StoredImages {
  import opened Wrappers
  import opened Bytes

  const MAX_JPEG_BYTES := 10 * 1024 * 1024
  const SLOTS := 2

  /** One observed URL. Created once per observation; no two outstanding ones are equal as values. */
  datatype Candidate = Candidate(deviceKey: string, url: string, sequence: nat, observedAt: int, generation: nat)

  datatype Reason = Pending | NotObserved | DownloadFailed | InvalidImage

  datatype Retained = Retained(sequence: nat, image: seq<Byte>)

  datatype DeviceState = DeviceState(
    nextSequence: nat,
    seenUrls: set<string>,
    queued: Option<Candidate>,
    inFlight: Option<Candidate>,
    retained: Option<Retained>,
    reason: Option<Reason>,
    lifecycleError: Option<string>)

  const FRESH_DEVICE := DeviceState(0, {}, None, None, None, None, None)

  /** How a download ended: with bytes, with an error of the session's life cycle, or with any other error. */
  datatype Outcome = Arrived(image: seq<Byte>) | LifecycleFailed(error: string) | Failed

  /** What a passive read answers. */
  datatype Snapshot = Resolved(image: seq<Byte>) | LifecycleRejected(error: string) | Unavailable(reason: Reason)

  /** The fields of the cache. `order` is the insertion order of the device map. */
  datatype Cache = Cache(
    order: seq<string>,
    devices: map<string, DeviceState>,
    activeDevices: set<string>,
    activeDownloads: int,
    generation: nat)

  const EMPTY := Cache([], map[], {}, 0, 0)

  predicate IsValidJpeg(image: seq<Byte>) {
    var n := |image|;
    && 5 <= n <= MAX_JPEG_BYTES
    && image[0] == 0xff && image[1] == 0xd8 && image[2] == 0xff
    && image[n - 2] == 0xff && image[n - 1] == 0xd9
  }

  /** A start marker and one octet of the next, an end marker, anything between, and no more than the limit. */
  lemma ValidJpegIff(image: seq<Byte>)
    ensures IsValidJpeg(image) <==>
      |image| <= 10485760 && exists inside :: image == [0xff, 0xd8, 0xff] + inside + [0xff, 0xd9]
  {
    if IsValidJpeg(image) {
      var n := |image|;
      assert image == [0xff, 0xd8, 0xff] + image[3..n - 2] + [0xff, 0xd9];
    }
  }

  // ---------------------------------------------------------------------------------------------
  // The operations as functions of the state
  // ---------------------------------------------------------------------------------------------

  predicate Ready(c: Cache, key: string) {
    key in c.devices && c.devices[key].queued.Some? && key !in c.activeDevices
  }

  /** The first device in insertion order with a queued candidate and no download of its own. */
  function FirstReady(c: Cache, keys: seq<string>): (r: Option<string>)
    ensures r.Some? ==>
      exists i :: 0 <= i < |keys| && keys[i] == r.value && Ready(c, keys[i])
                  && forall j :: 0 <= j < i ==> !Ready(c, keys[j])
    ensures r.None? ==> forall k | k in keys :: !Ready(c, k)
  {
    if keys == [] then None
    else if Ready(c, keys[0]) then Some(keys[0])
    else FirstReady(c, keys[1..])
  }

  /** Hand one device's queued candidate to the downloader. */
  function Start(c: Cache, key: string): Cache
    requires Ready(c, key)
  {
    var s := c.devices[key];
    c.(devices := c.devices[key := s.(queued := None, inFlight := s.queued)],
       activeDownloads := c.activeDownloads + 1,
       activeDevices := c.activeDevices + {s.queued.value.deviceKey})
  }

  /** Fill the free slots; answers the new state and the candidates started, in order. */
  function Pump(c: Cache): (Cache, seq<Candidate>)
    decreases SLOTS - c.activeDownloads
  {
    if c.activeDownloads >= SLOTS then (c, [])
    else
      match FirstReady(c, c.order)
      case None => (c, [])
      case Some(key) =>
        var (after, started) := Pump(Start(c, key));
        (after, [c.devices[key].queued.value] + started)
  }

  function Before(started: seq<Candidate>, r: (Cache, seq<Candidate>)): (Cache, seq<Candidate>) {
    (r.0, started + r.1)
  }

  lemma NothingBefore(r: (Cache, seq<Candidate>))
    ensures Before([], r) == r
  {
    assert [] + r.1 == r.1;
  }

  /** One turn of the pump, with what was started before it. */
  lemma StartedFirst(started: seq<Candidate>, c: Cache)
    ensures c.activeDownloads >= SLOTS || FirstReady(c, c.order).None? ==>
      Before(started, Pump(c)) == (c, started)
    ensures c.activeDownloads < SLOTS && FirstReady(c, c.order).Some? ==>
      var key := FirstReady(c, c.order).value;
      Before(started, Pump(c)) == Before(started + [c.devices[key].queued.value], Pump(Start(c, key)))
  {
    if c.activeDownloads < SLOTS && FirstReady(c, c.order).Some? {
      var key := FirstReady(c, c.order).value;
      var q, more := c.devices[key].queued.value, Pump(Start(c, key)).1;
      assert started + ([q] + more) == (started + [q]) + more;
    } else {
      assert Pump(c) == (c, []);
      assert started + [] == started;
    }
  }

  function Observed(s: DeviceState, c: Candidate): DeviceState {
    s.(nextSequence := c.sequence, seenUrls := s.seenUrls + {c.url}, queued := Some(c))
  }

  function Admit(c: Cache, key: string): Cache {
    if key in c.devices then c
    else c.(order := c.order + [key], devices := c.devices[key := FRESH_DEVICE])
  }

  function NewCandidate(c: Cache, key: string, url: string, now: int): Candidate
    requires key in c.devices
  {
    Candidate(key, url, c.devices[key].nextSequence + 1, now, c.generation)
  }

  function Observe(c: Cache, key: string, url: string, now: int): (Cache, seq<Candidate>) {
    var c := Admit(c, key);
    var s := c.devices[key];
    if url in s.seenUrls then (c, [])
    else Pump(c.(devices := c.devices[key := Observed(s, NewCandidate(c, key, url, now))]))
  }

  /** What a finished download does to the device it was for. */
  function Land(s: DeviceState, candidate: Candidate, outcome: Outcome): DeviceState {
    var s := s.(inFlight := None);
    match outcome
    case LifecycleFailed(e) => s.(lifecycleError := Some(e), reason := None)
    case Failed => s.(lifecycleError := None, reason := Some(DownloadFailed))
    case Arrived(image) =>
      if !IsValidJpeg(image) then s.(lifecycleError := None, reason := Some(InvalidImage))
      else if s.retained.None? || candidate.sequence > s.retained.value.sequence then
        s.(retained := Some(Retained(candidate.sequence, image)), lifecycleError := None, reason := None)
      else s
  }

  /** Whether a completion is still about the state held: same generation, same download. */
  predicate Current(c: Cache, candidate: Candidate) {
    && candidate.generation == c.generation
    && candidate.deviceKey in c.devices
    && c.devices[candidate.deviceKey].inFlight == Some(candidate)
  }

  function Release(c: Cache, candidate: Candidate): Cache {
    c.(activeDownloads := c.activeDownloads - 1, activeDevices := c.activeDevices - {candidate.deviceKey})
  }

  function Settle(c: Cache, candidate: Candidate, outcome: Outcome): Cache {
    var c := Release(c, candidate);
    if Current(c, candidate) then
      var key := candidate.deviceKey;
      c.(devices := c.devices[key := Land(c.devices[key], candidate, outcome)])
    else c
  }

  function Complete(c: Cache, candidate: Candidate, outcome: Outcome): (Cache, seq<Candidate>) {
    Pump(Settle(c, candidate, outcome))
  }

  function Clear(c: Cache): Cache {
    c.(generation := c.generation + 1, devices := map[], order := [])
  }

  function SnapshotStored(c: Cache, key: string): Snapshot {
    if key !in c.devices then Unavailable(NotObserved)
    else
      var s := c.devices[key];
      var reason :=
        if s.queued.Some? || s.inFlight.Some? then Pending
        else if s.reason.Some? then s.reason.value else NotObserved;
      if reason != Pending && s.lifecycleError.Some? then LifecycleRejected(s.lifecycleError.value)
      else if s.retained.Some? then Resolved(s.retained.value.image)
      else Unavailable(reason)
  }

  // ---------------------------------------------------------------------------------------------
  // The class
  // ---------------------------------------------------------------------------------------------

  /** The cache itself. Each call answers the downloads it started; their answers come back to `Finish`. */
  class StoredImageCache {
    var order: seq<string>
    var devices: map<string, DeviceState>
    var activeDevices: set<string>
    var activeDownloads: int
    var generation: nat

    function State(): Cache
      reads this
    {
      Cache(order, devices, activeDevices, activeDownloads, generation)
    }

    constructor ()
      ensures State() == EMPTY
    {
      order, devices, activeDevices, activeDownloads, generation := [], map[], {}, 0, 0;
    }

    method FindReady() returns (key: Option<string>)
      ensures key == FirstReady(State(), order)
    {
      ghost var all := FirstReady(State(), order);
      assert order[0..] == order;
      for i := 0 to |order|
        invariant FirstReady(State(), order[i..]) == all
      {
        assert order[i..][1..] == order[i + 1..];
        if Ready(State(), order[i]) { return Some(order[i]); }
      }
      return None;
    }

    /** Give a ready device's queued candidate a slot. */
    method StartDevice(key: string) returns (candidate: Candidate)
      requires Ready(State(), key)
      modifies this
      ensures State() == Start(old(State()), key) && Some(candidate) == old(devices[key].queued)
    {
      var state := devices[key];
      candidate := state.queued.value;
      devices := devices[key := state.(queued := None, inFlight := Some(candidate))];
      activeDownloads := activeDownloads + 1;
      activeDevices := activeDevices + {candidate.deviceKey};
    }

    method FillSlots() returns (started: seq<Candidate>)
      modifies this
      ensures (State(), started) == Pump(old(State()))
    {
      started := [];
      ghost var all := Pump(State());
      NothingBefore(all);
      while activeDownloads < SLOTS
        invariant Before(started, Pump(State())) == all
        decreases SLOTS - activeDownloads
      {
        StartedFirst(started, State());
        var key := FindReady();
        if key.None? { return; }
        var candidate := StartDevice(key.value);
        started := started + [candidate];
      }
      StartedFirst(started, State());
    }

    /** Observe a thumbnail URL; a URL already seen for the device changes nothing. */
    method ObserveUrl(deviceKey: string, url: string, now: int) returns (started: seq<Candidate>)
      modifies this
      ensures (State(), started) == Observe(old(State()), deviceKey, url, now)
    {
      if deviceKey !in devices {
        devices := devices[deviceKey := FRESH_DEVICE];
        order := order + [deviceKey];
      }
      var state := devices[deviceKey];
      if url in state.seenUrls { return []; }
      var sequence := state.nextSequence + 1;
      var candidate := Candidate(deviceKey, url, sequence, now, generation);
      devices := devices[deviceKey :=
        state.(seenUrls := state.seenUrls + {url}, nextSequence := sequence, queued := Some(candidate))];
      started := FillSlots();
    }

    /** A download ended. */
    method Finish(candidate: Candidate, outcome: Outcome) returns (started: seq<Candidate>)
      modifies this
      ensures (State(), started) == Complete(old(State()), candidate, outcome)
    {
      activeDownloads := activeDownloads - 1;
      activeDevices := activeDevices - {candidate.deviceKey};
      var key := candidate.deviceKey;
      if candidate.generation == generation && key in devices && devices[key].inFlight == Some(candidate) {
        var state := devices[key].(inFlight := None);
        match outcome {
          case LifecycleFailed(e) => state := state.(lifecycleError := Some(e), reason := None);
          case Failed => state := state.(lifecycleError := None, reason := Some(DownloadFailed));
          case Arrived(image) =>
            if !IsValidJpeg(image) {
              state := state.(lifecycleError := None, reason := Some(InvalidImage));
            } else if state.retained.None? || candidate.sequence > state.retained.value.sequence {
              state := state.(retained := Some(Retained(candidate.sequence, image)));
              state := state.(lifecycleError := None, reason := None);
            }
        }
        devices := devices[key := state];
      }
      started := FillSlots();
    }

    /** A passive read: it starts nothing. */
    method ReadStored(deviceKey: string) returns (answer: Snapshot)
      ensures answer == SnapshotStored(State(), deviceKey)
    {
      var reason := NotObserved;
      if deviceKey in devices {
        var state := devices[deviceKey];
        if state.queued.Some? || state.inFlight.Some? {
          reason := Pending;
        } else if state.reason.Some? {
          reason := state.reason.value;
        }
        if reason != Pending && state.lifecycleError.Some? { return LifecycleRejected(state.lifecycleError.value); }
        if state.retained.Some? { return Resolved(state.retained.value.image); }
      }
      return Unavailable(reason);
    }

    /** Forget every device; downloads still running keep their slots. */
    method ClearAll()
      modifies this
      ensures State() == Clear(old(State()))
    {
      generation := generation + 1;
      devices, order := map[], [];
    }
  }
}
