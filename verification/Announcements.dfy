/**
 * Announcing a semantic event (src/client/eufy-mega.ts): the filter that keeps one physical change, reaching the
 * client over several transports, from being announced more than once.
 *
 * A signal that asks for it is announced on a change of its state only. Every signal is noted, and a tear-down
 * forgets what was announced.
 */
module Announcements {
  import opened Wrappers

  /**
   * A signal to announce. `state` is the value of the field its event is declared to carry its state in: `None`
   * when the event carries none, or this signal has no value for it.
   */
  datatype Signal = Signal(event: string, deviceSn: Option<string>, state: Option<string>)

  datatype State = State(lastStateAnnounced: map<string, string>, emitted: seq<Signal>)

  const INITIAL := State(map[], [])

  /** A signal that can repeat another: it states something, of a device. */
  predicate Comparable(signal: Signal) {
    signal.deviceSn.Some? && signal.state.Some?
  }

  function KeyOf(signal: Signal): string
    requires Comparable(signal)
  {
    signal.deviceSn.value + ":" + signal.event
  }

  predicate Repeats(last: map<string, string>, signal: Signal) {
    Comparable(signal) && KeyOf(signal) in last && last[KeyOf(signal)] == signal.state.value
  }

  function Note(last: map<string, string>, signal: Signal): map<string, string> {
    if Comparable(signal) then last[KeyOf(signal) := signal.state.value] else last
  }

  function Announce(s: State, signal: Signal, edge: bool): State {
    State(Note(s.lastStateAnnounced, signal),
          if edge && Repeats(s.lastStateAnnounced, signal) then s.emitted else s.emitted + [signal])
  }

  datatype Event = Announcing(signal: Signal, edge: bool) | TearingDown

  function After(events: seq<Event>): State {
    if events == [] then INITIAL
    else
      var s := After(events[..|events| - 1]);
      match events[|events| - 1]
      case Announcing(signal, edge) => Announce(s, signal, edge)
      case TearingDown => s.(lastStateAnnounced := map[])
  }

  // ---------------------------------------------------------------------------------------------
  // Results
  // ---------------------------------------------------------------------------------------------

  predicate IsFor(signal: Signal, key: string) {
    Comparable(signal) && KeyOf(signal) == key
  }

  /** The signals of one key since the last tear-down, oldest first. */
  function Received(events: seq<Event>, key: string): seq<Signal> {
    if events == [] then []
    else
      var before := Received(events[..|events| - 1], key);
      match events[|events| - 1]
      case Announcing(signal, _) => before + if IsFor(signal, key) then [signal] else []
      case TearingDown => []
  }

  lemma {:induction false} LastNotedIsLastReceived(events: seq<Event>, key: string)
    ensures var last, received := After(events).lastStateAnnounced, Received(events, key);
      && (key in last <==> received != [])
      && (forall s | s in received :: IsFor(s, key))
      && (received != [] ==> received[|received| - 1].state == Some(last[key]))
  {
    if events != [] {
      LastNotedIsLastReceived(events[..|events| - 1], key);
    }
  }

  /**
   * In every run, a signal is announced exactly when it does not ask for the filter, or states nothing of a
   * device, or states something else than the last signal of its kind since the last tear-down.
   */
  lemma AnnouncedIff(events: seq<Event>, signal: Signal, edge: bool)
    ensures var s := After(events);
      var received := if Comparable(signal) then Received(events, KeyOf(signal)) else [];
      Announce(s, signal, edge).emitted == s.emitted +
        if edge && received != [] && received[|received| - 1].state == signal.state then [] else [signal]
  {
    if Comparable(signal) { LastNotedIsLastReceived(events, KeyOf(signal)); }
    assert After(events).emitted + [] == After(events).emitted;
  }

  function OfKey(signals: seq<Signal>, key: string): seq<Signal> {
    if signals == [] then []
    else
      var last := signals[|signals| - 1];
      OfKey(signals[..|signals| - 1], key) + if IsFor(last, key) then [last] else []
  }

  /** Runs of one state collapsed to their first signal. */
  function Collapsed(signals: seq<Signal>): seq<Signal> {
    if signals == [] then []
    else
      var n := |signals| - 1;
      Collapsed(signals[..n]) + if n > 0 && signals[n - 1].state == signals[n].state then [] else [signals[n]]
  }

  predicate EdgeOnly(events: seq<Event>) {
    forall i: nat | i < |events| :: events[i].Announcing? && events[i].edge
  }

  lemma OfKeyNext(signals: seq<Signal>, signal: Signal, key: string)
    ensures OfKey(signals + [signal], key) == OfKey(signals, key) + if IsFor(signal, key) then [signal] else []
  {
    assert (signals + [signal])[..|signals|] == signals;
  }

  lemma CollapsedNext(signals: seq<Signal>, signal: Signal)
    ensures Collapsed(signals + [signal]) == Collapsed(signals) +
      if signals != [] && signals[|signals| - 1].state == signal.state then [] else [signal]
  {
    assert (signals + [signal])[..|signals|] == signals;
  }

  /** Signals of one event of one device share a key; other events of it, and other devices, have others. */
  lemma KeysTellApart(a: Signal, b: Signal)
    requires Comparable(a) && Comparable(b)
    ensures a.deviceSn == b.deviceSn ==> (KeyOf(a) == KeyOf(b) <==> a.event == b.event)
    ensures ':' !in a.deviceSn.value && ':' !in b.deviceSn.value ==>
      (KeyOf(a) == KeyOf(b) <==> a.deviceSn == b.deviceSn && a.event == b.event)
  {
    var x, y := a.deviceSn.value, b.deviceSn.value;
    assert KeyOf(a)[|x|] == ':' && KeyOf(b)[|y|] == ':';
    assert KeyOf(a)[..|x|] == x && KeyOf(b)[..|y|] == y;
    assert KeyOf(a)[|x| + 1..] == a.event && KeyOf(b)[|y| + 1..] == b.event;
    assert |x| < |y| ==> KeyOf(b)[|x|] == y[|x|];
    assert |y| < |x| ==> KeyOf(a)[|y|] == x[|y|];
  }

  /** Between tear-downs, filtered signals of one key are announced as the received ones with repeats collapsed. */
  lemma {:induction false} EachChangeIsAnnouncedOnce(events: seq<Event>, key: string)
    requires EdgeOnly(events)
    ensures OfKey(After(events).emitted, key) == Collapsed(Received(events, key))
  {
    hide Repeats, Collapsed, OfKey, IsFor;
    if events == [] {
      NothingAnnounced(key);
    } else {
      var n := |events| - 1;
      var s, signal := After(events[..n]), events[n].signal;
      EachChangeIsAnnouncedOnce(events[..n], key);
      LastNotedIsLastReceived(events[..n], key);
      OfKeyNext(s.emitted, signal, key);
      CollapsedNext(Received(events[..n], key), signal);
      RepeatsMeans(s.lastStateAnnounced, signal, key);
      var received := Received(events[..n], key);
      assert received + [] == received && OfKey(s.emitted, key) + [] == OfKey(s.emitted, key);
      assert Collapsed(received) + [] == Collapsed(received);
    }
  }

  lemma RepeatsMeans(last: map<string, string>, signal: Signal, key: string)
    ensures IsFor(signal, key) ==>
      (Repeats(last, signal) <==> key in last && Some(last[key]) == signal.state)
  {
  }

  lemma NothingAnnounced(key: string)
    ensures OfKey([], key) == [] && Collapsed([]) == []
  {
  }

  // ---------------------------------------------------------------------------------------------
  // The client
  // ---------------------------------------------------------------------------------------------

  /** The part of the client that announces; `emitted` is the events its listeners have been given. */
  class EufyMega {
    var lastStateAnnounced: map<string, string>
    var emitted: seq<Signal>

    function Current(): State
      reads this
    {
      State(lastStateAnnounced, emitted)
    }

    constructor ()
      ensures Current() == INITIAL
    {
      lastStateAnnounced, emitted := map[], [];
    }

    /** Note the state a signal reports, and answer whether it repeats the last one. */
    method NoteState(signal: Signal) returns (again: bool)
      modifies this`lastStateAnnounced
      ensures lastStateAnnounced == Note(old(lastStateAnnounced), signal)
      ensures again == Repeats(old(lastStateAnnounced), signal)
    {
      if signal.state.None? { return false; }
      if signal.deviceSn.None? { return false; }
      var key := signal.deviceSn.value + ":" + signal.event;
      if key in lastStateAnnounced && lastStateAnnounced[key] == signal.state.value {
        assert lastStateAnnounced[key := signal.state.value] == lastStateAnnounced;
        return true;
      }
      lastStateAnnounced := lastStateAnnounced[key := signal.state.value];
      return false;
    }

    /** `emitSemantic`, once a refresh the signal asked for is out of the way. */
    method EmitNow(signal: Signal, edge: bool)
      modifies this
      ensures Current() == Announce(old(Current()), signal, edge)
    {
      var again := NoteState(signal);
      if edge && again { return; }
      emitted := emitted + [signal];
    }

    method ForgetAnnounced()
      modifies this`lastStateAnnounced
      ensures Current() == old(Current()).(lastStateAnnounced := map[])
    {
      lastStateAnnounced := map[];
    }
  }
}
