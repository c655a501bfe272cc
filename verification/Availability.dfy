/**
 * Device availability (src/client/eufy-mega.ts): one retained observation per device, ordered by what the
 * vendor stamped on it, and an `availability` event for each change of state.
 */
module Availability {
  import opened Wrappers

  datatype Source = Source(transport: string, signal: string)

  datatype Observation = Observation(
    sn: string,
    available: bool,
    source: Source,
    observedAt: Option<int>,
    sequence: Option<int>,
    receivedAt: int)

  datatype State = State(retained: map<string, Observation>, emitted: seq<Observation>)

  const NOTHING := State(map[], [])

  predicate BothTimed(previous: Observation, o: Observation) {
    previous.observedAt.Some? && o.observedAt.Some?
  }

  /** The evidence says this observation must not replace the previous one. */
  predicate Refused(previous: Observation, o: Observation) {
    || (BothTimed(previous, o) && o.observedAt.value < previous.observedAt.value)
    || (&& previous.source == o.source
        && (BothTimed(previous, o) ==> o.observedAt == previous.observedAt)
        && previous.sequence.Some? && o.sequence.Some?
        && (|| o.sequence.value < previous.sequence.value
            || (o.sequence == previous.sequence && o.available != previous.available)))
  }

  function Apply(s: State, o: Observation): State {
    if o.sn in s.retained && Refused(s.retained[o.sn], o) then s
    else
      State(s.retained[o.sn := o],
            if o.sn in s.retained && s.retained[o.sn].available == o.available then s.emitted else s.emitted + [o])
  }

  function Deliver(observations: seq<Observation>): State {
    if observations == [] then NOTHING
    else Apply(Deliver(observations[..|observations| - 1]), observations[|observations| - 1])
  }

  function OfDevice(observations: seq<Observation>, sn: string): seq<Observation> {
    if observations == [] then []
    else
      var o := observations[|observations| - 1];
      OfDevice(observations[..|observations| - 1], sn) + if o.sn == sn then [o] else []
  }

  /** Which of two times or sequence numbers is greater, if both are there. */
  datatype Order = Incomparable | Less | Same | Greater

  function Compare(a: Option<int>, b: Option<int>): Order {
    if a.None? || b.None? then Incomparable
    else if a.value < b.value then Less
    else if a.value == b.value then Same
    else Greater
  }

  /**
   * What is retained of a previous observation and a new one, case by case. A newer time wins and an older one
   * loses. With equal times, or no two to compare, another source wins; from the same source a greater sequence
   * wins, a smaller loses, an equal one wins only in agreement, and with no two to compare the later arrival wins.
   */
  lemma WhatIsRetained(s: State, o: Observation)
    requires o.sn in s.retained
    ensures var previous := s.retained[o.sn];
      Apply(s, o).retained[o.sn] ==
      match Compare(o.observedAt, previous.observedAt)
      case Greater => o
      case Less => previous
      case _ =>
        if o.source != previous.source then o
        else
          match Compare(o.sequence, previous.sequence)
          case Less => previous
          case Same => if o.available == previous.available then o else previous
          case _ => o
  {
  }

  /** The first observation of a device is retained whatever it lacks. */
  lemma FirstIsRetained(s: State, o: Observation)
    requires o.sn !in s.retained
    ensures Apply(s, o).retained == s.retained[o.sn := o] && Apply(s, o).emitted == s.emitted + [o]
  {
  }

  // ---------------------------------------------------------------------------------------------
  // Every run
  // ---------------------------------------------------------------------------------------------

  predicate Alternates(emitted: seq<Observation>) {
    forall i: nat | 0 < i < |emitted| :: emitted[i].available != emitted[i - 1].available
  }

  /**
   * Whatever is delivered, stamped or not: the states emitted for a device strictly alternate, and the last
   * one emitted is the state retained.
   */
  lemma {:induction false} EmittedStatesAlternate(observations: seq<Observation>, sn: string)
    ensures var s := Deliver(observations);
      var emitted := OfDevice(s.emitted, sn);
      && Alternates(emitted)
      && (sn in s.retained <==> emitted != [])
      && (sn in s.retained ==> emitted[|emitted| - 1].available == s.retained[sn].available)
  {
    hide OfDevice, Refused;
    if observations == [] {
      NothingEmitted(sn);
    } else {
      var n := |observations| - 1;
      EmittedStatesAlternate(observations[..n], sn);
      var s, o := Deliver(observations[..n]), observations[n];
      EmittedNext(s.emitted, o, sn);
      assert Deliver(observations) == Apply(s, o);
    }
  }

  lemma NothingEmitted(sn: string)
    ensures OfDevice([], sn) == []
  {
  }

  lemma EmittedNext(emitted: seq<Observation>, o: Observation, sn: string)
    ensures OfDevice(emitted + [o], sn) == OfDevice(emitted, sn) + if o.sn == sn then [o] else []
  {
    assert (emitted + [o])[..|emitted|] == emitted;
  }

  /** What is delivered for other devices makes no difference to what is retained for this one. */
  lemma {:induction false} DevicesAreIndependent(observations: seq<Observation>, sn: string)
    ensures var whole, own := Deliver(observations).retained, Deliver(OfDevice(observations, sn)).retained;
      (sn in whole <==> sn in own) && (sn in whole ==> whole[sn] == own[sn])
  {
    if observations != [] {
      var n := |observations| - 1;
      DevicesAreIndependent(observations[..n], sn);
      var before := OfDevice(observations[..n], sn);
      assert (before + [observations[n]])[..|before|] == before;
      assert before + [] == before;
    }
  }

  // ---------------------------------------------------------------------------------------------
  // Fully stamped observations of one device
  // ---------------------------------------------------------------------------------------------

  predicate Stamped(o: Observation) {
    o.observedAt.Some? && o.sequence.Some?
  }

  /** A nonempty delivery of fully stamped observations of one device. */
  predicate StampedRun(observations: seq<Observation>, sn: string) {
    observations != [] && forall o | o in observations :: o.sn == sn && Stamped(o)
  }

  /** Lexicographic on (observedAt, sequence). */
  predicate NotAfter(a: Observation, b: Observation)
    requires Stamped(a) && Stamped(b)
  {
    || a.observedAt.value < b.observedAt.value
    || (a.observedAt == b.observedAt && a.sequence.value <= b.sequence.value)
  }

  predicate SameStamp(a: Observation, b: Observation) {
    a.observedAt == b.observedAt && a.sequence == b.sequence
  }

  lemma {:induction false} SomethingIsRetained(observations: seq<Observation>, sn: string)
    requires StampedRun(observations, sn)
    ensures sn in Deliver(observations).retained && Deliver(observations).retained[sn] in observations
  {
    var n := |observations| - 1;
    if n > 0 {
      assert StampedRun(observations[..n], sn);
      SomethingIsRetained(observations[..n], sn);
    }
  }

  function Final(observations: seq<Observation>, sn: string): (r: Observation)
    requires StampedRun(observations, sn)
    ensures r in observations && Stamped(r)
  {
    SomethingIsRetained(observations, sn);
    Deliver(observations).retained[sn]
  }

  lemma FinalStep(observations: seq<Observation>, sn: string)
    requires StampedRun(observations, sn) && |observations| > 1
    ensures var n := |observations| - 1;
      && StampedRun(observations[..n], sn)
      && var previous := Final(observations[..n], sn);
      Final(observations, sn) == if Refused(previous, observations[n]) then previous else observations[n]
  {
    var n := |observations| - 1;
    assert forall o | o in observations[..n] :: o in observations;
    SomethingIsRetained(observations[..n], sn);
  }

  /** The position of the first observation with the stamp of `o`. */
  predicate FirstWithStamp(observations: seq<Observation>, i: nat, o: Observation) {
    && i < |observations| && SameStamp(observations[i], o)
    && forall k: nat | k < i :: !SameStamp(observations[k], o)
  }

  predicate OneSource(observations: seq<Observation>) {
    forall a, b | a in observations && b in observations :: a.source == b.source
  }

  /**
   * From one source, the stamp retained is the greatest delivered, and of the observations that carry it the
   * first to arrive decides the state.
   */
  lemma {:induction false} TheLatestStampWins(observations: seq<Observation>, sn: string) returns (i: nat)
    requires StampedRun(observations, sn) && OneSource(observations)
    ensures var last := Final(observations, sn);
      && (forall o | o in observations :: NotAfter(o, last))
      && FirstWithStamp(observations, i, last) && observations[i].available == last.available
  {
    var n := |observations| - 1;
    if n == 0 {
      i := 0;
    } else {
      FinalStep(observations, sn);
      var before := observations[..n];
      i := TheLatestStampWins(before, sn);
      var previous, last := Final(before, sn), Final(observations, sn);
      forall o | o in observations ensures NotAfter(o, last) {
        assert o in before || o == observations[n];
        assert NotAfter(previous, last);
      }
      if !SameStamp(previous, last) {
        assert last == observations[n];
        forall k: nat | k < n ensures !SameStamp(observations[k], last) {
          assert observations[k] in before;
        }
        i := n;
      }
    }
  }

  /** With no two contradicting observations under one stamp, the order of delivery does not matter. */
  lemma OrderDoesNotMatter(observations: seq<Observation>, reordered: seq<Observation>, sn: string)
    requires StampedRun(observations, sn) && OneSource(observations)
    requires forall a, b | a in observations && b in observations && SameStamp(a, b) :: a.available == b.available
    requires multiset(reordered) == multiset(observations)
    ensures StampedRun(reordered, sn)
    ensures var a, b := Final(observations, sn), Final(reordered, sn); SameStamp(a, b) && a.available == b.available
  {
    SameElements(observations, reordered);
    var _ := TheLatestStampWins(observations, sn);
    var _ := TheLatestStampWins(reordered, sn);
  }

  lemma SameElements(a: seq<Observation>, b: seq<Observation>)
    requires multiset(a) == multiset(b)
    ensures forall o :: o in a <==> o in b
    ensures |a| == |b|
  {
    forall o ensures o in a <==> o in b {
      assert o in multiset(a) <==> o in multiset(b);
    }
    assert |multiset(a)| == |multiset(b)|;
  }

  // ---------------------------------------------------------------------------------------------
  // Several sources
  // ---------------------------------------------------------------------------------------------

  /** A source repeats itself exactly: the same stamp is the same observation. */
  predicate Repeatable(observations: seq<Observation>) {
    forall a, b | a in observations && b in observations && a.source == b.source && SameStamp(a, b) :: a == b
  }

  predicate Newest(observations: seq<Observation>, o: Observation) {
    && o in observations && o.observedAt.Some?
    && forall p | p in observations :: p.observedAt.Some? && p.observedAt.value <= o.observedAt.value
  }

  ghost predicate NewestShareSource(observations: seq<Observation>) {
    forall a, b | Newest(observations, a) && Newest(observations, b) :: a.source == b.source
  }

  ghost predicate OrderFree(observations: seq<Observation>, sn: string)
    requires StampedRun(observations, sn)
  {
    forall reordered | multiset(reordered) == multiset(observations) ::
      StampedRun(reordered, sn) && Final(reordered, sn) == Final(observations, sn)
  }

  lemma {:induction false} FinalIsNewest(observations: seq<Observation>, sn: string)
    requires StampedRun(observations, sn)
    ensures Newest(observations, Final(observations, sn))
  {
    var n := |observations| - 1;
    if n > 0 {
      FinalStep(observations, sn);
      FinalIsNewest(observations[..n], sn);
      assert observations == observations[..n] + [observations[n]];
    }
  }

  /** Where one source holds the latest instant, its greatest sequence is retained. */
  lemma {:induction false} LatestInstantDecides(observations: seq<Observation>, sn: string, t: int, source: Source)
    requires StampedRun(observations, sn)
    requires forall o | o in observations :: o.observedAt.value <= t && (o.observedAt.value == t ==> o.source == source)
    ensures var last := Final(observations, sn);
      last.observedAt.value == t ==>
        forall o | o in observations && o.observedAt.value == t :: o.sequence.value <= last.sequence.value
  {
    var n := |observations| - 1;
    if n > 0 {
      FinalStep(observations, sn);
      LatestInstantDecides(observations[..n], sn, t, source);
      FinalIsNewest(observations[..n], sn);
      assert observations == observations[..n] + [observations[n]];
    }
  }

  lemma SharedSourceIsOrderFree(observations: seq<Observation>, reordered: seq<Observation>, sn: string)
    requires StampedRun(observations, sn) && Repeatable(observations) && NewestShareSource(observations)
    requires multiset(reordered) == multiset(observations)
    ensures StampedRun(reordered, sn) && Final(reordered, sn) == Final(observations, sn)
  {
    SameElements(observations, reordered);
    FinalIsNewest(observations, sn);
    FinalIsNewest(reordered, sn);
    var a, b := Final(observations, sn), Final(reordered, sn);
    forall o | o in observations && o.observedAt == a.observedAt ensures o.source == a.source {
      assert Newest(observations, o);
    }
    LatestInstantDecides(observations, sn, a.observedAt.value, a.source);
    LatestInstantDecides(reordered, sn, a.observedAt.value, a.source);
  }

  lemma Prefix(s: seq<Observation>, o: Observation)
    ensures (s + [o])[..|s + [o]| - 1] == s && (s + [o])[|s + [o]| - 1] == o
  {
  }

  /** Two newest observations of different sources: the one delivered last is retained. */
  lemma LastOfTwoSourcesWins(rest: seq<Observation>, g: Observation, h: Observation, sn: string)
    requires StampedRun(rest + [g] + [h], sn) && g.source != h.source
    requires Newest(rest + [g] + [h], g) && Newest(rest + [g] + [h], h)
    ensures Final(rest + [g] + [h], sn) == h
  {
    var all := rest + [g] + [h];
    Prefix(rest + [g], h);
    Prefix(rest, g);
    FinalStep(all, sn);
    FinalIsNewest(rest + [g], sn);
    var previous := Final(rest + [g], sn);
    assert previous in all && g in rest + [g];
    assert previous.observedAt == g.observedAt;
    if rest == [] {
      assert rest + [g] == [g];
    } else {
      FinalStep(rest + [g], sn);
      FinalIsNewest(rest, sn);
      assert forall o | o in rest :: o in all;
    }
    assert previous.source == g.source;
  }

  function Without(s: seq<Observation>, o: Observation): (r: seq<Observation>)
    requires o in s
    ensures multiset(r) == multiset(s) - multiset{o}
  {
    var n := |s| - 1;
    assert s == s[..n] + [s[n]];
    if s[n] == o then s[..n] else Without(s[..n], o) + [s[n]]
  }

  /** Put two of the observations last, in the given order. */
  lemma TwoLast(observations: seq<Observation>, g: Observation, h: Observation) returns (rest: seq<Observation>)
    requires g in observations && h in observations && g != h
    ensures multiset(rest + [g] + [h]) == multiset(observations)
    ensures multiset(rest + [h] + [g]) == multiset(observations)
  {
    hide Without;
    var withoutG := Without(observations, g);
    assert h in multiset(withoutG);
    rest := Without(withoutG, h);
    PutBack(multiset(observations), g, h);
    JoinTwo(rest, g, h);
    JoinTwo(rest, h, g);
  }

  lemma PutBack(all: multiset<Observation>, g: Observation, h: Observation)
    requires g in all && h in all && g != h
    ensures all - multiset{g} - multiset{h} + multiset{g} + multiset{h} == all
    ensures all - multiset{g} - multiset{h} + multiset{h} + multiset{g} == all
  {
  }

  lemma JoinTwo(rest: seq<Observation>, g: Observation, h: Observation)
    ensures multiset(rest + [g] + [h]) == multiset(rest) + multiset{g} + multiset{h}
  {
  }

  lemma Rearranged(observations: seq<Observation>, reordered: seq<Observation>, sn: string, o: Observation)
    requires StampedRun(observations, sn) && Newest(observations, o)
    requires multiset(reordered) == multiset(observations)
    ensures StampedRun(reordered, sn) && Newest(reordered, o)
  {
    SameElements(observations, reordered);
  }

  lemma TwoSourcesAreNotOrderFree(observations: seq<Observation>, sn: string, g: Observation, h: Observation)
    requires StampedRun(observations, sn)
    requires Newest(observations, g) && Newest(observations, h) && g.source != h.source
    ensures !OrderFree(observations, sn)
  {
    var rest := TwoLast(observations, g, h);
    hide StampedRun, Newest, Final;
    var a, b := rest + [g] + [h], rest + [h] + [g];
    Rearranged(observations, a, sn, g);
    Rearranged(observations, a, sn, h);
    Rearranged(observations, b, sn, g);
    Rearranged(observations, b, sn, h);
    LastOfTwoSourcesWins(rest, g, h, sn);
    LastOfTwoSourcesWins(rest, h, g, sn);
    assert Final(a, sn) == h && Final(b, sn) == g;
  }

  /**
   * With several sources, every order of delivery retains the same observation exactly when the observations
   * with the latest `observedAt` all come from one source.
   */
  lemma OrderFreeIffNewestShareSource(observations: seq<Observation>, sn: string)
    requires StampedRun(observations, sn) && Repeatable(observations)
    ensures OrderFree(observations, sn) <==> NewestShareSource(observations)
  {
    hide Newest, Final, StampedRun, Repeatable;
    if NewestShareSource(observations) {
      forall reordered | multiset(reordered) == multiset(observations)
        ensures StampedRun(reordered, sn) && Final(reordered, sn) == Final(observations, sn)
      {
        SharedSourceIsOrderFree(observations, reordered, sn);
      }
    } else {
      var g, h :| Newest(observations, g) && Newest(observations, h) && g.source != h.source;
      TwoSourcesAreNotOrderFree(observations, sn, g, h);
    }
  }

  /** Every availability message the client handles carries the one verified source, so its order never matters. */
  const STATE_INFO := Source("smqtt", "state-info")

  // ---------------------------------------------------------------------------------------------
  // The client
  // ---------------------------------------------------------------------------------------------

  /** The part of the client that retains availability; `emitted` is the `availability` events so far. */
  class EufyMega {
    var availabilityObservations: map<string, Observation>
    var emitted: seq<Observation>

    function Current(): State
      reads this
    {
      State(availabilityObservations, emitted)
    }

    constructor ()
      ensures Current() == NOTHING
    {
      availabilityObservations, emitted := map[], [];
    }

    method ApplyAvailabilityObservation(observation: Observation)
      modifies this
      ensures Current() == Apply(old(Current()), observation)
    {
      var sn := observation.sn;
      var changed := true;
      if sn in availabilityObservations {
        var previous := availabilityObservations[sn];
        var sameSource := previous.source == observation.source;
        var bothTimed := previous.observedAt.Some? && observation.observedAt.Some?;
        if bothTimed && observation.observedAt.value < previous.observedAt.value { return; }
        if sameSource && (!bothTimed || observation.observedAt == previous.observedAt) {
          if previous.sequence.Some? && observation.sequence.Some?
             && observation.sequence.value < previous.sequence.value { return; }
          if previous.sequence.Some? && observation.sequence == previous.sequence
             && observation.available != previous.available { return; }
        }
        changed := previous.available != observation.available;
      }
      availabilityObservations := availabilityObservations[sn := observation];
      if changed { emitted := emitted + [observation]; }
    }

    /** A decoded state message; its source is always the same. */
    method ProcessAvailabilityMessage(
      sn: string, status: bool, observedAt: Option<int>, sequence: Option<int>, now: int)
      modifies this
      ensures Current() == Apply(old(Current()), Observation(sn, status, STATE_INFO, observedAt, sequence, now))
    {
      ApplyAvailabilityObservation(Observation(sn, status, STATE_INFO, observedAt, sequence, now));
    }
  }
}
