/** What a transaction has told the outside, decided by what happened to it. */
module ObservedWriteHistory {
  import opened Wrappers
  import opened ObservedWrites
  import opened ObservedWriteRuns

  /** How many disconnects there have been. */
  function Epoch(events: seq<Event>): nat {
    if events == [] then 0
    else Epoch(events[..|events| - 1]) + if events[|events| - 1].Disconnecting? then 1 else 0
  }

  /**
   * What happened to one transaction: whether its turn came after its epoch, how its command was routed, how its
   * wait ended and whether its epoch still lasted then, and how the session recycle ended.
   */
  datatype History = History(
    late: bool,
    route: Option<bool>,
    wait: Option<Refresh>,
    inTime: bool,
    recycle: Option<bool>)

  const BLANK := History(false, None, None, false, None)

  /** One event more, for transaction `id`; `current` is whether its epoch still lasts. */
  function Hear(h: History, e: Event, id: nat, current: bool): History {
    match e
    case Beginning(k) => if k == id then h.(late := !current) else h
    case RouteEnding(k, ok) => if k == id then h.(route := Some(ok)) else h
    case RefreshEnding(k, outcome) => if k == id then h.(wait := Some(outcome), inTime := current) else h
    case RecycleEnding(k, ok) => if k == id then h.(recycle := Some(ok)) else h
    case _ => h
  }

  /** All that happened to transaction `id`, queued in `epoch`. */
  function Happened(events: seq<Event>, id: nat, epoch: nat): History {
    if events == [] then BLANK
    else
      var before := events[..|events| - 1];
      Hear(Happened(before, id, epoch), events[|events| - 1], id, Epoch(before) == epoch)
  }

  /** A refused write: its acknowledgement rejected, its counter given back, nothing else said. */
  const REFUSED := Told(1, true, 0, 0, 0, 1)

  /** What a transaction that is over should have told. */
  function Due(kind: Kind, h: History): Told {
    match kind
    case PushRefresh =>
      if h.wait == Some(Converged) then NOTHING.(announced := 1)
      else if h.wait == Some(Superseded) then NOTHING
      else NOTHING.(errors := 1)
    case Write(_, _) =>
      if h.late || h.route != Some(true) then REFUSED
      else
        var acknowledged := REFUSED.(rejected := false);
        if h.wait == Some(NotConverged) then acknowledged.(unconfirmed := 1)
        else if h.wait == Some(Broken) then acknowledged.(errors := 1)
        else if h.wait == Some(Converged) && h.inTime then
          acknowledged.(announced := 1, errors := if h.recycle == Some(false) then 1 else 0)
        else acknowledged
  }

  /** The course a write takes: to the wait only if routed in time, to a recycle only if asked and converged in time. */
  predicate RanItsCourse(kind: Kind, h: History) {
    match kind
    case PushRefresh => h.wait.Some? && h.route == None && h.recycle == None
    case Write(_, resets) =>
      && (h.late <==> h.route == None)
      && (h.wait.Some? <==> h.route == Some(true))
      && (h.recycle.Some? <==> h.wait == Some(Converged) && h.inTime && resets)
  }

  /** Where a transaction stands, by what happened so far. */
  predicate Fits(t: Transaction, h: History) {
    match t.phase
    case Waiting => h == BLANK && t.told == NOTHING
    case Routing => h == BLANK && t.told == NOTHING && t.kind.Write?
    case Refreshing =>
      && h.wait == None && h.recycle == None && !h.inTime
      && (if t.kind.Write? then !h.late && h.route == Some(true) && t.told == NOTHING.(settled := 1)
          else h.route == None && t.told == NOTHING)
    case Recycling =>
      && t.kind.Write? && t.kind.resets
      && h == History(false, Some(true), Some(Converged), true, None)
      && t.told == NOTHING.(settled := 1, announced := 1)
    case Operated(ok, refreshed) =>
      if t.kind.Write? then ok && RanItsCourse(t.kind, h) && t.told == Due(t.kind, h)
      else
        && t.told == NOTHING && RanItsCourse(t.kind, h)
        && ok == (h.wait == Some(Converged) || h.wait == Some(Superseded)) && refreshed == (h.wait == Some(Converged))
    case Finished => RanItsCourse(t.kind, h) && t.told == Due(t.kind, h)
  }

  lemma OwnStepFits(w: World, e: Event, id: nat, h: History)
    requires Enabled(w, e) && id < |w.queue| && Fits(w.queue[id], h)
    requires e.Beginning? || e.RouteEnding? || e.RefreshEnding? || e.RecycleEnding? || e.Finishing?
    requires e.id == id
    ensures Fits(Step(w, e).queue[id], Hear(h, e, id, w.queue[id].epoch == w.epoch))
  {
    hide Release;
    match e {
      case Beginning(_) =>
      case RouteEnding(_, _) =>
      case RefreshEnding(_, outcome) => if w.queue[id].kind.Write? { WaitEndsFit(w, id, outcome, h); }
      case RecycleEnding(_, _) =>
      case Finishing(_) =>
    }
  }

  lemma WaitEndsFit(w: World, id: nat, outcome: Refresh, h: History)
    requires id < |w.queue| && w.queue[id].kind.Write? && w.queue[id].phase == Refreshing && Fits(w.queue[id], h)
    ensures Fits(
      Refreshed(w, id, outcome).queue[id], Hear(h, RefreshEnding(id, outcome), id, w.queue[id].epoch == w.epoch))
  {
    hide Release;
    match outcome
    case Converged =>
    case Superseded =>
    case NotConverged =>
    case Broken =>
  }

  lemma OtherStepsLeave(w: World, e: Event, id: nat)
    requires Enabled(w, e) && id < |w.queue|
    requires e.Beginning? || e.RouteEnding? || e.RefreshEnding? || e.RecycleEnding? || e.Finishing? ==> e.id != id
    ensures id < |Step(w, e).queue| && Step(w, e).queue[id] == w.queue[id]
  {
    hide Release;
  }

  lemma StepFits(w: World, e: Event, id: nat, h: History)
    requires Enabled(w, e) && id < |w.queue| && Fits(w.queue[id], h)
    ensures id < |Step(w, e).queue|
    ensures Fits(Step(w, e).queue[id], Hear(h, e, id, w.queue[id].epoch == w.epoch))
    ensures Step(w, e).queue[id].epoch == w.queue[id].epoch && Step(w, e).queue[id].kind == w.queue[id].kind
  {
    hide Fits;
    if (e.Beginning? || e.RouteEnding? || e.RefreshEnding? || e.RecycleEnding? || e.Finishing?) && e.id == id {
      OwnStepFits(w, e, id, h);
      KeepsItsName(w, e, id);
    } else {
      OtherStepsLeave(w, e, id);
    }
  }

  lemma KeepsItsName(w: World, e: Event, id: nat)
    requires Enabled(w, e) && id < |w.queue|
    ensures id < |Step(w, e).queue|
    ensures Step(w, e).queue[id].epoch == w.queue[id].epoch && Step(w, e).queue[id].kind == w.queue[id].kind
  {
    hide Release;
  }

  lemma NewFits(w: World, e: Event, id: nat)
    requires Enabled(w, e) && |w.queue| <= id < |Step(w, e).queue|
    ensures Fits(Step(w, e).queue[id], BLANK) && Step(w, e).queue[id].epoch == w.epoch
    ensures forall h, current :: Hear(h, e, id, current) == h
  {
  }

  lemma EpochStep(w: World, e: Event)
    requires Enabled(w, e)
    ensures Step(w, e).epoch == w.epoch + if e.Disconnecting? then 1 else 0
    ensures |w.queue| <= |Step(w, e).queue|
  {
    hide Release;
  }

  lemma {:induction false} EpochIsCounted(events: seq<Event>)
    requires After(events).Some?
    ensures After(events).value.epoch == Epoch(events)
  {
    hide Step, Enabled;
    if events != [] {
      var n := |events| - 1;
      EpochIsCounted(events[..n]);
      EpochStep(After(events[..n]).value, events[n]);
    }
  }

  lemma HearsOnlyQueued(w: World, e: Event, id: nat, current: bool, h: History)
    requires Enabled(w, e) && id >= |w.queue|
    ensures Hear(h, e, id, current) == h
  {
  }

  lemma {:induction false} NothingBeforehand(events: seq<Event>, id: nat, epoch: nat)
    requires After(events).Some? && id >= |After(events).value.queue|
    ensures Happened(events, id, epoch) == BLANK
  {
    hide Step, Enabled, Hear;
    if events != [] {
      var n := |events| - 1;
      var w := After(events[..n]).value;
      EpochStep(w, events[n]);
      NothingBeforehand(events[..n], id, epoch);
      HearsOnlyQueued(w, events[n], id, Epoch(events[..n]) == epoch, BLANK);
    }
  }

  lemma {:induction false} FitsInEveryRun(events: seq<Event>, id: nat)
    requires After(events).Some? && id < |After(events).value.queue|
    ensures var t := After(events).value.queue[id]; Fits(t, Happened(events, id, t.epoch))
  {
    hide Step, Enabled, Fits, Hear;
    if events != [] {
      var n := |events| - 1;
      var w := After(events[..n]).value;
      EpochIsCounted(events[..n]);
      if id < |w.queue| {
        FitsInEveryRun(events[..n], id);
        StepFits(w, events[n], id, Happened(events[..n], id, w.queue[id].epoch));
      } else {
        NewFits(w, events[n], id);
        NothingBeforehand(events[..n], id, w.epoch);
      }
    }
  }

  /**
   * In every run, what a finished transaction has told is exactly what is due on what happened to it; and nothing
   * happened to it but the course of its kind.
   */
  lemma ToldExactlyWhatHappened(events: seq<Event>, id: nat)
    requires After(events).Some? && id < |After(events).value.queue|
    requires After(events).value.queue[id].phase == Finished
    ensures var t := After(events).value.queue[id];
      var h := Happened(events, id, t.epoch);
      t.told == Due(t.kind, h) && RanItsCourse(t.kind, h)
  {
    FitsInEveryRun(events, id);
  }

  /** A write whose wait converges in its own epoch is announced there and then. */
  lemma ConvergedWriteIsAnnounced(events: seq<Event>, id: nat)
    requires After(events).Some? && Enabled(After(events).value, RefreshEnding(id, Converged))
    requires After(events).value.queue[id].kind.Write?
    ensures var w := After(events).value;
      Step(w, RefreshEnding(id, Converged)).queue[id].told.announced
      == if w.queue[id].epoch == w.epoch then 1 else 0
  {
    FitsInEveryRun(events, id);
  }

  // ---------------------------------------------------------------------------------------------
  // Writes a disconnect has overtaken
  // ---------------------------------------------------------------------------------------------

  /** A write of an older epoch that has not been let through: it waits, or was refused. */
  predicate NeverRan(t: Transaction, epoch: nat) {
    && t.kind.Write? && t.epoch < epoch
    && match t.phase
       case Waiting => t.told == NOTHING
       case Operated(ok, _) => ok && t.told == REFUSED
       case Finished => t.told == REFUSED
       case _ => false
  }

  lemma StillNeverRuns(w: World, e: Event, id: nat)
    requires Enabled(w, e) && id < |w.queue| && NeverRan(w.queue[id], w.epoch)
    ensures id < |Step(w, e).queue| && NeverRan(Step(w, e).queue[id], Step(w, e).epoch)
  {
    hide Release;
    EpochStep(w, e);
  }

  /**
   * A write still waiting when a disconnect has ended its epoch is never let through: in no continuation of the run
   * is its command routed, waited for or recycled, and once it is over it was rejected and has told nothing else.
   */
  lemma {:induction false} OvertakenWriteNeverRuns(before: seq<Event>, after: seq<Event>, id: nat)
    requires After(before).Some? && id < |After(before).value.queue| && After(before + after).Some?
    requires var t := After(before).value.queue[id];
      t.kind.Write? && t.phase == Waiting && t.epoch != After(before).value.epoch
    ensures id < |After(before + after).value.queue|
    ensures NeverRan(After(before + after).value.queue[id], After(before + after).value.epoch)
    decreases |after|
  {
    hide Step, Enabled, NeverRan;
    if after == [] {
      assert before + after == before;
      OlderWaiterNeverRan(before, id);
    } else {
      var n := |after| - 1;
      assert (before + after)[..|before + after| - 1] == before + after[..n];
      OvertakenWriteNeverRuns(before, after[..n], id);
      StillNeverRuns(After(before + after[..n]).value, after[n], id);
    }
  }

  lemma OlderWaiterNeverRan(events: seq<Event>, id: nat)
    requires After(events).Some? && id < |After(events).value.queue|
    requires var t := After(events).value.queue[id];
      t.kind.Write? && t.phase == Waiting && t.epoch != After(events).value.epoch
    ensures NeverRan(After(events).value.queue[id], After(events).value.epoch)
  {
    hide StartsInOrder, PredecessorsOk, TailsOk, HeldWhileUnfinished, CountsOk, IdentitiesOk;
    InvInEveryRun(events);
  }

  /** No outcome of such a write's command, wait or recycle can ever arrive. */
  lemma OvertakenWriteIsNeverAnswered(before: seq<Event>, after: seq<Event>, id: nat, ok: bool, outcome: Refresh)
    requires After(before).Some? && id < |After(before).value.queue| && After(before + after).Some?
    requires var t := After(before).value.queue[id];
      t.kind.Write? && t.phase == Waiting && t.epoch != After(before).value.epoch
    ensures var w := After(before + after).value;
      !Enabled(w, RouteEnding(id, ok)) && !Enabled(w, RefreshEnding(id, outcome)) && !Enabled(w, RecycleEnding(id, ok))
  {
    OvertakenWriteNeverRuns(before, after, id);
  }
}
