/** What holds in every run of observed writes, pushes and disconnects. */
module ObservedWriteRuns {
  import opened Wrappers
  import opened ObservedWrites

  // ---------------------------------------------------------------------------------------------
  // The queue
  // ---------------------------------------------------------------------------------------------

  /** Two transactions of one key queued in one epoch. */
  predicate Same(q: seq<Transaction>, i: nat, j: nat)
    requires i < |q| && j < |q|
  {
    q[i].key == q[j].key && q[i].epoch == q[j].epoch
  }

  /** A transaction starts only after every earlier one of its key and epoch has finished. */
  ghost predicate StartsInOrder(q: seq<Transaction>) {
    forall i: nat, j: nat | i < j < |q| && Same(q, i, j) && q[j].phase != Waiting :: q[i].phase == Finished
  }

  /** A predecessor is the transaction queued just before, and without one all earlier ones had finished. */
  ghost predicate PredecessorOk(q: seq<Transaction>, j: nat)
    requires j < |q|
  {
    match q[j].predecessor
    case None => q[j].phase != Waiting && forall i: nat | i < j && Same(q, i, j) :: q[i].phase == Finished
    case Some(p) => p < j && Same(q, p, j) && forall i: nat | p < i < j :: !Same(q, i, j)
  }

  ghost predicate PredecessorsOk(q: seq<Transaction>) {
    forall j: nat {:trigger q[j]} | j < |q| :: PredecessorOk(q, j)
  }

  /** The map's entry for a key is its last transaction of this epoch, and that one is unfinished. */
  ghost predicate TailsOk(w: World) {
    forall k | k in w.transitions ::
      var t := w.transitions[k];
      && t < |w.queue| && w.queue[t].key == k && w.queue[t].epoch == w.epoch && w.queue[t].phase != Finished
      && forall j: nat | t < j < |w.queue| :: !Same(w.queue, t, j)
  }

  /** Every unfinished transaction of this epoch has its key in the map. */
  ghost predicate HeldWhileUnfinished(w: World) {
    forall i: nat | i < |w.queue| && w.queue[i].epoch == w.epoch && w.queue[i].phase != Finished ::
      w.queue[i].key in w.transitions
  }

  ghost predicate EpochsOk(w: World) {
    forall i: nat | i < |w.queue| :: w.queue[i].epoch <= w.epoch
  }

  ghost predicate QueueOk(w: World) {
    EpochsOk(w) && StartsInOrder(w.queue) && PredecessorsOk(w.queue) && TailsOk(w) && HeldWhileUnfinished(w)
  }

  /** With the key out of the map, every transaction of this key and epoch has finished. */
  lemma UnheldKeyIsDone(w: World, key: string)
    requires HeldWhileUnfinished(w) && key !in w.transitions
    ensures forall i: nat | i < |w.queue| && w.queue[i].key == key && w.queue[i].epoch == w.epoch ::
      w.queue[i].phase == Finished
  {
  }

  lemma EnqueueKeepsStarts(w: World, key: string, kind: Kind, first: Phase)
    requires StartsInOrder(w.queue) && HeldWhileUnfinished(w)
    ensures StartsInOrder(Enqueue(w, key, kind, first).queue)
  {
    hide HeldWhileUnfinished;
    var q, q' := w.queue, Enqueue(w, key, kind, first).queue;
    if key !in w.transitions { UnheldKeyIsDone(w, key); }
    forall i: nat, j: nat | i < j < |q'| && Same(q', i, j) && q'[j].phase != Waiting
      ensures q'[i].phase == Finished
    {
      assert q'[i] == q[i];
      if j < |q| { assert q'[j] == q[j] && Same(q, i, j); }
    }
  }

  lemma EarlierPredecessorStays(q: seq<Transaction>, t: Transaction, j: nat)
    requires j < |q| && PredecessorOk(q, j)
    ensures PredecessorOk(q + [t], j)
  {
    assert forall i: nat | i < j :: Same(q + [t], i, j) == Same(q, i, j);
  }

  lemma NewPredecessorOk(w: World, key: string, kind: Kind, first: Phase)
    requires HeldWhileUnfinished(w) && TailsOk(w) && first != Waiting
    ensures PredecessorOk(Enqueue(w, key, kind, first).queue, |w.queue|)
  {
    hide HeldWhileUnfinished;
    var q, q' := w.queue, Enqueue(w, key, kind, first).queue;
    var n := |q|;
    assert forall i: nat | i < n :: q'[i] == q[i];
    if key in w.transitions {
      var t := w.transitions[key];
      forall i: nat | t < i < n ensures !Same(q', i, n) {
        assert !Same(q, t, i);
      }
      assert Same(q', t, n);
    } else {
      UnheldKeyIsDone(w, key);
    }
  }

  lemma EnqueueKeepsPredecessors(w: World, key: string, kind: Kind, first: Phase)
    requires PredecessorsOk(w.queue) && HeldWhileUnfinished(w) && TailsOk(w) && first != Waiting
    ensures PredecessorsOk(Enqueue(w, key, kind, first).queue)
  {
    hide HeldWhileUnfinished, TailsOk, PredecessorOk;
    NewPredecessorOk(w, key, kind, first);
    forall j: nat | j < |w.queue| ensures PredecessorOk(Enqueue(w, key, kind, first).queue, j) {
      EarlierPredecessorStays(w.queue, Enqueue(w, key, kind, first).queue[|w.queue|], j);
    }
  }

  lemma EnqueueKeepsTails(w: World, key: string, kind: Kind, first: Phase)
    requires TailsOk(w) && HeldWhileUnfinished(w) && first != Finished
    ensures TailsOk(Enqueue(w, key, kind, first)) && HeldWhileUnfinished(Enqueue(w, key, kind, first))
  {
    var w' := Enqueue(w, key, kind, first);
    var n := |w.queue|;
    assert forall i: nat | i < n :: w'.queue[i] == w.queue[i];
    forall k | k in w'.transitions && k != key
      ensures forall j: nat | w'.transitions[k] < j < |w'.queue| :: !Same(w'.queue, w'.transitions[k], j)
    {
      var t := w.transitions[k];
      forall j: nat | t < j < |w'.queue| ensures !Same(w'.queue, t, j) {
        if j < n { assert !Same(w.queue, t, j); }
      }
    }
  }

  lemma EnqueueKeepsQueue(w: World, key: string, kind: Kind, first: Phase)
    requires QueueOk(w) && first != Waiting && first != Finished
    ensures QueueOk(Enqueue(w, key, kind, first))
  {
    hide StartsInOrder, PredecessorsOk, TailsOk, HeldWhileUnfinished;
    EnqueueKeepsStarts(w, key, kind, first);
    EnqueueKeepsPredecessors(w, key, kind, first);
    EnqueueKeepsTails(w, key, kind, first);
  }

  lemma MoveKeepsOrder(w: World, id: nat, phase: Phase, told: Told)
    requires StartsInOrder(w.queue) && PredecessorsOk(w.queue) && id < |w.queue|
    requires w.queue[id].phase == Waiting ==> PredecessorFinished(w, id)
    requires phase == Finished <==> w.queue[id].phase == Finished
    ensures StartsInOrder(Move(w, id, phase, told).queue)
  {
    var q, q' := w.queue, Move(w, id, phase, told).queue;
    forall i: nat, j: nat | i < j < |q'| && Same(q', i, j) && q'[j].phase != Waiting
      ensures q'[i].phase == Finished
    {
      assert Same(q, i, j);
      if j == id && q[id].phase == Waiting {
        var p := q[id].predecessor.value;
        assert q[p].phase == Finished && Same(q, p, id);
        assert i <= p;
      } else {
        assert q[j].phase != Waiting && q[i].phase == Finished;
      }
    }
  }

  /** Phases that move on, and no transaction back to waiting, keep predecessors as they should be. */
  lemma PredecessorsStay(q: seq<Transaction>, q': seq<Transaction>)
    requires PredecessorsOk(q) && |q'| == |q|
    requires forall i: nat | i < |q| ::
      && q'[i].key == q[i].key && q'[i].epoch == q[i].epoch && q'[i].predecessor == q[i].predecessor
      && (q[i].phase == Finished ==> q'[i].phase == Finished) && (q'[i].phase == Waiting ==> q[i].phase == Waiting)
    ensures PredecessorsOk(q')
  {
    forall j: nat | j < |q| ensures PredecessorOk(q', j) {
      assert PredecessorOk(q, j);
      assert forall i: nat | i < j :: Same(q', i, j) == Same(q, i, j);
    }
  }

  /** Moving a transaction on, but neither back to waiting nor to finished. */
  lemma MoveKeepsQueue(w: World, id: nat, phase: Phase, told: Told)
    requires QueueOk(w) && id < |w.queue| && w.queue[id].phase != Finished
    requires phase != Waiting && phase != Finished
    requires w.queue[id].phase == Waiting ==> PredecessorFinished(w, id)
    ensures QueueOk(Move(w, id, phase, told))
  {
    hide StartsInOrder, PredecessorsOk;
    MoveKeepsOrder(w, id, phase, told);
    var w' := Move(w, id, phase, told);
    PredecessorsStay(w.queue, w'.queue);
    assert forall i: nat, j: nat | i < |w.queue| && j < |w.queue| :: Same(w'.queue, i, j) == Same(w.queue, i, j);
  }

  lemma FinishKeepsOrder(w: World, id: nat)
    requires StartsInOrder(w.queue) && PredecessorsOk(w.queue)
    requires id < |w.queue| && w.queue[id].phase.Operated?
    ensures StartsInOrder(Finish(w, id).queue) && PredecessorsOk(Finish(w, id).queue)
  {
    hide PredecessorsOk;
    var q, q' := w.queue, Finish(w, id).queue;
    PredecessorsStay(q, q');
    assert forall i: nat, j: nat | i < |q| && j < |q| :: Same(q', i, j) == Same(q, i, j);
    assert forall i: nat | i < |q| && q[i].phase == Finished :: q'[i].phase == Finished;
  }

  lemma FinishKeepsTails(w: World, id: nat)
    requires QueueOk(w) && id < |w.queue| && w.queue[id].phase.Operated?
    ensures TailsOk(Finish(w, id)) && HeldWhileUnfinished(Finish(w, id))
  {
    hide PredecessorsOk;
    var w' := Finish(w, id);
    var q, q' := w.queue, w'.queue;
    assert forall i: nat | i < |q| && i != id :: q'[i] == q[i];
    forall k | k in w'.transitions ensures w'.transitions[k] != id && k in w.transitions {
    }
    forall i: nat | i < |q'| && q'[i].epoch == w'.epoch && q'[i].phase != Finished
      ensures q'[i].key in w'.transitions
    {
      assert i != id && q[i].key in w.transitions;
      // Were `id` the tail, `i` would come before it and have finished for `id` to start.
      assert id < i && w.transitions[q[i].key] == id ==> !Same(q, id, i);
    }
    forall k, j: nat | k in w'.transitions && w'.transitions[k] < j < |q'|
      ensures !Same(q', w'.transitions[k], j)
    {
      assert !Same(q, w.transitions[k], j);
    }
  }

  lemma FinishKeepsQueue(w: World, id: nat)
    requires QueueOk(w) && id < |w.queue| && w.queue[id].phase.Operated?
    ensures QueueOk(Finish(w, id))
  {
    hide StartsInOrder, PredecessorsOk, TailsOk, HeldWhileUnfinished;
    FinishKeepsOrder(w, id);
    FinishKeepsTails(w, id);
  }

  lemma DisconnectKeepsQueue(w: World)
    requires QueueOk(w)
    ensures QueueOk(Disconnect(w))
  {
  }

  // ---------------------------------------------------------------------------------------------
  // The owner counts
  // ---------------------------------------------------------------------------------------------

  /** A write of this key and epoch that has not been released. */
  predicate Outstanding(t: Transaction, key: string, epoch: nat) {
    t.kind.Write? && t.key == key && t.epoch == epoch && t.told.released == 0
  }

  function Count(q: seq<Transaction>, key: string, epoch: nat): nat {
    if q == [] then 0
    else Count(q[..|q| - 1], key, epoch) + if Outstanding(q[|q| - 1], key, epoch) then 1 else 0
  }

  lemma {:induction false} CountAfterChange(q: seq<Transaction>, id: nat, t: Transaction, key: string, epoch: nat)
    requires id < |q|
    ensures Count(q[id := t], key, epoch)
      == Count(q, key, epoch) - (if Outstanding(q[id], key, epoch) then 1 else 0)
         + (if Outstanding(t, key, epoch) then 1 else 0)
    ensures Outstanding(q[id], key, epoch) ==> Count(q, key, epoch) > 0
    decreases |q|
  {
    var front := q[..|q| - 1];
    if id == |q| - 1 {
      assert q[id := t][..|q| - 1] == front;
    } else {
      assert q[id := t][..|q| - 1] == front[id := t];
      CountAfterChange(front, id, t, key, epoch);
    }
  }

  lemma CountAfterAppend(q: seq<Transaction>, t: Transaction, key: string, epoch: nat)
    ensures Count(q + [t], key, epoch) == Count(q, key, epoch) + if Outstanding(t, key, epoch) then 1 else 0
  {
    assert (q + [t])[..|q|] == q;
  }

  lemma {:induction false} NoneOfLaterEpoch(q: seq<Transaction>, key: string, epoch: nat)
    requires forall i | 0 <= i < |q| :: q[i].epoch < epoch
    ensures Count(q, key, epoch) == 0
    decreases |q|
  {
    if q != [] { NoneOfLaterEpoch(q[..|q| - 1], key, epoch); }
  }

  /** A key has an owner exactly while it has outstanding writes, and the owner counts them. */
  ghost predicate CountsOk(w: World) {
    && (forall k | k in w.owners ::
          w.owners[k].epoch == w.epoch && w.owners[k].count == Count(w.queue, k, w.epoch) > 0)
    && (forall k | k !in w.owners :: Count(w.queue, k, w.epoch) == 0)
  }

  /** Owner identities are never reused, so a write can only ever give back the counter it took. */
  ghost predicate IdentitiesOk(w: World) {
    && (forall k | k in w.owners :: w.owners[k].id < w.nextOwner)
    && (forall i: nat | i < |w.queue| && w.queue[i].kind.Write? ::
          var t := w.queue[i];
          && t.kind.owner < w.nextOwner
          && (forall k | k in w.owners && w.owners[k].id == t.kind.owner :: t.epoch == w.epoch && t.key == k)
          && (t.epoch == w.epoch && t.told.released == 0 ==>
                t.key in w.owners && w.owners[t.key].id == t.kind.owner))
    && (forall k, l | k in w.owners && l in w.owners && w.owners[k].id == w.owners[l].id :: k == l)
  }

  lemma DispatchKeepsCounts(w: World, key: string, resets: bool)
    requires CountsOk(w)
    ensures CountsOk(Dispatch(w, key, resets))
  {
    var w' := Dispatch(w, key, resets);
    var t := w'.queue[|w.queue|];
    forall k ensures Count(w'.queue, k, w.epoch) == Count(w.queue, k, w.epoch) + if k == key then 1 else 0 {
      CountAfterAppend(w.queue, t, k, w.epoch);
    }
  }

  lemma DispatchKeepsIdentities(w: World, key: string, resets: bool)
    requires IdentitiesOk(w) && CountsOk(w)
    ensures IdentitiesOk(Dispatch(w, key, resets))
  {
    hide Count, CurrentOwner;
    var w', o := Dispatch(w, key, resets), CurrentOwner(w, key);
    OwnerIsKeptOrNew(w, key);
    assert w'.owners == w.owners[key := o.(count := o.count + 1)];
    assert forall i: nat | i < |w.queue| :: w'.queue[i] == w.queue[i];
  }

  lemma OwnerIsKeptOrNew(w: World, key: string)
    requires CountsOk(w)
    ensures CurrentOwner(w, key).id == if key in w.owners then w.owners[key].id else w.nextOwner
  {
    hide Count;
  }

  lemma ConcludeKeepsCounts(w: World, id: nat, told: Told)
    requires CountsOk(w) && IdentitiesOk(w)
    requires id < |w.queue| && w.queue[id].kind.Write? && w.queue[id].told.released == 0
    ensures CountsOk(Conclude(w, id, told))
  {
    var w' := Conclude(w, id, told);
    var t := w.queue[id];
    forall k
      ensures Count(w'.queue, k, w.epoch)
        == Count(w.queue, k, w.epoch) - if k == t.key && t.epoch == w.epoch then 1 else 0
    {
      CountAfterChange(w.queue, id, w'.queue[id], k, w.epoch);
    }
  }

  lemma ConcludeKeepsIdentities(w: World, id: nat, told: Told)
    requires CountsOk(w) && IdentitiesOk(w)
    requires id < |w.queue| && w.queue[id].kind.Write? && w.queue[id].told.released == 0
    ensures IdentitiesOk(Conclude(w, id, told))
  {
    var w' := Conclude(w, id, told);
    var t := w.queue[id];
    forall i: nat | i < |w'.queue| && w'.queue[i].kind.Write?
      ensures var s := w'.queue[i];
        s.epoch == w'.epoch && s.told.released == 0 ==> s.key in w'.owners && w'.owners[s.key].id == s.kind.owner
    {
      var s := w'.queue[i];
      if s.epoch == w.epoch && s.told.released == 0 && s.key == t.key {
        // Two outstanding writes share the key, so its count is above one and the owner stays.
        assert i != id && s == w.queue[i];
        if t.epoch == w.epoch {
          CountAfterChange(w.queue, id, w'.queue[id], t.key, w.epoch);
          CountAfterChange(w'.queue, i, s, t.key, w.epoch);
        }
      }
    }
  }

  // ---------------------------------------------------------------------------------------------
  // What each transaction has told
  // ---------------------------------------------------------------------------------------------

  /** The ledger of one transaction fits its phase. */
  predicate ToldOk(t: Transaction) {
    match t.kind
    case PushRefresh =>
      && t.told.settled == 0 && t.told.unconfirmed == 0 && t.told.released == 0
      && t.told.announced + t.told.errors <= 1
      && (t.phase != Finished ==> t.told == NOTHING)
      && t.phase != Routing && t.phase != Recycling
    case Write(_, _) =>
      var r := t.told;
      match t.phase
      case Waiting => r == NOTHING
      case Routing => r == NOTHING
      case Refreshing => r == NOTHING.(settled := 1)
      case Recycling => r == NOTHING.(settled := 1, announced := 1)
      case Operated(ok, _) => ok && Concluded(r)
      case Finished => Concluded(r)
  }

  /**
   * A write that is over: its acknowledgement settled once and its counter was released once; a rejected one
   * says nothing more, and no write says both that it was confirmed and that it was not.
   */
  predicate Concluded(r: Told) {
    && r.settled == 1 && r.released == 1
    && r.announced + r.unconfirmed <= 1
    && (r.rejected ==> r.announced == 0 && r.unconfirmed == 0 && r.errors == 0)
    && (r.unconfirmed == 1 ==> r.errors == 0)
    && r.errors <= 1
  }

  ghost predicate AllTold(w: World) {
    forall i: nat | i < |w.queue| :: ToldOk(w.queue[i])
  }

  ghost predicate Inv(w: World) {
    QueueOk(w) && CountsOk(w) && IdentitiesOk(w) && AllTold(w)
  }

  // ---------------------------------------------------------------------------------------------
  // The invariant holds in every run
  // ---------------------------------------------------------------------------------------------

  lemma CountsUnmoved(w: World, id: nat, t: Transaction)
    requires CountsOk(w) && IdentitiesOk(w) && id < |w.queue|
    requires t.key == w.queue[id].key && t.epoch == w.queue[id].epoch && t.kind == w.queue[id].kind
    requires t.told.released == w.queue[id].told.released
    ensures CountsOk(w.(queue := w.queue[id := t])) && IdentitiesOk(w.(queue := w.queue[id := t]))
  {
    var w' := w.(queue := w.queue[id := t]);
    forall k ensures Count(w'.queue, k, w.epoch) == Count(w.queue, k, w.epoch) {
      CountAfterChange(w.queue, id, t, k, w.epoch);
    }
  }

  lemma MoveKeeps(w: World, id: nat, phase: Phase, told: Told)
    requires Inv(w) && id < |w.queue| && w.queue[id].phase != Finished
    requires phase != Waiting && phase != Finished
    requires w.queue[id].phase == Waiting ==> PredecessorFinished(w, id)
    requires told.released == w.queue[id].told.released
    requires ToldOk(w.queue[id].(phase := phase, told := told))
    ensures Inv(Move(w, id, phase, told))
  {
    hide QueueOk, CountsOk, IdentitiesOk;
    MoveKeepsQueue(w, id, phase, told);
    CountsUnmoved(w, id, w.queue[id].(phase := phase, told := told));
  }

  lemma ConcludeKeepsQueue(w: World, id: nat, told: Told)
    requires QueueOk(w) && id < |w.queue| && w.queue[id].kind.Write? && w.queue[id].phase != Finished
    requires w.queue[id].phase == Waiting ==> PredecessorFinished(w, id)
    ensures QueueOk(Conclude(w, id, told))
  {
    hide StartsInOrder, PredecessorsOk;
    MoveKeepsQueue(w, id, Operated(true, true), told.(released := told.released + 1));
  }

  lemma ConcludeKeeps(w: World, id: nat, told: Told)
    requires Inv(w) && id < |w.queue| && w.queue[id].kind.Write? && w.queue[id].phase != Finished
    requires w.queue[id].phase == Waiting ==> PredecessorFinished(w, id)
    requires w.queue[id].told.released == 0 && Concluded(told.(released := told.released + 1))
    ensures Inv(Conclude(w, id, told))
  {
    hide QueueOk, CountsOk, IdentitiesOk;
    ConcludeKeepsQueue(w, id, told);
    ConcludeKeepsCounts(w, id, told);
    ConcludeKeepsIdentities(w, id, told);
  }

  lemma FinishKeeps(w: World, id: nat)
    requires Inv(w) && id < |w.queue| && w.queue[id].phase.Operated?
    ensures Inv(Finish(w, id))
  {
    hide QueueOk, CountsOk, IdentitiesOk;
    assert ToldOk(w.queue[id]);
    FinishKeepsQueue(w, id);
    CountsUnmoved(w, id, Finish(w, id).queue[id]);
    SameCounts(w.(queue := Finish(w, id).queue), Finish(w, id));
  }

  lemma SameCounts(w: World, w': World)
    requires CountsOk(w) && IdentitiesOk(w)
    requires w' == w.(transitions := w'.transitions)
    ensures CountsOk(w') && IdentitiesOk(w')
  {
  }

  lemma DispatchKeeps(w: World, key: string, resets: bool)
    requires Inv(w)
    ensures Inv(Dispatch(w, key, resets))
  {
    hide CountsOk, IdentitiesOk, StartsInOrder, PredecessorsOk;
    DispatchKeepsCounts(w, key, resets);
    DispatchKeepsIdentities(w, key, resets);
    EnqueueKeepsQueue(w, key, Write(CurrentOwner(w, key).id, resets), Routing);
  }

  lemma PushKeeps(w: World, key: string, live: bool)
    requires Inv(w)
    ensures Inv(PushArrives(w, key, live).0)
  {
    hide QueueOk, IdentitiesOk;
    if PushArrives(w, key, live).1 == Queued {
      var w' := PushArrives(w, key, live).0;
      EnqueueKeepsQueue(w, key, PushRefresh, Refreshing);
      forall k ensures Count(w'.queue, k, w.epoch) == Count(w.queue, k, w.epoch) {
        CountAfterAppend(w.queue, w'.queue[|w.queue|], k, w.epoch);
      }
      PushKeepsIdentities(w, w');
    }
  }

  lemma PushKeepsIdentities(w: World, w': World)
    requires IdentitiesOk(w) && |w'.queue| == |w.queue| + 1 && w'.queue[..|w.queue|] == w.queue
    requires w'.queue[|w.queue|].kind.PushRefresh?
    requires w'.owners == w.owners && w'.nextOwner == w.nextOwner && w'.epoch == w.epoch
    ensures IdentitiesOk(w')
  {
    assert forall i: nat | i < |w.queue| :: w'.queue[i] == w'.queue[..|w.queue|][i] == w.queue[i];
  }

  lemma DisconnectKeeps(w: World)
    requires Inv(w)
    ensures Inv(Disconnect(w))
  {
    hide StartsInOrder, PredecessorsOk;
    DisconnectKeepsQueue(w);
    var next := w.epoch + 1;
    forall k ensures Count(w.queue, k, next) == 0 {
      NoneOfLaterEpoch(w.queue, k, next);
    }
  }

  lemma StepKeeps(w: World, e: Event)
    requires Inv(w) && Enabled(w, e)
    ensures Inv(Step(w, e))
  {
    match e
    case Dispatching(key, resets) => DispatchKeeps(w, key, resets);
    case Pushing(key, live) => PushKeeps(w, key, live);
    case Finishing(id) => FinishKeeps(w, id);
    case Disconnecting => DisconnectKeeps(w);
    case _ => OneTransactionKeeps(w, e);
  }

  /** The steps that move one transaction on. */
  lemma OneTransactionKeeps(w: World, e: Event)
    requires Inv(w) && Enabled(w, e)
    requires e.Beginning? || e.RouteEnding? || e.RefreshEnding? || e.RecycleEnding?
    ensures Inv(Step(w, e))
  {
    hide QueueOk, CountsOk, IdentitiesOk;
    var t := w.queue[e.id];
    assert ToldOk(t);
    hide AllTold;
    match e
    case Beginning(id) =>
      if t.kind.PushRefresh? {
        MoveKeeps(w, id, Refreshing, t.told);
      } else if t.epoch != w.epoch {
        ConcludeKeeps(w, id, t.told.(settled := 1, rejected := true));
      } else {
        MoveKeeps(w, id, Routing, t.told);
      }
    case RouteEnding(id, ok) =>
      if ok {
        MoveKeeps(w, id, Refreshing, t.told.(settled := 1));
      } else {
        ConcludeKeeps(w, id, t.told.(settled := 1, rejected := true));
      }
    case RefreshEnding(id, outcome) =>
      if t.kind.PushRefresh? {
        MoveKeeps(w, id, Operated(outcome == Converged || outcome == Superseded, outcome == Converged), t.told);
      } else {
        match outcome
        case Converged =>
          if t.epoch != w.epoch {
            ConcludeKeeps(w, id, t.told);
          } else if t.kind.resets {
            MoveKeeps(w, id, Recycling, t.told.(announced := 1));
          } else {
            ConcludeKeeps(w, id, t.told.(announced := 1));
          }
        case Superseded => ConcludeKeeps(w, id, t.told);
        case NotConverged => ConcludeKeeps(w, id, t.told.(unconfirmed := 1));
        case Broken => ConcludeKeeps(w, id, t.told.(errors := 1));
      }
    case RecycleEnding(id, ok) =>
      ConcludeKeeps(w, id, if ok then t.told else t.told.(errors := 1));
  }

  lemma {:induction false} InvInEveryRun(events: seq<Event>)
    requires After(events).Some?
    ensures Inv(After(events).value)
    decreases |events|
  {
    hide Inv;
    if events == [] {
      InvInitially();
    } else {
      InvInEveryRun(events[..|events| - 1]);
      StepKeeps(After(events[..|events| - 1]).value, events[|events| - 1]);
    }
  }

  lemma InvInitially()
    ensures Inv(INITIAL)
  {
  }

  // ---------------------------------------------------------------------------------------------
  // Results
  // ---------------------------------------------------------------------------------------------

  /** A transaction whose operation has started and not settled. */
  predicate InFlight(t: Transaction) {
    t.phase == Routing || t.phase == Refreshing || t.phase == Recycling
  }

  /** In every run the transactions of one key queued in one epoch run one at a time, in queue order. */
  lemma OneAtATimeInQueueOrder(events: seq<Event>, i: nat, j: nat)
    requires After(events).Some? && i < j < |After(events).value.queue|
    requires Same(After(events).value.queue, i, j)
    ensures var q := After(events).value.queue;
      && (q[j].phase != Waiting ==> q[i].phase == Finished)
      && !(InFlight(q[i]) && InFlight(q[j]))
  {
    InvInEveryRun(events);
  }

  /** In every run the map holds a key exactly while some transaction of this epoch on it is unfinished. */
  lemma HeldExactlyWhileUnfinished(events: seq<Event>, key: string)
    requires After(events).Some?
    ensures var w := After(events).value;
      && (key in w.transitions <==>
            exists i :: 0 <= i < |w.queue| && w.queue[i].key == key && w.queue[i].epoch == w.epoch
                        && w.queue[i].phase != Finished)
      && (key in w.transitions ==>
            var t := w.transitions[key];
            t < |w.queue| && w.queue[t].key == key && w.queue[t].phase != Finished
            && forall j: nat | t < j < |w.queue| :: !Same(w.queue, t, j))
  {
    InvInEveryRun(events);
    var w := After(events).value;
    if key in w.transitions { assert w.queue[w.transitions[key]].phase != Finished; }
  }

  /**
   * No failure blocks the queue: of the unfinished transactions of a key and epoch the first is either in the
   * hands of the outside world or can move on by itself, whatever became of those before it.
   */
  lemma {:induction false} FirstUnfinishedCanMove(w: World, i: nat) returns (j: nat)
    requires Inv(w) && i < |w.queue| && w.queue[i].phase != Finished
    ensures j <= i && Same(w.queue, j, i) && w.queue[j].phase != Finished
    ensures InFlight(w.queue[j]) || Enabled(w, Beginning(j)) || Enabled(w, Finishing(j))
    decreases i
  {
    match w.queue[i].predecessor
    case None => j := i;
    case Some(p) =>
      if w.queue[p].phase == Finished {
        j := i;
      } else {
        j := FirstUnfinishedCanMove(w, p);
      }
  }

  lemma {:induction false} CountedMeansThere(q: seq<Transaction>, key: string, epoch: nat)
    ensures Count(q, key, epoch) > 0 <==> exists i :: 0 <= i < |q| && Outstanding(q[i], key, epoch)
    decreases |q|
  {
    if q != [] {
      var front := q[..|q| - 1];
      CountedMeansThere(front, key, epoch);
      if exists i :: 0 <= i < |q| && Outstanding(q[i], key, epoch) {
        var i :| 0 <= i < |q| && Outstanding(q[i], key, epoch);
        assert i < |front| ==> front[i] == q[i];
      }
      if Count(front, key, epoch) > 0 {
        var i :| 0 <= i < |front| && Outstanding(front[i], key, epoch);
        assert q[i] == front[i];
      }
    }
  }

  /**
   * In every run a push is swallowed exactly while a write of its key from this epoch is unreleased, and otherwise
   * queued as a refresh exactly when the device is held; only then does anything change.
   */
  lemma PushSwallowedExactlyWhileWriting(events: seq<Event>, key: string, live: bool)
    requires After(events).Some?
    ensures var w := After(events).value;
      var (w', result) := PushArrives(w, key, live);
      && (result == Announced <==> result != Swallowed && !live)
      && (result != Queued ==> w' == w)
      && (result == Queued ==>
            && |w'.queue| == |w.queue| + 1 && w'.queue[..|w.queue|] == w.queue
            && w'.queue[|w.queue|].kind == PushRefresh && w'.queue[|w.queue|].key == key
            && w'.owners == w.owners && w'.epoch == w.epoch)
    ensures var w := After(events).value;
      && (PushArrives(w, key, live).1 == Swallowed <==>
            exists i :: 0 <= i < |w.queue| && Outstanding(w.queue[i], key, w.epoch))
      && (if key in w.owners then w.owners[key].count else 0) == Count(w.queue, key, w.epoch)
  {
    InvInEveryRun(events);
    CountedMeansThere(After(events).value.queue, key, After(events).value.epoch);
  }

  /**
   * In every run a write's acknowledgement settles at most once and has settled once the write is over, its
   * counter is given back exactly once, and it never yields both its event and `commandUnconfirmed`.
   */
  lemma EachWriteSettlesOnce(events: seq<Event>, id: nat)
    requires After(events).Some? && id < |After(events).value.queue|
    requires After(events).value.queue[id].kind.Write?
    ensures var t := After(events).value.queue[id];
      && t.told.settled <= 1 && t.told.released <= 1 && t.told.announced + t.told.unconfirmed <= 1
      && (t.phase.Operated? || t.phase == Finished ==> t.told.settled == 1 && t.told.released == 1)
      && (t.told.rejected ==> t.told.announced == 0 && t.told.unconfirmed == 0)
      && (t.phase.Operated? ==> t.phase.ok)
  {
    InvInEveryRun(events);
    assert ToldOk(After(events).value.queue[id]);
  }

  lemma StepStands(w: World, e: Event, id: nat)
    requires Enabled(w, e) && id < |w.queue| && w.queue[id].kind.Write? && ToldOk(w.queue[id])
    ensures id < |Step(w, e).queue|
    ensures var t, t' := w.queue[id], Step(w, e).queue[id];
      && (t.told.settled > 0 ==> t'.told.settled == t.told.settled && t'.told.rejected == t.told.rejected)
      && t.told.announced <= t'.told.announced && t.told.unconfirmed <= t'.told.unconfirmed
      && (t'.told.announced != t.told.announced ==> t.epoch == w.epoch && t.phase == Refreshing)
  {
  }

  /**
   * In every run a settled acknowledgement keeps its answer and nothing told is taken back, and a write is only
   * ever announced in the epoch it was dispatched in.
   */
  lemma SettledAnswerStands(events: seq<Event>, e: Event, id: nat)
    requires After(events).Some? && Enabled(After(events).value, e)
    requires id < |After(events).value.queue| && After(events).value.queue[id].kind.Write?
    ensures var w := After(events).value; var w' := Step(w, e);
      && id < |w'.queue|
      && var t, t' := w.queue[id].told, w'.queue[id].told;
      && (t.settled > 0 ==> t'.settled == t.settled && t'.rejected == t.rejected)
      && t.announced <= t'.announced && t.unconfirmed <= t'.unconfirmed
      && (t'.announced != t.announced ==> w.queue[id].epoch == w.epoch)
  {
    InvInEveryRun(events);
    StepStands(After(events).value, e, id);
  }

  /** In every run, a transaction under way beside an unfinished earlier one of its key is of another epoch. */
  lemma BesideOnlyAcrossEpochs(events: seq<Event>, i: nat, j: nat)
    requires After(events).Some? && i < j < |After(events).value.queue|
    requires After(events).value.queue[i].key == After(events).value.queue[j].key
    requires After(events).value.queue[i].phase != Finished && After(events).value.queue[j].phase != Waiting
    ensures After(events).value.queue[i].epoch != After(events).value.queue[j].epoch
  {
    hide After;
    if After(events).value.queue[i].epoch == After(events).value.queue[j].epoch {
      OneAtATimeInQueueOrder(events, i, j);
    }
  }

  /**
   * In every run, a dispatched write is queued as what it is, and starts at once exactly when the earlier ones of its
   * key in this epoch have finished.
   */
  lemma StartsAtOnceIff(events: seq<Event>, key: string, resets: bool)
    requires After(events).Some?
    ensures var w := After(events).value;
      var q := Dispatch(w, key, resets).queue;
      |q| == |w.queue| + 1
      && (q[|w.queue|].phase == Routing <==>
            forall i: nat | i < |w.queue| && w.queue[i].key == key && w.queue[i].epoch == w.epoch ::
              w.queue[i].phase == Finished)
      && (q[|w.queue|].phase == Routing || q[|w.queue|].phase == Waiting)
      && q[|w.queue|].key == key && q[|w.queue|].epoch == w.epoch && q[|w.queue|].told == NOTHING
      && q[|w.queue|].kind.Write? && q[|w.queue|].kind.resets == resets
      && q[..|w.queue|] == w.queue
  {
    HeldExactlyWhileUnfinished(events, key);
  }

  /** The queue orders one epoch only: after a disconnect a new write runs beside an old one of its key. */
  lemma AcrossDisconnectTwoCanRun(key: string)
    ensures var run := [Dispatching(key, false), Disconnecting, Dispatching(key, false)];
      && After(run).Some? && |After(run).value.queue| == 2
      && InFlight(After(run).value.queue[0]) && InFlight(After(run).value.queue[1])
      && After(run).value.queue[0].key == After(run).value.queue[1].key == key
  {
    var one := [Dispatching(key, false)];
    var two := one + [Disconnecting];
    var run := [Dispatching(key, false), Disconnecting, Dispatching(key, false)];
    assert one[..0] == [] && two[..1] == one && run[..2] == two;
    assert After(one) == Some(Dispatch(INITIAL, key, false));
    assert After(two) == Some(Disconnect(Dispatch(INITIAL, key, false)));
    assert After(run) == Some(Dispatch(Disconnect(Dispatch(INITIAL, key, false)), key, false));
  }
}
