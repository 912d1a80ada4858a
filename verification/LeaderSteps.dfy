/** Every loop and handler of the leader keeps its table in order. */
module LeaderSteps {
  import opened PaxosConfig
  import opened SlotSpec
  import opened LeaderSpec
  import opened LeaderInvariant

  // ---- where values go ----

  lemma QueueMoves(c: Office, t: Table, i: nat, v: Value)
    requires t.Sized() && (TakesFromQueue(t.At(i)) ==> t.queue != [])
    ensures Times(v, Execute(c, t, i).queue)
            == Times(v, t.queue) - (if TakesFromQueue(t.At(i)) then Copies(v, Some(t.queue[0])) else 0)
               + if c.repairs.pushBack && Displaces(t.At(i)) then Copies(v, t.At(i).p2) else 0
  {
    if TakesFromQueue(t.At(i)) {
      assert t.queue == [t.queue[0]] + t.queue[1..];
    }
  }

  /** Starting a phase 2 keeps track of every value. */
  lemma ExecuteBalances(c: Office, t: Table, i: nat, v: Value)
    requires t.Sized() && Balanced(t, v) && (TakesFromQueue(t.At(i)) ==> t.queue != [])
    ensures Balanced(Execute(c, t, i), v)
  {
    var sl := t.At(i);
    Rehold(t, i, StartPhase2(sl, if t.queue != [] then t.queue[0] else []), v);
    QueueMoves(c, t, i, v);
  }

  lemma ExecuteKeepsLedger(c: Office, t: Table, i: nat)
    requires t.Sized() && Ledger(t) && (TakesFromQueue(t.At(i)) ==> t.queue != [])
    ensures Ledger(Execute(c, t, i))
  {
    forall v
      ensures Balanced(Execute(c, t, i), v)
    {
      ExecuteBalances(c, t, i, v);
    }
  }

  /** How many copies of v the leader has in hand: pending, assigned or reported to the client. */
  ghost function InHand(t: Table, v: Value): nat {
    Times(v, t.queue) + Held(t.slots, v) + Times(v, t.notified) + Times(v, t.failed)
  }

  /** As written a phase 2 loses a client's value exactly when the slot had one and phase 1 found
      another: otherwise, and always once displaced values are pushed back, the value found is added
      to what the leader has in hand and nothing else changes. */
  lemma ExecuteConserves(c: Office, t: Table, i: nat)
    requires t.Sized() && (TakesFromQueue(t.At(i)) ==> t.queue != [])
    ensures (forall v :: InHand(Execute(c, t, i), v) == InHand(t, v) + if t.At(i).p1 != t.At(i).p2 then Copies(v, t.At(i).p1) else 0)
            <==> c.repairs.pushBack || !Displaces(t.At(i))
  {
    var sl := t.At(i);
    var next := StartPhase2(sl, if t.queue != [] then t.queue[0] else []);
    var r := Execute(c, t, i);
    forall v
      ensures InHand(r, v) + (if Displaces(sl) && !c.repairs.pushBack then Copies(v, sl.p2) else 0)
              == InHand(t, v) + if sl.p1 != sl.p2 then Copies(v, sl.p1) else 0
    {
      Rehold(t, i, next, v);
      QueueMoves(c, t, i, v);
    }
    if Displaces(sl) && !c.repairs.pushBack {
      assert Copies(sl.p2.value, sl.p2) == 1;
      assert InHand(r, sl.p2.value) != InHand(t, sl.p2.value) + Copies(sl.p2.value, sl.p1);
    }
  }

  // ---- the loops ----

  predicate InReach(job: Job, t: Table, i: nat) {
    t.current <= i && if job.Retry? then i <= t.highestOpen else i < t.nextUnused
  }

  /** What a visit does to the slot of its instance, and to the counters along with it. */
  ghost predicate Visited(c: Office, job: Job, t: Table, i: nat, r: Table)
    requires t.Sized() && r.Sized()
  {
    var sl := t.At(i);
    var next := r.At(i);
    && Fits(c, t, i, next) && r.slots == t.With(i, next).slots
    && r.pendingCount == t.pendingCount - Weight(Pending, sl) + Weight(Pending, next)
    && r.readyCount == t.readyCount - Weight(Ready, sl) + Weight(Ready, next) && r.staleReady == t.staleReady
    && t.openCount >= r.openCount == t.openCount - Weight(InPhase2, sl) + Weight(InPhase2, next)
    && Weight(Used, next) == Weight(Used, sl) && Weight(Fresh, next) == Weight(Fresh, sl)
    && (job.Resend? ==> next.status != P1Ready)
    && (!job.Resend? ==> next.p2 == sl.p2 && (next.status == P1Ready ==> sl.status == P1Ready))
  }

  lemma RetriedSlot(c: Office, t: Table, i: nat, expired: set<nat>)
    requires t.Sized() && Fits(c, t, i, t.At(i))
    ensures Visited(c, Retry(expired), t, i, Visit(c, Retry(expired), t, i))
  {
  }

  lemma RestartedSlot(c: Office, t: Table, i: nat, closed: set<nat>, expired: set<nat>)
    requires t.Sized() && Fits(c, t, i, t.At(i)) && i < t.nextUnused
    ensures Visited(c, Restart(closed, expired), t, i, Visit(c, Restart(closed, expired), t, i))
  {
  }

  lemma ResentSlot(c: Office, t: Table, i: nat)
    requires t.Sized() && Fits(c, t, i, t.At(i)) && i < t.nextUnused
    ensures Visited(c, Resend, t, i, Visit(c, Resend, t, i))
  {
  }

  lemma VisitedSlot(c: Office, job: Job, t: Table, i: nat)
    requires t.Sized() && !job.Drop? && InReach(job, t, i) && Fits(c, t, i, t.At(i))
    ensures Visited(c, job, t, i, Visit(c, job, t, i))
  {
    match job
    case Retry(expired) => RetriedSlot(c, t, i, expired);
    case Restart(closed, expired) => RestartedSlot(c, t, i, closed, expired);
    case Resend => ResentSlot(c, t, i);
  }

  /** Nothing moves when a slot keeps its value. */
  lemma SameHoldings(t: Table, i: nat, sl: Slot, r: Table)
    requires t.Sized() && Ledger(t) && sl.p2 == t.At(i).p2 && r.slots == t.With(i, sl).slots
    requires r.queue == t.queue && r.taken == t.taken && r.notified == t.notified && r.failed == t.failed && r.lost == t.lost
    ensures Ledger(r)
  {
    forall v
      ensures Balanced(r, v)
    {
      Rehold(t, i, sl, v);
      assert Balanced(t, v);
    }
  }

  lemma VisitKeepsLedger(c: Office, job: Job, t: Table, i: nat)
    requires t.Sized() && !job.Drop? && InReach(job, t, i) && Fits(c, t, i, t.At(i)) && Ledger(t)
    requires job.Retry? || i < t.nextUnused
    ensures Ledger(Visit(c, job, t, i))
  {
    var r := Visit(c, job, t, i);
    if job.Resend? {
      if t.At(i).status == P1Ready {
        ExecuteKeepsLedger(c, t, i);
        SameLedger(Execute(c, t, i), r);
      }
    } else {
      VisitedSlot(c, job, t, i);
      SameHoldings(t, i, r.At(i), r);
    }
  }

  /** Resending reaches every slot below the one it is at. */
  function Reached(job: Job, t: Table, i: nat): nat {
    if job.Resend? then i else t.nextUnused
  }

  lemma VisitKeepsWaiting(c: Office, job: Job, t: Table, i: nat)
    requires t.Sized() && SlotsOk(c, t) && i >= 1 && !job.Drop? && InReach(job, t, i) && Fits(c, t, i, t.At(i))
    requires NoneWaits(t, Reached(job, t, i))
    ensures NoneWaits(Visit(c, job, t, i), Reached(job, t, i + 1))
  {
    VisitedSlot(c, job, t, i);
    OnlyInstance(c, t, i);
    var r := Visit(c, job, t, i);
    forall k | 0 <= k < |r.slots| && r.slots[k].p2.Some? && r.slots[k].iid < Reached(job, t, i + 1)
      ensures r.slots[k].status != P1Ready
    {
      if k != Index(i, |t.slots|) {
        assert r.slots[k] == t.slots[k];
      }
    }
  }

  lemma VisitKeepsTable(c: Office, job: Job, t: Table, i: nat)
    requires TableOk(c, t) && !job.Drop? && InReach(job, t, i)
    ensures var r := Visit(c, job, t, i);
            TableOk(c, r) && Tally(r.slots, Fresh) == Tally(t.slots, Fresh)
  {
    var r := Visit(c, job, t, i);
    SlotAt(c, t, i);
    VisitedSlot(c, job, t, i);
    Replace(c, t, i, r.At(i));
    assert SlotsOk(c, r) by { SameSlots(c, t.With(i, r.At(i)), r); }
    CountersMove(t, i, r.At(i), r);
    VisitKeepsLedger(c, job, t, i);
  }

  /** The table is in order, no slot below instance i waits and `ahead` instances wait without a value. */
  ghost predicate InOrder(c: Office, t: Table, i: nat, ahead: nat) {
    TableOk(c, t) && NoneWaits(t, i) && Tally(t.slots, Fresh) == ahead
  }

  lemma VisitKeeps(c: Office, job: Job, t: Table, i: nat, ahead: nat)
    requires !job.Drop? && InReach(job, t, i) && InOrder(c, t, Reached(job, t, i), ahead)
    ensures InOrder(c, Visit(c, job, t, i), Reached(job, t, i + 1), ahead)
  {
    VisitKeepsTable(c, job, t, i);
    SlotAt(c, t, i);
    VisitKeepsWaiting(c, job, t, i);
  }

  lemma SameSlots(c: Office, t: Table, r: Table)
    requires t.Sized() && SlotsOk(c, t) && r.slots == t.slots
    requires r.current == t.current && r.highestOpen == t.highestOpen && r.nextUnused == t.nextUnused
    ensures SlotsOk(c, r)
  {
    forall k | 0 <= k < |r.slots|
      ensures SlotOk(c, r, k)
    {
      assert SlotOk(c, t, k);
    }
    forall i: nat | r.current <= i <= r.highestOpen
      ensures r.At(i).iid == i
    {
      assert t.At(i).iid == i;
    }
  }

  function Stop(job: Job, t: Table): nat {
    if job.Retry? then t.highestOpen + 1 else t.nextUnused
  }

  /** A loop over the window keeps the table, leaves the phase 1 window as it is and leaves no
      slot waiting. */
  lemma {:induction false} EachKeeps(c: Office, job: Job, t: Table, from: nat, to: nat, ahead: nat, e: Table)
    requires !job.Drop? && t.Sized() && t.current <= from <= to == Stop(job, t) && InOrder(c, t, Reached(job, t, from), ahead)
    requires e == Each(c, job, t, from, to)
    ensures InOrder(c, e, t.nextUnused, ahead)
    decreases if from < to then to - from else 0
  {
    if from < to {
      VisitKeeps(c, job, t, from, ahead);
      EachKeeps(c, job, Visit(c, job, t, from), from + 1, to, ahead, e);
    } else if job.Resend? {
      assert Reached(job, t, from) == t.nextUnused;
    }
  }

  // ---- opening instances ----

  /** The slots about to be opened are empty exactly when they fit in the ring. */
  lemma RoomExactly(c: Office, t: Table, k: nat)
    requires TableOk(c, t) && k <= |t.slots|
    ensures OpensEmptySlots(t, k) <==> t.highestOpen + k < t.current + |t.slots|
  {
    if t.highestOpen + k < t.current + |t.slots| {
      forall i: nat | t.highestOpen < i <= t.highestOpen + k
        ensures t.At(i).status == Empty
      {
        EmptyBeyond(c, t, i);
      }
    } else {
      var i := t.current + |t.slots|;
      AroundTheRing(t);
      SlotAt(c, t, t.current);
      assert t.highestOpen < i <= t.highestOpen + k && t.At(i).status != Empty;
    }
  }

  lemma OpenOneKeepsSlots(c: Office, t: Table)
    requires TableOk(c, t) && t.highestOpen + 1 < t.current + |t.slots|
    ensures SlotsOk(c, OpenOne(c, t))
  {
    var i := t.highestOpen + 1;
    EmptyBeyond(c, t, i);
    var r := OpenOne(c, t);
    forall k | 0 <= k < |r.slots|
      ensures SlotOk(c, r, k)
    {
      assert SlotOk(c, t, k);
    }
    forall j: nat | r.current <= j <= r.highestOpen
      ensures r.At(j).iid == j
    {
      if j < i {
        assert t.At(j).iid == j;
        IndexApart(j, i, |t.slots|);
      }
    }
  }

  lemma OpenOneKeeps(c: Office, t: Table, ahead: nat)
    requires InOrder(c, t, t.nextUnused, ahead) && t.highestOpen + 1 < t.current + |t.slots|
    ensures InOrder(c, OpenOne(c, t), t.nextUnused, ahead + 1)
  {
    var i := t.highestOpen + 1;
    OpenOneKeepsSlots(c, t);
    EmptyBeyond(c, t, i);
    CountersMove(t, i, Opened(CLEARED, i, c.me), OpenOne(c, t));
    SameHoldings(t, i, Opened(CLEARED, i, c.me), OpenOne(c, t));
  }

  lemma {:induction false} OpenManyKeeps(c: Office, t: Table, k: nat, ahead: nat, e: Table)
    requires InOrder(c, t, t.nextUnused, ahead) && t.highestOpen + k < t.current + |t.slots| && e == OpenMany(c, t, k)
    ensures InOrder(c, e, t.nextUnused, ahead + k) && e.nextUnused == t.nextUnused
    decreases k
  {
    if k > 0 {
      OpenOneKeeps(c, t, ahead);
      OpenManyKeeps(c, OpenOne(c, t), k - 1, ahead + 1, e);
    }
  }

  /** Opening instances fills the phase 1 window and no more. */
  lemma OpenP1Keeps(c: Office, t: Table)
    requires TableOk(c, t) && Settled(t) && t.highestOpen + ToOpen(t) < t.current + |t.slots|
    ensures TableOk(c, OpenP1(c, t)) && Settled(OpenP1(c, t))
  {
    OpenManyKeeps(c, t, ToOpen(t), Tally(t.slots, Fresh), OpenP1(c, t));
    FreshAreActive(t.slots);
  }

  lemma {:induction false} OpenManyCounts(c: Office, t: Table, k: nat)
    requires t.Sized()
    ensures var r := OpenMany(c, t, k);
            r.highestOpen == t.highestOpen + k && r.pendingCount == t.pendingCount + k && r.readyCount == t.readyCount
    decreases k
  {
    if k > 0 {
      OpenManyCounts(c, OpenOne(c, t), k - 1);
    }
  }

  /** A window less than half full is filled up, any other is left as it is. */
  lemma OpenP1Fills(c: Office, t: Table)
    requires t.Sized() && t.pendingCount + t.readyCount >= 0
    ensures var r := OpenP1(c, t);
            if t.pendingCount + t.readyCount < PROPOSER_PREEXEC_WIN_SIZE / 2
            then r.pendingCount + r.readyCount == PROPOSER_PREEXEC_WIN_SIZE && r.highestOpen > t.highestOpen
            else r == t
  {
    OpenManyCounts(c, t, ToOpen(t));
  }

  lemma ExecuteNextSlot(c: Office, t: Table)
    requires TableOk(c, t) && CanExecute(t)
    ensures t.nextUnused <= t.highestOpen && Fits(c, t, t.nextUnused, t.At(t.nextUnused))
    ensures var r := ExecuteNext(c, t); var next := r.At(t.nextUnused);
            && r.slots == t.With(t.nextUnused, next).slots && Fits(c, r, t.nextUnused, next)
            && next.status == P2Pending
  {
    assert SlotOk(c, t, Index(t.nextUnused, |t.slots|));
  }

  lemma ExecuteNextKeepsSlots(c: Office, t: Table)
    requires TableOk(c, t) && CanExecute(t)
    ensures SlotsOk(c, ExecuteNext(c, t))
  {
    var i := t.nextUnused;
    ExecuteNextSlot(c, t);
    OnlyInstance(c, t, i);
    var r := ExecuteNext(c, t);
    forall k | 0 <= k < |r.slots|
      ensures SlotOk(c, r, k)
    {
      assert SlotOk(c, t, k);
      if k != Index(i, |t.slots|) {
        assert r.slots[k] == t.slots[k] && t.slots[k].iid != i;
      }
    }
    forall j: nat | t.current <= j <= t.highestOpen
      ensures r.At(j).iid == j
    {
      if j != i {
        Distinct(t, i, j);
      }
      assert t.At(j).iid == j;
    }
  }

  lemma ExecuteNextKeeps(c: Office, t: Table)
    requires TableOk(c, t) && Settled(t) && t.openCount <= PROPOSER_P2_CONCURRENCY && CanExecute(t)
    ensures TableOk(c, ExecuteNext(c, t)) && Settled(ExecuteNext(c, t))
  {
    var i := t.nextUnused;
    var r := ExecuteNext(c, t);
    ExecuteNextSlot(c, t);
    ExecuteNextKeepsSlots(c, t);
    ExecuteKeepsLedger(c, t, i);
    SameLedger(Execute(c, t, i), r);
    CountersMove(t, i, r.At(i), r);
    assert Settled(r) by {
      OnlyInstance(c, t, i);
    }
  }

  lemma {:induction false} ExecuteManyKeeps(c: Office, t: Table)
    requires TableOk(c, t) && Settled(t)
    ensures TableOk(c, ExecuteMany(c, t)) && Settled(ExecuteMany(c, t))
    decreases PROPOSER_P2_CONCURRENCY + 1 - t.openCount
  {
    if t.openCount <= PROPOSER_P2_CONCURRENCY && CanExecute(t) {
      ExecuteNextKeeps(c, t);
      ExecuteManyKeeps(c, ExecuteNext(c, t));
    }
  }

  lemma OpenNewKeeps(c: Office, t: Table)
    requires TableOk(c, t) && Settled(t)
    ensures TableOk(c, OpenNew(c, t)) && Settled(OpenNew(c, t))
  {
    if t.openCount <= THRESHOLD {
      ExecuteManyKeeps(c, t);
    }
  }

  lemma {:induction false} ExecuteManyIsMaximal(c: Office, t: Table)
    requires t.Sized()
    ensures var r := ExecuteMany(c, t); r.openCount > PROPOSER_P2_CONCURRENCY || !CanExecute(r)
    decreases PROPOSER_P2_CONCURRENCY + 1 - t.openCount
  {
    if t.openCount <= PROPOSER_P2_CONCURRENCY && CanExecute(t) {
      ExecuteManyIsMaximal(c, ExecuteNext(c, t));
    }
  }

  /** Afterwards enough instances are in phase 2, or the next one cannot be opened. */
  lemma OpenNewIsMaximal(c: Office, t: Table)
    requires t.Sized()
    ensures OpenNew(c, t).openCount > THRESHOLD || !CanExecute(OpenNew(c, t))
  {
    ExecuteManyIsMaximal(c, t);
  }

  /** The loop finds a value assigned to the next instance exactly when the window spans the
      whole ring. */
  lemma UnassignedExactly(c: Office, t: Table)
    requires TableOk(c, t)
    ensures t.At(t.nextUnused).p2.None? <==> t.nextUnused < t.current + |t.slots|
  {
    var i := t.nextUnused;
    if i == t.current + |t.slots| {
      AroundTheRing(t);
      SlotAt(c, t, t.current);
    } else if i <= t.highestOpen {
      SlotAt(c, t, i);
    } else {
      EmptyBeyond(c, t, i);
    }
  }

  /** There is a free slot, or there are more instances without a value than phase 2 will take. */
  ghost predicate Roomy(t: Table) {
    t.highestOpen + 1 < t.current + |t.slots| || t.openCount + Tally(t.slots, Fresh) > PROPOSER_P2_CONCURRENCY
  }

  /** While an instance without a value is left, the next one to use is open. */
  lemma NextIsOpen(c: Office, t: Table)
    requires TableOk(c, t) && Tally(t.slots, Fresh) > 0
    ensures t.nextUnused <= t.highestOpen
  {
    TallyAll(t.slots, Fresh);
    var k :| 0 <= k < |t.slots| && Is(Fresh, t.slots[k]);
    assert SlotOk(c, t, k);
  }

  lemma ExecuteNextIsRoomy(c: Office, t: Table)
    requires TableOk(c, t) && Roomy(t) && CanExecute(t)
    ensures Roomy(ExecuteNext(c, t))
  {
    var r := ExecuteNext(c, t);
    ExecuteNextSlot(c, t);
    Recount(t, t.nextUnused, r.At(t.nextUnused), Fresh);
  }

  lemma {:induction false} OpenNewIsSafe(c: Office, t: Table)
    requires TableOk(c, t) && Settled(t) && Roomy(t)
    ensures NextIsUnassigned(c, t)
    decreases PROPOSER_P2_CONCURRENCY + 1 - t.openCount
  {
    if t.openCount <= PROPOSER_P2_CONCURRENCY {
      if t.highestOpen + 1 == t.current + |t.slots| {
        NextIsOpen(c, t);
      }
      UnassignedExactly(c, t);
      if CanExecute(t) {
        ExecuteNextKeeps(c, t);
        ExecuteNextIsRoomy(c, t);
        OpenNewIsSafe(c, ExecuteNext(c, t));
      }
    }
  }
}
