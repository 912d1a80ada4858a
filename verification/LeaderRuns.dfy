/** The leader's table over whole runs: every event keeps it in order, and what that means for
    the counters, the asserts of the source and the clients' values. */
module LeaderRuns {
  import opened PaxosConfig
  import opened Messages
  import opened SlotSpec
  import opened LeaderSpec
  import opened LeaderInvariant
  import opened LeaderSteps

  // ---- promises ----

  /** Only the slot the promise is for changes, and it keeps its place. */
  lemma AckedSlot(c: Office, t: Table, from: nat, pa: PrepareAck)
    requires t.Sized()
    ensures var r := HandlePromise(c, t, from, pa); var sl := t.At(pa.iid); var next := r.At(pa.iid);
            && r.slots == t.With(pa.iid, next).slots
            && next.iid == sl.iid && next.p2 == sl.p2 && next.ballot == sl.ballot
            && (sl.status != P1Pending ==> next == sl)
            && (sl.status == P1Pending ==> next.status == P1Pending || next.status == P1Ready)
            && r.pendingCount == t.pendingCount - Weight(Pending, sl) + Weight(Pending, next)
            && r.readyCount == t.readyCount - Weight(Ready, sl) + Weight(Ready, next)
            && (r.readyCount == t.readyCount ==> next.status == sl.status)
  {
  }

  lemma AckedSlots(c: Office, t: Table, from: nat, pa: PrepareAck)
    requires t.Sized() && Frontiers(t) && SlotsOk(c, t)
    ensures SlotsOk(c, HandlePromise(c, t, from, pa))
  {
    var r := HandlePromise(c, t, from, pa);
    var sl := t.At(pa.iid);
    AckedSlot(c, t, from, pa);
    assert SlotOk(c, t, Index(pa.iid, |t.slots|));
    if sl != CLEARED {
      assert t.At(sl.iid) == sl && Fits(c, t, sl.iid, r.At(pa.iid));
      Replace(c, t, sl.iid, r.At(pa.iid));
      SameSlots(c, t.With(sl.iid, r.At(pa.iid)), r);
    } else {
      assert r.slots == t.slots;
      SameSlots(c, t, r);
    }
  }

  lemma AckedCounters(c: Office, t: Table, from: nat, pa: PrepareAck)
    requires t.Sized() && Counters(t) && Ledger(t)
    ensures var r := HandlePromise(c, t, from, pa);
            Counters(r) && Ledger(r) && Tally(r.slots, Fresh) == Tally(t.slots, Fresh)
  {
    var r := HandlePromise(c, t, from, pa);
    AckedSlot(c, t, from, pa);
    CountersMove(t, pa.iid, r.At(pa.iid), r);
    SameHoldings(t, pa.iid, r.At(pa.iid), r);
  }

  lemma HandlePromiseKeeps(c: Office, t: Table, from: nat, pa: PrepareAck, ahead: nat)
    requires InOrder(c, t, t.current, ahead)
    ensures InOrder(c, HandlePromise(c, t, from, pa), t.current, ahead)
  {
    AckedSlots(c, t, from, pa);
    AckedCounters(c, t, from, pa);
    NoneBefore(c, HandlePromise(c, t, from, pa));
  }

  /** Below the current instance there are no slots at all. */
  lemma NoneBefore(c: Office, t: Table)
    requires t.Sized() && SlotsOk(c, t)
    ensures NoneWaits(t, t.current)
  {
    forall k | 0 <= k < |t.slots|
      ensures t.slots[k].p2.Some? ==> t.slots[k].iid >= t.current
    {
      assert SlotOk(c, t, k);
    }
  }

  lemma AckKeepsWaiting(c: Office, t: Table, from: nat, pa: PrepareAck)
    requires t.Sized() && NoneWaits(t, t.nextUnused) && HandlePromise(c, t, from, pa).readyCount == t.readyCount
    ensures NoneWaits(HandlePromise(c, t, from, pa), t.nextUnused)
  {
    AckedSlot(c, t, from, pa);
  }

  lemma {:induction false} HandlePromisesKeep(c: Office, t: Table, from: nat, batch: seq<PrepareAck>, ahead: nat)
    requires InOrder(c, t, t.current, ahead)
    ensures InOrder(c, HandlePromises(c, t, from, batch), t.current, ahead)
    ensures NoneWaits(t, t.nextUnused) && HandlePromises(c, t, from, batch).readyCount == t.readyCount
            ==> NoneWaits(HandlePromises(c, t, from, batch), t.nextUnused)
    decreases |batch|
  {
    if batch != [] {
      var one := HandlePromise(c, t, from, batch[0]);
      HandlePromiseKeeps(c, t, from, batch[0], ahead);
      HandlePromisesKeep(c, one, from, batch[1..], ahead);
      if NoneWaits(t, t.nextUnused) && one.readyCount == t.readyCount {
        AckKeepsWaiting(c, t, from, batch[0]);
      }
    }
  }

  lemma HandleBatchKeeps(c: Office, t: Table, from: nat, batch: seq<PrepareAck>)
    requires TableOk(c, t) && Settled(t)
    ensures TableOk(c, HandleBatch(c, t, from, batch)) && Settled(HandleBatch(c, t, from, batch))
  {
    var ahead := Tally(t.slots, Fresh);
    var heard := HandlePromises(c, t, from, batch);
    NoneBefore(c, t);
    HandlePromisesKeep(c, t, from, batch, ahead);
    if t.leading && heard.readyCount > t.readyCount {
      EachKeeps(c, Resend, heard, heard.current, heard.nextUnused, ahead, Each(c, Resend, heard, heard.current, heard.nextUnused));
      OpenNewKeeps(c, Each(c, Resend, heard, heard.current, heard.nextUnused));
    }
  }

  // ---- delivery ----

  lemma ReleaseKeepsSlots(c: Office, t: Table, value: Value)
    requires TableOk(c, t) && t.current <= t.highestOpen
    ensures SlotsOk(c, Release(c, t, value).(current := t.current + 1))
  {
    var r := Release(c, t, value).(current := t.current + 1);
    OnlyInstance(c, t, t.current);
    forall k | 0 <= k < |r.slots|
      ensures SlotOk(c, r, k)
    {
      assert SlotOk(c, t, k);
      if k != Index(t.current, |t.slots|) {
        assert r.slots[k] == t.slots[k] && t.slots[k].iid != t.current;
      }
    }
    forall i: nat | r.current <= i <= r.highestOpen
      ensures r.At(i).iid == i
    {
      Distinct(t, t.current, i);
      assert t.At(i).iid == i;
    }
  }

  lemma ReleaseKeepsLedger(c: Office, t: Table, value: Value)
    requires t.Sized() && Ledger(t)
    ensures Ledger(Release(c, t, value))
  {
    forall v
      ensures Balanced(Release(c, t, value), v)
    {
      Rehold(t, t.current, CLEARED, v);
      assert Balanced(t, v);
    }
  }

  lemma ReleaseKeepsCounters(c: Office, t: Table, value: Value)
    requires t.Sized() && Counters(t) && Fits(c, t, t.current, t.At(t.current))
    ensures var r := Release(c, t, value).(current := t.current + 1);
            Counters(r) && Tally(r.slots, Fresh) <= Tally(t.slots, Fresh)
  {
    CountersMove(t, t.current, CLEARED, Release(c, t, value).(current := t.current + 1));
  }

  lemma ReleaseKeepsWaiting(c: Office, t: Table, value: Value)
    requires TableOk(c, t) && Settled(t) && t.current <= t.highestOpen
    ensures var r := Release(c, t, value); NoneWaits(r, r.nextUnused)
  {
    var r := Release(c, t, value);
    forall k | 0 <= k < |r.slots| && r.slots[k].p2.Some? && r.slots[k].iid < r.nextUnused
      ensures r.slots[k].status != P1Ready
    {
      assert SlotOk(c, t, k);
      assert r.slots[k] == t.slots[k];
    }
  }

  /** Delivering an instance that was opened keeps the table, whatever value was chosen. */
  lemma ReleaseKeeps(c: Office, t: Table, value: Value)
    requires TableOk(c, t) && Settled(t) && t.current <= t.highestOpen
    ensures var r := Release(c, t, value).(current := t.current + 1);
            TableOk(c, r) && Settled(r) && r.highestOpen + 1 < r.current + |r.slots|
  {
    SlotAt(c, t, t.current);
    ReleaseKeepsSlots(c, t, value);
    ReleaseKeepsLedger(c, t, value);
    SameLedger(Release(c, t, value), Release(c, t, value).(current := t.current + 1));
    ReleaseKeepsCounters(c, t, value);
    ReleaseKeepsWaiting(c, t, value);
  }

  lemma DeliverKeeps(c: Office, t: Table, value: Value)
    requires LeaderOk(c, t) && t.leading && t.current <= t.highestOpen
    ensures LeaderOk(c, Deliver(c, t, value)) && Deliver(c, t, value).leading
  {
    SlotAt(c, t, t.current);
    var r := Release(c, t, value).(current := t.current + 1);
    assert Deliver(c, t, value) == OpenNew(c, r);
    ReleaseKeeps(c, t, value);
    OpenNewKeeps(c, r);
    OpenNewStays(c, r);
  }

  /** A delivery keeps the leader in order exactly when it is of an instance the leader opened. */
  lemma DeliverExactly(c: Office, t: Table, value: Value)
    requires LeaderOk(c, t) && t.leading
    ensures LeaderOk(c, Deliver(c, t, value)) <==> t.current <= t.highestOpen
  {
    if t.current <= t.highestOpen {
      DeliverKeeps(c, t, value);
    } else {
      EmptyBeyond(c, t, t.current);
      assert !Frontiers(Deliver(c, t, value));
    }
  }

  lemma {:induction false} ExecuteManyStays(c: Office, t: Table)
    requires t.Sized()
    ensures var r := ExecuteMany(c, t);
            r.leading == t.leading && r.current == t.current && r.highestOpen == t.highestOpen && r.staleReady == t.staleReady
    decreases PROPOSER_P2_CONCURRENCY + 1 - t.openCount
  {
    if t.openCount <= PROPOSER_P2_CONCURRENCY && CanExecute(t) {
      ExecuteManyStays(c, ExecuteNext(c, t));
    }
  }

  lemma OpenNewStays(c: Office, t: Table)
    requires t.Sized()
    ensures var r := OpenNew(c, t);
            r.leading == t.leading && r.current == t.current && r.highestOpen == t.highestOpen && r.staleReady == t.staleReady
  {
    ExecuteManyStays(c, t);
  }

  lemma {:induction false} EachStays(c: Office, job: Job, t: Table, from: nat, to: nat)
    requires t.Sized()
    ensures var r := Each(c, job, t, from, to); r.leading == t.leading && r.staleReady == t.staleReady
    decreases if from < to then to - from else 0
  {
    if from < to {
      EachStays(c, job, Visit(c, job, t, from), from + 1, to);
    }
  }

  lemma {:induction false} OpenManyStays(c: Office, t: Table, k: nat)
    requires t.Sized()
    ensures var r := OpenMany(c, t, k); r.leading == t.leading && r.staleReady == t.staleReady && r.current == t.current
    ensures OpenMany(c, t, k).highestOpen == t.highestOpen + k
    decreases k
  {
    if k > 0 {
      OpenManyStays(c, OpenOne(c, t), k - 1);
    }
  }

  lemma {:induction false} HandlePromisesStay(c: Office, t: Table, from: nat, batch: seq<PrepareAck>)
    requires t.Sized()
    ensures var r := HandlePromises(c, t, from, batch); r.leading == t.leading && r.staleReady == t.staleReady
    decreases |batch|
  {
    if batch != [] {
      HandlePromisesStay(c, HandlePromise(c, t, from, batch[0]), from, batch[1..]);
    }
  }

  // ---- the beginning and the end of a leadership ----

  lemma {:induction false} ClearHolds(slots: seq<Slot>)
    requires Clear(slots)
    ensures (forall v :: Held(slots, v) == 0) && forall kind :: Tally(slots, kind) == 0
  {
    forall kind
      ensures Tally(slots, kind) == 0
    {
      TallyAll(slots, kind);
    }
    if slots != [] {
      ClearHolds(slots[..|slots| - 1]);
    }
  }

  lemma ResetIsInOrder(c: Office, t: Table)
    requires LeaderOk(c, t) && !t.leading
    ensures TableOk(c, Reset(t)) && Settled(Reset(t))
  {
    ClearHolds(t.slots);
    var r := Reset(t);
    SameLedger(t, r);
    forall k | 0 <= k < |r.slots|
      ensures SlotOk(c, r, k)
    {
    }
  }

  lemma PromoteKeeps(c: Office, t: Table)
    requires LeaderOk(c, t) && !t.leading && |t.slots| > PROPOSER_PREEXEC_WIN_SIZE
    ensures LeaderOk(c, Promote(c, t))
  {
    ResetIsInOrder(c, t);
    OpenP1Keeps(c, Reset(t));
    OpenManyStays(c, Reset(t), ToOpen(Reset(t)));
  }

  /** Slots of instances below i are clear. */
  ghost predicate Swept(t: Table, i: nat)
    requires t.Sized()
  {
    forall k :: 0 <= k < |t.slots| ==>
      t.slots[k] == CLEARED || (i <= t.slots[k].iid <= t.highestOpen && Index(t.slots[k].iid, |t.slots|) == k)
  }

  lemma DropKeepsLedger(c: Office, t: Table, i: nat)
    requires t.Sized() && Ledger(t)
    ensures Ledger(Visit(c, Drop, t, i))
  {
    forall v
      ensures Balanced(Visit(c, Drop, t, i), v)
    {
      Rehold(t, i, CLEARED, v);
      assert Balanced(t, v);
    }
  }

  lemma DropSweepsOne(c: Office, t: Table, i: nat)
    requires t.Sized() && Swept(t, i)
    ensures Swept(Visit(c, Drop, t, i), i + 1)
  {
    var r := Visit(c, Drop, t, i);
    forall k | 0 <= k < |r.slots|
      ensures r.slots[k] == CLEARED || (i + 1 <= r.slots[k].iid <= r.highestOpen && Index(r.slots[k].iid, |r.slots|) == k)
    {
      if k != Index(i, |t.slots|) {
        assert r.slots[k] == t.slots[k];
      }
    }
  }

  lemma {:induction false} DropSweeps(c: Office, t: Table, from: nat, to: nat)
    requires t.Sized() && Swept(t, from) && Ledger(t) && from <= to == t.highestOpen + 1
    ensures Clear(Each(c, Drop, t, from, to).slots)
    ensures Ledger(Each(c, Drop, t, from, to))
    decreases if from < to then to - from else 0
  {
    if from < to {
      var r := Visit(c, Drop, t, from);
      DropKeepsLedger(c, t, from);
      DropSweepsOne(c, t, from);
      DropSweeps(c, r, from + 1, to);
    }
  }

  lemma WindowIsSwept(c: Office, t: Table)
    requires t.Sized() && SlotsOk(c, t)
    ensures Swept(t, t.current)
  {
    forall k | 0 <= k < |t.slots|
      ensures t.slots[k] == CLEARED || (t.current <= t.slots[k].iid <= t.highestOpen && Index(t.slots[k].iid, |t.slots|) == k)
    {
      assert SlotOk(c, t, k);
    }
  }

  lemma DrainedIsInOrder(c: Office, t: Table)
    requires t.Sized() && c.me < MAX_N_OF_PROPOSERS && t.current >= 1 && Clear(t.slots) && Ledger(t)
    ensures LeaderOk(c, Drained(t))
  {
    ClearHolds(t.slots);
    forall v
      ensures Balanced(Drained(t), v)
    {
      assert Balanced(t, v);
    }
  }

  /** After leader_shutdown every slot is empty, the pending list too, and every value taken has
      been reported to its client or was lost. */
  lemma ShutdownKeeps(c: Office, t: Table)
    requires LeaderOk(c, t) && t.leading
    ensures LeaderOk(c, Shutdown(c, t)) && !Shutdown(c, t).leading
  {
    WindowIsSwept(c, t);
    DropSweeps(c, t, t.current, t.highestOpen + 1);
    DrainedIsInOrder(c, Each(c, Drop, t, t.current, t.highestOpen + 1));
  }

  // ---- events ----

  /** Elections alternate, timers run while there is a leader, and clients submit to a leader. */
  predicate Possible(t: Table, ev: Event) {
    match ev
    case Elected => !t.leading
    case Deposed => t.leading
    case P1Timer(_) => t.leading
    case P2Timer(_, _) => t.leading
    case Promises(_, _) => true
    case Delivered(_) => true
    case Submitted(_) => t.leading
  }

  /** And what is delivered to a leader is an instance it has opened. */
  predicate Expected(t: Table, ev: Event) {
    Possible(t, ev) && (ev.Delivered? && t.leading ==> t.current <= t.highestOpen)
  }

  /** No assert of the source fails while the event is handled. */
  predicate Survives(c: Office, t: Table, ev: Event)
    requires t.Sized()
  {
    match ev
    case Elected => OpensEmptySlots(Reset(t), ToOpen(Reset(t)))
    case P1Timer(expired) =>
      var checked := Each(c, Retry(expired), t, t.current, t.highestOpen + 1);
      checked.pendingCount + checked.readyCount >= 0 && OpensEmptySlots(checked, ToOpen(checked))
    case P2Timer(closed, expired) =>
      OpenNewAsserts(c, Each(c, Restart(closed, expired), t, t.current, t.nextUnused))
    case Promises(from, batch) =>
      var heard := HandlePromises(c, t, from, batch);
      t.leading && heard.readyCount > t.readyCount ==> OpenNewAsserts(c, Each(c, Resend, heard, heard.current, heard.nextUnused))
    case Delivered(value) =>
      t.leading && t.At(t.current).iid == t.current ==> OpenNewAsserts(c, Release(c, t, value).(current := t.current + 1))
    case _ => true
  }

  lemma TimersKeep(c: Office, t: Table, ev: Event)
    requires LeaderOk(c, t) && |t.slots| > PROPOSER_PREEXEC_WIN_SIZE && Expected(t, ev) && Survives(c, t, ev)
    requires ev.P1Timer? || ev.P2Timer?
    ensures LeaderOk(c, Handle(c, t, ev))
  {
    var ahead := Tally(t.slots, Fresh);
    match ev
    case P1Timer(expired) =>
      EachKeeps(c, Retry(expired), t, t.current, t.highestOpen + 1, ahead, Each(c, Retry(expired), t, t.current, t.highestOpen + 1));
      EachStays(c, Retry(expired), t, t.current, t.highestOpen + 1);
      var checked := Each(c, Retry(expired), t, t.current, t.highestOpen + 1);
      RoomExactly(c, checked, ToOpen(checked));
      OpenP1Keeps(c, checked);
      OpenManyStays(c, checked, ToOpen(checked));
    case P2Timer(closed, expired) =>
      EachKeeps(c, Restart(closed, expired), t, t.current, t.nextUnused, ahead, Each(c, Restart(closed, expired), t, t.current, t.nextUnused));
      EachStays(c, Restart(closed, expired), t, t.current, t.nextUnused);
      OpenNewKeeps(c, Each(c, Restart(closed, expired), t, t.current, t.nextUnused));
      OpenNewStays(c, Each(c, Restart(closed, expired), t, t.current, t.nextUnused));
  }

  lemma HandleKeeps(c: Office, t: Table, ev: Event)
    requires LeaderOk(c, t) && |t.slots| > PROPOSER_PREEXEC_WIN_SIZE && Expected(t, ev) && Survives(c, t, ev)
    ensures LeaderOk(c, Handle(c, t, ev)) && |Handle(c, t, ev).slots| == |t.slots|
  {
    match ev
    case Elected => PromoteKeeps(c, t);
    case Deposed => ShutdownKeeps(c, t);
    case P1Timer(_) => TimersKeep(c, t, ev);
    case P2Timer(_, _) => TimersKeep(c, t, ev);
    case Promises(from, batch) =>
      if t.leading {
        HandleBatchKeeps(c, t, from, batch);
        BatchStays(c, t, from, batch);
      }
    case Delivered(value) =>
      if t.leading {
        DeliverKeeps(c, t, value);
      } else {
        SameLedger(t, Deliver(c, t, value));
      }
    case Submitted(value) =>
      SubmitKeeps(c, t, value);
  }

  lemma BatchStays(c: Office, t: Table, from: nat, batch: seq<PrepareAck>)
    requires t.Sized()
    ensures var r := HandleBatch(c, t, from, batch);
            r.leading == t.leading && r.staleReady == t.staleReady && r.highestOpen == t.highestOpen
  {
    HandlePromisesStay(c, t, from, batch);
    var heard := HandlePromises(c, t, from, batch);
    EachStays(c, Resend, heard, heard.current, heard.nextUnused);
    OpenNewStays(c, Each(c, Resend, heard, heard.current, heard.nextUnused));
  }

  lemma SubmitKeeps(c: Office, t: Table, value: Value)
    requires LeaderOk(c, t) && t.leading
    ensures LeaderOk(c, Submit(t, value))
  {
    var r := Submit(t, value);
    SameSlots(c, t, r);
    forall v
      ensures Balanced(r, v)
    {
      assert Balanced(t, v);
    }
  }

  // ---- runs ----

  ghost predicate Run(c: Office, t: Table, events: seq<Event>)
    requires t.Sized()
    decreases |events|
  {
    events == [] || (Expected(t, events[0]) && Survives(c, t, events[0]) && Run(c, Handle(c, t, events[0]), events[1..]))
  }

  ghost function After(c: Office, t: Table, events: seq<Event>): (r: Table)
    requires t.Sized() && Run(c, t, events)
    ensures |r.slots| == |t.slots|
    decreases |events|
  {
    if events == [] then t else After(c, Handle(c, t, events[0]), events[1..])
  }

  /** The table is in order after every run, through any number of elections. */
  lemma {:induction false} RunsKeepOrder(c: Office, t: Table, events: seq<Event>)
    requires LeaderOk(c, t) && |t.slots| > PROPOSER_PREEXEC_WIN_SIZE && Run(c, t, events)
    ensures LeaderOk(c, After(c, t, events))
    decreases |events|
  {
    if events != [] {
      HandleKeeps(c, t, events[0]);
      RunsKeepOrder(c, Handle(c, t, events[0]), events[1..]);
    }
  }

  lemma StartIsInOrder(c: Office, size: nat)
    requires size > 0 && c.me < MAX_N_OF_PROPOSERS
    ensures LeaderOk(c, Start(size))
  {
    ClearHolds(Start(size).slots);
    forall v
      ensures Balanced(Start(size), v)
    {
    }
  }

  // ---- what the invariant says ----

  /** At most the phase 1 window and the instances of phase 2 are unfinished, so the window is
      only as wide as the closed instances that were not delivered yet make it. */
  lemma WindowIsBounded(c: Office, t: Table)
    requires LeaderOk(c, t) && t.leading
    ensures t.openCount <= PROPOSER_P2_CONCURRENCY + 1
    ensures t.highestOpen + 1 - t.current - Tally(t.slots, Closed) <= PROPOSER_PREEXEC_WIN_SIZE + PROPOSER_P2_CONCURRENCY + 1
  {
    forall k | 0 <= k < |t.slots|
      ensures InPhase2Has(t.slots[k])
    {
      assert SlotOk(c, t, k);
    }
    UsedAre(t.slots);
  }

  lemma RetryKeepsTallies(c: Office, t: Table, expired: set<nat>)
    requires LeaderOk(c, t) && t.leading
    ensures var r := Each(c, Retry(expired), t, t.current, t.highestOpen + 1);
            && TableOk(c, r) && Settled(r) && r.leading && r.staleReady == t.staleReady
            && Tally(r.slots, Closed) == Tally(t.slots, Closed)
  {
    var ahead := Tally(t.slots, Fresh);
    var r := Each(c, Retry(expired), t, t.current, t.highestOpen + 1);
    EachKeeps(c, Retry(expired), t, t.current, t.highestOpen + 1, ahead, Each(c, Retry(expired), t, t.current, t.highestOpen + 1));
    EachStays(c, Retry(expired), t, t.current, t.highestOpen + 1);
    RetryKeepsOpen(c, expired, t, t.current, t.highestOpen + 1);
    ClosedStays(c, t, r);
  }

  lemma {:induction false} RetryKeepsOpen(c: Office, expired: set<nat>, t: Table, from: nat, to: nat)
    requires t.Sized()
    ensures Each(c, Retry(expired), t, from, to).openCount == t.openCount
    decreases if from < to then to - from else 0
  {
    if from < to {
      RetryKeepsOpen(c, expired, Visit(c, Retry(expired), t, from), from + 1, to);
    }
  }

  /** The backlog of closed but undelivered instances leaves the ring room for the two windows. */
  ghost predicate HasRoom(t: Table) {
    t.leading ==> Tally(t.slots, Closed) + PROPOSER_PREEXEC_WIN_SIZE + PROPOSER_P2_CONCURRENCY + 1 <= |t.slots|
  }

  /** Either a slot is free, or the phase 1 window is full: then phase 2 will not use it up. */
  ghost predicate Ample(t: Table) {
    t.highestOpen + 1 < t.current + |t.slots| || Tally(t.slots, Fresh) == PROPOSER_PREEXEC_WIN_SIZE
  }

  lemma RoomIsAmple(c: Office, t: Table)
    requires LeaderOk(c, t) && t.leading && HasRoom(t)
    ensures Ample(t)
  {
    ClosedIs(c, t);
  }

  lemma LoopIsSafe(c: Office, job: Job, t: Table)
    requires !job.Drop? && !job.Retry? && InOrder(c, t, Reached(job, t, t.current), Tally(t.slots, Fresh))
    requires Tally(t.slots, Fresh) <= PROPOSER_PREEXEC_WIN_SIZE && Ample(t)
    ensures OpenNewAsserts(c, Each(c, job, t, t.current, t.nextUnused))
  {
    var e := Each(c, job, t, t.current, t.nextUnused);
    EachKeeps(c, job, t, t.current, t.nextUnused, Tally(t.slots, Fresh), e);
    OpenNewIsSafe(c, e);
  }

  /** The asserts about phase 2 hold whenever there is a free slot or a full phase 1 window. */
  lemma SurvivesPhase2(c: Office, t: Table, ev: Event)
    requires LeaderOk(c, t) && t.leading && Expected(t, ev) && !ev.P1Timer? && Ample(t)
    ensures Survives(c, t, ev)
  {
    match ev
    case P2Timer(closed, expired) => LoopIsSafe(c, Restart(closed, expired), t);
    case Promises(from, batch) =>
      NoneBefore(c, t);
      HandlePromisesKeep(c, t, from, batch, Tally(t.slots, Fresh));
      LoopIsSafe(c, Resend, HandlePromises(c, t, from, batch));
    case Delivered(value) =>
      ReleaseKeeps(c, t, value);
      OpenNewIsSafe(c, Release(c, t, value).(current := t.current + 1));
    case Deposed =>
    case Submitted(_) =>
  }

  /** While the backlog leaves room for the two windows no assert of the source fails, whatever
      happens next. */
  lemma SurvivesWithRoom(c: Office, t: Table, ev: Event)
    requires LeaderOk(c, t) && |t.slots| > PROPOSER_PREEXEC_WIN_SIZE && Expected(t, ev) && HasRoom(t)
    ensures Survives(c, t, ev)
  {
    if ev.Elected? {
      ResetIsInOrder(c, t);
      RoomExactly(c, Reset(t), ToOpen(Reset(t)));
    } else if ev.P1Timer? {
      RoomToOpen(c, t, ev.expired);
    } else if t.leading {
      RoomIsAmple(c, t);
      SurvivesPhase2(c, t, ev);
    }
  }

  lemma RoomToOpen(c: Office, t: Table, expired: set<nat>)
    requires LeaderOk(c, t) && t.leading && |t.slots| > PROPOSER_PREEXEC_WIN_SIZE && HasRoom(t)
    ensures Survives(c, t, P1Timer(expired))
  {
    RetryKeepsTallies(c, t, expired);
    RoomForWindow(c, Each(c, Retry(expired), t, t.current, t.highestOpen + 1));
  }

  lemma RoomForWindow(c: Office, t: Table)
    requires TableOk(c, t) && Settled(t) && t.leading && |t.slots| > PROPOSER_PREEXEC_WIN_SIZE && HasRoom(t)
    ensures OpensEmptySlots(t, ToOpen(t))
  {
    FreshAreActive(t.slots);
    ClosedIs(c, t);
    RoomExactly(c, t, ToOpen(t));
  }

  /** What is expected happens, and the backlog leaves room before every event. */
  ghost predicate Within(c: Office, t: Table, events: seq<Event>)
    requires t.Sized()
    decreases |events|
  {
    events == [] || (Expected(t, events[0]) && HasRoom(t) && Within(c, Handle(c, t, events[0]), events[1..]))
  }

  /** No assert of the source fails on any run within the bound, from any table in order and
      through any number of elections; and the table stays in order. */
  lemma {:induction false} RunsSurvive(c: Office, t: Table, events: seq<Event>)
    requires LeaderOk(c, t) && |t.slots| > PROPOSER_PREEXEC_WIN_SIZE && Within(c, t, events)
    ensures Run(c, t, events) && LeaderOk(c, After(c, t, events))
    decreases |events|
  {
    if events != [] {
      SurvivesWithRoom(c, t, events[0]);
      HandleKeeps(c, t, events[0]);
      RunsSurvive(c, Handle(c, t, events[0]), events[1..]);
    }
  }

  lemma ClosedIs(c: Office, t: Table)
    requires TableOk(c, t)
    ensures Tally(t.slots, Closed) == t.highestOpen + 1 - t.current - Tally(t.slots, Fresh) - Tally(t.slots, InPhase2)
  {
    forall k | 0 <= k < |t.slots|
      ensures InPhase2Has(t.slots[k])
    {
      assert SlotOk(c, t, k);
    }
    UsedAre(t.slots);
  }

  lemma ClosedStays(c: Office, t: Table, r: Table)
    requires TableOk(c, t) && TableOk(c, r) && r.highestOpen == t.highestOpen && r.current == t.current
    requires Tally(r.slots, Fresh) == Tally(t.slots, Fresh) && Tally(r.slots, InPhase2) == Tally(t.slots, InPhase2)
    ensures Tally(r.slots, Closed) == Tally(t.slots, Closed)
  {
    ClosedIs(c, t);
    ClosedIs(c, r);
  }

  // ---- clients' values ----

  /** A delivery loses nothing: the value of the slot is reported or goes back to the list. */
  lemma ReleaseConserves(c: Office, t: Table, value: Value, v: Value)
    requires t.Sized()
    ensures InHand(Release(c, t, value), v) == InHand(t, v)
  {
    Rehold(t, t.current, CLEARED, v);
  }

  /** A step down loses the value of a slot exactly when its instance is known to be closed. */
  lemma DropConserves(c: Office, t: Table, i: nat)
    requires t.Sized()
    ensures (forall v :: InHand(Visit(c, Drop, t, i), v) == InHand(t, v))
            <==> !(t.At(i).status == P2Completed && t.At(i).p2.Some?)
  {
    var sl := t.At(i);
    var r := Visit(c, Drop, t, i);
    forall v
      ensures InHand(r, v) == InHand(t, v) - if sl.status == P2Completed then Copies(v, sl.p2) else 0
    {
      Rehold(t, i, CLEARED, v);
    }
    if sl.status == P2Completed && sl.p2.Some? {
      assert InHand(r, sl.p2.value) != InHand(t, sl.p2.value);
    }
  }

  // ---- the counter that is not kept ----

  /** The leader still leads, has opened nothing and has not forgotten a stale slot. */
  predicate Stays(t: Table, r: Table) {
    r.leading == t.leading && r.highestOpen == t.highestOpen && r.staleReady >= t.staleReady
  }

  lemma StaleCountStopsP1(c: Office, t: Table, expired: set<nat>)
    requires LeaderOk(c, t) && t.leading && t.staleReady >= PROPOSER_PREEXEC_WIN_SIZE / 2
    ensures Stays(t, P1Check(c, t, expired))
  {
    RetryKeepsTallies(c, t, expired);
    assert ToOpen(Each(c, Retry(expired), t, t.current, t.highestOpen + 1)) == 0;
  }

  lemma P2CheckStays(c: Office, t: Table, closed: set<nat>, expired: set<nat>)
    requires t.Sized()
    ensures Stays(t, P2Check(c, t, closed, expired))
  {
    EachStays(c, Restart(closed, expired), t, t.current, t.nextUnused);
    OpenNewStays(c, Each(c, Restart(closed, expired), t, t.current, t.nextUnused));
  }

  lemma DeliverStays(c: Office, t: Table, value: Value)
    requires t.Sized()
    ensures Stays(t, Deliver(c, t, value))
  {
    OpenNewStays(c, Release(c, t, value).(current := t.current + 1));
  }

  /** Once half a window of ready slots has been delivered this way, no event but a new election
      opens another instance. */
  lemma StaleCountStopsOpening(c: Office, t: Table, ev: Event)
    requires LeaderOk(c, t) && t.leading && Expected(t, ev) && !ev.Deposed?
    requires t.staleReady >= PROPOSER_PREEXEC_WIN_SIZE / 2
    ensures Stays(t, Handle(c, t, ev))
  {
    match ev
    case P1Timer(expired) => StaleCountStopsP1(c, t, expired);
    case P2Timer(closed, expired) => P2CheckStays(c, t, closed, expired);
    case Promises(from, batch) => BatchStays(c, t, from, batch);
    case Delivered(value) => DeliverStays(c, t, value);
    case Submitted(_) =>
  }

  lemma {:induction false} StaleCountStopsRuns(c: Office, t: Table, events: seq<Event>)
    requires LeaderOk(c, t) && t.leading && |t.slots| > PROPOSER_PREEXEC_WIN_SIZE && Run(c, t, events)
    requires Deposed !in events && t.staleReady >= PROPOSER_PREEXEC_WIN_SIZE / 2
    ensures After(c, t, events).highestOpen == t.highestOpen
    decreases |events|
  {
    if events != [] {
      HandleKeeps(c, t, events[0]);
      StaleCountStopsOpening(c, t, events[0]);
      StaleCountStopsRuns(c, Handle(c, t, events[0]), events[1..]);
    }
  }
}
