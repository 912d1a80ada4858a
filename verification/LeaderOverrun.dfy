/** What holds of a proposer's table whatever is delivered to it: also when instances it has not
    opened are, after which some of its slots are behind and its counters may count nothing. */
module LeaderOverrun {
  import opened PaxosConfig
  import opened Messages
  import opened SlotSpec
  import opened LeaderSpec
  import opened LeaderInvariant
  import opened LeaderSteps
  import opened LeaderRuns

  /** Slot k is clear or holds an instance that belongs there, under an own ballot. A leader has
      opened it; what is left from an earlier leadership has been delivered since. */
  ghost predicate SlotSane(c: Office, t: Table, k: nat)
    requires t.Sized() && k < |t.slots|
  {
    var sl := t.slots[k];
    || sl == CLEARED
    || (&& sl.status != Empty && sl.iid >= 1 && Index(sl.iid, |t.slots|) == k && Owner(sl.ballot) == c.me
        && (if t.leading then sl.iid <= t.highestOpen else sl.iid < t.current))
  }

  ghost predicate SlotsSane(c: Office, t: Table)
    requires t.Sized()
  {
    forall k :: 0 <= k < |t.slots| ==> SlotSane(c, t, k)
  }

  /** Of the instances still to be delivered a leader holds those it has opened, and those it has
      started a phase 2 for have a value. */
  ghost predicate WindowSane(t: Table)
    requires t.Sized()
  {
    && t.nextUnused <= t.highestOpen + 1
    && (forall i: nat :: t.current <= i <= t.highestOpen ==> t.At(i).iid == i)
    && (forall i: nat :: t.current <= i < t.nextUnused ==> t.At(i).p2.Some?)
  }

  ghost predicate Sane(c: Office, t: Table) {
    t.Sized() && c.me < MAX_N_OF_PROPOSERS && t.current >= 1 && SlotsSane(c, t) && (t.leading ==> WindowSane(t))
  }

  /** An instance that is at its place. */
  ghost predicate Placed(c: Office, t: Table, i: nat, sl: Slot)
    requires t.Sized()
  {
    sl.iid == i && i >= 1 && i <= t.highestOpen && sl.status != Empty && Owner(sl.ballot) == c.me
  }

  lemma AtPlace(c: Office, t: Table, i: nat)
    requires Sane(c, t) && t.leading && i >= 1 && t.At(i).iid == i
    ensures Placed(c, t, i, t.At(i))
  {
    assert SlotSane(c, t, Index(i, |t.slots|));
  }

  /** Instances that are at their places have different slots. */
  lemma Apart(t: Table, i: nat, j: nat)
    requires t.Sized() && t.At(i).iid == i && t.At(j).iid == j && i != j
    ensures Index(i, |t.slots|) != Index(j, |t.slots|)
  {
  }

  lemma PutSane(c: Office, t: Table, i: nat, sl: Slot, r: Table)
    requires Sane(c, t) && t.leading && r.slots == t.With(i, sl).slots && Placed(c, r, i, sl)
    requires t.At(i).iid == i || t.At(i).status == Empty
    requires r.leading && r.current == t.current && t.highestOpen <= r.highestOpen <= Max(t.highestOpen, i)
    requires r.highestOpen != t.highestOpen ==> i == t.highestOpen + 1
    requires t.nextUnused <= r.nextUnused <= r.highestOpen + 1
    requires r.nextUnused != t.nextUnused ==> r.nextUnused == i + 1 == t.nextUnused + 1
    requires t.current <= i < r.nextUnused ==> sl.p2.Some?
    ensures Sane(c, r)
  {
    forall k | 0 <= k < |r.slots|
      ensures SlotSane(c, r, k)
    {
      assert SlotSane(c, t, k);
    }
    forall j: nat | r.current <= j <= r.highestOpen
      ensures r.At(j).iid == j && (j < r.nextUnused ==> r.At(j).p2.Some?)
    {
      if j != i {
        assert t.At(j).iid == j;
        assert SlotSane(c, t, Index(j, |t.slots|));
      }
    }
  }

  // ---- loops ----

  lemma VisitSane(c: Office, job: Job, t: Table, i: nat)
    requires Sane(c, t) && t.leading && !job.Drop? && InReach(job, t, i)
    ensures t.At(i).iid == i && (job.Resend? ==> t.At(i).p2.Some?)
    ensures var r := Visit(c, job, t, i); Sane(c, r) && r.leading
  {
    AtPlace(c, t, i);
    var r := Visit(c, job, t, i);
    assert r.slots == t.With(i, r.At(i)).slots;
    PutSane(c, t, i, r.At(i), r);
  }

  lemma {:induction false} EachSane(c: Office, job: Job, t: Table, from: nat, to: nat, e: Table)
    requires Sane(c, t) && t.leading && !job.Drop? && t.current <= from && to == Stop(job, t) && e == Each(c, job, t, from, to)
    ensures Sane(c, e) && e.leading
    decreases if from < to then to - from else 0
  {
    if from < to {
      VisitSane(c, job, t, from);
      EachSane(c, job, Visit(c, job, t, from), from + 1, to, e);
    }
  }

  lemma OpenOneSane(c: Office, t: Table)
    requires Sane(c, t) && t.leading && t.At(t.highestOpen + 1).status == Empty
    ensures Sane(c, OpenOne(c, t)) && OpenOne(c, t).leading && t.At(t.highestOpen + 1) == CLEARED
  {
    var i := t.highestOpen + 1;
    assert SlotSane(c, t, Index(i, |t.slots|));
    PutSane(c, t, i, Opened(CLEARED, i, c.me), OpenOne(c, t));
  }

  /** With one instance opened the others still find their slots empty. */
  lemma StillEmpty(c: Office, t: Table, k: nat)
    requires t.Sized() && 0 < k <= |t.slots| && OpensEmptySlots(t, k)
    ensures t.At(t.highestOpen + 1).status == Empty && OpensEmptySlots(OpenOne(c, t), k - 1)
  {
    var r := OpenOne(c, t);
    forall i: nat | r.highestOpen < i <= r.highestOpen + (k - 1)
      ensures r.At(i).status == Empty
    {
      IndexApart(r.highestOpen, i, |t.slots|);
      assert t.At(i).status == Empty;
    }
  }

  lemma ExecuteNextSane(c: Office, t: Table)
    requires Sane(c, t) && t.leading && CanExecute(t)
    ensures Sane(c, ExecuteNext(c, t)) && ExecuteNext(c, t).leading
  {
    var i := t.nextUnused;
    assert SlotSane(c, t, Index(i, |t.slots|));
    var r := ExecuteNext(c, t);
    assert r.slots == t.With(i, r.At(i)).slots;
    PutSane(c, t, i, r.At(i), r);
  }

  // ---- promises ----

  lemma HandlePromiseSane(c: Office, t: Table, from: nat, pa: PrepareAck)
    requires Sane(c, t) && t.leading
    ensures var r := HandlePromise(c, t, from, pa); Sane(c, r) && r.leading
  {
    var r := HandlePromise(c, t, from, pa);
    var sl := t.At(pa.iid);
    AckedSlot(c, t, from, pa);
    assert SlotSane(c, t, Index(pa.iid, |t.slots|));
    if sl != CLEARED {
      assert t.At(sl.iid) == sl;
      assert r.slots == t.With(sl.iid, r.At(pa.iid)).slots;
      PutSane(c, t, sl.iid, r.At(pa.iid), r);
    } else {
      assert r.slots == t.slots;
      assert r == t.(pendingCount := r.pendingCount, readyCount := r.readyCount);
      SameSane(c, t, r);
    }
  }

  lemma SameSane(c: Office, t: Table, r: Table)
    requires Sane(c, t) && r.slots == t.slots && r.leading == t.leading && r.current == t.current
    requires r.highestOpen == t.highestOpen && r.nextUnused == t.nextUnused
    ensures Sane(c, r)
  {
    forall k | 0 <= k < |r.slots|
      ensures SlotSane(c, r, k)
    {
      assert SlotSane(c, t, k);
    }
    forall i: nat | r.leading && r.current <= i <= r.highestOpen
      ensures r.At(i).iid == i && (i < r.nextUnused ==> r.At(i).p2.Some?)
    {
      assert t.At(i).iid == i;
    }
  }

  // ---- delivery ----

  lemma ReleaseSane(c: Office, t: Table, value: Value)
    requires Sane(c, t) && t.leading && t.At(t.current).iid == t.current
    ensures var r := Release(c, t, value).(current := t.current + 1); Sane(c, r) && r.leading
  {
    var r := Release(c, t, value).(current := t.current + 1);
    AtPlace(c, t, t.current);
    forall k | 0 <= k < |r.slots|
      ensures SlotSane(c, r, k)
    {
      assert SlotSane(c, t, k);
    }
    forall i: nat | r.current <= i <= r.highestOpen
      ensures r.At(i).iid == i && (i < r.nextUnused ==> r.At(i).p2.Some?)
    {
      assert t.At(i).iid == i;
      Apart(t, t.current, i);
    }
  }

  /** A delivery that finds no slot of its instance moves only the frontier. */
  lemma SkipSane(c: Office, t: Table)
    requires Sane(c, t) && (t.leading ==> t.At(t.current).iid != t.current)
    ensures Sane(c, t.(current := t.current + 1))
  {
    var r := t.(current := t.current + 1);
    forall k | 0 <= k < |r.slots|
      ensures SlotSane(c, r, k)
    {
      assert SlotSane(c, t, k);
    }
    assert t.leading ==> t.current > t.highestOpen;
  }

  // ---- elections ----

  lemma ResetSane(c: Office, t: Table)
    requires Sane(c, t) && !t.leading
    ensures Sane(c, Reset(t)) && Reset(t).leading
  {
    var r := Reset(t);
    forall k | 0 <= k < |r.slots|
      ensures SlotSane(c, r, k)
    {
      assert SlotSane(c, t, k);
    }
  }

  /** A step down clears the slots it visits and leaves the others. */
  lemma {:induction false} DropClears(c: Office, t: Table, from: nat, to: nat, e: Table)
    requires t.Sized() && e == Each(c, Drop, t, from, to)
    ensures |e.slots| == |t.slots| && forall k :: 0 <= k < |t.slots| ==> e.slots[k] == t.slots[k] || e.slots[k] == CLEARED
    ensures forall i: nat :: from <= i < to ==> e.At(i) == CLEARED
    ensures e.current == t.current && e.promoted == t.promoted && e.prepares == t.prepares && e.accepts == t.accepts
    decreases if from < to then to - from else 0
  {
    if from < to {
      DropClears(c, Visit(c, Drop, t, from), from + 1, to, e);
    }
  }

  lemma ShutdownSane(c: Office, t: Table)
    requires Sane(c, t) && t.leading
    ensures Sane(c, Shutdown(c, t)) && !Shutdown(c, t).leading
  {
    var e := Each(c, Drop, t, t.current, t.highestOpen + 1);
    DropClears(c, t, t.current, t.highestOpen + 1, e);
    var r := Shutdown(c, t);
    assert r.slots == e.slots && r.current == t.current;
    forall k | 0 <= k < |r.slots|
      ensures SlotSane(c, r, k)
    {
      assert SlotSane(c, t, k);
      var sl := t.slots[k];
      if sl != CLEARED && t.current <= sl.iid {
        assert e.At(sl.iid) == CLEARED;
      }
    }
  }

  // ---- any event ----

  lemma {:induction false} OpenManySane(c: Office, t: Table, k: nat, e: Table)
    requires Sane(c, t) && t.leading && k <= |t.slots| && OpensEmptySlots(t, k) && e == OpenMany(c, t, k)
    ensures Sane(c, e) && e.leading
    decreases k
  {
    if k > 0 {
      StillEmpty(c, t, k);
      OpenOneSane(c, t);
      OpenManySane(c, OpenOne(c, t), k - 1, e);
    }
  }

  lemma {:induction false} ExecuteManySane(c: Office, t: Table, e: Table)
    requires Sane(c, t) && t.leading && e == ExecuteMany(c, t)
    ensures Sane(c, e) && e.leading
    decreases PROPOSER_P2_CONCURRENCY + 1 - t.openCount
  {
    if t.openCount <= PROPOSER_P2_CONCURRENCY && CanExecute(t) {
      ExecuteNextSane(c, t);
      ExecuteManySane(c, ExecuteNext(c, t), e);
    }
  }

  lemma OpenNewSane(c: Office, t: Table)
    requires Sane(c, t) && t.leading
    ensures Sane(c, OpenNew(c, t)) && OpenNew(c, t).leading
  {
    if t.openCount <= THRESHOLD {
      ExecuteManySane(c, t, ExecuteMany(c, t));
    }
  }

  lemma {:induction false} HandlePromisesSane(c: Office, t: Table, from: nat, batch: seq<PrepareAck>, e: Table)
    requires Sane(c, t) && t.leading && e == HandlePromises(c, t, from, batch)
    ensures Sane(c, e) && e.leading
    decreases |batch|
  {
    if batch != [] {
      HandlePromiseSane(c, t, from, batch[0]);
      HandlePromisesSane(c, HandlePromise(c, t, from, batch[0]), from, batch[1..], e);
    }
  }

  lemma BatchSane(c: Office, t: Table, from: nat, batch: seq<PrepareAck>)
    requires Sane(c, t) && t.leading
    ensures Sane(c, HandleBatch(c, t, from, batch))
  {
    var heard := HandlePromises(c, t, from, batch);
    HandlePromisesSane(c, t, from, batch, heard);
    if heard.readyCount > t.readyCount {
      EachSane(c, Resend, heard, heard.current, heard.nextUnused, Each(c, Resend, heard, heard.current, heard.nextUnused));
      OpenNewSane(c, Each(c, Resend, heard, heard.current, heard.nextUnused));
    }
  }

  lemma TimersSane(c: Office, t: Table, ev: Event)
    requires Sane(c, t) && t.leading && |t.slots| > PROPOSER_PREEXEC_WIN_SIZE && Survives(c, t, ev)
    requires ev.P1Timer? || ev.P2Timer?
    ensures Sane(c, Handle(c, t, ev))
  {
    match ev
    case P1Timer(expired) =>
      var checked := Each(c, Retry(expired), t, t.current, t.highestOpen + 1);
      EachSane(c, Retry(expired), t, t.current, t.highestOpen + 1, checked);
      OpenManySane(c, checked, ToOpen(checked), Handle(c, t, ev));
    case P2Timer(closed, expired) =>
      var checked := Each(c, Restart(closed, expired), t, t.current, t.nextUnused);
      EachSane(c, Restart(closed, expired), t, t.current, t.nextUnused, checked);
      OpenNewSane(c, checked);
  }

  lemma DeliverSane(c: Office, t: Table, value: Value)
    requires Sane(c, t)
    ensures Sane(c, Deliver(c, t, value))
  {
    if t.leading && t.At(t.current).iid == t.current {
      ReleaseSane(c, t, value);
      OpenNewSane(c, Release(c, t, value).(current := t.current + 1));
    } else {
      SkipSane(c, t);
    }
  }

  lemma HandleSane(c: Office, t: Table, ev: Event)
    requires Sane(c, t) && |t.slots| > PROPOSER_PREEXEC_WIN_SIZE && Possible(t, ev) && Survives(c, t, ev)
    ensures Sane(c, Handle(c, t, ev)) && |Handle(c, t, ev).slots| == |t.slots|
  {
    match ev
    case Elected =>
      ResetSane(c, t);
      OpenManySane(c, Reset(t), ToOpen(Reset(t)), Promote(c, t));
    case Deposed => ShutdownSane(c, t);
    case P1Timer(_) => TimersSane(c, t, ev);
    case P2Timer(_, _) => TimersSane(c, t, ev);
    case Promises(from, batch) =>
      if t.leading {
        BatchSane(c, t, from, batch);
      }
    case Delivered(value) => DeliverSane(c, t, value);
    case Submitted(value) => SameSane(c, t, Submit(t, value));
  }

  lemma StartSane(c: Office, size: nat)
    requires size > 0 && c.me < MAX_N_OF_PROPOSERS
    ensures Sane(c, Start(size))
  {
  }

  /** What is in order is sane. */
  lemma OrderSane(c: Office, t: Table)
    requires LeaderOk(c, t)
    ensures Sane(c, t)
  {
    forall k | 0 <= k < |t.slots|
      ensures SlotSane(c, t, k)
    {
      if t.leading {
        assert SlotOk(c, t, k);
      }
    }
    if t.leading {
      forall i: nat | t.current <= i < t.nextUnused
        ensures t.At(i).p2.Some?
      {
        SlotAt(c, t, i);
      }
    }
  }
}
