/** What the leader's clients are told, and what happens to the values they are waiting for. */
module LeaderReports {
  import opened PaxosConfig
  import opened Messages
  import opened SlotSpec
  import opened LeaderSpec
  import opened LeaderRuns
  import opened LeaderOverrun
  import opened LeaderEffects
  import opened LeaderRequests

  // ---- delivery ----

  /** The leader has assigned value v to the instance it is told of. */
  predicate Assigned(t: Table, v: Value)
    requires t.Sized()
  {
    t.leading && t.At(t.current).iid == t.current && t.At(t.current).p2 == Some(v)
  }

  /** The client of a value is told of success exactly when the value is delivered for the instance
      it was assigned to, and nothing else tells any client of success. */
  lemma HandleTells(c: Office, t: Table, ev: Event)
    requires t.Sized()
    ensures Handle(c, t, ev).notified
            == t.notified + if ev.Delivered? && Assigned(t, ev.value) then [ev.value] else []
  {
    match ev
    case Elected => P1CheckTells(c, Reset(t), {});
    case Deposed => EachTells(c, Drop, t, t.current, t.highestOpen + 1);
    case P1Timer(expired) => P1CheckTells(c, t, expired);
    case P2Timer(closed, expired) => P2CheckTells(c, t, closed, expired);
    case Promises(from, batch) => BatchTells(c, t, from, batch);
    case Delivered(value) => DeliveryTells(c, t, value);
    case Submitted(value) =>
  }

  lemma P1CheckTells(c: Office, t: Table, expired: set<nat>)
    requires t.Sized()
    ensures P1Check(c, t, expired).notified == t.notified
  {
    EachTells(c, Retry(expired), t, t.current, t.highestOpen + 1);
    var e := Each(c, Retry(expired), t, t.current, t.highestOpen + 1);
    OpenManyTells(c, e, ToOpen(e));
  }

  lemma P2CheckTells(c: Office, t: Table, closed: set<nat>, expired: set<nat>)
    requires t.Sized()
    ensures P2Check(c, t, closed, expired).notified == t.notified
  {
    EachTells(c, Restart(closed, expired), t, t.current, t.nextUnused);
    OpenNewTells(c, Each(c, Restart(closed, expired), t, t.current, t.nextUnused));
  }

  lemma DeliveryTells(c: Office, t: Table, value: Value)
    requires t.Sized()
    ensures Deliver(c, t, value).notified == t.notified + if Assigned(t, value) then [value] else []
  {
    if t.leading && t.At(t.current).iid == t.current {
      OpenNewTells(c, Release(c, t, value).(current := t.current + 1));
    }
  }

  lemma BatchTells(c: Office, t: Table, from: nat, batch: seq<PrepareAck>)
    requires t.Sized()
    ensures HandleBatch(c, t, from, batch).notified == t.notified
  {
    var heard := HandlePromises(c, t, from, batch);
    PromisesCollect(c, t, from, batch, 0, heard);
    EachTells(c, Resend, heard, heard.current, heard.nextUnused);
    OpenNewTells(c, Each(c, Resend, heard, heard.current, heard.nextUnused));
  }

  lemma {:induction false} EachTells(c: Office, job: Job, t: Table, from: nat, to: nat)
    requires t.Sized()
    ensures Each(c, job, t, from, to).notified == t.notified
    decreases if from < to then to - from else 0
  {
    if from < to {
      EachTells(c, job, Visit(c, job, t, from), from + 1, to);
    }
  }

  lemma {:induction false} OpenManyTells(c: Office, t: Table, k: nat)
    requires t.Sized()
    ensures OpenMany(c, t, k).notified == t.notified
    decreases k
  {
    if k > 0 {
      OpenManyTells(c, OpenOne(c, t), k - 1);
    }
  }

  lemma OpenNewTells(c: Office, t: Table)
    requires t.Sized()
    ensures OpenNew(c, t).notified == t.notified
  {
    ExecuteManyTells(c, t);
  }

  lemma {:induction false} ExecuteManyTells(c: Office, t: Table)
    requires t.Sized()
    ensures ExecuteMany(c, t).notified == t.notified
    decreases PROPOSER_P2_CONCURRENCY + 1 - t.openCount
  {
    if t.openCount <= PROPOSER_P2_CONCURRENCY && CanExecute(t) {
      ExecuteManyTells(c, ExecuteNext(c, t));
    }
  }

  /** A table moves on to the next instance with each delivery, and only then. */
  lemma HandleMoves(c: Office, t: Table, ev: Event)
    requires t.Sized()
    ensures Handle(c, t, ev).current == t.current + if ev.Delivered? then 1 else 0
  {
    match ev
    case Elected => P1CheckStays(c, Reset(t), {});
    case Deposed =>
    case P1Timer(expired) => P1CheckStays(c, t, expired);
    case P2Timer(closed, expired) => OpenNewStays(c, Each(c, Restart(closed, expired), t, t.current, t.nextUnused));
    case Promises(from, batch) =>
      var heard := HandlePromises(c, t, from, batch);
      OpenNewStays(c, Each(c, Resend, heard, heard.current, heard.nextUnused));
    case Delivered(value) =>
      if t.leading && t.At(t.current).iid == t.current {
        OpenNewStays(c, Release(c, t, value).(current := t.current + 1));
      }
    case Submitted(_) =>
  }

  lemma P1CheckStays(c: Office, t: Table, expired: set<nat>)
    requires t.Sized()
    ensures P1Check(c, t, expired).current == t.current
  {
    var e := Each(c, Retry(expired), t, t.current, t.highestOpen + 1);
    OpenManyStays(c, e, ToOpen(e));
  }

  /** Some slot at or after instance i has value v. */
  ghost predicate HeldFrom(t: Table, i: nat, v: Value)
    requires t.Sized()
  {
    exists j: nat :: i <= j < t.nextUnused && t.At(j).iid == j && t.At(j).p2 == Some(v)
  }

  /** The slot of the current instance is cleared; a value of the leader's own that was not the one
      delivered is at the head of the pending list; and the counters have given up the slot. */
  predicate Cleared(c: Office, t: Table, value: Value, e: Table)
    requires t.Sized()
  {
    var sl := t.At(t.current);
    && e.slots == t.slots[Index(t.current, |t.slots|) := CLEARED]
    && e.queue == (if sl.p2.Some? && sl.p2.value != value then [sl.p2.value] else []) + t.queue
    && e.current == t.current + 1
    && e.nextUnused == (if t.nextUnused == t.current then t.current + 1 else t.nextUnused)
    && e.pendingCount == t.pendingCount - (if sl.status == P1Pending then 1 else 0)
    && e.openCount == t.openCount - (if sl.status == P2Pending || (sl.p2.Some? && (sl.status == P1Pending || sl.status == P1Ready))
                                     then 1 else 0)
    && e == t.(slots := e.slots, queue := e.queue, current := e.current, nextUnused := e.nextUnused,
               pendingCount := e.pendingCount, openCount := e.openCount,
               readyCount := t.readyCount - if sl.status == P1Ready && c.repairs.countOff then 1 else 0,
               staleReady := e.staleReady, notified := e.notified)
  }

  lemma ReleaseClears(c: Office, t: Table, value: Value)
    requires t.Sized()
    ensures Cleared(c, t, value, Release(c, t, value).(current := t.current + 1))
  {
  }

  /** pro_deliver_callback: a leader that has a slot for the instance clears it and then proposes new
      instances; anything else just moves on. */
  lemma DeliverDoes(c: Office, t: Table, value: Value) returns (e: Table, vs: seq<Value>)
    requires Sane(c, t) && Survives(c, t, Delivered(value))
    ensures if t.leading && t.At(t.current).iid == t.current
            then Cleared(c, t, value, e) && e.Sized() && OpensWhatItCan(e, Deliver(c, t, value), vs)
            else Deliver(c, t, value) == t.(current := t.current + 1)
  {
    e, vs := t, [];
    if t.leading && t.At(t.current).iid == t.current {
      e := Release(c, t, value).(current := t.current + 1);
      ReleaseClears(c, t, value);
      ReleaseSane(c, t, value);
      vs := OpensAfterDelivery(c, e, Deliver(c, t, value));
    }
  }

  lemma OpensAfterDelivery(c: Office, e: Table, r: Table) returns (vs: seq<Value>)
    requires Sane(c, e) && e.leading && OpenNewAsserts(c, e) && r == OpenNew(c, e)
    ensures e.Sized() && r.Sized() && OpensWhatItCan(e, r, vs)
  {
    vs := OpenNewDoes(c, e);
  }

  lemma {:induction false} TakenAre(t: Table, from: nat, to: nat, queue: seq<Value>, vs: seq<Value>)
    requires t.Sized() && Taken(t, from, to) <= |queue| && vs == Values(t, from, to, queue)
    ensures forall v :: v in queue ==> v in queue[Taken(t, from, to)..] || v in vs
    decreases if from < to then to - from else 0
  {
    if from < to {
      if t.At(from).p1.Some? {
        TakenAre(t, from + 1, to, queue, vs[1..]);
      } else {
        TakenAre(t, from + 1, to, queue[1..], vs[1..]);
        assert queue[1..][Taken(t, from + 1, to)..] == queue[Taken(t, from, to)..];
        assert queue == [queue[0]] + queue[1..];
      }
    }
  }

  /** A value assigned to an instance for which another one was delivered is waiting again, or is
      already on its way for another instance. */
  lemma DisplacedWaits(c: Office, t: Table, value: Value)
    requires Sane(c, t) && t.leading && t.At(t.current).iid == t.current && Survives(c, t, Delivered(value))
    ensures var sl := t.At(t.current); var r := Deliver(c, t, value);
            sl.p2.Some? && sl.p2.value != value ==> sl.p2.value in r.queue || HeldFrom(r, t.nextUnused, sl.p2.value)
  {
    var e, vs := DeliverDoes(c, t, value);
    WaitsAfter(c, t, value, e, Deliver(c, t, value), vs);
  }

  lemma WaitsAfter(c: Office, t: Table, value: Value, e: Table, r: Table, vs: seq<Value>)
    requires t.Sized() && e.Sized() && r.Sized() && Cleared(c, t, value, e) && Proposed(e, r, vs)
    ensures var sl := t.At(t.current);
            sl.p2.Some? && sl.p2.value != value ==> sl.p2.value in r.queue || HeldFrom(r, t.nextUnused, sl.p2.value)
  {
    var sl := t.At(t.current);
    if sl.p2.Some? && sl.p2.value != value {
      FoundAgain(e, r, vs, sl.p2.value);
    }
  }

  /** A value of the pending list is still there, or goes out. */
  lemma FoundAgain(e: Table, r: Table, vs: seq<Value>, v: Value)
    requires e.Sized() && r.Sized() && Proposed(e, r, vs) && v in e.queue
    ensures v in r.queue || HeldFrom(r, e.nextUnused, v)
  {
    TakenAre(e, e.nextUnused, r.nextUnused, e.queue, vs);
    if v !in r.queue {
      var k :| 0 <= k < |vs| && vs[k] == v;
      assert Proposes(e.At(e.nextUnused + k), r.At(e.nextUnused + k), vs[k]);
    }
  }

  // ---- runs ----

  /** Every value whose client was told of success was delivered. */
  lemma {:induction false} RunsTellDelivered(c: Office, t: Table, events: seq<Event>)
    requires t.Sized() && Run(c, t, events)
    ensures t.notified <= After(c, t, events).notified
    ensures forall v :: v in After(c, t, events).notified[|t.notified|..] ==> Delivered(v) in events
    decreases |events|
  {
    if events != [] {
      var r := Handle(c, t, events[0]);
      HandleTells(c, t, events[0]);
      RunsTellDelivered(c, r, events[1..]);
      var e := After(c, t, events);
      assert e.notified[|t.notified|..] == r.notified[|t.notified|..] + e.notified[|r.notified|..];
    }
  }

  // ---- the other ways a value comes and goes ----

  /** The pending list takes a value exactly when it holds at most fifty. */
  lemma SubmitDoes(t: Table, value: Value)
    ensures Submit(t, value)
            == if |t.queue| <= 50 then t.(queue := t.queue + [value], taken := t.taken + [value]) else t
  {
  }

  /** The values of the instances of [from, to) that are not known to be closed, the last first. */
  function Unfinished(t: Table, from: nat, to: nat): seq<Value>
    requires t.Sized()
    decreases if from < to then to - from else 0
  {
    if from >= to then []
    else Unfinished(t, from + 1, to)
         + if t.At(from).p2.Some? && t.At(from).status != P2Completed then [t.At(from).p2.value] else []
  }

  lemma DropOne(c: Office, t: Table, i: nat, to: nat, r: Table)
    requires t.Sized() && i < to && (forall j: nat :: i <= j < to ==> t.At(j).iid == j) && r == Visit(c, Drop, t, i)
    ensures SameFrom(t, r, i + 1, to)
    ensures r.queue == (if t.At(i).p2.Some? && t.At(i).status != P2Completed then [t.At(i).p2.value] else []) + t.queue
    ensures r.failed == t.failed
  {
    forall j: nat | i < j < to
      ensures r.At(j) == t.At(j)
    {
      Apart(t, i, j);
    }
  }

  lemma {:induction false} DropsQueue(c: Office, w: Table, t: Table, from: nat, to: nat, e: Table)
    requires t.Sized() && w.Sized() && SameFrom(w, t, from, to) && e == Each(c, Drop, t, from, to)
    requires forall i: nat :: from <= i < to ==> t.At(i).iid == i
    ensures e.queue == Unfinished(w, from, to) + t.queue && e.failed == t.failed
    decreases if from < to then to - from else 0
  {
    if from < to {
      var r := Visit(c, Drop, t, from);
      DropOne(c, t, from, to, r);
      DropsQueue(c, w, r, from + 1, to, e);
      var one := if w.At(from).p2.Some? && w.At(from).status != P2Completed then [w.At(from).p2.value] else [];
      SentInTurn(Unfinished(w, from + 1, to), one, t.queue);
    }
  }

  /** With table r the leader of table t has stepped down and given up the values in `unfinished`. */
  ghost predicate SteppedDown(t: Table, unfinished: seq<Value>, r: Table)
    requires t.Sized() && r.Sized()
  {
    && (forall i: nat :: t.current <= i <= t.highestOpen ==> r.At(i) == CLEARED)
    && r == t.(leading := false, queue := [], slots := r.slots, lost := r.lost, failed := t.failed + (unfinished + t.queue))
  }

  /** A step down tells the client of every value assigned to an instance not known to be closed, and
      of every pending one, that it failed; it clears the window, and nothing is left to send. */
  lemma ShutdownTells(c: Office, t: Table)
    requires Sane(c, t) && t.leading
    ensures Shutdown(c, t).Sized() && SteppedDown(t, Unfinished(t, t.current, t.highestOpen + 1), Shutdown(c, t))
  {
    var e := Each(c, Drop, t, t.current, t.highestOpen + 1);
    DropsTell(c, t, e);
    DrainTells(t, Unfinished(t, t.current, t.highestOpen + 1), e, Shutdown(c, t));
  }

  lemma DrainTells(t: Table, unfinished: seq<Value>, e: Table, r: Table)
    requires t.Sized() && e.Sized() && r == Drained(e)
    requires e == t.(queue := unfinished + t.queue, slots := e.slots, lost := e.lost)
    requires forall i: nat :: t.current <= i <= t.highestOpen ==> e.At(i) == CLEARED
    ensures r.Sized() && SteppedDown(t, unfinished, r)
  {
    forall i: nat | t.current <= i <= t.highestOpen
      ensures r.At(i) == CLEARED
    {
      assert r.At(i) == e.At(i);
    }
  }

  lemma DropsTell(c: Office, t: Table, e: Table)
    requires Sane(c, t) && t.leading && e == Each(c, Drop, t, t.current, t.highestOpen + 1)
    ensures e == t.(queue := Unfinished(t, t.current, t.highestOpen + 1) + t.queue, slots := e.slots, lost := e.lost)
    ensures |e.slots| == |t.slots| && forall i: nat :: t.current <= i <= t.highestOpen ==> e.At(i) == CLEARED
  {
    DropsQueue(c, t, t, t.current, t.highestOpen + 1, e);
    DropsOnly(c, t, t.current, t.highestOpen + 1, e);
    DropClears(c, t, t.current, t.highestOpen + 1, e);
  }

  lemma {:induction false} DropsOnly(c: Office, t: Table, from: nat, to: nat, e: Table)
    requires t.Sized() && e == Each(c, Drop, t, from, to)
    ensures e == t.(queue := e.queue, slots := e.slots, lost := e.lost)
    decreases if from < to then to - from else 0
  {
    if from < to {
      DropsOnly(c, Visit(c, Drop, t, from), from + 1, to, e);
    }
  }
}
