/** The learner of lib/learner.c as it keeps its state: a ring of LEARNER_ARRAY_SIZE slots that
    slides along the instances. Every method does to the ring what LearnerSpec does to a map. */
module RingLearner {
  import opened PaxosConfig
  import opened Messages
  import opened LearnerSpec
  import H = HoleDetection

  // ---- the ring as a map ----

  /** Every slot is empty or holds the one instance of the window that belongs there. */
  ghost predicate RingOk(c: Setup, current: nat, ring: seq<Instance>)
    requires c.Valid()
  {
    && |ring| == c.window && current >= 1
    && forall k :: 0 <= k < |ring| ==>
         ring[k] == EmptyInstance(c.n)
         || (current <= ring[k].iid < current + c.window && Index(ring[k].iid, c.window) == k && |ring[k].acks| == c.n)
  }

  ghost function OpenOf(c: Setup, current: nat, ring: seq<Instance>): map<nat, Instance>
    requires c.Valid() && |ring| == c.window
  {
    map i: nat | current <= i < current + c.window && ring[Index(i, c.window)].iid == i :: ring[Index(i, c.window)]
  }

  /** No two instances of the window share a slot. */
  lemma OneOwner(c: Setup, current: nat, i: nat, j: nat)
    requires c.Valid() && current <= i < current + c.window && current <= j < current + c.window
    requires Index(i, c.window) == Index(j, c.window)
    ensures i == j
  {
    if i <= j {
      SameIndex(i, j, c.window);
    } else {
      SameIndex(j, i, c.window);
    }
  }

  /** The slot of an instance of the window holds that instance or nothing. */
  lemma SlotHolds(c: Setup, current: nat, ring: seq<Instance>, i: nat)
    requires c.Valid() && RingOk(c, current, ring) && current <= i < current + c.window
    ensures var inst := ring[Index(i, c.window)];
            (inst.iid == i && i in OpenOf(c, current, ring)) || (inst == EmptyInstance(c.n) && i !in OpenOf(c, current, ring))
  {
    var inst := ring[Index(i, c.window)];
    if inst != EmptyInstance(c.n) {
      OneOwner(c, current, inst.iid, i);
    }
  }

  lemma OpenUpdate(c: Setup, current: nat, ring: seq<Instance>, i: nat, inst: Instance)
    requires c.Valid() && RingOk(c, current, ring) && current <= i < current + c.window
    requires inst.iid == i && |inst.acks| == c.n
    ensures var next := ring[Index(i, c.window) := inst];
            RingOk(c, current, next) && OpenOf(c, current, next) == OpenOf(c, current, ring)[i := inst]
  {
    var next := ring[Index(i, c.window) := inst];
    forall j: nat | current <= j < current + c.window && j != i
      ensures Index(j, c.window) != Index(i, c.window)
    {
      if Index(j, c.window) == Index(i, c.window) {
        OneOwner(c, current, i, j);
      }
    }
  }

  /** Clearing the current slot and moving on removes the current instance from the map, and
      the instance that enters the window starts empty. */
  lemma OpenAdvance(c: Setup, current: nat, ring: seq<Instance>)
    requires c.Valid() && RingOk(c, current, ring)
    ensures var next := ring[Index(current, c.window) := EmptyInstance(c.n)];
            RingOk(c, current + 1, next) && OpenOf(c, current + 1, next) == OpenOf(c, current, ring) - {current}
  {
    var next := ring[Index(current, c.window) := EmptyInstance(c.n)];
    assert Index(current + c.window, c.window) == Index(current, c.window) by {
      RemainderIs(current + c.window, c.window, current / c.window + 1, current % c.window);
    }
    forall j: nat
      ensures j in OpenOf(c, current + 1, next) <==> j in OpenOf(c, current, ring) && j != current
      ensures j in OpenOf(c, current + 1, next) ==> OpenOf(c, current + 1, next)[j] == OpenOf(c, current, ring)[j]
    {
      if current < j < current + c.window {
        IndexApart(current, j, c.window);
      }
    }
    assert OpenOf(c, current + 1, next) == OpenOf(c, current, ring) - {current};
  }

  ghost function ViewOf(c: Setup, current: nat, seen: nat, closed: nat, delivered: seq<Record>, ring: seq<Instance>): LearnerSpec.Learner
    requires c.Valid() && |ring| == c.window
  {
    LearnerSpec.Learner(current, seen, closed, OpenOf(c, current, ring), delivered)
  }

  /** What storing an ack in its slot does to the map, and that it may be done. */
  lemma StoringInRing(c: Setup, v: LearnerSpec.Learner, ring: seq<Instance>, a: nat, ack: Record)
    requires c.Valid() && RingOk(c, v.current, ring) && v.open == OpenOf(c, v.current, ring) && LearnerOk(c, v)
    requires a < c.n && InWindow(c, v, ack.iid)
    ensures var k := Index(ack.iid, c.window); var after := Learnt(c, SlotOf(c, v, ack.iid), a, ack);
            && SlotOf(c, v, ack.iid) == ring[k] && |ring[k].acks| == c.n && (ring[k].iid == 0 || ring[k].iid == ack.iid)
            && RingOk(c, v.current, ring[k := after])
            && ViewOf(c, v.current, Max(v.seen, ack.iid), Stored(c, v, a, ack).closed, v.delivered, ring[k := after])
               == Stored(c, v, a, ack)
    ensures WindowOk(c, Stored(c, v, a, ack))
  {
    SlotHolds(c, v.current, ring, ack.iid);
    SlotLearns(c, v, a, ack);
    StoredKeepsWindow(c, v, a, ack);
    OpenUpdate(c, v.current, ring, ack.iid, Learnt(c, SlotOf(c, v, ack.iid), a, ack));
  }

  /** What one turn of the delivery loop does to the map. */
  lemma DeliveringInRing(c: Setup, v: LearnerSpec.Learner, ring: seq<Instance>)
    requires c.Valid() && RingOk(c, v.current, ring) && v.open == OpenOf(c, v.current, ring) && WindowOk(c, v)
    requires LearnerSpec.IsClosed(v, v.current)
    ensures var k := Index(v.current, c.window);
            && ring[k] == v.open[v.current] && ring[k].iid == v.current
            && RingOk(c, v.current + 1, ring[k := EmptyInstance(c.n)])
            && ViewOf(c, v.current + 1, v.seen, v.closed, v.delivered + [ring[k].final.value], ring[k := EmptyInstance(c.n)])
               == DeliverOne(v)
    ensures WindowOk(c, DeliverOne(v))
  {
    DeliverOneKeepsOrder(c, v);
    OpenAdvance(c, v.current, ring);
  }

  /** The slot the ring gives for an instance is closed exactly when its owner is. */
  lemma OwnerClosed(c: Setup, v: LearnerSpec.Learner, ring: seq<Instance>, i: nat)
    requires c.Valid() && RingOk(c, v.current, ring) && v.open == OpenOf(c, v.current, ring) && v.current <= i
    ensures ring[Index(i, c.window)].final.Some? <==> LearnerSpec.IsClosed(v, H.OwnerOf(c, v, i))
  {
    H.OwnerSharesSlot(c, v, i);
    SlotHolds(c, v.current, ring, H.OwnerOf(c, v, i));
  }

  lemma RequestsStep(c: Setup, v: LearnerSpec.Learner, ring: seq<Instance>, i: nat, to: nat, requests: seq<nat>)
    requires c.Valid() && RingOk(c, v.current, ring) && v.open == OpenOf(c, v.current, ring) && v.current <= i < to
    ensures requests + H.Requests(c, v, i, to)
            == (if ring[Index(i, c.window)].final.None? then requests + [i] else requests) + H.Requests(c, v, i + 1, to)
  {
    OwnerClosed(c, v, ring, i);
    assert H.Requests(c, v, i, to)
        == (if LearnerSpec.IsClosed(v, H.OwnerOf(c, v, i)) then [] else [i]) + H.Requests(c, v, i + 1, to);
  }

  class Learner {
    const c: Setup
    const ring: array<Instance>
    var current: nat
    var seen: nat
    var closed: nat
    /** The records passed to the deliver callback, in order. */
    var delivered: seq<Record>

    ghost function View(): (v: LearnerSpec.Learner)
      requires c.Valid() && ring.Length == c.window
      reads this, ring
    {
      ViewOf(c, current, seen, closed, delivered, ring[..])
    }

    /** The ring is consistent and the learner is between two turns of the delivery loop. */
    ghost predicate Consistent()
      reads this, ring
    {
      c.Valid() && ring.Length == c.window && RingOk(c, current, ring[..]) && WindowOk(c, View())
    }

    ghost predicate Valid()
      reads this, ring
    {
      Consistent() && !LearnerSpec.IsClosed(View(), current)
    }

    /** init_lea_structs. */
    constructor (c: Setup)
      requires c.Valid()
      ensures Valid() && this.c == c && View() == NEW_LEARNER && fresh(ring)
    {
      this.c := c;
      ring := new Instance[c.window](_ => EmptyInstance(c.n));
      current, seen, closed, delivered := 1, 1, 0, [];
      new;
      assert View().open == map[];
    }

    /** learner_is_closed. */
    method IsClosed(iid: nat) returns (b: bool)
      requires Consistent()
      ensures b <==> LearnerSpec.IsClosed(View(), iid)
    {
      var inst := ring[Index(iid, c.window)];
      b := iid == inst.iid && inst.final.Some?;
      assert inst == ring[..][Index(iid, c.window)];
    }

    /** lea_update_state on slot k. */
    method UpdateState(k: nat, a: nat, ack: Record) returns (stored: bool)
      requires k < ring.Length && a < |ring[k].acks| && (ring[k].iid == 0 || ring[k].iid == ack.iid)
      modifies ring
      ensures ring[..] == old(ring[..])[k := Update(c, old(ring[k]), a, ack).0]
      ensures stored == Update(c, old(ring[k]), a, ack).1
    {
      if ring[k].iid == 0 {
        ring[k] := ring[k].(iid := ack.iid, lastBallot := GroupOf(c, ack));
      }
      assert ring[k].iid == ack.iid;
      if ring[k].final.Some? {
        return false;
      }
      if ring[k].acks[a].Some? && ring[k].acks[a].value.ballot >= ack.ballot {
        return false;
      }
      ring[k] := ring[k].(acks := ring[k].acks[a := Some(ack)], lastBallot := GroupOf(c, ack));
      return true;
    }

    /** lea_check_quorum on slot k. */
    method CheckQuorum(k: nat) returns (quorum: bool)
      requires c.Valid() && k < ring.Length && |ring[k].acks| == c.n && ring[k].final.None?
      modifies ring, this`closed
      ensures ring[..] == old(ring[..])[k := Check(c, old(ring[k]))]
      ensures quorum <==> ring[k].final.Some?
      ensures closed == if quorum then Max(old(closed), ring[k].iid) else old(closed)
    {
      var inst := ring[k];
      var valid, count: nat := -1, 0;
      var i := 0;
      while i < c.n
        invariant 0 <= i <= c.n
        invariant Scan(c, inst, 0, -1, 0) == Scan(c, inst, i, valid, count)
      {
        if inst.acks[i].Some? && GroupOf(c, inst.acks[i].value) == inst.lastBallot {
          valid := i;
          count := count + 1;
          if inst.acks[i].value.isFinal {
            count := count + c.n;
            break;
          }
        }
        i := i + 1;
      }
      ScanFinds(c, inst, 0, -1, 0);
      assert Scan(c, inst, 0, -1, 0) == (valid, count);
      if count >= Quorum(c.n) {
        ring[k] := inst.(final := inst.acks[valid]);
        if inst.iid > closed {
          closed := inst.iid;
        }
        return true;
      }
      return false;
    }

    /** lea_update_state and, if the ack was stored, lea_check_quorum. */
    method StoreAck(k: nat, a: nat, ack: Record) returns (quorum: bool)
      requires c.Valid() && k < ring.Length && a < |ring[k].acks| == c.n && (ring[k].iid == 0 || ring[k].iid == ack.iid)
      modifies ring, this`closed
      ensures ring[..] == old(ring[..])[k := Learnt(c, old(ring[k]), a, ack)]
      ensures quorum <==> Update(c, old(ring[k]), a, ack).1 && ring[k].final.Some?
      ensures closed == if quorum then Max(old(closed), ring[k].iid) else old(closed)
    {
      var stored := UpdateState(k, a, ack);
      quorum := false;
      if stored {
        assert ring[k] == Update(c, old(ring[k]), a, ack).0;
        quorum := CheckQuorum(k);
      }
    }

    /** The slot of the current instance goes to the callback and is cleared. */
    method PassOn(k: nat)
      requires k < ring.Length && ring[k].final.Some? && ring[k].iid == current
      modifies this`delivered, this`current, ring
      ensures ring[..] == old(ring[..])[k := EmptyInstance(c.n)]
      ensures current == old(current) + 1 && delivered == old(delivered) + [old(ring[k]).final.value]
    {
      assert ring[k].iid == current;
      delivered := delivered + [ring[k].final.value];
      current := current + 1;
      ring[k] := EmptyInstance(c.n);
    }

    /** One turn of the delivery loop. */
    method DeliverCurrent()
      requires Consistent() && LearnerSpec.IsClosed(View(), current)
      modifies this, ring
      ensures Consistent() && View() == DeliverOne(old(View()))
    {
      var k := Index(current, c.window);
      ghost var after := DeliverOne(View());
      DeliveringInRing(c, View(), ring[..]);
      PassOn(k);
      assert View() == after;
    }

    /** lea_deliver_next_closed. */
    method DeliverNextClosed()
      requires Consistent()
      modifies this, ring
      ensures Valid() && View() == DeliverNext(old(View()))
    {
      var closing := IsClosed(current);
      while closing
        invariant Consistent()
        invariant closing <==> LearnerSpec.IsClosed(View(), current)
        invariant DeliverNext(View()) == DeliverNext(old(View()))
        decreases |View().open|
      {
        DeliverOneShrinks(View());
        DeliverCurrent();
        closing := IsClosed(current);
      }
    }

    /** handle_accept_ack for an instance of the window, before any delivery. */
    method RecordAck(a: nat, ack: Record) returns (quorum: bool)
      requires Valid() && a < c.n && InWindow(c, View(), ack.iid) && seen >= ack.iid
      modifies this, ring
      ensures Consistent() && View() == Stored(c, old(View()), a, ack)
      ensures quorum <==> Update(c, SlotOf(c, old(View()), ack.iid), a, ack).1 && LearnerSpec.IsClosed(View(), ack.iid)
    {
      ghost var before := View();
      assert Max(seen, ack.iid) == seen;
      StoringInRing(c, before, ring[..], a, ack);
      quorum := StoreAck(Index(ack.iid, c.window), a, ack);
    }

    /** The highest instance seen is noted even for an ack that is then ignored. */
    method NoteSeen(iid: nat)
      requires Valid()
      modifies this`seen
      ensures Valid() && View() == old(View()).(seen := Max(old(seen), iid))
    {
      if iid > seen {
        seen := iid;
      }
    }

    /** handle_accept_ack. */
    method HandleAcceptAck(a: nat, ack: Record)
      requires Valid() && a < c.n
      modifies this, ring
      ensures Valid() && View() == HandleAck(c, old(View()), a, ack)
    {
      NoteSeen(ack.iid);
      if ack.iid < current || ack.iid >= current + c.window {
        return;
      }
      var quorum := RecordAck(a, ack);
      if quorum && ack.iid == current {
        DeliverNextClosed();
      }
    }

    /** lea_send_repeat_request. */
    method SendRepeatRequest(from: nat, to: nat) returns (requests: seq<nat>)
      requires Valid() && current <= from
      ensures requests == H.Requests(c, View(), from, to)
    {
      requests := [];
      var i := from;
      while i < to
        invariant from <= i
        invariant requests + H.Requests(c, View(), i, to) == H.Requests(c, View(), from, to)
      {
        RequestsStep(c, View(), ring[..], i, to, requests);
        if ring[Index(i, c.window)].final.None? {
          requests := requests + [i];
        }
        i := i + 1;
      }
    }

    /** lea_hole_check. */
    method HoleCheck() returns (requests: seq<nat>)
      requires Valid()
      ensures requests == H.HoleCheck(c, View())
    {
      requests := [];
      if seen > current + c.window {
        requests := SendRepeatRequest(current, seen);
      } else if closed > current {
        requests := SendRepeatRequest(current, closed);
      }
    }

    /** handle_accept_ack_batch. */
    method HandleAcceptAckBatch(a: nat, batch: seq<Record>)
      requires Valid() && a < c.n
      modifies this, ring
      ensures Valid() && View() == HandleAcks(c, old(View()), a, batch)
    {
      var i := 0;
      HandleAcksPrefix(c, View(), a, batch, 0);
      while i < |batch|
        invariant 0 <= i <= |batch| && Valid()
        invariant View() == HandleAcks(c, old(View()), a, batch[..i])
      {
        HandleAcksPrefix(c, old(View()), a, batch, i);
        HandleAcceptAck(a, batch[i]);
        i := i + 1;
      }
      assert batch[..i] == batch;
    }
  }

  /** The acks of one batch, one after the other. */
  ghost function HandleAcks(c: Setup, v: LearnerSpec.Learner, a: nat, batch: seq<Record>): (r: LearnerSpec.Learner)
    requires c.Valid() && LearnerOk(c, v) && a < c.n
    ensures LearnerOk(c, r)
  {
    if batch == [] then v
    else
      var before := HandleAcks(c, v, a, batch[..|batch| - 1]);
      HandleAckKeepsOrder(c, before, a, batch[|batch| - 1]);
      HandleAck(c, before, a, batch[|batch| - 1])
  }

  lemma HandleAcksPrefix(c: Setup, v: LearnerSpec.Learner, a: nat, batch: seq<Record>, i: nat)
    requires c.Valid() && LearnerOk(c, v) && a < c.n && i <= |batch|
    ensures i < |batch| ==> HandleAcks(c, v, a, batch[..i + 1]) == HandleAck(c, HandleAcks(c, v, a, batch[..i]), a, batch[i])
  {
    if i < |batch| {
      assert batch[..i + 1][..i] == batch[..i];
    }
  }
}
