/** lea_hole_check and lea_send_repeat_request of lib/learner.c:236-284: which instances a learner
    asks the acceptors to repeat. */
module HoleDetection {
  import opened PaxosConfig
  import opened LearnerSpec

  /** The instance of the window whose slot the ring gives for instance i. */
  function OwnerOf(c: Setup, l: Learner, i: nat): nat
    requires c.Valid() && l.current <= i
  {
    l.current + (i - l.current) % c.window
  }

  /** lea_send_repeat_request: the instances of [from, to) whose ring slot is not closed. */
  function Requests(c: Setup, l: Learner, from: nat, to: nat): seq<nat>
    requires c.Valid() && l.current <= from
    decreases if from < to then to - from else 0
  {
    if from >= to then []
    else (if IsClosed(l, OwnerOf(c, l, from)) then [] else [from]) + Requests(c, l, from + 1, to)
  }

  predicate Lagging(c: Setup, l: Learner) {
    l.seen > l.current + c.window
  }

  /** lea_hole_check. */
  function HoleCheck(c: Setup, l: Learner): seq<nat>
    requires c.Valid()
  {
    if Lagging(c, l) then Requests(c, l, l.current, l.seen)
    else if l.closed > l.current then Requests(c, l, l.current, l.closed)
    else []
  }

  lemma {:induction false} RequestsAre(c: Setup, l: Learner, from: nat, to: nat, i: nat)
    requires c.Valid() && l.current <= from
    ensures i in Requests(c, l, from, to) <==> from <= i < to && !IsClosed(l, OwnerOf(c, l, i))
    decreases if from < to then to - from else 0
  {
    if from < to {
      RequestsAre(c, l, from + 1, to, i);
    }
  }

  lemma OwnSlot(c: Setup, l: Learner, i: nat)
    requires c.Valid() && InWindow(c, l, i)
    ensures OwnerOf(c, l, i) == i && OwnerOf(c, l, i + c.window) == i
  {
    var k := i - l.current;
    assert k % c.window == k;
    assert (k + c.window) % c.window == k % c.window;
  }

  /** The slot looked at is the one the ring has for the instance. */
  lemma OwnerSharesSlot(c: Setup, l: Learner, i: nat)
    requires c.Valid() && l.current <= i
    ensures InWindow(c, l, OwnerOf(c, l, i)) && Index(OwnerOf(c, l, i), c.window) == Index(i, c.window)
  {
    var w := c.window;
    var k := i - l.current;
    var j := OwnerOf(c, l, i);
    assert i == j + (k / w) * w;
    assert i == (j / w + k / w) * w + j % w by {
      assert j == (j / w) * w + j % w;
      assert (j / w + k / w) * w == (j / w) * w + (k / w) * w;
    }
    RemainderIs(i, w, j / w + k / w, j % w);
  }

  /** Between messages some closed instance waits for an earlier one exactly when the highest
      closed instance is beyond the current one. */
  lemma HoleExistsExactly(c: Setup, l: Learner)
    requires LearnerOk(c, l)
    ensures (exists i: nat :: IsClosed(l, i)) <==> l.closed > l.current
  {
    if i: nat :| IsClosed(l, i) {
      assert i != l.current;
    }
  }

  /** A learner that is not lagging asks for exactly the open instances below the highest closed
      one, the current instance always among them. */
  lemma HolesAreRequested(c: Setup, l: Learner)
    requires c.Valid() && LearnerOk(c, l) && !Lagging(c, l)
    ensures forall i: nat :: i in HoleCheck(c, l) <==> l.current <= i < l.closed && !IsClosed(l, i)
    ensures l.current in HoleCheck(c, l) <==> exists i: nat :: IsClosed(l, i)
  {
    HoleExistsExactly(c, l);
    forall i: nat
      ensures i in HoleCheck(c, l) <==> l.current <= i < l.closed && !IsClosed(l, i)
    {
      if l.closed > l.current {
        RequestsAre(c, l, l.current, l.closed, i);
        if l.current <= i < l.closed {
          OwnSlot(c, l, i);
        }
      }
    }
  }

  /** A lagging learner walks past its window, where the ring answers with the slot of another
      instance. It misses an open instance exactly when a closed one lies more than a window
      below the highest instance seen. */
  lemma LaggingRequestsComplete(c: Setup, l: Learner)
    requires c.Valid() && LearnerOk(c, l) && Lagging(c, l)
    ensures (forall i: nat :: l.current <= i < l.seen && !IsClosed(l, i) ==> i in HoleCheck(c, l))
            <==> (forall j: nat :: IsClosed(l, j) ==> l.seen <= j + c.window)
  {
    if j: nat :| IsClosed(l, j) && j + c.window < l.seen {
      OwnSlot(c, l, j);
      RequestsAre(c, l, l.current, l.seen, j + c.window);
      assert !IsClosed(l, j + c.window);
    } else {
      forall i: nat | l.current <= i < l.seen && !IsClosed(l, i)
        ensures i in HoleCheck(c, l)
      {
        RequestsAre(c, l, l.current, l.seen, i);
        if IsClosed(l, OwnerOf(c, l, i)) {
          BeyondOwner(c, l, i);
        }
      }
    }
  }

  lemma BeyondOwner(c: Setup, l: Learner, i: nat)
    requires c.Valid() && l.current <= i && OwnerOf(c, l, i) != i
    ensures OwnerOf(c, l, i) + c.window <= i
  {
    var k := i - l.current;
    if k >= c.window {
      assert k == (k / c.window) * c.window + k % c.window;
      assert k / c.window >= 1;
    }
  }
}
