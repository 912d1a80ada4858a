/** The leader of lib/proposer_leader.c and lib/proposer.c as it keeps its state: an array of slots
    and a handful of counters, changed in place. Every method does to them what LeaderSpec does
    to a table; the asserts of the source are asserts here. */
module LeaderTable {
  import opened PaxosConfig
  import opened Messages
  import opened SlotSpec
  import opened LeaderSpec
  import opened LeaderInvariant
  import opened LeaderSteps
  import opened LeaderRuns
  import opened LeaderOverrun
  import PendingList

  /** A loop over the window has come to instance i: no assert on the way fails and it ends with
      table e. */
  ghost predicate Loop(c: Office, job: Job, t: Table, i: nat, to: nat, e: Table)
    requires t.Sized()
    decreases if i < to then to - i else 0
  {
    if i >= to then e == t
    else t.At(i).iid == i && (job.Resend? ==> t.At(i).p2.Some?) && Loop(c, job, Visit(c, job, t, i), i + 1, to, e)
  }

  lemma {:induction false} LoopsEnd(c: Office, job: Job, t: Table, i: nat, to: nat, e: Table)
    requires Sane(c, t) && t.leading && !job.Drop? && t.current <= i && to == Stop(job, t) && e == Each(c, job, t, i, to)
    ensures Loop(c, job, t, i, to, e)
    decreases if i < to then to - i else 0
  {
    if i < to {
      VisitSane(c, job, t, i);
      LoopsEnd(c, job, Visit(c, job, t, i), i + 1, to, e);
    }
  }

  /** The loop that opens instances has k to go: none finds its slot in use and it ends with table e. */
  ghost predicate Opening(c: Office, t: Table, k: nat, e: Table)
    requires t.Sized()
    decreases k
  {
    if k == 0 then e == t
    else t.At(t.highestOpen + 1).status == Empty && Opening(c, OpenOne(c, t), k - 1, e)
  }

  lemma {:induction false} OpeningEnds(c: Office, t: Table, k: nat, e: Table)
    requires t.Sized() && k <= |t.slots| && OpensEmptySlots(t, k) && e == OpenMany(c, t, k)
    ensures Opening(c, t, k, e)
    decreases k
  {
    if k > 0 {
      var r := OpenOne(c, t);
      forall i: nat | r.highestOpen < i <= r.highestOpen + (k - 1)
        ensures r.At(i).status == Empty
      {
        IndexApart(r.highestOpen, i, |t.slots|);
        assert t.At(i).status == Empty;
      }
      OpeningEnds(c, r, k - 1, e);
    }
  }

  lemma {:induction false} OpenManyChanges(c: Office, t: Table, k: nat, e: Table)
    requires t.Sized() && e == OpenMany(c, t, k)
    ensures e == t.(slots := e.slots, prepares := e.prepares, highestOpen := t.highestOpen + k, pendingCount := t.pendingCount + k)
    decreases k
  {
    if k > 0 {
      OpenManyChanges(c, OpenOne(c, t), k - 1, e);
    }
  }

  /** Table v, with its counters still behind by count executions, stands for t. */
  ghost predicate Behind(v: Table, t: Table, count: nat) {
    t == v.(readyCount := v.readyCount - count, openCount := v.openCount + count)
  }

  ghost predicate Counted(v: Table, t: Table, count: nat) {
    t == v.(readyCount := v.readyCount - count)
  }

  lemma ExecuteBehind(c: Office, v: Table, t: Table, count: nat)
    requires Behind(v, t, count) && v.Sized()
    ensures CanExecute(v) <==> CanExecute(t)
    ensures Behind(Execute(c, v, v.nextUnused).(nextUnused := v.nextUnused + 1), ExecuteNext(c, t), count + 1)
  {
  }

  class Leader {
    const c: Office
    /** proposer_state. */
    const slots: array<Slot>
    var leading: bool
    /** current_iid. */
    var current: nat
    // p1_info
    var pendingCount: int
    var readyCount: int
    var highestOpen: nat
    // p2_info
    var nextUnused: nat
    var openCount: int
    /** The pending list of lib/proposer_values_handler.c. */
    var queue: seq<Value>
    // what has been sent to the acceptors
    var prepares: seq<PrepareReq>
    var accepts: seq<AcceptReq>
    // history
    ghost var promoted: bool
    ghost var staleReady: nat
    ghost var taken: seq<Value>
    ghost var notified: seq<Value>
    ghost var failed: seq<Value>
    ghost var lost: seq<Value>

    ghost function View(): (t: Table)
      reads this, slots
    {
      Table(slots[..], leading, promoted, current, pendingCount, readyCount, highestOpen, nextUnused, openCount, queue,
            prepares, accepts, staleReady, taken, notified, failed, lost)
    }

    constructor (c: Office, size: nat)
      requires size > 0
      ensures this.c == c && View() == Start(size) && fresh(slots)
    {
      this.c := c;
      slots := new Slot[size](_ => CLEARED);
      leading, current, pendingCount, readyCount, highestOpen, nextUnused, openCount := false, 1, 0, 0, 0, 1, 0;
      queue, prepares, accepts := [], [], [];
      promoted, staleReady, taken, notified, failed, lost := false, 0, [], [], [], [];
      new;
      assert View().slots == Start(size).slots;
    }

    // ---- phase 1 ----

    /** The body of the loop of leader_check_p1_pending. */
    method RetrySlot(i: nat, expired: set<nat>)
      requires slots.Length > 0
      modifies slots, this`prepares
      ensures View() == Visit(c, Retry(expired), old(View()), i)
    {
      var k := Index(i, slots.Length);
      if slots[k].status == P1Pending && i in expired {
        slots[k] := slots[k].(bits := {}, count := 0, heard := {});
        slots[k] := slots[k].(p1Ballot := 0, p1 := None);
        slots[k] := slots[k].(ballot := NextBallot(slots[k].ballot));
        prepares := prepares + [PrepareReq(slots[k].iid, slots[k].ballot)];
      }
    }

    /** leader_check_p1_pending. */
    method CheckP1Pending(expired: set<nat>, ghost e: Table)
      requires slots.Length > 0
      requires Loop(c, Retry(expired), View(), current, highestOpen + 1, e)
      modifies slots, this`prepares
      ensures View() == e
    {
      var i := current;
      while i <= highestOpen
        invariant i <= highestOpen + 1 || i == current
        invariant Loop(c, Retry(expired), View(), i, highestOpen + 1, e)
      {
        assert slots[Index(i, slots.Length)].iid == i;
        RetrySlot(i, expired);
        i := i + 1;
      }
    }

    /** The body of the loop of leader_open_instances_p1; the counters follow after the loop. */
    method OpenSlot(i: nat)
      requires slots.Length > 0
      modifies slots, this`prepares
      ensures slots[..] == old(View()).With(i, Opened(old(View()).At(i), i, c.me)).slots
      ensures prepares == old(prepares) + [PrepareReq(i, FirstBallot(c.me))]
    {
      var k := Index(i, slots.Length);
      slots[k] := slots[k].(iid := i);
      slots[k] := slots[k].(status := P1Pending);
      slots[k] := slots[k].(ballot := FirstBallot(c.me));
      prepares := prepares + [PrepareReq(slots[k].iid, slots[k].ballot)];
    }

    /** The loop of leader_open_instances_p1. */
    method OpenSlots(toOpen: nat, ghost e: Table)
      requires slots.Length > 0 && Opening(c, View(), toOpen, e)
      modifies slots, this`prepares
      ensures slots[..] == e.slots && prepares == e.prepares
    {
      ghost var t := View();
      var i := 1;
      while i <= toOpen
        invariant 1 <= i <= toOpen + 1
        invariant slots[..] == t.slots && prepares == t.prepares && t.highestOpen == highestOpen + i - 1
        invariant Opening(c, t, toOpen + 1 - i, e)
      {
        var iid := i + highestOpen;
        assert slots[Index(iid, slots.Length)].status == Empty;
        t := OpenOne(c, t);
        OpenSlot(iid);
        i := i + 1;
      }
    }

    /** leader_open_instances_p1. */
    method OpenInstancesP1()
      requires slots.Length > PROPOSER_PREEXEC_WIN_SIZE && pendingCount + readyCount >= 0
      requires OpensEmptySlots(View(), ToOpen(View()))
      modifies slots, this`prepares, this`pendingCount, this`highestOpen
      ensures View() == OpenP1(c, old(View()))
    {
      var active := pendingCount + readyCount;
      assert active >= 0;
      if active >= PROPOSER_PREEXEC_WIN_SIZE / 2 {
        return;
      }
      var toOpen := PROPOSER_PREEXEC_WIN_SIZE - active;
      assert toOpen >= PROPOSER_PREEXEC_WIN_SIZE / 2;
      ghost var e := OpenMany(c, View(), toOpen);
      OpeningEnds(c, View(), toOpen, e);
      OpenManyChanges(c, View(), toOpen, e);
      OpenSlots(toOpen, e);
      pendingCount := pendingCount + toOpen;
      highestOpen := highestOpen + toOpen;
    }

    // ---- phase 2 ----

    /** The last branch of leader_execute_p2, which the code as written never reaches: the slot has
        two values. */
    method PushBackOther(k: nat)
      requires k < slots.Length && slots[k].p1.Some? && slots[k].p2.Some?
      modifies slots, this`queue, this`taken
      ensures slots[..] == old(slots[..])[k := old(slots[k]).(p2 := old(slots[k].p1), p1 := None, p1Ballot := 0)]
      ensures queue == (if Displaces(old(slots[k])) then One(old(slots[k].p2)) else []) + old(queue)
      ensures taken == old(taken) + if Displaces(old(slots[k])) then One(old(slots[k].p1)) else []
    {
      if slots[k].p1.value == slots[k].p2.value {
        slots[k] := slots[k].(p1 := None, p1Ballot := 0);
      } else {
        queue := [slots[k].p2.value] + queue;
        taken := taken + One(slots[k].p1);
        slots[k] := slots[k].(p2 := slots[k].p1);
        slots[k] := slots[k].(p1 := None, p1Ballot := 0);
      }
    }

    /** The branches of leader_execute_p2: the slot gets the value of its phase 2. */
    method AssignValue(k: nat)
      requires k < slots.Length && (TakesFromQueue(slots[k]) ==> queue != [])
      modifies slots, this`queue, this`taken, this`lost
      ensures var sl := old(slots[k]); var displaced := if Displaces(sl) then One(sl.p2) else [];
              && slots[..] == old(slots[..])[k := StartPhase2(sl, if old(queue) != [] then old(queue)[0] else []).(status := sl.status)]
              && queue == (if TakesFromQueue(sl) then old(queue)[1..] else if c.repairs.pushBack then displaced + old(queue) else old(queue))
              && taken == old(taken) + (if sl.p1 != sl.p2 then One(sl.p1) else [])
              && lost == (if c.repairs.pushBack then old(lost) else old(lost) + displaced)
    {
      if slots[k].p1.None? && slots[k].p2.None? {
        assert queue != [];
        slots[k] := slots[k].(p2 := Some(queue[0]));
        queue := queue[1..];
      } else if slots[k].p1.Some? && (!c.repairs.pushBack || slots[k].p2.None?) {
        taken := taken + if slots[k].p1 != slots[k].p2 then One(slots[k].p1) else [];
        lost := lost + if Displaces(slots[k]) then One(slots[k].p2) else [];
        slots[k] := slots[k].(p2 := slots[k].p1);
        slots[k] := slots[k].(p1 := None, p1Ballot := 0);
      } else if slots[k].p1.Some? {
        PushBackOther(k);
      }
    }

    /** leader_execute_p2. */
    method ExecuteP2(i: nat)
      requires slots.Length > 0 && (TakesFromQueue(View().At(i)) ==> queue != [])
      modifies slots, this`queue, this`accepts, this`taken, this`lost
      ensures View() == Execute(c, old(View()), i)
    {
      var k := Index(i, slots.Length);
      AssignValue(k);
      slots[k] := slots[k].(status := P2Pending);
      accepts := accepts + [AcceptReq(slots[k].iid, slots[k].ballot, slots[k].p2.value)];
    }

    /** One turn of the loop of leader_open_instances_p2_expired. */
    method ResendSlot(i: nat, ghost t: Table, ghost count: nat) returns (done: bool)
      requires slots.Length > 0 && Counted(View(), t, count) && (t.At(i).status == P1Ready ==> t.At(i).p2.Some?)
      modifies slots, this`queue, this`accepts, this`taken, this`lost
      ensures Counted(View(), Visit(c, Resend, t, i), if done then count + 1 else count)
    {
      var k := Index(i, slots.Length);
      if slots[k].status != P1Ready {
        return false;
      }
      assert slots[k].p2.Some?;
      ExecuteP2(i);
      return true;
    }

    /** The loop of leader_open_instances_p2_expired. */
    method ResendSlots(ghost e: Table) returns (count: nat)
      requires slots.Length > 0 && Loop(c, Resend, View(), current, nextUnused, e)
      modifies slots, this`queue, this`accepts, this`taken, this`lost
      ensures Counted(View(), e, count)
    {
      ghost var t := View();
      count := 0;
      var i := current;
      while i < nextUnused
        invariant Counted(View(), t, count) && t.Sized()
        invariant Loop(c, Resend, t, i, nextUnused, e)
      {
        assert slots[Index(i, slots.Length)].iid == i;
        var done := ResendSlot(i, t, count);
        t := Visit(c, Resend, t, i);
        count := if done then count + 1 else count;
        i := i + 1;
      }
    }

    /** leader_open_instances_p2_expired. */
    method OpenInstancesP2Expired(ghost e: Table)
      requires slots.Length > 0 && Loop(c, Resend, View(), current, nextUnused, e)
      modifies slots, this`queue, this`accepts, this`taken, this`lost, this`readyCount
      ensures View() == e
    {
      var count := ResendSlots(e);
      readyCount := readyCount - count;
    }

    /** One turn of the loop of leader_open_instances_p2_new, unless it stops. */
    method ExecuteIfReady(ghost t: Table, ghost count: nat) returns (done: bool)
      requires slots.Length > 0 && Behind(View(), t, count) && t.At(t.nextUnused).p2.None?
      modifies slots, this`queue, this`accepts, this`taken, this`lost, this`nextUnused
      ensures done <==> CanExecute(t)
      ensures if done then Behind(View(), ExecuteNext(c, t), count + 1) else View() == old(View())
    {
      ExecuteBehind(c, View(), t, count);
      var k := Index(nextUnused, slots.Length);
      assert slots[k].p2.None?;
      if slots[k].p1.None? && queue == [] {
        return false;
      }
      if slots[k].status != P1Ready || slots[k].iid != nextUnused {
        return false;
      }
      ExecuteP2(nextUnused);
      nextUnused := nextUnused + 1;
      return true;
    }

    /** The loop of leader_open_instances_p2_new. */
    method ExecuteSlots(ghost e: Table) returns (count: nat)
      requires slots.Length > 0 && NextIsUnassigned(c, View()) && e == ExecuteMany(c, View())
      modifies slots, this`queue, this`accepts, this`taken, this`lost, this`nextUnused
      ensures Behind(View(), e, count)
    {
      ghost var t := View();
      count := 0;
      var going := true;
      while going && count + openCount <= PROPOSER_P2_CONCURRENCY
        invariant Behind(View(), t, count)
        invariant NextIsUnassigned(c, t) && ExecuteMany(c, t) == e
        invariant !going ==> t == e
        decreases going, PROPOSER_P2_CONCURRENCY + 1 - (count + openCount)
      {
        going := ExecuteIfReady(t, count);
        if going {
          t := ExecuteNext(c, t);
          count := count + 1;
        }
      }
    }

    /** leader_open_instances_p2_new. */
    method OpenInstancesP2New()
      requires slots.Length > 0 && OpenNewAsserts(c, View())
      modifies slots, this`queue, this`accepts, this`taken, this`lost, this`readyCount, this`openCount, this`nextUnused
      ensures View() == OpenNew(c, old(View()))
    {
      if openCount > THRESHOLD {
        return;
      }
      var count := ExecuteSlots(ExecuteMany(c, View()));
      readyCount := readyCount - count;
      openCount := openCount + count;
    }

    /** The body of the loop of leader_periodic_p2_check. */
    method RestartSlot(i: nat, closed: set<nat>, expired: set<nat>)
      requires slots.Length > 0
      modifies slots, this`prepares, this`pendingCount, this`openCount
      ensures View() == Visit(c, Restart(closed, expired), old(View()), i)
    {
      var k := Index(i, slots.Length);
      if slots[k].status != P2Pending {
        return;
      }
      if i in closed {
        slots[k] := slots[k].(status := P2Completed);
        openCount := openCount - 1;
        return;
      }
      if i !in expired {
        return;
      }
      slots[k] := slots[k].(status := P1Pending);
      pendingCount := pendingCount + 1;
      slots[k] := slots[k].(ballot := NextBallot(slots[k].ballot), heard := {});
      if c.repairs.restartForgets {
        slots[k] := slots[k].(bits := {}, count := 0, p1Ballot := 0, p1 := None);
      }
      prepares := prepares + [PrepareReq(slots[k].iid, slots[k].ballot)];
    }

    /** The loop of leader_periodic_p2_check. */
    method CheckP2Pending(closed: set<nat>, expired: set<nat>, ghost e: Table)
      requires slots.Length > 0 && Loop(c, Restart(closed, expired), View(), current, nextUnused, e)
      modifies slots, this`prepares, this`pendingCount, this`openCount
      ensures View() == e
    {
      var i := current;
      while i < nextUnused
        invariant Loop(c, Restart(closed, expired), View(), i, nextUnused, e)
      {
        RestartSlot(i, closed, expired);
        i := i + 1;
      }
    }

    // ---- promises ----

    /** pro_save_prepare_ack on slot k. */
    method SavePrepareAck(k: nat, pa: PrepareAck, acceptor: nat)
      requires k < slots.Length
      modifies slots
      ensures slots[..] == old(slots[..])[k := SaveAck(c.repairs, old(slots[k]), pa, acceptor)]
    {
      var mask := Mask(c.repairs, acceptor);
      if slots[k].bits * mask != {} {
        return;
      }
      slots[k] := slots[k].(bits := if c.repairs.countDistinct then slots[k].bits + mask else slots[k].bits * mask);
      slots[k] := slots[k].(count := slots[k].count + 1, heard := slots[k].heard + {acceptor});
      if pa.value == [] {
        return;
      }
      if slots[k].p1Ballot >= pa.valueBallot {
        return;
      }
      if slots[k].p1.Some? && slots[k].p1.value == pa.value {
        slots[k] := slots[k].(p1Ballot := pa.valueBallot);
        return;
      }
      slots[k] := slots[k].(p1 := Some(pa.value));
      slots[k] := slots[k].(p1Ballot := pa.valueBallot);
    }

    /** handle_prepare_ack. */
    method HandlePrepareAck(pa: PrepareAck, acceptor: nat) returns (ready: bool)
      requires slots.Length > 0
      modifies slots, this`pendingCount, this`readyCount
      ensures View() == HandlePromise(c, old(View()), acceptor, pa)
      ensures ready <==> readyCount > old(readyCount)
    {
      var k := Index(pa.iid, slots.Length);
      if slots[k].status != P1Pending {
        return false;
      }
      if pa.ballot != slots[k].ballot {
        return false;
      }
      if c.repairs.checkIid && pa.iid != slots[k].iid {
        return false;
      }
      SavePrepareAck(k, pa, acceptor);
      if slots[k].count < Quorum(c.n) {
        return false;
      }
      slots[k] := slots[k].(status := P1Ready);
      pendingCount := pendingCount - 1;
      readyCount := readyCount + 1;
      return true;
    }

    /** The loop of handle_prepare_ack_batch. */
    method HandlePrepareAcks(batch: seq<PrepareAck>, acceptor: nat) returns (ready: nat)
      requires slots.Length > 0
      modifies slots, this`pendingCount, this`readyCount
      ensures View() == HandlePromises(c, old(View()), acceptor, batch)
      ensures ready > 0 <==> readyCount > old(readyCount)
    {
      ready := 0;
      var i := 0;
      while i < |batch|
        invariant 0 <= i <= |batch|
        invariant HandlePromises(c, View(), acceptor, batch[i..]) == HandlePromises(c, old(View()), acceptor, batch)
        invariant readyCount >= old(readyCount) && (ready > 0 <==> readyCount > old(readyCount))
      {
        assert batch[i..][0] == batch[i] && batch[i..][1..] == batch[i + 1..];
        var one := HandlePrepareAck(batch[i], acceptor);
        ready := ready + if one then 1 else 0;
        i := i + 1;
      }
    }

    // ---- delivery ----

    /** The client whose value was chosen is told, any other value goes back to the list. */
    method SettleValue(k: nat, value: Value)
      requires k < slots.Length
      modifies this`queue, this`notified
      ensures notified == if slots[k].p2 == Some(value) then old(notified) + One(slots[k].p2) else old(notified)
      ensures queue == if slots[k].p2.Some? && slots[k].p2 != Some(value) then [slots[k].p2.value] + old(queue) else old(queue)
    {
      var mine := slots[k].p2.Some? && slots[k].p2.value == value;
      if mine {
        notified := notified + One(slots[k].p2);
      } else if slots[k].p2.Some? {
        queue := [slots[k].p2.value] + queue;
      }
    }

    /** The counters give up the slot of the current instance. */
    method CountOff(k: nat)
      requires k < slots.Length
      modifies this`pendingCount, this`readyCount, this`nextUnused, this`openCount, this`staleReady
      ensures var sl := slots[k];
              && pendingCount == old(pendingCount) - Weight(Pending, sl)
              && openCount == old(openCount) - (if sl.status != P2Completed && sl.status != Empty && (sl.p2.Some? || sl.status == P2Pending) then 1 else 0)
              && readyCount == old(readyCount) - (if c.repairs.countOff then Weight(Ready, sl) else 0)
              && staleReady == old(staleReady) + (if c.repairs.countOff then 0 else Weight(Ready, sl))
      ensures nextUnused == if old(nextUnused) == current then current + 1 else old(nextUnused)
    {
      if slots[k].status == P1Pending {
        pendingCount := pendingCount - 1;
      }
      if slots[k].status == P1Ready {
        if c.repairs.countOff {
          readyCount := readyCount - 1;
        } else {
          staleReady := staleReady + 1;
        }
      }
      if nextUnused == current {
        nextUnused := nextUnused + 1;
      }
      var openedByMe := (slots[k].status == P1Pending && slots[k].p2.Some?) || (slots[k].status == P1Ready && slots[k].p2.Some?)
                        || slots[k].status == P2Pending;
      if openedByMe {
        openCount := openCount - 1;
      }
    }

    /** leader_deliver before it opens new instances. */
    method ReleaseSlot(value: Value)
      requires slots.Length > 0
      modifies this, slots
      ensures View() == Release(c, old(View()), value)
    {
      var k := Index(current, slots.Length);
      CountOff(k);
      SettleValue(k, value);
      slots[k] := CLEARED;
    }

    // ---- shutdown ----

    /** The body of the loop of leader_shutdown. */
    method DropSlot(i: nat)
      requires slots.Length > 0
      modifies slots, this`queue, this`lost
      ensures View() == Visit(c, Drop, old(View()), i)
    {
      var k := Index(i, slots.Length);
      if slots[k].status != P2Completed && slots[k].p2.Some? {
        queue := [slots[k].p2.value] + queue;
        slots[k] := slots[k].(p2 := None);
      }
      lost := lost + One(slots[k].p2);
      slots[k] := CLEARED;
    }

    /** The loop of vh_shutdown. */
    method DrainQueue()
      modifies this`queue, this`failed
      ensures queue == [] && failed == old(failed + queue)
    {
      while queue != []
        invariant failed + queue == old(failed + queue)
        decreases |queue|
      {
        failed := failed + [queue[0]];
        queue := queue[1..];
      }
    }

    /** The loop of leader_shutdown. */
    method DropSlots(ghost e: Table)
      requires slots.Length > 0 && e == Each(c, Drop, View(), current, highestOpen + 1)
      modifies slots, this`queue, this`lost
      ensures View() == e
    {
      var i := current;
      while i <= highestOpen
        invariant Each(c, Drop, View(), i, highestOpen + 1) == e
        decreases highestOpen + 1 - i
      {
        DropSlot(i);
        i := i + 1;
      }
    }

    /** leader_shutdown, and the change of leader that follows. */
    method LeaderShutdown()
      requires slots.Length > 0
      modifies this, slots
      ensures View() == Shutdown(c, old(View()))
      ensures old(LeaderOk(c, View()) && leading) ==> LeaderOk(c, View())
    {
      if LeaderOk(c, View()) && leading {
        ShutdownKeeps(c, View());
      }
      DropSlots(Each(c, Drop, View(), current, highestOpen + 1));
      DrainQueue();
      leading := false;
    }

    /** vh_enqueue_value. */
    method EnqueueValue(value: Value)
      modifies this`queue, this`taken
      ensures View() == Submit(old(View()), value)
      ensures queue == if |old(queue)| <= LEADER_MAX_QUEUE_LENGTH then old(queue) + [value] else old(queue)
      ensures old(LeaderOk(c, View()) && leading) ==> LeaderOk(c, View())
    {
      if LeaderOk(c, View()) && leading {
        SubmitKeeps(c, View(), value);
      }
      if |queue| > LEADER_MAX_QUEUE_LENGTH {
        return;
      }
      queue := queue + [value];
      taken := taken + [value];
    }

    // ---- handlers ----

    /** leader_periodic_p1_check. */
    method PeriodicP1Check(expired: set<nat>)
      requires CanTake(c, View(), P1Timer(expired))
      modifies slots, this`prepares, this`pendingCount, this`highestOpen
      ensures View() == P1Check(c, old(View()), expired) && Sane(c, View())
      ensures old(LeaderOk(c, View())) ==> LeaderOk(c, View())
    {
      Afterwards(c, View(), P1Timer(expired));
      ghost var e := Each(c, Retry(expired), View(), current, highestOpen + 1);
      LoopsEnd(c, Retry(expired), View(), current, highestOpen + 1, e);
      CheckP1Pending(expired, e);
      OpenInstancesP1();
    }

    /** leader_periodic_p2_check. */
    method PeriodicP2Check(closed: set<nat>, expired: set<nat>)
      requires CanTake(c, View(), P2Timer(closed, expired))
      modifies this, slots
      ensures View() == P2Check(c, old(View()), closed, expired) && Sane(c, View())
      ensures old(LeaderOk(c, View())) ==> LeaderOk(c, View())
    {
      Afterwards(c, View(), P2Timer(closed, expired));
      ghost var e := Each(c, Restart(closed, expired), View(), current, nextUnused);
      LoopsEnd(c, Restart(closed, expired), View(), current, nextUnused, e);
      CheckP2Pending(closed, expired, e);
      OpenInstancesP2New();
    }

    /** handle_prepare_ack_batch. */
    method HandlePrepareAckBatch(batch: seq<PrepareAck>, acceptor: nat)
      requires CanTake(c, View(), Promises(acceptor, batch))
      modifies this, slots
      ensures View() == HandleBatch(c, old(View()), acceptor, batch) && Sane(c, View())
      ensures old(LeaderOk(c, View())) ==> LeaderOk(c, View())
    {
      Afterwards(c, View(), Promises(acceptor, batch));
      if !leading {
        return;
      }
      HandlePromisesSane(c, View(), acceptor, batch, HandlePromises(c, View(), acceptor, batch));
      var ready := HandlePrepareAcks(batch, acceptor);
      if ready > 0 {
        ghost var e := Each(c, Resend, View(), current, nextUnused);
        LoopsEnd(c, Resend, View(), current, nextUnused, e);
        OpenInstancesP2Expired(e);
        OpenInstancesP2New();
      }
    }

    /** leader_deliver. */
    method LeaderDeliver(value: Value)
      requires slots.Length > 0 && leading && Survives(c, View(), Delivered(value))
      modifies this, slots
      ensures current == old(current) && View().(current := current + 1) == Deliver(c, old(View()), value)
    {
      if slots[Index(current, slots.Length)].iid != current {
        return;
      }
      ghost var t := Release(c, View(), value);
      NewIgnoresCurrent(c, t, current + 1);
      ReleaseSlot(value);
      OpenInstancesP2New();
    }

    /** pro_deliver_callback for the current instance. */
    method DeliverCallback(value: Value)
      requires CanTake(c, View(), Delivered(value))
      modifies this, slots
      ensures View() == Deliver(c, old(View()), value) && Sane(c, View())
      ensures old(LeaderOk(c, View())) ==> (LeaderOk(c, View()) <==> old(leading ==> current <= highestOpen))
    {
      Afterwards(c, View(), Delivered(value));
      if leading {
        LeaderDeliver(value);
      }
      current := current + 1;
    }

    /** leader_init up to its first check. */
    method ResetPhase1()
      requires current >= 1
      modifies this`queue, this`pendingCount, this`readyCount, this`highestOpen, this`staleReady
      ensures View() == Reset1(old(View()))
    {
      queue := [];
      pendingCount, readyCount, highestOpen := 0, 0, current - 1;
      staleReady := 0;
    }

    /** The first check of leader_init: nothing is pending yet. */
    method FirstP1Check()
      requires slots.Length > PROPOSER_PREEXEC_WIN_SIZE && highestOpen + 1 == current && pendingCount + readyCount >= 0
      requires OpensEmptySlots(View(), ToOpen(View()))
      modifies slots, this`prepares, this`pendingCount, this`highestOpen
      ensures View() == OpenP1(c, old(View()))
    {
      CheckP1Pending({}, View());
      OpenInstancesP1();
    }

    /** The end of leader_init, and the change of leader that follows. */
    method ResetPhase2()
      modifies this`nextUnused, this`openCount, this`leading, this`promoted
      ensures View() == old(View()).(nextUnused := current, openCount := 0, leading := true, promoted := true)
    {
      nextUnused := current;
      openCount := 0;
      leading, promoted := true, true;
    }

    /** leader_init. */
    method LeaderInit()
      requires CanTake(c, View(), Elected)
      modifies this, slots
      ensures View() == Promote(c, old(View())) && Sane(c, View())
      ensures old(LeaderOk(c, View())) ==> LeaderOk(c, View())
    {
      TakesOffice(c, View(), Promote(c, View()));
      ResetPhase1();
      FirstP1Check();
      ResetPhase2();
    }
  }

  /** The linked list of the source takes a value when the leader's queue does. */
  method EnqueueBoth(leader: Leader, list: PendingList.List, value: Value)
    requires list.Valid() && list.Contents() == leader.queue
    modifies leader`queue, leader`taken, list, list.nodes
    ensures list.Valid() && list.Contents() == leader.queue
    ensures leader.View() == Submit(old(leader.View()), value)
  {
    leader.EnqueueValue(value);
    list.Enqueue(value);
  }

  // ---- the asserts hold ----

  /** The event may come and no assert of the source will fail: given, or because the table is in
      order and the backlog leaves room for the two windows (which a delivery does not even need). */
  ghost predicate CanTake(c: Office, t: Table, ev: Event) {
    && |t.slots| > PROPOSER_PREEXEC_WIN_SIZE && Possible(t, ev)
    && ((Sane(c, t) && Survives(c, t, ev)) || (LeaderOk(c, t) && (HasRoom(t) || ev.Delivered?)))
  }

  /** Then none fails, what still holds of an overtaken table goes on holding, and a table in order
      stays so, unless it is just being overtaken. */
  lemma Afterwards(c: Office, t: Table, ev: Event)
    requires CanTake(c, t, ev)
    ensures Sane(c, t) && Survives(c, t, ev) && Sane(c, Handle(c, t, ev))
    ensures LeaderOk(c, t) ==> (LeaderOk(c, Handle(c, t, ev)) <==> Expected(t, ev))
  {
    if LeaderOk(c, t) {
      OrderSane(c, t);
    }
    if LeaderOk(c, t) && ev.Delivered? {
      DeliveringIsSafe(c, t, ev.value);
      DeliverInOrder(c, t, ev.value);
    } else if LeaderOk(c, t) {
      if HasRoom(t) {
        SurvivesWithRoom(c, t, ev);
      }
      HandleKeeps(c, t, ev);
    }
    HandleSane(c, t, ev);
  }

  /** leader_open_instances_p2_new does not look at the current instance. */
  lemma {:induction false} ManyIgnoresCurrent(c: Office, t: Table, x: nat)
    requires t.Sized()
    ensures ExecuteMany(c, t.(current := x)) == ExecuteMany(c, t).(current := x)
    ensures NextIsUnassigned(c, t.(current := x)) <==> NextIsUnassigned(c, t)
    decreases PROPOSER_P2_CONCURRENCY + 1 - t.openCount
  {
    assert CanExecute(t.(current := x)) <==> CanExecute(t);
    if t.openCount <= PROPOSER_P2_CONCURRENCY && CanExecute(t) {
      assert ExecuteNext(c, t.(current := x)) == ExecuteNext(c, t).(current := x);
      ManyIgnoresCurrent(c, ExecuteNext(c, t), x);
    }
  }

  lemma NewIgnoresCurrent(c: Office, t: Table, x: nat)
    requires t.Sized()
    ensures OpenNew(c, t.(current := x)) == OpenNew(c, t).(current := x)
    ensures OpenNewAsserts(c, t.(current := x)) <==> OpenNewAsserts(c, t)
  {
    ManyIgnoresCurrent(c, t, x);
  }

  /** A delivered instance leaves a free slot, so the new instances find theirs unassigned. */
  lemma DeliveringIsSafe(c: Office, t: Table, value: Value)
    requires LeaderOk(c, t)
    ensures Survives(c, t, Delivered(value))
  {
    if t.leading && t.At(t.current).iid == t.current {
      assert SlotOk(c, t, Index(t.current, |t.slots|));
      ReleaseKeeps(c, t, value);
      OpenNewIsSafe(c, Release(c, t, value).(current := t.current + 1));
    }
  }

  lemma DeliverInOrder(c: Office, t: Table, value: Value)
    requires LeaderOk(c, t)
    ensures LeaderOk(c, Deliver(c, t, value)) <==> (t.leading ==> t.current <= t.highestOpen)
  {
    if t.leading {
      DeliverExactly(c, t, value);
    } else {
      SameLedger(t, Deliver(c, t, value));
    }
  }

  /** Opening instances does not look at what leader_init sets afterwards. */
  lemma {:induction false} ManyIgnoresReset(c: Office, t: Table, r: Table, k: nat)
    requires t.Sized() && r == t.(nextUnused := r.nextUnused, openCount := r.openCount, leading := r.leading, promoted := r.promoted)
    ensures OpenMany(c, r, k)
            == OpenMany(c, t, k).(nextUnused := r.nextUnused, openCount := r.openCount, leading := r.leading, promoted := r.promoted)
    decreases k
  {
    if k > 0 {
      ManyIgnoresReset(c, OpenOne(c, t), OpenOne(c, r), k - 1);
    }
  }

  /** What leader_init sets before its first check. */
  function Reset1(t: Table): Table
    requires t.current >= 1
  {
    t.(queue := [], pendingCount := 0, readyCount := 0, highestOpen := t.current - 1, staleReady := 0)
  }

  lemma InitFindsEmpty(c: Office, t: Table)
    requires Sane(c, t) && Survives(c, t, Elected)
    ensures OpensEmptySlots(Reset1(t), ToOpen(Reset1(t))) && ToOpen(Reset1(t)) == ToOpen(Reset(t))
  {
    var r := Reset(t);
    forall i: nat | t.current - 1 < i <= t.current - 1 + ToOpen(r)
      ensures Reset1(t).At(i).status == Empty
    {
      assert r.At(i).status == Empty;
    }
  }

  lemma InitOpens(c: Office, t: Table)
    requires Sane(c, t) && ToOpen(Reset1(t)) == ToOpen(Reset(t))
    ensures OpenP1(c, Reset1(t)).(nextUnused := t.current, openCount := 0, leading := true, promoted := true) == Promote(c, t)
    ensures OpenP1(c, Reset1(t)).current == t.current
  {
    ManyIgnoresReset(c, Reset1(t), Reset(t), ToOpen(Reset1(t)));
    OpenManyStays(c, Reset1(t), ToOpen(Reset1(t)));
  }

  lemma TakesOffice(c: Office, t: Table, p: Table)
    requires CanTake(c, t, Elected) && p == Promote(c, t)
    ensures OpensEmptySlots(Reset1(t), ToOpen(Reset1(t)))
    ensures OpenP1(c, Reset1(t)).(nextUnused := t.current, openCount := 0, leading := true, promoted := true) == p
    ensures OpenP1(c, Reset1(t)).current == t.current
    ensures Sane(c, p) && (LeaderOk(c, t) ==> LeaderOk(c, p))
  {
    Afterwards(c, t, Elected);
    InitFindsEmpty(c, t);
    InitOpens(c, t);
  }
}
