/** The leader of lib/proposer_leader.c and the handlers of lib/proposer.c that drive it, on
    values: a ring of instance slots, three counters, two frontiers and the list of pending
    client values. The class in LeaderTable.dfy does the same in place. */
module LeaderSpec {
  import opened PaxosConfig
  import opened Messages
  import opened SlotSpec

  /** Number of acceptors, this_proposer_id, and which tests are repaired. */
  datatype Office = Office(n: nat, me: nat, repairs: Repairs)

  /** proposer_state, current_iid, p1_info, p2_info and the pending list. The rest is history:
      whether it has ever led, requests sent so far, ready slots that were
      delivered without being counted off, and what became of every client value: `notified` are
      those whose client was told of success, `failed` those whose client was told of failure. */
  datatype Table = Table(slots: seq<Slot>, leading: bool, promoted: bool, current: nat,
                         pendingCount: int, readyCount: int, highestOpen: nat,
                         nextUnused: nat, openCount: int, queue: seq<Value>,
                         prepares: seq<PrepareReq>, accepts: seq<AcceptReq>, staleReady: nat,
                         taken: seq<Value>, notified: seq<Value>, failed: seq<Value>, lost: seq<Value>)
  {
    predicate Sized() {
      |slots| > 0
    }

    function At(i: nat): Slot
      requires Sized()
    {
      slots[Index(i, |slots|)]
    }

    function With(i: nat, sl: Slot): Table
      requires Sized()
    {
      this.(slots := slots[Index(i, |slots|) := sl])
    }
  }

  function Start(size: nat): Table {
    Table(seq(size, _ => CLEARED), false, false, 1, 0, 0, 0, 1, 0, [], [], [], 0, [], [], [], [])
  }

  function One(v: Option<Value>): seq<Value> {
    if v.Some? then [v.value] else []
  }

  // ---- phase 2 of one instance ----

  /** A slot with a value of its own for which phase 1 found another one. */
  predicate Displaces(sl: Slot) {
    sl.p1.Some? && sl.p2.Some? && sl.p1 != sl.p2
  }

  predicate TakesFromQueue(sl: Slot) {
    sl.p1.None? && sl.p2.None?
  }

  /** leader_execute_p2. A value found in phase 1 always replaces the one assigned before. As written
      that one goes nowhere: the branch that pushes it back is never reached. */
  function Execute(c: Office, t: Table, i: nat): Table
    requires t.Sized()
  {
    var sl := t.At(i);
    var sent := StartPhase2(sl, if t.queue != [] then t.queue[0] else []);
    var displaced := if Displaces(sl) then One(sl.p2) else [];
    t.With(i, sent).(queue := if TakesFromQueue(sl) && t.queue != [] then t.queue[1..]
                              else if c.repairs.pushBack then displaced + t.queue else t.queue,
                     accepts := t.accepts + [AcceptReq(sl.iid, sl.ballot, sent.p2.value)],
                     taken := t.taken + if sl.p1 != sl.p2 then One(sl.p1) else [],
                     lost := if c.repairs.pushBack then t.lost else t.lost + displaced)
  }

  // ---- loops over a range of instances ----

  /** What a loop does with each instance it visits. */
  datatype Job =
    | Retry(expired: set<nat>)                       // leader_check_p1_pending
    | Restart(closed: set<nat>, expired: set<nat>)   // leader_periodic_p2_check
    | Resend                                         // leader_open_instances_p2_expired
    | Drop                                           // leader_shutdown

  function Visit(c: Office, job: Job, t: Table, i: nat): (r: Table)
    requires t.Sized()
    ensures |r.slots| == |t.slots| && r.current == t.current && r.highestOpen == t.highestOpen && r.nextUnused == t.nextUnused
  {
    var sl := t.At(i);
    match job
    case Retry(expired) =>
      if sl.status != P1Pending || i !in expired then t
      else
        var next := RetryPhase1(sl);
        t.With(i, next).(prepares := t.prepares + [PrepareReq(next.iid, next.ballot)])
    case Restart(closed, expired) =>
      if sl.status != P2Pending then t
      else if i in closed then t.With(i, sl.(status := P2Completed)).(openCount := t.openCount - 1)
      else if i !in expired then t
      else
        var next := RestartPhase1(c.repairs, sl);
        t.With(i, next).(pendingCount := t.pendingCount + 1,
                         prepares := t.prepares + [PrepareReq(next.iid, next.ballot)])
    case Resend =>
      if sl.status != P1Ready then t else Execute(c, t, i).(readyCount := t.readyCount - 1)
    case Drop =>
      var back := sl.status != P2Completed && sl.p2.Some?;
      t.With(i, CLEARED).(queue := if back then [sl.p2.value] + t.queue else t.queue,
                          lost := t.lost + if back then [] else One(sl.p2))
  }

  function Each(c: Office, job: Job, t: Table, from: nat, to: nat): (r: Table)
    requires t.Sized()
    ensures |r.slots| == |t.slots| && r.current == t.current && r.highestOpen == t.highestOpen && r.nextUnused == t.nextUnused
    decreases if from < to then to - from else 0
  {
    if from >= to then t else Each(c, job, Visit(c, job, t, from), from + 1, to)
  }

  // ---- opening instances ----

  /** How many instances leader_open_instances_p1 opens. */
  function ToOpen(t: Table): nat {
    var active := t.pendingCount + t.readyCount;
    if active >= PROPOSER_PREEXEC_WIN_SIZE / 2 then 0 else PROPOSER_PREEXEC_WIN_SIZE - active
  }

  function OpenOne(c: Office, t: Table): (r: Table)
    requires t.Sized()
    ensures |r.slots| == |t.slots|
  {
    var i := t.highestOpen + 1;
    var sl := Opened(t.At(i), i, c.me);
    t.With(i, sl).(highestOpen := i, pendingCount := t.pendingCount + 1,
                   prepares := t.prepares + [PrepareReq(i, sl.ballot)])
  }

  function OpenMany(c: Office, t: Table, k: nat): (r: Table)
    requires t.Sized()
    ensures |r.slots| == |t.slots|
    decreases k
  {
    if k == 0 then t else OpenMany(c, OpenOne(c, t), k - 1)
  }

  /** leader_open_instances_p1. */
  function OpenP1(c: Office, t: Table): (r: Table)
    requires t.Sized()
    ensures |r.slots| == |t.slots|
  {
    OpenMany(c, t, ToOpen(t))
  }

  /** The loop of leader_open_instances_p2_new stops at an instance that is not ready or has no value to use. */
  predicate CanExecute(t: Table)
    requires t.Sized()
  {
    var sl := t.At(t.nextUnused);
    && (sl.p1.Some? || t.queue != [])
    && sl.status == P1Ready && sl.iid == t.nextUnused
  }

  function ExecuteNext(c: Office, t: Table): (r: Table)
    requires t.Sized()
    ensures |r.slots| == |t.slots|
  {
    Execute(c, t, t.nextUnused).(nextUnused := t.nextUnused + 1, readyCount := t.readyCount - 1, openCount := t.openCount + 1)
  }

  function ExecuteMany(c: Office, t: Table): (r: Table)
    requires t.Sized()
    ensures |r.slots| == |t.slots|
    decreases PROPOSER_P2_CONCURRENCY + 1 - t.openCount
  {
    if t.openCount > PROPOSER_P2_CONCURRENCY || !CanExecute(t) then t else ExecuteMany(c, ExecuteNext(c, t))
  }

  const THRESHOLD: int := (PROPOSER_P2_CONCURRENCY / 3) * 2

  /** leader_open_instances_p2_new. */
  function OpenNew(c: Office, t: Table): (r: Table)
    requires t.Sized()
    ensures |r.slots| == |t.slots|
  {
    if t.openCount > THRESHOLD then t else ExecuteMany(c, t)
  }

  // ---- handlers ----

  /** leader_periodic_p1_check. */
  function P1Check(c: Office, t: Table, expired: set<nat>): Table
    requires t.Sized()
  {
    OpenP1(c, Each(c, Retry(expired), t, t.current, t.highestOpen + 1))
  }

  /** leader_periodic_p2_check. */
  function P2Check(c: Office, t: Table, closed: set<nat>, expired: set<nat>): Table
    requires t.Sized()
  {
    OpenNew(c, Each(c, Restart(closed, expired), t, t.current, t.nextUnused))
  }

  /** handle_prepare_ack. */
  function HandlePromise(c: Office, t: Table, from: nat, pa: PrepareAck): (r: Table)
    requires t.Sized()
    ensures |r.slots| == |t.slots| && r.current == t.current && r.highestOpen == t.highestOpen && r.nextUnused == t.nextUnused
    ensures r.readyCount >= t.readyCount
  {
    var sl := t.At(pa.iid);
    var next := SlotSpec.HandleAck(c.repairs, c.n, sl, pa, from);
    var done := if next.status != sl.status then 1 else 0;
    t.With(pa.iid, next).(pendingCount := t.pendingCount - done, readyCount := t.readyCount + done)
  }

  function HandlePromises(c: Office, t: Table, from: nat, batch: seq<PrepareAck>): (r: Table)
    requires t.Sized()
    ensures |r.slots| == |t.slots| && r.current == t.current && r.highestOpen == t.highestOpen && r.nextUnused == t.nextUnused
    ensures r.readyCount >= t.readyCount
    decreases |batch|
  {
    if batch == [] then t else HandlePromises(c, HandlePromise(c, t, from, batch[0]), from, batch[1..])
  }

  /** handle_prepare_ack_batch. */
  function HandleBatch(c: Office, t: Table, from: nat, batch: seq<PrepareAck>): Table
    requires t.Sized()
  {
    if !t.leading then t
    else
      var heard := HandlePromises(c, t, from, batch);
      if heard.readyCount == t.readyCount then heard
      else OpenNew(c, Each(c, Resend, heard, heard.current, heard.nextUnused))
  }

  /** leader_deliver up to the point where new instances are opened: the current instance has
      been delivered with some value. */
  function Release(c: Office, t: Table, value: Value): (r: Table)
    requires t.Sized()
    ensures |r.slots| == |t.slots|
  {
    var sl := t.At(t.current);
    var mine := sl.p2 == Some(value);
    var open := (sl.status == P1Pending && sl.p2.Some?) || (sl.status == P1Ready && sl.p2.Some?) || sl.status == P2Pending;
    t.With(t.current, CLEARED)
     .(pendingCount := if sl.status == P1Pending then t.pendingCount - 1 else t.pendingCount,
       readyCount := if sl.status == P1Ready && c.repairs.countOff then t.readyCount - 1 else t.readyCount,
       staleReady := if sl.status == P1Ready && !c.repairs.countOff then t.staleReady + 1 else t.staleReady,
       nextUnused := if t.nextUnused == t.current then t.nextUnused + 1 else t.nextUnused,
       openCount := if open then t.openCount - 1 else t.openCount,
       notified := if mine then t.notified + One(sl.p2) else t.notified,
       queue := if sl.p2.Some? && !mine then [sl.p2.value] + t.queue else t.queue)
  }

  /** pro_deliver_callback for the current instance. */
  function Deliver(c: Office, t: Table, value: Value): Table
    requires t.Sized()
  {
    if !t.leading || t.At(t.current).iid != t.current then t.(current := t.current + 1)
    else OpenNew(c, Release(c, t, value).(current := t.current + 1))
  }

  /** vh_enqueue_value. */
  function Submit(t: Table, value: Value): Table {
    if |t.queue| > LEADER_MAX_QUEUE_LENGTH then t
    else t.(queue := t.queue + [value], taken := t.taken + [value])
  }

  /** leader_init without its first check: counters and frontiers are reset. */
  function Reset(t: Table): Table {
    t.(leading := true, promoted := true, pendingCount := 0, readyCount := 0, highestOpen := if t.current == 0 then 0 else t.current - 1,
       nextUnused := t.current, openCount := 0, queue := [], staleReady := 0)
  }

  /** leader_init. */
  function Promote(c: Office, t: Table): Table
    requires t.Sized()
  {
    P1Check(c, Reset(t), {})
  }

  /** vh_shutdown: every client whose value is still pending is told that it failed. */
  function Drained(t: Table): Table {
    t.(leading := false, queue := [], failed := t.failed + t.queue)
  }

  /** leader_shutdown. */
  function Shutdown(c: Office, t: Table): Table
    requires t.Sized()
  {
    Drained(Each(c, Drop, t, t.current, t.highestOpen + 1))
  }

  // ---- the asserts of the source ----

  /** Line 176: every slot about to be opened is empty. */
  predicate OpensEmptySlots(t: Table, k: nat)
    requires t.Sized()
  {
    forall i: nat :: t.highestOpen < i <= t.highestOpen + k ==> t.At(i).status == Empty
  }

  /** Line 350, each time the loop comes to it: the next instance has no value assigned. */
  predicate NextIsUnassigned(c: Office, t: Table)
    requires t.Sized()
    decreases PROPOSER_P2_CONCURRENCY + 1 - t.openCount
  {
    t.openCount > PROPOSER_P2_CONCURRENCY
    || (t.At(t.nextUnused).p2.None? && (CanExecute(t) ==> NextIsUnassigned(c, ExecuteNext(c, t))))
  }

  predicate OpenNewAsserts(c: Office, t: Table)
    requires t.Sized()
  {
    t.openCount > THRESHOLD || NextIsUnassigned(c, t)
  }

  // ---- runs ----

  datatype Event =
    | Elected
    | Deposed
    | P1Timer(expired: set<nat>)
    | P2Timer(closed: set<nat>, expired: set<nat>)
    | Promises(from: nat, batch: seq<PrepareAck>)
    | Delivered(value: Value)
    | Submitted(value: Value)

  function Handle(c: Office, t: Table, ev: Event): Table
    requires t.Sized()
  {
    match ev
    case Elected => Promote(c, t)
    case Deposed => Shutdown(c, t)
    case P1Timer(expired) => P1Check(c, t, expired)
    case P2Timer(closed, expired) => P2Check(c, t, closed, expired)
    case Promises(from, batch) => HandleBatch(c, t, from, batch)
    case Delivered(value) => Deliver(c, t, value)
    case Submitted(value) => Submit(t, value)
  }
}
