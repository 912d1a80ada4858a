/** The leader's own books over whole runs: what becomes of the clients' values, and whether its
    counters count what they are named after. */
module LeaderBooks {
  import opened PaxosConfig
  import opened Messages
  import opened SlotSpec
  import opened LeaderSpec
  import opened LeaderInvariant
  import opened LeaderSteps
  import opened LeaderRuns

  // ---- where values are lost ----

  /** A loop loses the value of a slot in two places: a phase 2 that replaces it, as written, and a
      step down that finds its instance closed. */
  predicate VisitLoses(c: Office, job: Job, sl: Slot) {
    match job
    case Resend => sl.status == P1Ready && Displaces(sl) && !c.repairs.pushBack
    case Drop => sl.status == P2Completed && sl.p2.Some?
    case _ => false
  }

  ghost predicate LoopLoses(c: Office, job: Job, t: Table, from: nat, to: nat)
    requires t.Sized()
  {
    exists i: nat :: from <= i < to && VisitLoses(c, job, t.At(i))
  }

  /** An event that loses a value: it can be told from the table before its loop. */
  ghost predicate EventLoses(c: Office, t: Table, ev: Event)
    requires t.Sized()
  {
    match ev
    case Promises(from, batch) =>
      var heard := HandlePromises(c, t, from, batch);
      t.leading && heard.readyCount > t.readyCount && LoopLoses(c, Resend, heard, heard.current, heard.nextUnused)
    case Deposed => LoopLoses(c, Drop, t, t.current, t.highestOpen + 1)
    case _ => false
  }

  lemma VisitLost(c: Office, job: Job, t: Table, i: nat)
    requires t.Sized()
    ensures var r := Visit(c, job, t, i);
            t.lost <= r.lost && (r.lost == t.lost <==> !VisitLoses(c, job, t.At(i)))
  {
  }

  lemma VisitLeavesRest(c: Office, job: Job, t: Table, from: nat, to: nat)
    requires t.Sized() && Frontiers(t) && t.current <= from < to <= t.highestOpen + 1
    ensures LoopLoses(c, job, t, from, to)
            <==> VisitLoses(c, job, t.At(from)) || LoopLoses(c, job, Visit(c, job, t, from), from + 1, to)
  {
    var r := Visit(c, job, t, from);
    forall i: nat | from < i < to
      ensures r.At(i) == t.At(i)
    {
      Distinct(t, from, i);
    }
  }

  lemma {:induction false} EachLost(c: Office, job: Job, t: Table, from: nat, to: nat, e: Table)
    requires t.Sized() && Frontiers(t) && t.current <= from && to <= t.highestOpen + 1 && e == Each(c, job, t, from, to)
    ensures t.lost <= e.lost && (e.lost == t.lost <==> !LoopLoses(c, job, t, from, to))
    decreases if from < to then to - from else 0
  {
    if from < to {
      VisitLost(c, job, t, from);
      VisitLeavesRest(c, job, t, from, to);
      EachLost(c, job, Visit(c, job, t, from), from + 1, to, e);
    }
  }

  /** A new instance has no value to lose. */
  lemma {:induction false} ExecuteManyLost(c: Office, t: Table, e: Table)
    requires t.Sized() && NextIsUnassigned(c, t) && e == ExecuteMany(c, t)
    ensures e.lost == t.lost
    decreases PROPOSER_P2_CONCURRENCY + 1 - t.openCount
  {
    if t.openCount <= PROPOSER_P2_CONCURRENCY && CanExecute(t) {
      ExecuteManyLost(c, ExecuteNext(c, t), e);
    }
  }

  lemma OpenNewLost(c: Office, t: Table)
    requires t.Sized() && OpenNewAsserts(c, t)
    ensures OpenNew(c, t).lost == t.lost
  {
    if t.openCount <= THRESHOLD {
      ExecuteManyLost(c, t, ExecuteMany(c, t));
    }
  }

  lemma {:induction false} OpenManyLost(c: Office, t: Table, k: nat)
    requires t.Sized()
    ensures OpenMany(c, t, k).lost == t.lost
    decreases k
  {
    if k > 0 {
      OpenManyLost(c, OpenOne(c, t), k - 1);
    }
  }

  lemma {:induction false} HandlePromisesLost(c: Office, t: Table, from: nat, batch: seq<PrepareAck>)
    requires t.Sized()
    ensures HandlePromises(c, t, from, batch).lost == t.lost
    decreases |batch|
  {
    if batch != [] {
      HandlePromisesLost(c, HandlePromise(c, t, from, batch[0]), from, batch[1..]);
    }
  }

  lemma TimersLose(c: Office, t: Table, ev: Event)
    requires LeaderOk(c, t) && t.leading && Survives(c, t, ev) && (ev.P1Timer? || ev.P2Timer?)
    ensures Handle(c, t, ev).lost == t.lost
  {
    match ev
    case P1Timer(expired) =>
      var checked := Each(c, Retry(expired), t, t.current, t.highestOpen + 1);
      EachLost(c, Retry(expired), t, t.current, t.highestOpen + 1, checked);
      OpenManyLost(c, checked, ToOpen(checked));
    case P2Timer(closed, expired) =>
      var checked := Each(c, Restart(closed, expired), t, t.current, t.nextUnused);
      EachLost(c, Restart(closed, expired), t, t.current, t.nextUnused, checked);
      OpenNewLost(c, checked);
  }

  lemma BatchLoses(c: Office, t: Table, from: nat, batch: seq<PrepareAck>)
    requires LeaderOk(c, t) && Survives(c, t, Promises(from, batch))
    ensures var r := HandleBatch(c, t, from, batch);
            t.lost <= r.lost && (r.lost == t.lost <==> !EventLoses(c, t, Promises(from, batch)))
  {
    HandlePromisesLost(c, t, from, batch);
    var heard := HandlePromises(c, t, from, batch);
    if t.leading && heard.readyCount > t.readyCount {
      var sent := Each(c, Resend, heard, heard.current, heard.nextUnused);
      EachLost(c, Resend, heard, heard.current, heard.nextUnused, sent);
      OpenNewLost(c, sent);
    }
  }

  lemma DeliveryLoses(c: Office, t: Table, value: Value)
    requires t.Sized() && Survives(c, t, Delivered(value))
    ensures Deliver(c, t, value).lost == t.lost
  {
    if t.leading && t.At(t.current).iid == t.current {
      OpenNewLost(c, Release(c, t, value).(current := t.current + 1));
    }
  }

  lemma StepDownLoses(c: Office, t: Table)
    requires LeaderOk(c, t) && t.leading
    ensures var r := Shutdown(c, t); t.lost <= r.lost && (r.lost == t.lost <==> !EventLoses(c, t, Deposed))
  {
    EachLost(c, Drop, t, t.current, t.highestOpen + 1, Each(c, Drop, t, t.current, t.highestOpen + 1));
  }

  lemma EventLost(c: Office, t: Table, ev: Event)
    requires LeaderOk(c, t) && Expected(t, ev) && Survives(c, t, ev)
    ensures var r := Handle(c, t, ev); t.lost <= r.lost && (r.lost == t.lost <==> !EventLoses(c, t, ev))
  {
    match ev
    case Elected => OpenManyLost(c, Reset(t), ToOpen(Reset(t)));
    case Deposed => StepDownLoses(c, t);
    case P1Timer(_) => TimersLose(c, t, ev);
    case P2Timer(_, _) => TimersLose(c, t, ev);
    case Promises(from, batch) => BatchLoses(c, t, from, batch);
    case Delivered(value) => DeliveryLoses(c, t, value);
    case Submitted(_) =>
  }

  // ---- conservation on runs ----

  /** No event of the run loses a value. */
  ghost predicate LosesNothing(c: Office, t: Table, events: seq<Event>)
    requires t.Sized()
    decreases |events|
  {
    events == [] || (!EventLoses(c, t, events[0]) && LosesNothing(c, Handle(c, t, events[0]), events[1..]))
  }

  lemma {:induction false} RunLost(c: Office, t: Table, events: seq<Event>)
    requires LeaderOk(c, t) && |t.slots| > PROPOSER_PREEXEC_WIN_SIZE && Run(c, t, events)
    ensures t.lost <= After(c, t, events).lost
    ensures After(c, t, events).lost == t.lost <==> LosesNothing(c, t, events)
    decreases |events|
  {
    if events != [] {
      EventLost(c, t, events[0]);
      HandleKeeps(c, t, events[0]);
      RunLost(c, Handle(c, t, events[0]), events[1..]);
    }
  }

  /** Every value taken from a client or found in phase 1 is pending, assigned to an instance or
      reported back, as often as it was taken. */
  ghost predicate AllInHand(t: Table) {
    forall v :: InHand(t, v) == Times(v, t.taken)
  }

  /** Conservation: after any run every value is still in hand exactly when no phase 2 on the way
      replaced a value, as written, and no step down found a value in a closed instance. */
  lemma ValuesConserved(c: Office, size: nat, events: seq<Event>)
    requires size > PROPOSER_PREEXEC_WIN_SIZE && c.me < MAX_N_OF_PROPOSERS && Run(c, Start(size), events)
    ensures AllInHand(After(c, Start(size), events)) <==> LosesNothing(c, Start(size), events)
  {
    StartIsInOrder(c, size);
    RunsKeepOrder(c, Start(size), events);
    RunLost(c, Start(size), events);
    LedgerInHand(After(c, Start(size), events));
  }

  lemma LedgerInHand(t: Table)
    requires Ledger(t)
    ensures AllInHand(t) <==> t.lost == []
  {
    forall v
      ensures Times(v, t.taken) == InHand(t, v) + Times(v, t.lost)
    {
      assert Balanced(t, v);
    }
    if t.lost != [] {
      assert t.lost[0] in multiset(t.lost);
      assert InHand(t, t.lost[0]) != Times(t.lost[0], t.taken);
    }
  }

  /** With the branch for two values in reach only a step down can lose one. */
  lemma {:induction false} PushingBackConserves(c: Office, t: Table, events: seq<Event>)
    requires c.repairs.pushBack && LeaderOk(c, t) && |t.slots| > PROPOSER_PREEXEC_WIN_SIZE
    requires Run(c, t, events) && Deposed !in events && AllInHand(t)
    ensures AllInHand(After(c, t, events))
    decreases |events|
  {
    if events != [] {
      var r := Handle(c, t, events[0]);
      EventLost(c, t, events[0]);
      HandleKeeps(c, t, events[0]);
      LedgerInHand(t);
      LedgerInHand(r);
      PushingBackConserves(c, r, events[1..]);
    }
  }

  // ---- the count of ready slots ----

  /** A delivery that leaves ready_count too large by one. */
  predicate Miscounts(c: Office, t: Table, ev: Event)
    requires t.Sized()
  {
    ev.Delivered? && t.leading && t.At(t.current).status == P1Ready && !c.repairs.countOff
  }

  predicate CountsReady(t: Table) {
    t.readyCount == Tally(t.slots, Ready)
  }

  lemma TimersStale(c: Office, t: Table, ev: Event)
    requires t.Sized() && (ev.P1Timer? || ev.P2Timer?)
    ensures Handle(c, t, ev).staleReady == t.staleReady
  {
    match ev
    case P1Timer(expired) =>
      var checked := Each(c, Retry(expired), t, t.current, t.highestOpen + 1);
      EachStays(c, Retry(expired), t, t.current, t.highestOpen + 1);
      OpenManyStays(c, checked, ToOpen(checked));
    case P2Timer(closed, expired) =>
      EachStays(c, Restart(closed, expired), t, t.current, t.nextUnused);
      OpenNewStays(c, Each(c, Restart(closed, expired), t, t.current, t.nextUnused));
  }

  lemma DeliveryStale(c: Office, t: Table, value: Value)
    requires LeaderOk(c, t) && Expected(t, Delivered(value))
    ensures Deliver(c, t, value).staleReady == t.staleReady + if Miscounts(c, t, Delivered(value)) then 1 else 0
  {
    if t.leading {
      SlotAt(c, t, t.current);
      OpenNewStays(c, Release(c, t, value).(current := t.current + 1));
    }
  }

  lemma EventStale(c: Office, t: Table, ev: Event)
    requires LeaderOk(c, t) && Expected(t, ev)
    ensures Handle(c, t, ev).staleReady
            == if ev.Elected? then 0 else t.staleReady + if Miscounts(c, t, ev) then 1 else 0
  {
    match ev
    case Elected => OpenManyStays(c, Reset(t), ToOpen(Reset(t)));
    case Deposed => EachStays(c, Drop, t, t.current, t.highestOpen + 1);
    case P1Timer(_) => TimersStale(c, t, ev);
    case P2Timer(_, _) => TimersStale(c, t, ev);
    case Promises(from, batch) =>
      if t.leading {
        BatchStays(c, t, from, batch);
      }
    case Delivered(value) => DeliveryStale(c, t, value);
    case Submitted(_) =>
  }

  /** ready_count, exact before a delivery, is exact after it exactly when the delivered slot was not
      ready, or is counted off. */
  lemma DeliveryCountsReady(c: Office, t: Table, value: Value)
    requires LeaderOk(c, t) && t.leading && t.current <= t.highestOpen && CountsReady(t)
    ensures CountsReady(Deliver(c, t, value)) <==> t.At(t.current).status != P1Ready || c.repairs.countOff
  {
    DeliverKeeps(c, t, value);
    EventStale(c, t, Delivered(value));
  }

  /** Since the last election (from the start: if the count was exact then) no delivery miscounts. */
  ghost predicate CountsThrough(c: Office, t: Table, events: seq<Event>, exact: bool)
    requires t.Sized()
    decreases |events|
  {
    if events == [] then exact
    else CountsThrough(c, Handle(c, t, events[0]), events[1..], events[0].Elected? || (exact && !Miscounts(c, t, events[0])))
  }

  lemma {:induction false} StaleOnRuns(c: Office, t: Table, events: seq<Event>)
    requires LeaderOk(c, t) && |t.slots| > PROPOSER_PREEXEC_WIN_SIZE && Run(c, t, events)
    ensures After(c, t, events).staleReady == 0 <==> CountsThrough(c, t, events, t.staleReady == 0)
    decreases |events|
  {
    if events != [] {
      EventStale(c, t, events[0]);
      HandleKeeps(c, t, events[0]);
      StaleOnRuns(c, Handle(c, t, events[0]), events[1..]);
    }
  }

  /** Counter exactness on runs: pending_count and open_count always count their slots, and
      ready_count does exactly when no slot that was ready has been delivered since the election. */
  lemma CountersOnRuns(c: Office, size: nat, events: seq<Event>)
    requires size > PROPOSER_PREEXEC_WIN_SIZE && c.me < MAX_N_OF_PROPOSERS && Run(c, Start(size), events)
    requires After(c, Start(size), events).leading
    ensures var t := After(c, Start(size), events);
            && t.pendingCount == Tally(t.slots, Pending) && t.openCount == Tally(t.slots, InPhase2)
            && (CountsReady(t) <==> CountsThrough(c, Start(size), events, true))
  {
    StartIsInOrder(c, size);
    RunsKeepOrder(c, Start(size), events);
    StaleOnRuns(c, Start(size), events);
  }

  /** Counted off on delivery, ready_count is exact on every run. */
  lemma {:induction false} CountingOffIsExact(c: Office, t: Table, events: seq<Event>)
    requires c.repairs.countOff && LeaderOk(c, t) && |t.slots| > PROPOSER_PREEXEC_WIN_SIZE && Run(c, t, events)
    requires t.leading ==> CountsReady(t)
    ensures After(c, t, events).leading ==> CountsReady(After(c, t, events))
    decreases |events|
  {
    if events != [] {
      var r := Handle(c, t, events[0]);
      EventStale(c, t, events[0]);
      HandleKeeps(c, t, events[0]);
      LeadsOnlyIf(c, t, events[0]);
      CountingOffIsExact(c, r, events[1..]);
    }
  }

  /** Only an election makes a leader. */
  lemma LeadsOnlyIf(c: Office, t: Table, ev: Event)
    requires LeaderOk(c, t) && Expected(t, ev)
    ensures Handle(c, t, ev).leading ==> t.leading || ev.Elected?
  {
  }

  // ---- what is sent ----

  /** Every request carries a ballot of the proposer that sends it. */
  ghost predicate OwnBallots(c: Office, t: Table) {
    && (forall pr :: pr in t.prepares ==> Owner(pr.ballot) == c.me)
    && (forall ar :: ar in t.accepts ==> Owner(ar.ballot) == c.me)
  }

  lemma VisitOwn(c: Office, job: Job, t: Table, i: nat)
    requires t.Sized() && !job.Drop? && Fits(c, t, i, t.At(i)) && OwnBallots(c, t)
    ensures OwnBallots(c, Visit(c, job, t, i))
  {
  }

  lemma {:induction false} EachOwn(c: Office, job: Job, t: Table, from: nat, to: nat, e: Table)
    requires TableOk(c, t) && !job.Drop? && t.current <= from <= to == Stop(job, t) && OwnBallots(c, t)
    requires e == Each(c, job, t, from, to)
    ensures OwnBallots(c, e)
    decreases if from < to then to - from else 0
  {
    if from < to {
      SlotAt(c, t, from);
      VisitOwn(c, job, t, from);
      VisitKeepsTable(c, job, t, from);
      EachOwn(c, job, Visit(c, job, t, from), from + 1, to, e);
    }
  }

  lemma {:induction false} DropSendsNothing(c: Office, t: Table, from: nat, to: nat, e: Table)
    requires t.Sized() && e == Each(c, Drop, t, from, to)
    ensures e.prepares == t.prepares && e.accepts == t.accepts
    decreases if from < to then to - from else 0
  {
    if from < to {
      DropSendsNothing(c, Visit(c, Drop, t, from), from + 1, to, e);
    }
  }

  lemma {:induction false} OpenManyOwn(c: Office, t: Table, k: nat, e: Table)
    requires t.Sized() && c.me < MAX_N_OF_PROPOSERS && OwnBallots(c, t) && e == OpenMany(c, t, k)
    ensures OwnBallots(c, e)
    decreases k
  {
    if k > 0 {
      OpenManyOwn(c, OpenOne(c, t), k - 1, e);
    }
  }

  lemma {:induction false} ExecuteManyOwn(c: Office, t: Table, e: Table)
    requires TableOk(c, t) && Settled(t) && OwnBallots(c, t) && e == ExecuteMany(c, t)
    ensures OwnBallots(c, e)
    decreases PROPOSER_P2_CONCURRENCY + 1 - t.openCount
  {
    if t.openCount <= PROPOSER_P2_CONCURRENCY && CanExecute(t) {
      ExecuteNextSlot(c, t);
      ExecuteNextKeeps(c, t);
      ExecuteManyOwn(c, ExecuteNext(c, t), e);
    }
  }

  lemma OpenNewOwn(c: Office, t: Table)
    requires TableOk(c, t) && Settled(t) && OwnBallots(c, t)
    ensures OwnBallots(c, OpenNew(c, t))
  {
    if t.openCount <= THRESHOLD {
      ExecuteManyOwn(c, t, ExecuteMany(c, t));
    }
  }

  lemma {:induction false} HandlePromisesSendNothing(c: Office, t: Table, from: nat, batch: seq<PrepareAck>)
    requires t.Sized()
    ensures var r := HandlePromises(c, t, from, batch); r.prepares == t.prepares && r.accepts == t.accepts
    decreases |batch|
  {
    if batch != [] {
      HandlePromisesSendNothing(c, HandlePromise(c, t, from, batch[0]), from, batch[1..]);
    }
  }

  lemma BatchOwn(c: Office, t: Table, from: nat, batch: seq<PrepareAck>)
    requires LeaderOk(c, t) && t.leading && OwnBallots(c, t)
    ensures OwnBallots(c, HandleBatch(c, t, from, batch))
  {
    var ahead := Tally(t.slots, Fresh);
    var heard := HandlePromises(c, t, from, batch);
    HandlePromisesSendNothing(c, t, from, batch);
    if heard.readyCount > t.readyCount {
      var sent := Each(c, Resend, heard, heard.current, heard.nextUnused);
      NoneBefore(c, t);
      HandlePromisesKeep(c, t, from, batch, ahead);
      EachOwn(c, Resend, heard, heard.current, heard.nextUnused, sent);
      EachKeeps(c, Resend, heard, heard.current, heard.nextUnused, ahead, sent);
      OpenNewOwn(c, sent);
    }
  }

  lemma TimersOwn(c: Office, t: Table, ev: Event)
    requires LeaderOk(c, t) && t.leading && OwnBallots(c, t) && (ev.P1Timer? || ev.P2Timer?)
    ensures OwnBallots(c, Handle(c, t, ev))
  {
    var ahead := Tally(t.slots, Fresh);
    match ev
    case P1Timer(expired) =>
      var checked := Each(c, Retry(expired), t, t.current, t.highestOpen + 1);
      EachOwn(c, Retry(expired), t, t.current, t.highestOpen + 1, checked);
      OpenManyOwn(c, checked, ToOpen(checked), OpenP1(c, checked));
    case P2Timer(closed, expired) =>
      var checked := Each(c, Restart(closed, expired), t, t.current, t.nextUnused);
      EachOwn(c, Restart(closed, expired), t, t.current, t.nextUnused, checked);
      EachKeeps(c, Restart(closed, expired), t, t.current, t.nextUnused, ahead, checked);
      OpenNewOwn(c, checked);
  }

  lemma DeliveryOwn(c: Office, t: Table, value: Value)
    requires LeaderOk(c, t) && t.leading && t.current <= t.highestOpen && OwnBallots(c, t)
    ensures OwnBallots(c, Deliver(c, t, value))
  {
    SlotAt(c, t, t.current);
    ReleaseKeeps(c, t, value);
    OpenNewOwn(c, Release(c, t, value).(current := t.current + 1));
  }

  lemma ElectionsOwn(c: Office, t: Table, ev: Event)
    requires LeaderOk(c, t) && Expected(t, ev) && OwnBallots(c, t) && (ev.Elected? || ev.Deposed?)
    ensures OwnBallots(c, Handle(c, t, ev))
  {
    if ev.Elected? {
      OpenManyOwn(c, Reset(t), ToOpen(Reset(t)), Promote(c, t));
    } else {
      DropSendsNothing(c, t, t.current, t.highestOpen + 1, Each(c, Drop, t, t.current, t.highestOpen + 1));
    }
  }

  lemma EventOwn(c: Office, t: Table, ev: Event)
    requires LeaderOk(c, t) && Expected(t, ev) && OwnBallots(c, t)
    ensures OwnBallots(c, Handle(c, t, ev))
  {
    match ev
    case Elected => ElectionsOwn(c, t, ev);
    case Deposed => ElectionsOwn(c, t, ev);
    case P1Timer(_) => TimersOwn(c, t, ev);
    case P2Timer(_, _) => TimersOwn(c, t, ev);
    case Promises(from, batch) =>
      if t.leading {
        BatchOwn(c, t, from, batch);
      }
    case Delivered(value) =>
      if t.leading {
        DeliveryOwn(c, t, value);
      }
    case Submitted(_) =>
  }

  /** On every run a proposer sends only requests whose ballot, modulo the number of proposers, is
      its own id: no two proposers ever use the same ballot. */
  lemma {:induction false} BallotsAreOwn(c: Office, t: Table, events: seq<Event>)
    requires LeaderOk(c, t) && |t.slots| > PROPOSER_PREEXEC_WIN_SIZE && Run(c, t, events) && OwnBallots(c, t)
    ensures OwnBallots(c, After(c, t, events))
    decreases |events|
  {
    if events != [] {
      EventOwn(c, t, events[0]);
      HandleKeeps(c, t, events[0]);
      BallotsAreOwn(c, Handle(c, t, events[0]), events[1..]);
    }
  }
}
