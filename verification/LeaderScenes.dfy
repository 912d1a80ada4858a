/** Runs of the leader, from the start of the program, on which its books come out wrong: a client's
    value is lost, and the count of ready slots stops the leader for good. */
module LeaderScenes {
  import opened PaxosConfig
  import opened Messages
  import opened SlotSpec
  import opened LeaderSpec
  import opened LeaderInvariant
  import opened LeaderSteps
  import opened LeaderRuns
  import opened LeaderBooks

  // ---- one event after another ----

  /** A run from the start leads to table t, without a step down. */
  ghost predicate Reached(c: Office, size: nat, t: Table)
    requires size > 0
  {
    exists events :: Run(c, Start(size), events) && Deposed !in events && After(c, Start(size), events) == t
  }

  /** The event is expected and no assert fails on it. */
  predicate Takes(c: Office, t: Table, ev: Event)
    requires t.Sized()
  {
    Expected(t, ev) && Survives(c, t, ev)
  }

  lemma RunUnfolds(c: Office, t: Table, ev: Event, rest: seq<Event>, v: Table)
    requires t.Sized() && v == Handle(c, t, ev)
    ensures Run(c, t, [ev] + rest) <==> Takes(c, t, ev) && Run(c, v, rest)
    ensures Run(c, t, [ev] + rest) ==> After(c, t, [ev] + rest) == After(c, v, rest)
  {
    assert ([ev] + rest)[1..] == rest;
  }

  lemma {:induction false} RunGoesOn(c: Office, t: Table, events: seq<Event>, ev: Event, u: Table)
    requires t.Sized() && Run(c, t, events) && u == After(c, t, events) && Takes(c, u, ev)
    ensures Run(c, t, events + [ev]) && After(c, t, events + [ev]) == Handle(c, u, ev)
    decreases |events|, 1
  {
    if events == [] {
      RunOfOne(c, t, ev);
      assert events + [ev] == [ev];
    } else {
      RunGoesOnFrom(c, t, events, ev, u, Handle(c, t, events[0]));
    }
  }

  lemma {:induction false} RunGoesOnFrom(c: Office, t: Table, events: seq<Event>, ev: Event, u: Table, v: Table)
    requires t.Sized() && events != [] && Run(c, t, events) && u == After(c, t, events) && Takes(c, u, ev)
    requires v == Handle(c, t, events[0])
    ensures Run(c, t, events + [ev]) && After(c, t, events + [ev]) == Handle(c, u, ev)
    decreases |events|, 0
  {
    var rest := events[1..];
    assert events == [events[0]] + rest;
    RunUnfolds(c, t, events[0], rest, v);
    RunGoesOn(c, v, rest, ev, u);
    RunUnfolds(c, t, events[0], rest + [ev], v);
    assert events + [ev] == [events[0]] + (rest + [ev]);
  }

  lemma RunOfOne(c: Office, t: Table, ev: Event)
    requires t.Sized() && Takes(c, t, ev)
    ensures Run(c, t, [ev]) && After(c, t, [ev]) == Handle(c, t, ev)
  {
    assert [ev][1..] == [];
    assert Run(c, Handle(c, t, ev), []);
  }

  /** A leader on some run from the start that has opened its first window and no more. */
  ghost predicate Stands(c: Office, size: nat, t: Table) {
    && size > PROPOSER_PREEXEC_WIN_SIZE && c.n == 3
    && Reached(c, size, t) && |t.slots| == size
    && LeaderOk(c, t) && t.leading && t.highestOpen == PROPOSER_PREEXEC_WIN_SIZE
  }

  /** It can take any event but a step down and the one that opens more. */
  lemma Go(c: Office, size: nat, t: Table, ev: Event)
    requires Stands(c, size, t) && Expected(t, ev) && !ev.P1Timer? && !ev.Deposed?
    ensures Stands(c, size, Handle(c, t, ev)) && Takes(c, t, ev)
  {
    var events :| Run(c, Start(size), events) && Deposed !in events && After(c, Start(size), events) == t;
    SurvivesPhase2(c, t, ev);
    HandleKeeps(c, t, ev);
    RunGoesOn(c, Start(size), events, ev, t);
    StaysOpen(c, t, ev);
  }

  lemma StaysOpen(c: Office, t: Table, ev: Event)
    requires t.Sized() && t.leading && Expected(t, ev) && !ev.P1Timer? && !ev.Deposed?
    ensures Handle(c, t, ev).leading && Handle(c, t, ev).highestOpen == t.highestOpen
  {
    match ev
    case P2Timer(closed, expired) => P2CheckStays(c, t, closed, expired);
    case Promises(from, batch) => BatchStays(c, t, from, batch);
    case Delivered(value) => DeliverStays(c, t, value);
    case Submitted(_) =>
  }

  lemma {:induction false} OpenedSlots(c: Office, t: Table, k: nat, e: Table)
    requires t.Sized() && t.current <= t.highestOpen + 1 && t.highestOpen + k < t.current + |t.slots| && e == OpenMany(c, t, k)
    requires forall i: nat :: t.highestOpen < i <= t.highestOpen + k ==> t.At(i) == CLEARED
    ensures forall i: nat :: t.current <= i <= t.highestOpen ==> e.At(i) == t.At(i)
    ensures forall i: nat :: t.highestOpen < i <= t.highestOpen + k ==> e.At(i) == Opened(CLEARED, i, c.me)
    ensures e == t.(slots := e.slots, prepares := e.prepares, highestOpen := t.highestOpen + k, pendingCount := t.pendingCount + k)
    decreases k
  {
    if k > 0 {
      var j := t.highestOpen + 1;
      var r := OpenOne(c, t);
      forall i: nat | j < i <= t.highestOpen + k
        ensures r.At(i) == t.At(i)
      {
        IndexApart(j, i, |t.slots|);
      }
      forall i: nat | t.current <= i < j
        ensures r.At(i) == t.At(i)
      {
        IndexApart(i, j, |t.slots|);
      }
      OpenedSlots(c, r, k - 1, e);
    }
  }

  lemma FirstElection(c: Office, size: nat)
    requires size > PROPOSER_PREEXEC_WIN_SIZE && c.me < MAX_N_OF_PROPOSERS
    ensures Takes(c, Start(size), Elected) && LeaderOk(c, Promote(c, Start(size)))
  {
    var s := Start(size);
    StartIsInOrder(c, size);
    ResetIsInOrder(c, s);
    RoomExactly(c, Reset(s), ToOpen(Reset(s)));
    PromoteKeeps(c, s);
  }

  /** The first leader has its first window open and nothing else. */
  lemma Begin(c: Office, size: nat) returns (t: Table)
    requires size > PROPOSER_PREEXEC_WIN_SIZE && c.me < MAX_N_OF_PROPOSERS && c.n == 3
    ensures Stands(c, size, t) && Waits(c, t, 1) && t.staleReady == 0 && t.lost == []
  {
    t := Promote(c, Start(size));
    FirstElection(c, size);
    FirstWindow(c, size, t);
    RunOfOne(c, Start(size), Elected);
    assert Deposed !in [Elected];
  }

  lemma FirstWindow(c: Office, size: nat, t: Table)
    requires size > PROPOSER_PREEXEC_WIN_SIZE && t == Promote(c, Start(size))
    ensures Waits(c, t, 1) && t.staleReady == 0 && t.lost == [] && t.leading
    ensures |t.slots| == size && t.highestOpen == PROPOSER_PREEXEC_WIN_SIZE
  {
    OpenedSlots(c, Reset(Start(size)), PROPOSER_PREEXEC_WIN_SIZE, t);
  }

  /** Instance `next` is the first that was not delivered, and it and all others wait for promises. */
  ghost predicate Waits(c: Office, t: Table, next: nat)
    requires t.Sized()
  {
    && t.current == t.nextUnused == next && t.openCount == 0 && t.queue == []
    && forall i: nat :: next <= i <= PROPOSER_PREEXEC_WIN_SIZE ==> t.At(i) == Opened(CLEARED, i, c.me)
  }

  // ---- an instance is promised ----

  /** A promise for the first ballot that reports no vote. */
  function Bare(c: Office, i: nat): PrepareAck {
    PrepareAck(i, FirstBallot(c.me), 0, [])
  }

  /** The slot after promises of acceptors 0 and 1. */
  function Promised(c: Office, i: nat, both: bool): Slot {
    var one := SlotSpec.HandleAck(c.repairs, c.n, Opened(CLEARED, i, c.me), Bare(c, i), 0);
    if both then SlotSpec.HandleAck(c.repairs, c.n, one, Bare(c, i), 1) else one
  }

  lemma PromisedSlot(c: Office, i: nat)
    requires c.n == 3
    ensures var one := Promised(c, i, false); var two := Promised(c, i, true); var sl := Opened(CLEARED, i, c.me);
            && one == sl.(bits := one.bits, count := 1, heard := {0})
            && two == sl.(status := P1Ready, bits := two.bits, count := 2, heard := {0} + {1})
            && two.bits == if c.repairs.countDistinct then {0} + {1} else {}
  {
  }

  lemma BatchOfOne(c: Office, t: Table, from: nat, pa: PrepareAck)
    requires t.Sized()
    ensures HandlePromises(c, t, from, [pa]) == HandlePromise(c, t, from, pa)
  {
    assert [pa][1..] == [];
    assert HandlePromises(c, HandlePromise(c, t, from, pa), from, []) == HandlePromise(c, t, from, pa);
  }

  lemma OnePromise(c: Office, t: Table, i: nat)
    requires t.Sized() && t.leading && c.n == 3 && t.At(i) == Opened(CLEARED, i, c.me)
    ensures Handle(c, t, Promises(0, [Bare(c, i)])) == t.With(i, Promised(c, i, false))
  {
    PromisedSlot(c, i);
    BatchOfOne(c, t, 0, Bare(c, i));
  }

  /** The second promise makes it ready, and the leader looks for something to send. */
  lemma TwoPromises(c: Office, t: Table, i: nat)
    requires t.Sized() && t.leading && c.n == 3 && t.current == t.nextUnused && t.At(i) == Promised(c, i, false)
    ensures Handle(c, t, Promises(1, [Bare(c, i)]))
            == OpenNew(c, t.With(i, Promised(c, i, true)).(pendingCount := t.pendingCount - 1, readyCount := t.readyCount + 1))
  {
    PromisedSlot(c, i);
    BatchOfOne(c, t, 1, Bare(c, i));
  }

  // ---- a ready instance is delivered ----

  /** One instance more is promised and, with nothing to send, delivered while it is ready. */
  lemma OneMoreStale(c: Office, size: nat, t: Table, i: nat) returns (r: Table)
    requires Stands(c, size, t) && Waits(c, t, i) && 1 <= i < PROPOSER_PREEXEC_WIN_SIZE && !c.repairs.countOff
    ensures Stands(c, size, r) && Waits(c, r, i + 1) && r.staleReady == t.staleReady + 1
  {
    OnePromise(c, t, i);
    Go(c, size, t, Promises(0, [Bare(c, i)]));
    var one := Handle(c, t, Promises(0, [Bare(c, i)]));
    TwoPromises(c, one, i);
    Go(c, size, one, Promises(1, [Bare(c, i)]));
    PromisedSlot(c, i);
    var two := Handle(c, one, Promises(1, [Bare(c, i)]));
    assert two == one.With(i, Promised(c, i, true)).(pendingCount := one.pendingCount - 1, readyCount := one.readyCount + 1);
    Go(c, size, two, Delivered([]));
    r := Handle(c, two, Delivered([]));
    DeliveredReady(c, t, two, i);
  }

  lemma DeliveredReady(c: Office, t: Table, two: Table, i: nat)
    requires t.Sized() && t.leading && Frontiers(t) && Waits(c, t, i) && t.highestOpen == PROPOSER_PREEXEC_WIN_SIZE
    requires 1 <= i < PROPOSER_PREEXEC_WIN_SIZE && c.n == 3 && !c.repairs.countOff
    requires two == t.With(i, Promised(c, i, true)).(pendingCount := two.pendingCount, readyCount := two.readyCount)
    ensures var r := Deliver(c, two, []); Waits(c, r, i + 1) && r.staleReady == t.staleReady + 1
  {
    var r := Release(c, two, []).(current := i + 1);
    ReleasedReady(c, t, two, i);
    NothingToSend(c, r, i + 1);
    PromisedSlot(c, i);
  }

  lemma ReleasedReady(c: Office, t: Table, two: Table, i: nat)
    requires t.Sized() && t.leading && Frontiers(t) && Waits(c, t, i) && t.highestOpen == PROPOSER_PREEXEC_WIN_SIZE
    requires 1 <= i < PROPOSER_PREEXEC_WIN_SIZE && c.n == 3 && !c.repairs.countOff
    requires two == t.With(i, Promised(c, i, true)).(pendingCount := two.pendingCount, readyCount := two.readyCount)
    ensures var r := Release(c, two, []).(current := i + 1); Waits(c, r, i + 1) && r.staleReady == t.staleReady + 1
  {
    PromisedSlot(c, i);
    var r := Release(c, two, []).(current := i + 1);
    forall j: nat | i < j <= PROPOSER_PREEXEC_WIN_SIZE
      ensures r.At(j) == Opened(CLEARED, j, c.me)
    {
      Distinct(t, i, j);
    }
  }

  lemma NothingToSend(c: Office, t: Table, i: nat)
    requires t.Sized() && Waits(c, t, i) && i <= PROPOSER_PREEXEC_WIN_SIZE
    ensures OpenNew(c, t) == t
  {
    assert t.At(i) == Opened(CLEARED, i, c.me);
    assert !CanExecute(t);
  }

  /** Any number of instances of the first window can go this way. */
  lemma {:induction false} ManyStale(c: Office, size: nat, k: nat) returns (t: Table)
    requires size > PROPOSER_PREEXEC_WIN_SIZE && c.me < MAX_N_OF_PROPOSERS && c.n == 3
    requires k < PROPOSER_PREEXEC_WIN_SIZE && !c.repairs.countOff
    ensures Stands(c, size, t) && Waits(c, t, k + 1) && t.staleReady == k
    decreases k
  {
    if k == 0 {
      t := Begin(c, size);
    } else {
      var s := ManyStale(c, size, k - 1);
      t := OneMoreStale(c, size, s, k);
    }
  }

  /** As written a leader can come to a point from which, as long as it leads, it never opens an
      instance again: half a window of ready slots has been delivered to it. */
  lemma LeaderStarves(c: Office, size: nat) returns (events: seq<Event>)
    requires size > PROPOSER_PREEXEC_WIN_SIZE && c.me < MAX_N_OF_PROPOSERS && c.n == 3 && !c.repairs.countOff
    ensures Run(c, Start(size), events)
    ensures var t := After(c, Start(size), events);
            && t.leading && !CountsReady(t)
            && forall more :: Run(c, t, more) && Deposed !in more ==> After(c, t, more).highestOpen == t.highestOpen
  {
    var t := ManyStale(c, size, PROPOSER_PREEXEC_WIN_SIZE / 2);
    events :| Run(c, Start(size), events) && After(c, Start(size), events) == t;
    forall more | Run(c, t, more) && Deposed !in more
      ensures After(c, t, more).highestOpen == t.highestOpen
    {
      StaleCountStopsRuns(c, t, more);
    }
  }

  /** And the learner overtakes it there: every instance it has opened is delivered, it will open no
      other, and the next delivery, whatever it is, leaves its table out of order. */
  lemma LeaderOvertaken(c: Office, size: nat) returns (events: seq<Event>)
    requires size > PROPOSER_PREEXEC_WIN_SIZE && c.me < MAX_N_OF_PROPOSERS && c.n == 3 && !c.repairs.countOff
    ensures Run(c, Start(size), events)
    ensures var t := After(c, Start(size), events);
            && LeaderOk(c, t) && t.leading && t.staleReady >= PROPOSER_PREEXEC_WIN_SIZE / 2
            && forall v :: !LeaderOk(c, Deliver(c, t, v))
  {
    var s := ManyStale(c, size, PROPOSER_PREEXEC_WIN_SIZE - 1);
    Go(c, size, s, Delivered([]));
    var t := Handle(c, s, Delivered([]));
    DeliverStays(c, s, []);
    DeliveryAdvances(c, s, []);
    events :| Run(c, Start(size), events) && Deposed !in events && After(c, Start(size), events) == t;
    forall v
      ensures !LeaderOk(c, Deliver(c, t, v))
    {
      DeliverExactly(c, t, v);
    }
  }

  lemma DeliveryAdvances(c: Office, t: Table, value: Value)
    requires t.Sized()
    ensures Deliver(c, t, value).current == t.current + 1
  {
    OpenNewStays(c, Release(c, t, value).(current := t.current + 1));
  }

  // ---- a value is lost ----

  /** Instance 1 is in phase 2 with value v, and nothing else has a value. */
  ghost predicate Sent(c: Office, t: Table, v: Value)
    requires t.Sized()
  {
    && t.current == 1 && t.nextUnused == 2 && t.openCount == 1 && t.queue == []
    && t.At(1) == Promised(c, 1, true).(p2 := Some(v), status := P2Pending)
    && t.At(2) == Opened(CLEARED, 2, c.me)
  }

  lemma FirstValue(c: Office, size: nat, v: Value) returns (t: Table)
    requires size > PROPOSER_PREEXEC_WIN_SIZE && c.me < MAX_N_OF_PROPOSERS && c.n == 3
    ensures Stands(c, size, t) && Sent(c, t, v) && t.lost == []
  {
    var s := Begin(c, size);
    Go(c, size, s, Submitted(v));
    var one := Handle(c, s, Submitted(v));
    OnePromise(c, one, 1);
    Go(c, size, one, Promises(0, [Bare(c, 1)]));
    var two := Handle(c, one, Promises(0, [Bare(c, 1)]));
    TwoPromises(c, two, 1);
    Go(c, size, two, Promises(1, [Bare(c, 1)]));
    t := Handle(c, two, Promises(1, [Bare(c, 1)]));
    IndexApart(1, 2, size);
    SendsFirst(c, two.With(1, Promised(c, 1, true)).(pendingCount := two.pendingCount - 1, readyCount := two.readyCount + 1), v);
  }

  lemma SendsFirst(c: Office, t: Table, v: Value)
    requires |t.slots| > 1 && c.n == 3 && t.current == 1 && t.nextUnused == 1 && t.openCount == 0 && t.queue == [v]
    requires t.At(1) == Promised(c, 1, true) && t.At(2) == Opened(CLEARED, 2, c.me)
    ensures Sent(c, OpenNew(c, t), v) && OpenNew(c, t).lost == t.lost
  {
    PromisedSlot(c, 1);
    IndexApart(1, 2, |t.slots|);
    var r := ExecuteNext(c, t);
    assert !CanExecute(r);
    assert ExecuteMany(c, r) == r;
    assert ExecuteMany(c, t) == r;
  }

  /** Its phase 2 times out. */
  lemma TimesOut(c: Office, t: Table, v: Value)
    requires |t.slots| > 1 && c.n == 3 && Sent(c, t, v)
    ensures var r := Handle(c, t, P2Timer({}, {1}));
            && r.current == 1 && r.nextUnused == 2 && r.lost == t.lost
            && r.At(1) == RestartPhase1(c.repairs, t.At(1))
  {
    IndexApart(1, 2, |t.slots|);
    var job := Restart({}, {1});
    var r := Visit(c, job, t, 1);
    assert Each(c, job, r, 2, 2) == r;
    assert Each(c, job, t, 1, 2) == r;
    assert !CanExecute(r);
    assert ExecuteMany(c, r) == r;
  }

  /** A promise of acceptor 2 in the next ballot that reports another value. */
  function Vote2(c: Office, w: Value): PrepareAck {
    PrepareAck(1, NextBallot(FirstBallot(c.me)), FirstBallot(c.me) + 1, w)
  }

  /** In the second phase 1 the slot finds w, at once if it remembers the first one. */
  lemma FindsOther(c: Office, v: Value, w: Value)
    requires c.n == 3 && w != []
    ensures var sl := RestartPhase1(c.repairs, Promised(c, 1, true).(p2 := Some(v), status := P2Pending));
            var one := SlotSpec.HandleAck(c.repairs, c.n, sl, Vote2(c, w), 2);
            && one.p1 == Some(w) && one.p2 == Some(v) && one.iid == 1 && one.ballot == NextBallot(FirstBallot(c.me))
            && one.status == (if c.repairs.restartForgets then P1Pending else P1Ready)
            && (c.repairs.restartForgets ==> one.count == 1 && one.bits == if c.repairs.countDistinct then {2} else {})
  {
    PromisedSlot(c, 1);
  }

  /** Where the slot goes ready with two values, the one assigned first is lost. */
  lemma Overruled(c: Office, t: Table, from: nat, pa: PrepareAck)
    requires t.Sized() && t.leading && t.current == 1 && t.nextUnused == 2 && pa.iid == 1 && !c.repairs.pushBack
    requires t.At(1).status == P1Pending
    requires var next := SlotSpec.HandleAck(c.repairs, c.n, t.At(1), pa, from); next.status == P1Ready && Displaces(next)
    ensures EventLoses(c, t, Promises(from, [pa]))
  {
    BatchOfOne(c, t, from, pa);
    var heard := HandlePromise(c, t, from, pa);
    assert VisitLoses(c, Resend, heard.At(1));
  }

  lemma SecondPhase1(c: Office, size: nat, t: Table, v: Value, w: Value) returns (r: Table, ev: Event)
    requires Stands(c, size, t) && t.current == 1 && t.nextUnused == 2 && !c.repairs.pushBack && v != w && w != []
    requires t.At(1) == RestartPhase1(c.repairs, Promised(c, 1, true).(p2 := Some(v), status := P2Pending))
    ensures Stands(c, size, r) && Expected(r, ev) && ev.Promises? && EventLoses(c, r, ev)
  {
    PromisedSlot(c, 1);
    FindsOther(c, v, w);
    ev := Promises(2, [Vote2(c, w)]);
    r := t;
    if !c.repairs.restartForgets {
      Overruled(c, t, 2, Vote2(c, w));
    } else {
      Go(c, size, t, ev);
      r := Handle(c, t, ev);
      BatchOfOne(c, t, 2, Vote2(c, w));
      assert r == HandlePromise(c, t, 2, Vote2(c, w));
      var pa := PrepareAck(1, NextBallot(FirstBallot(c.me)), 0, []);
      ev := Promises(0, [pa]);
      Overruled(c, r, 0, pa);
    }
  }

  lemma LosingEvent(c: Office, size: nat, r: Table, ev: Event) returns (u: Table)
    requires Stands(c, size, r) && Expected(r, ev) && ev.Promises? && EventLoses(c, r, ev)
    ensures Reached(c, size, u) && !AllInHand(u)
  {
    Go(c, size, r, ev);
    EventLost(c, r, ev);
    u := Handle(c, r, ev);
    LedgerInHand(u);
  }

  /** As written a run loses a client's value: it is sent in phase 2, which times out, and the next
      phase 1 finds another value. */
  lemma ValueLost(c: Office, size: nat, v: Value, w: Value) returns (events: seq<Event>)
    requires size > PROPOSER_PREEXEC_WIN_SIZE && c.me < MAX_N_OF_PROPOSERS && c.n == 3
    requires !c.repairs.pushBack && v != w && w != []
    ensures Run(c, Start(size), events) && Deposed !in events && !AllInHand(After(c, Start(size), events))
  {
    var s := FirstValue(c, size, v);
    Go(c, size, s, P2Timer({}, {1}));
    TimesOut(c, s, v);
    var t := Handle(c, s, P2Timer({}, {1}));
    var r, ev := SecondPhase1(c, size, t, v, w);
    var u := LosingEvent(c, size, r, ev);
    events :| Run(c, Start(size), events) && Deposed !in events && After(c, Start(size), events) == u;
  }
}
