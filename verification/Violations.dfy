/** One run for each condition of soundness, showing that a deployment without it loses
    agreement. All are runs of three acceptors. */
module Violations {
  import opened PaxosConfig
  import opened Messages
  import opened SlotSpec
  import opened Consensus
  import opened Runs
  import A = AcceptorSpec
  import L = LearnerSpec

  const V0: Value := [0]
  const V1: Value := [1]

  /** One promise without a value, counted by a slot that has heard nobody. */
  lemma OnePromise(repairs: Repairs, p: nat, i: nat, a: nat, pa: PrepareAck)
    requires pa.iid == i && pa.ballot == FirstBallot(p) && pa.value == []
    ensures var y := HandleAck(repairs, 3, Opened(CLEARED, i, p), pa, a);
            && y == Opened(CLEARED, i, p).(bits := y.bits, count := 1, heard := {a})
            && y.bits == if repairs.countDistinct then {a} else {}
  {
  }

  /** A second one makes the slot ready, unless it is known to be from the same acceptor. */
  lemma TwoPromises(repairs: Repairs, p: nat, i: nat, a: nat, b: nat, sl: Slot, pa: PrepareAck)
    requires sl == Opened(CLEARED, i, p).(bits := if repairs.countDistinct then {a} else {}, count := 1, heard := {a})
    requires pa.ballot == FirstBallot(p) && pa.value == [] && (repairs.checkIid ==> pa.iid == i)
    requires repairs.countDistinct ==> a != b
    ensures var y := HandleAck(repairs, 3, sl, pa, b);
            y == sl.(bits := if repairs.countDistinct then {a} + {b} else {}, count := 2, heard := {a} + {b}, status := P1Ready)
  {
  }

  /** What acceptor a answers to the first prepare request of proposer p for instance i. */
  function FirstAnswer(s: State, a: nat, p: nat, i: nat): Option<Record> {
    Answer(s, a, Opened(CLEARED, i, p))
  }

  /** An acceptor that can promise ballots of its instance and has no value to report. */
  predicate Blank(s: State, a: nat, p: nat, i: nat) {
    FirstAnswer(s, a, p, i).Some? && FirstAnswer(s, a, p, i).value.value == [] && FirstAnswer(s, a, p, i).value.iid == i
  }

  /** A proposer that has just opened instance i hears a. */
  lemma FirstHeard(r: Rules, s: State, p: nat, i: nat, a: nat) returns (t: State)
    requires r.Valid() && r.n == 3 && Reachable(r, s) && a < 3 && Leads(r, s, p, i)
    requires TheSlot(r, s, p, i) == Opened(CLEARED, i, p)
    requires s.proposers[p].table == map[Index(i, r.ring) := Opened(CLEARED, i, p)]
    requires PrepareReq(i, FirstBallot(p)) in s.prepares && Blank(s, a, p, i)
    ensures Reachable(r, t) && Leads(r, t, p, i)
    ensures TheSlot(r, t, p, i) == Opened(CLEARED, i, p).(bits := if r.repairs.countDistinct then {a} else {}, count := 1, heard := {a})
    ensures t == s.(records := s.records[Key(a, i) := FirstAnswer(s, a, p, i).value],
                    proposers := s.proposers[p := s.proposers[p].(table := map[Index(i, r.ring) := TheSlot(r, t, p, i)])],
                    promises := t.promises)
    ensures r.promisesDuplicate ==>
              t.promises == s.promises + multiset{Promise(a, A.PromiseOf(FirstAnswer(s, a, p, i).value))}
    ensures s.promises <= t.promises
  {
    OnePromise(r.repairs, p, i, a, A.PromiseOf(FirstAnswer(s, a, p, i).value));
    t := Promises(r, s, p, i, a);
    assert t.proposers[p].table == map[Index(i, r.ring) := TheSlot(r, t, p, i)];
  }

  /** A proposer becomes leader, opens instance i and hears acceptor a. */
  lemma LeadWith(r: Rules, s: State, p: nat, i: nat, a: nat) returns (t: State)
    requires r.Valid() && r.n == 3 && Reachable(r, s) && p < MAX_N_OF_PROPOSERS && a < 3 && i > 0
    requires !ProposerAt(s, p).leading && (ProposerAt(s, p).promoted ==> r.reelection)
    requires Blank(s, a, p, i)
    ensures Reachable(r, t) && Leads(r, t, p, i)
    ensures TheSlot(r, t, p, i) == Opened(CLEARED, i, p).(bits := if r.repairs.countDistinct then {a} else {}, count := 1, heard := {a})
    ensures t.proposers == s.proposers[p := t.proposers[p]]
    ensures t == s.(records := s.records[Key(a, i) := FirstAnswer(s, a, p, i).value], proposers := t.proposers,
                    prepares := s.prepares + {PrepareReq(i, FirstBallot(p))}, promises := t.promises)
    ensures r.promisesDuplicate ==>
              t.promises == s.promises + multiset{Promise(a, A.PromiseOf(FirstAnswer(s, a, p, i).value))}
    ensures t.proposers[p].highestOpen == i && t.proposers[p].table == map[Index(i, r.ring) := TheSlot(r, t, p, i)]
    ensures s.promises <= t.promises
  {
    var s1 := Lead(r, s, p, i - 1);
    t := FirstHeard(r, s1, p, i, a);
  }

  /** A proposer that has heard a hears b as well. */
  lemma SecondHeard(r: Rules, s: State, p: nat, i: nat, a: nat, b: nat) returns (t: State)
    requires r.Valid() && r.n == 3 && Reachable(r, s) && b < 3 && a != b && i > 0 && Leads(r, s, p, i)
    requires TheSlot(r, s, p, i) == Opened(CLEARED, i, p).(bits := if r.repairs.countDistinct then {a} else {}, count := 1, heard := {a})
    requires s.proposers[p].table == map[Index(i, r.ring) := TheSlot(r, s, p, i)]
    requires PrepareReq(i, FirstBallot(p)) in s.prepares && Blank(s, b, p, i)
    ensures Reachable(r, t) && Leads(r, t, p, i)
    ensures TheSlot(r, t, p, i) == Opened(CLEARED, i, p).(bits := if r.repairs.countDistinct then {a} + {b} else {}, count := 2,
                                                          heard := {a} + {b}, status := P1Ready)
    ensures t == s.(records := s.records[Key(b, i) := FirstAnswer(s, b, p, i).value],
                    proposers := s.proposers[p := s.proposers[p].(table := map[Index(i, r.ring) := TheSlot(r, t, p, i)])],
                    promises := t.promises)
    ensures s.promises <= t.promises
  {
    TwoPromises(r.repairs, p, i, a, b, TheSlot(r, s, p, i), A.PromiseOf(FirstAnswer(s, b, p, i).value));
    t := Promises(r, s, p, i, b);
    assert t.proposers[p].table == map[Index(i, r.ring) := TheSlot(r, t, p, i)];
  }

  /** A proposer that is ready in instance i on promises of a and b. */
  lemma ReadyWith(r: Rules, s: State, p: nat, i: nat, a: nat, b: nat) returns (t: State)
    requires r.Valid() && r.n == 3 && Reachable(r, s) && p < MAX_N_OF_PROPOSERS && a < 3 && b < 3 && a != b && i > 0
    requires !ProposerAt(s, p).leading && (ProposerAt(s, p).promoted ==> r.reelection)
    requires Blank(s, a, p, i) && Blank(s, b, p, i)
    ensures Reachable(r, t) && Leads(r, t, p, i)
    ensures TheSlot(r, t, p, i) == Opened(CLEARED, i, p).(bits := if r.repairs.countDistinct then {a} + {b} else {}, count := 2,
                                                          heard := {a} + {b}, status := P1Ready)
    ensures t == s.(records := s.records[Key(a, i) := FirstAnswer(s, a, p, i).value][Key(b, i) := FirstAnswer(s, b, p, i).value],
                    proposers := s.proposers[p := t.proposers[p]],
                    prepares := s.prepares + {PrepareReq(i, FirstBallot(p))}, promises := t.promises)
    ensures t.proposers[p].highestOpen == i && t.proposers[p].table == map[Index(i, r.ring) := TheSlot(r, t, p, i)]
    ensures s.promises <= t.promises
  {
    var s1 := LeadWith(r, s, p, i, a);
    t := SecondHeard(r, s1, p, i, a, b);
  }

  /** lib/acceptor.c:47 as written: a late request of a lower ballot overwrites a chosen value. */
  lemma LateRequestOverwrites(r: Rules) returns (s: State)
    requires r.Valid() && r.n == 3 && !r.repairs.acceptGuard
    ensures Reachable(r, s) && !Agreement(s)
  {
    Start(r);
    var s1 := ReadyWith(r, INIT, 0, 1, 0, 1);
    var s2 := ReadyWith(r, s1, 1, 1, 0, 1);
    var e1 := Issue(1, 11, V1, TheSlot(r, s2, 1, 1).heard);
    var s3 := Proposes(r, s2, 1, 1, V1);
    var s4 := Accepts(r, s3, e1, 0, 1);
    var s5 := Learns(r, s4, 0, 0, Accepted(e1), 1, Accepted(e1));
    var e0 := Issue(1, 10, V0, TheSlot(r, s5, 0, 1).heard);
    var s6 := Proposes(r, s5, 0, 1, V0);
    var s7 := Accepts(r, s6, e0, 0, 1);
    s := Learns(r, s7, 1, 0, Accepted(e0), 1, Accepted(e0));
    Disagree(s, 0, 1, Accepted(e1), Accepted(e0));
  }

  /** Proposer 0 has sent an accept request nobody got and goes back to phase 1. */
  lemma TimedOut(r: Rules) returns (t: State)
    requires r.Valid() && r.n == 3 && !r.repairs.restartForgets
    ensures Reachable(r, t) && Leads(r, t, 0, 1)
    ensures var sl := TheSlot(r, t, 0, 1);
            && sl.status == P1Pending && sl.ballot == 20 && sl.count == 2 && sl.p2 == Some(V0) && sl.p1 == None && sl.p1Ballot == 0
            && sl.bits == if r.repairs.countDistinct then {0} + {1} else {}
    ensures t.proposers == map[0 := t.proposers[0]] && t.learners == map[] && PrepareReq(1, 20) in t.prepares
    ensures t.records == map[Key(0, 1) := Record(1, 10, 0, false, []), Key(1, 1) := Record(1, 10, 0, false, [])]
  {
    Start(r);
    var s1 := ReadyWith(r, INIT, 0, 1, 0, 1);
    var s2 := Proposes(r, s1, 0, 1, V0);
    t := Go(r, s2, Restart(0, Index(1, r.ring)));
  }

  /** lib/proposer_leader.c:427-433 as written: after a phase 2 timeout one promise is enough. */
  lemma RestartRemembers(r: Rules) returns (s: State)
    requires r.Valid() && r.n == 3 && r.repairs.acceptGuard && !r.repairs.restartForgets
    ensures Reachable(r, s) && !Agreement(s)
  {
    var s3 := TimedOut(r);
    var s4 := ReadyWith(r, s3, 1, 1, 0, 1);
    var e1 := Issue(1, 11, V1, {0} + {1});
    var s5 := Proposes(r, s4, 1, 1, V1);
    var s6 := Accepts(r, s5, e1, 0, 1);
    var s7 := Learns(r, s6, 0, 0, Accepted(e1), 1, Accepted(e1));
    s := RestartRemembersRest(r, s7, e1);
  }

  /** Proposer 0, restarted with ballot 20, hears acceptor 2 only and proposes its old value. */
  lemma RestartRemembersRest(r: Rules, s7: State, e1: Issue) returns (s: State)
    requires r.Valid() && r.n == 3 && r.repairs.acceptGuard && !r.repairs.restartForgets && Reachable(r, s7)
    requires Leads(r, s7, 0, 1) && PrepareReq(1, 20) in s7.prepares && Key(2, 1) !in s7.records
    requires var sl := TheSlot(r, s7, 0, 1);
             && sl.status == P1Pending && sl.ballot == 20 && sl.count == 2 && sl.p2 == Some(V0) && sl.p1 == None && sl.p1Ballot == 0
             && sl.bits == if r.repairs.countDistinct then {0} + {1} else {}
    requires e1 == Issue(1, 11, V1, e1.from) && s7.records == s7.records[Key(0, 1) := Accepted(e1)][Key(1, 1) := Accepted(e1)]
    requires 0 in s7.learners && s7.learners[0].current == 2 && s7.learners[0].delivered == [Accepted(e1)] && 1 !in s7.learners
    ensures Reachable(r, s) && !Agreement(s)
  {
    var s8 := Promises(r, s7, 0, 1, 2);
    var sl := TheSlot(r, s8, 0, 1);
    assert sl.status == P1Ready && sl.ballot == 20 && sl.p2 == Some(V0) && sl.p1 == None;
    var e0 := Issue(1, 20, V0, sl.heard);
    var s9 := Proposes(r, s8, 0, 1, V1);
    var s10 := Accepts(r, s9, e0, 0, 1);
    s := Learns(r, s10, 1, 0, Accepted(e0), 1, Accepted(e0));
    Disagree(s, 0, 1, Accepted(e1), Accepted(e0));
  }

  /** An empty value that has been chosen looks like no value to the next leader. */
  lemma EmptyValueForgotten(r: Rules) returns (s: State)
    requires r.Valid() && r.n == 3 && r.repairs.acceptGuard && r.emptyValues
    ensures Reachable(r, s) && !Agreement(s)
  {
    Start(r);
    var s1 := ReadyWith(r, INIT, 0, 1, 0, 1);
    var e0 := Issue(1, 10, [], {0} + {1});
    var s2 := Proposes(r, s1, 0, 1, []);
    var s3 := Accepts(r, s2, e0, 0, 1);
    var s4 := Learns(r, s3, 0, 0, Accepted(e0), 1, Accepted(e0));
    var s5 := ReadyWith(r, s4, 1, 1, 0, 1);
    var e1 := Issue(1, 11, V1, {0} + {1});
    var s6 := Proposes(r, s5, 1, 1, V1);
    var s7 := Accepts(r, s6, e1, 0, 1);
    s := Learns(r, s7, 1, 0, Accepted(e1), 1, Accepted(e1));
    Disagree(s, 0, 1, Accepted(e0), Accepted(e1));
  }

  /** One acceptor's duplicated promise, counted twice as proposer.c:124,130 do as written. */
  lemma LeadTwice(r: Rules, s: State, p: nat, a: nat) returns (t: State)
    requires r.Valid() && r.n == 3 && Reachable(r, s) && p < MAX_N_OF_PROPOSERS && a < 3
    requires !ProposerAt(s, p).leading && !ProposerAt(s, p).promoted
    requires r.promisesDuplicate && !r.repairs.countDistinct && Blank(s, a, p, 1)
    ensures Reachable(r, t) && Leads(r, t, p, 1)
    ensures var sl := TheSlot(r, t, p, 1); sl.status == P1Ready && sl.ballot == FirstBallot(p) && sl.p1 == None && sl.p2 == None
    ensures t == s.(records := s.records[Key(a, 1) := FirstAnswer(s, a, p, 1).value], proposers := s.proposers[p := t.proposers[p]],
                    prepares := s.prepares + {PrepareReq(1, FirstBallot(p))}, promises := t.promises)
  {
    var s1 := LeadWith(r, s, p, 1, a);
    var pa := A.PromiseOf(FirstAnswer(s, a, p, 1).value);
    TwoPromises(r.repairs, p, 1, a, a, TheSlot(r, s1, p, 1), pa);
    t := Hears(r, s1, p, 1, Promise(a, pa));
  }

  lemma DuplicatesCounted(r: Rules) returns (s: State)
    requires r.Valid() && r.n == 3 && r.repairs.acceptGuard && r.promisesDuplicate && !r.repairs.countDistinct
    ensures Reachable(r, s) && !Agreement(s)
  {
    Start(r);
    var s1 := LeadTwice(r, INIT, 0, 0);
    var e0 := Issue(1, 10, V0, TheSlot(r, s1, 0, 1).heard);
    var s2 := Proposes(r, s1, 0, 1, V0);
    var s3 := Accepts(r, s2, e0, 0, 1);
    var s4 := Learns(r, s3, 0, 0, Accepted(e0), 1, Accepted(e0));
    var s5 := LeadTwice(r, s4, 1, 2);
    var e1 := Issue(1, 11, V1, TheSlot(r, s5, 1, 1).heard);
    var s6 := Proposes(r, s5, 1, 1, V1);
    var s7 := Accepts(r, s6, e1, 1, 2);
    s := Learns(r, s7, 1, 1, Accepted(e1), 2, Accepted(e1));
    Disagree(s, 0, 1, Accepted(e0), Accepted(e1));
  }

  /** A promise that stays on the network arrives (again). */
  lemma Hears(r: Rules, s: State, p: nat, i: nat, x: Promise) returns (t: State)
    requires r.Valid() && Reachable(r, s) && r.promisesDuplicate
    requires Leads(r, s, p, i) && TheSlot(r, s, p, i).status != Empty && x in s.promises && x.ack.iid == i
    ensures Reachable(r, t)
    ensures t == s.(proposers := PutSlot(r, s, p, i, HandleAck(r.repairs, r.n, TheSlot(r, s, p, i), x.ack, x.acceptor)))
  {
    t := Go(r, s, Promised(p, x));
  }

  /** Promises of a proposer's first ballot serve it again when it is elected again. */
  lemma ReadyAgain(r: Rules, s: State, x: Promise, y: Promise) returns (t: State)
    requires r.Valid() && r.n == 3 && Reachable(r, s) && r.promisesDuplicate && r.reelection
    requires !ProposerAt(s, 0).leading && x in s.promises && y in s.promises && x.acceptor != y.acceptor
    requires x.ack == y.ack == PrepareAck(1, 10, 0, [])
    ensures Reachable(r, t) && Leads(r, t, 0, 1)
    ensures var sl := TheSlot(r, t, 0, 1); sl.status == P1Ready && sl.ballot == 10 && sl.p1 == None && sl.p2 == None
    ensures t == s.(proposers := s.proposers[0 := t.proposers[0]], prepares := t.prepares)
  {
    var s1 := LeadAndHear(r, s, x);
    t := HearsSecond(r, s1, x.acceptor, y);
  }

  lemma LeadAndHear(r: Rules, s: State, x: Promise) returns (t: State)
    requires r.Valid() && r.n == 3 && Reachable(r, s) && r.promisesDuplicate && r.reelection
    requires !ProposerAt(s, 0).leading && x in s.promises && x.ack == PrepareAck(1, 10, 0, [])
    ensures Reachable(r, t) && Leads(r, t, 0, 1)
    ensures TheSlot(r, t, 0, 1) == Opened(CLEARED, 1, 0).(bits := if r.repairs.countDistinct then {x.acceptor} else {}, count := 1, heard := {x.acceptor})
    ensures t == s.(proposers := s.proposers[0 := t.proposers[0]], prepares := t.prepares)
  {
    var s1 := Lead(r, s, 0, 0);
    OnePromise(r.repairs, 0, 1, x.acceptor, x.ack);
    t := Hears(r, s1, 0, 1, x);
  }

  lemma HearsSecond(r: Rules, s: State, a: nat, y: Promise) returns (t: State)
    requires r.Valid() && r.n == 3 && Reachable(r, s) && r.promisesDuplicate && Leads(r, s, 0, 1)
    requires TheSlot(r, s, 0, 1) == Opened(CLEARED, 1, 0).(bits := if r.repairs.countDistinct then {a} else {}, count := 1, heard := {a})
    requires y in s.promises && y.acceptor != a && y.ack == PrepareAck(1, 10, 0, [])
    ensures Reachable(r, t) && Leads(r, t, 0, 1)
    ensures var sl := TheSlot(r, t, 0, 1); sl.status == P1Ready && sl.ballot == 10 && sl.p1 == None && sl.p2 == None
    ensures t == s.(proposers := s.proposers[0 := t.proposers[0]])
  {
    TwoPromises(r.repairs, 0, 1, a, y.acceptor, TheSlot(r, s, 0, 1), y.ack);
    t := Hears(r, s, 0, 1, y);
  }

  const REUSED: Promise := Promise(0, PrepareAck(1, 10, 0, []))
  const REUSED_TOO: Promise := Promise(1, PrepareAck(1, 10, 0, []))

  lemma FirstReady(r: Rules) returns (t: State)
    requires r.Valid() && r.n == 3 && r.promisesDuplicate
    ensures Reachable(r, t) && Leads(r, t, 0, 1) && REUSED in t.promises && REUSED_TOO in t.promises
    ensures var sl := TheSlot(r, t, 0, 1); sl.status == P1Ready && sl.ballot == 10 && sl.p1 == None && sl.p2 == None
    ensures t.records == map[Key(0, 1) := Record(1, 10, 0, false, []), Key(1, 1) := Record(1, 10, 0, false, [])]
    ensures t.learners == map[]
  {
    Start(r);
    var s1 := LeadWith(r, INIT, 0, 1, 0);
    t := SecondPromise(r, s1, REUSED, REUSED_TOO);
  }

  /** Proposer 0 has its first value chosen and delivered, and is demoted. */
  lemma FirstStint(r: Rules) returns (t: State, e0: Issue)
    requires r.Valid() && r.n == 3 && r.promisesDuplicate
    ensures Reachable(r, t) && e0 == Issue(1, 10, V0, e0.from)
    ensures 0 in t.proposers && !t.proposers[0].leading && REUSED in t.promises && REUSED_TOO in t.promises
    ensures t.records == map[Key(0, 1) := Accepted(e0), Key(1, 1) := Accepted(e0)]
    ensures 0 in t.learners && t.learners == map[0 := t.learners[0]] && t.learners[0].current == 2 && t.learners[0].delivered == [Accepted(e0)]
  {
    var s2 := FirstReady(r);
    e0 := Issue(1, 10, V0, TheSlot(r, s2, 0, 1).heard);
    var s3 := Proposes(r, s2, 0, 1, V0);
    var s4 := Accepts(r, s3, e0, 0, 1);
    var s5 := Learns(r, s4, 0, 0, Accepted(e0), 1, Accepted(e0));
    t := Go(r, s5, Demote(0));
  }

  /** A re-elected proposer starts again with its first ballot; with duplicated promises it
      proposes a second value in it. */
  lemma BallotUsedTwice(r: Rules) returns (s: State)
    requires r.Valid() && r.n == 3 && r.repairs.acceptGuard && r.promisesDuplicate && r.reelection
    ensures Reachable(r, s) && !Agreement(s)
  {
    var s6, e0 := FirstStint(r);
    var s7 := ReadyAgain(r, s6, REUSED, REUSED_TOO);
    var e1 := Issue(1, 10, V1, TheSlot(r, s7, 0, 1).heard);
    var s8 := Proposes(r, s7, 0, 1, V1);
    var s9 := Accepts(r, s8, e1, 0, 1);
    s := Learns(r, s9, 1, 0, Accepted(e1), 1, Accepted(e1));
    Disagree(s, 0, 1, Accepted(e0), Accepted(e1));
  }

  lemma SecondPromise(r: Rules, s: State, x: Promise, y: Promise) returns (t: State)
    requires r.Valid() && r.n == 3 && Reachable(r, s) && r.promisesDuplicate
    requires Leads(r, s, 0, 1) && PrepareReq(1, 10) in s.prepares && Key(1, 1) !in s.records
    requires TheSlot(r, s, 0, 1) == Opened(CLEARED, 1, 0).(bits := if r.repairs.countDistinct then {0} else {}, count := 1, heard := {0})
    requires x in s.promises && y == Promise(1, PrepareAck(1, 10, 0, []))
    ensures Reachable(r, t) && Leads(r, t, 0, 1) && x in t.promises && y in t.promises
    ensures var sl := TheSlot(r, t, 0, 1); sl.status == P1Ready && sl.ballot == 10 && sl.p1 == None && sl.p2 == None
    ensures t == s.(proposers := s.proposers[0 := t.proposers[0]], promises := t.promises,
                    records := s.records[Key(1, 1) := Record(1, 10, 0, false, [])])
  {
    TwoPromises(r.repairs, 0, 1, 0, 1, TheSlot(r, s, 0, 1), y.ack);
    t := Promises(r, s, 0, 1, 1);
  }

  // ---- acks grouped by the promised ballot ----

  /** Promises of two acceptors that have accepted different values: the higher vote wins. */
  lemma MixedPromises(repairs: Repairs, sl: Slot, high: PrepareAck, low: PrepareAck)
    requires sl == Opened(CLEARED, 1, 2)
    requires high == PrepareAck(1, 12, 11, V1) && low == PrepareAck(1, 12, 10, V0)
    ensures var one := HandleAck(repairs, 3, sl, high, 1); var two := HandleAck(repairs, 3, one, low, 2);
            && one == sl.(bits := one.bits, count := 1, heard := {1}, p1 := Some(V1), p1Ballot := 11)
            && two.status == P1Ready && two.p1 == Some(V1) && two.iid == 1 && two.ballot == 12
  {
  }

  /** Acceptor 2 alone accepts V0 in ballot 10. */
  lemma OneValueAccepted(r: Rules) returns (t: State)
    requires r.Valid() && r.n == 3
    ensures Reachable(r, t)
    ensures t.records == map[Key(0, 1) := Record(1, 10, 0, false, []), Key(2, 1) := Record(1, 10, 10, false, V0)]
    ensures 1 !in t.proposers && 2 !in t.proposers && t.learners == map[]
  {
    Start(r);
    var s1 := ReadyWith(r, INIT, 0, 1, 0, 2);
    var s2 := Proposes(r, s1, 0, 1, V0);
    t := Go(r, s2, Accept(2, Issue(1, 10, V0, {0} + {2})));
  }

  /** And acceptor 1 alone accepts V1 in ballot 11. */
  lemma SecondValueReady(r: Rules) returns (t: State)
    requires r.Valid() && r.n == 3
    ensures Reachable(r, t) && Leads(r, t, 1, 1) && 2 !in t.proposers && t.learners == map[]
    ensures t.records == map[Key(0, 1) := Record(1, 11, 0, false, []), Key(1, 1) := Record(1, 11, 0, false, []),
                             Key(2, 1) := Record(1, 10, 10, false, V0)]
    ensures var sl := TheSlot(r, t, 1, 1);
            sl.status == P1Ready && sl.iid == 1 && sl.ballot == 11 && sl.p1 == None && sl.p2 == None && sl.heard == {0} + {1}
  {
    var s := OneValueAccepted(r);
    t := ReadyWith(r, s, 1, 1, 0, 1);
  }

  lemma TwoValuesAccepted(r: Rules) returns (t: State)
    requires r.Valid() && r.n == 3 && r.repairs.acceptGuard
    ensures Reachable(r, t)
    ensures t.records == map[Key(0, 1) := Record(1, 11, 0, false, []), Key(1, 1) := Record(1, 11, 11, false, V1),
                             Key(2, 1) := Record(1, 10, 10, false, V0)]
    ensures 2 !in t.proposers && t.learners == map[]
  {
    var s4 := SecondValueReady(r);
    var s5 := Proposes(r, s4, 1, 1, V1);
    t := Go(r, s5, Accept(1, Issue(1, 11, V1, {0} + {1})));
  }

  /** Proposer 2 is promised ballot 12 by both. */
  lemma BothPromise(r: Rules, s: State) returns (t: State)
    requires r.Valid() && r.n == 3 && r.repairs.acceptGuard && Reachable(r, s) && 2 !in s.proposers && s.learners == map[]
    requires s.records == map[Key(0, 1) := Record(1, 11, 0, false, []), Key(1, 1) := Record(1, 11, 11, false, V1),
                              Key(2, 1) := Record(1, 10, 10, false, V0)]
    ensures Reachable(r, t) && Leads(r, t, 2, 1) && t.learners == map[]
    ensures var sl := TheSlot(r, t, 2, 1); sl.status == P1Ready && sl.ballot == 12 && sl.p1 == Some(V1)
    ensures t.records == map[Key(0, 1) := Record(1, 11, 0, false, []), Key(1, 1) := Record(1, 12, 11, false, V1),
                             Key(2, 1) := Record(1, 12, 10, false, V0)]
  {
    MixedPromises(r.repairs, Opened(CLEARED, 1, 2), PrepareAck(1, 12, 11, V1), PrepareAck(1, 12, 10, V0));
    var s1 := Lead(r, s, 2, 0);
    var s2 := Promises(r, s1, 2, 1, 1);
    t := Promises(r, s2, 2, 1, 2);
  }

  /** lib/learner.c:175 as written: acks repeated after a promise agree in ballot but not in value. */
  lemma RepeatedAcksMix(r: Rules) returns (s: State)
    requires r.Valid() && r.n == 3 && r.repairs.acceptGuard && !r.repairs.groupByVote
    ensures Reachable(r, s) && !Agreement(s)
  {
    var s1 := TwoValuesAccepted(r);
    var s2 := BothPromise(r, s1);
    var a1 := Record(1, 12, 11, false, V1);
    var a2 := Record(1, 12, 10, false, V0);
    var s3 := Go(r, s2, Repeat(1, 1));
    var s4 := Go(r, s3, Repeat(2, 1));
    var s5 := Learns(r, s4, 0, 1, a1, 2, a2);
    var e2 := Issue(1, 12, V1, TheSlot(r, s5, 2, 1).heard);
    var s6 := Proposes(r, s5, 2, 1, V1);
    var s7 := Accepts(r, s6, e2, 1, 2);
    s := Learns(r, s7, 1, 1, Accepted(e2), 2, Accepted(e2));
    Disagree(s, 0, 1, a2, Accepted(e2));
  }

  // ---- promises of another instance ----

  /** The leader opens the next instances up to `last`, all slots of which are free. */
  lemma {:induction false} OpenUpTo(r: Rules, s: State, p: nat, base: nat, last: nat) returns (t: State)
    requires r.Valid() && Reachable(r, s) && p in s.proposers && s.proposers[p].leading
    requires base <= s.proposers[p].highestOpen < last <= base + r.ring
    requires forall k :: k in s.proposers[p].table ==>
               base < s.proposers[p].table[k].iid <= s.proposers[p].highestOpen && k == Index(s.proposers[p].table[k].iid, r.ring)
    ensures Reachable(r, t) && Leads(r, t, p, last) && TheSlot(r, t, p, last) == Opened(CLEARED, last, p)
    ensures t == s.(proposers := s.proposers[p := t.proposers[p]], prepares := t.prepares)
    ensures s.prepares <= t.prepares && PrepareReq(last, FirstBallot(p)) in t.prepares
    decreases last - s.proposers[p].highestOpen
  {
    var iid := s.proposers[p].highestOpen + 1;
    if Index(iid, r.ring) in s.proposers[p].table {
      SameIndex(s.proposers[p].table[Index(iid, r.ring)].iid, iid, r.ring);
    }
    t := Go(r, s, Open(p));
    if iid < last {
      t := OpenUpTo(r, t, p, base, last);
    }
  }

  /** A learner without open slots settles any instance of its window on two acks. */
  lemma TwoAcksAhead(c: L.Setup, x: L.Learner, a: nat, p: Record, b: nat, q: Record)
    requires c.n == 3 && c.window > 0 && a < b < 3 && L.Numbered(x) && x.open == map[]
    requires p.iid == q.iid && L.InWindow(c, x, p.iid) && L.GroupOf(c, p) == L.GroupOf(c, q) && !p.isFinal && !q.isFinal
    ensures var y := L.HandleAck(c, x, a, p);
            && (forall i :: i in y.open ==> |y.open[i].acks| == 3)
            && var z := L.HandleAck(c, y, b, q); L.Numbered(z) && L.Outcome(z, p.iid) == Some(q)
  {
    FirstAck(c, a, p);
    SecondAck(c, a, p, b, q);
    var y := L.HandleAck(c, x, a, p);
    assert y.open == map[p.iid := OneAck(c, a, p)];
    L.HandleAckSettles(c, y, b, q);
  }

  lemma LearnsAhead(r: Rules, s: State, l: nat, a: nat, p: Record, b: nat, q: Record) returns (t: State)
    requires r.Valid() && r.n == 3 && Reachable(r, s) && a < b < 3
    requires Ack(a, p) in s.acks && Ack(b, q) in s.acks
    requires DeliveredOne(s, l) && p.iid == q.iid && L.InWindow(r.Setup(), LearnerAt(s, l), p.iid)
    requires L.GroupOf(r.Setup(), p) == L.GroupOf(r.Setup(), q) && !p.isFinal && !q.isFinal
    ensures Reachable(r, t)
    ensures l in t.learners && t == s.(learners := s.learners[l := t.learners[l]])
    ensures Settled(t, l, p.iid) == Some(q)
  {
    var x := LearnerAt(s, l);
    TwoAcksAhead(r.Setup(), x, a, p, b, q);
    t := LearnTwo(r, s, l, Ack(a, p), Ack(b, q));
    assert LearnerAt(t, l) == L.HandleAck(r.Setup(), L.HandleAck(r.Setup(), x, a, p), b, q);
  }

  /** Two acks arrive at a learner. */
  lemma LearnTwo(r: Rules, s: State, l: nat, a: Ack, b: Ack) returns (t: State)
    requires r.Valid() && Reachable(r, s) && Enabled(r, s, Learn(l, a)) && b in s.acks && b.acceptor < r.n
    requires var y := L.HandleAck(r.Setup(), LearnerAt(s, l), a.acceptor, a.rec);
             forall i :: i in y.open ==> |y.open[i].acks| == r.n
    ensures Reachable(r, t)
    ensures t == s.(learners := s.learners[l :=
                      L.HandleAck(r.Setup(), L.HandleAck(r.Setup(), LearnerAt(s, l), a.acceptor, a.rec), b.acceptor, b.rec)])
  {
    var u := Go(r, s, Learn(l, a));
    t := Go(r, u, Learn(l, b));
  }

  // Proposer 1 has instance 1 chosen and delivered; acceptor 2's promise is still under way.
  const STALE: Promise := Promise(2, PrepareAck(1, 11, 0, []))

  predicate DeliveredOne(s: State, l: nat) {
    var x := LearnerAt(s, l);
    x.current == 2 && |x.delivered| == 1 && x.open == map[]
  }

  /** All three acceptors have promised proposer 1's first ballot; two were heard. */
  lemma AllPromised(r: Rules) returns (t: State)
    requires r.Valid() && r.n == 3
    ensures Reachable(r, t) && Leads(r, t, 1, 1) && t.proposers == map[1 := t.proposers[1]] && t.proposers[1].highestOpen == 1
    ensures var sl := TheSlot(r, t, 1, 1);
            && sl.status == P1Ready && sl.ballot == 11 && sl.p1 == None && sl.p2 == None && sl.heard == {0} + {1}
            && t.proposers[1].table == map[Index(1, r.ring) := sl]
    ensures STALE in t.promises && t.learners == map[] && t.records.Keys == {Key(0, 1), Key(1, 1), Key(2, 1)}
    ensures forall k :: k in t.records ==> t.records[k].ballot == 11
  {
    Start(r);
    var s1 := ReadyWith(r, INIT, 1, 1, 0, 1);
    t := Go(r, s1, Prepare(2, PrepareReq(1, 11)));
  }

  /** Proposer 1's request for instance 1 has been accepted. */
  lemma FirstInstanceChosen(r: Rules) returns (t: State, e: Issue)
    requires r.Valid() && r.n == 3
    ensures Reachable(r, t) && Leads(r, t, 1, 1) && t.proposers == map[1 := t.proposers[1]] && t.proposers[1].highestOpen == 1
    ensures TheSlot(r, t, 1, 1).status == P2Pending && t.proposers[1].table == map[Index(1, r.ring) := TheSlot(r, t, 1, 1)]
    ensures STALE in t.promises && t.records.Keys == {Key(0, 1), Key(1, 1), Key(2, 1)} && t.learners == map[]
    ensures e == Issue(1, 11, V1, e.from) && Ack(0, Accepted(e)) in t.acks && Ack(1, Accepted(e)) in t.acks
  {
    var s2 := AllPromised(r);
    e := Issue(1, 11, V1, {0} + {1});
    var s3 := Proposes(r, s2, 1, 1, V1);
    t := Accepts(r, s3, e, 0, 1);
  }

  lemma FirstInstanceDone(r: Rules) returns (t: State)
    requires r.Valid() && r.n == 3
    ensures Reachable(r, t) && STALE in t.promises
    ensures 1 in t.proposers && t.proposers == map[1 := t.proposers[1]]
    ensures t.proposers[1].leading && t.proposers[1].table == map[] && t.proposers[1].highestOpen == 1
    ensures t.records.Keys == {Key(0, 1), Key(1, 1), Key(2, 1)}
    ensures DeliveredOne(t, 0) && DeliveredOne(t, 1)
  {
    var s4, e1 := FirstInstanceChosen(r);
    t := FirstInstanceForgotten(r, s4, e1);
  }

  lemma FirstInstanceForgotten(r: Rules, s: State, e: Issue) returns (t: State)
    requires r.Valid() && r.n == 3 && Reachable(r, s) && Leads(r, s, 1, 1)
    requires TheSlot(r, s, 1, 1).status != Empty && s.proposers[1].table.Keys == {Index(1, r.ring)}
    requires e.iid == 1 && Ack(0, Accepted(e)) in s.acks && Ack(1, Accepted(e)) in s.acks && s.learners == map[]
    ensures Reachable(r, t)
    ensures t == s.(learners := t.learners, proposers := s.proposers[1 := s.proposers[1].(table := map[])])
    ensures DeliveredOne(t, 0) && DeliveredOne(t, 1)
  {
    var s1 := Learns(r, s, 0, 0, Accepted(e), 1, Accepted(e));
    var s2 := Learns(r, s1, 1, 0, Accepted(e), 1, Accepted(e));
    t := Go(r, s2, Forget(1, Index(1, r.ring), 0));
    assert t.proposers[1].table == map[];
  }

  lemma ProposedAccepted(r: Rules, s: State, i: nat, e: Issue) returns (t: State)
    requires r.Valid() && r.n == 3 && Reachable(r, s) && Leads(r, s, 0, i) && e == Issue(i, 10, V0, {1} + {2})
    requires var sl := TheSlot(r, s, 0, i);
             sl.status == P1Ready && sl.ballot == 10 && sl.p1 == None && sl.p2 == None && sl.heard == e.from
    requires Key(1, i) in s.records && s.records[Key(1, i)].ballot == 10 && Key(2, i) in s.records && s.records[Key(2, i)].ballot == 10
    ensures Reachable(r, t)
    ensures t == s.(records := s.records[Key(1, i) := Accepted(e)][Key(2, i) := Accepted(e)],
                    acks := s.acks + {Ack(1, Accepted(e)), Ack(2, Accepted(e))}, votes := t.votes,
                    issues := s.issues + {e}, proposers := PutSlot(r, s, 0, i, StartPhase2(TheSlot(r, s, 0, i), V0)))
  {
    var s2 := Proposes(r, s, 0, i, V0);
    t := Accepts(r, s2, e, 1, 2);
  }

  lemma ReusedSlotAccepted(r: Rules, s: State, i: nat) returns (t: State, e: Issue)
    requires r.Valid() && r.n == 3 && Reachable(r, s) && 0 !in s.proposers && i > 0
    requires forall a :: Key(a, i) !in s.records
    ensures Reachable(r, t) && e == Issue(i, 10, V0, e.from)
    ensures 0 in t.proposers && t.proposers == s.proposers[0 := t.proposers[0]] && t.learners == s.learners
    ensures t.records == s.records[Key(1, i) := Accepted(e)][Key(2, i) := Accepted(e)]
    ensures Ack(1, Accepted(e)) in t.acks && Ack(2, Accepted(e)) in t.acks
    ensures s.prepares <= t.prepares && (STALE in s.promises ==> STALE in t.promises)
  {
    var s1 := ReadyWith(r, s, 0, i, 1, 2);
    e := Issue(i, 10, V0, {1} + {2});
    t := ProposedAccepted(r, s1, i, e);
  }

  /** Proposer 0 has V0 chosen in the instance that reuses the slot, and learner 0 learns it. */
  lemma ReusedSlotChosen(r: Rules, s: State, i: nat) returns (t: State, e: Issue)
    requires r.Valid() && r.n == 3 && Reachable(r, s) && 0 !in s.proposers && i > 0
    requires forall a :: Key(a, i) !in s.records
    requires DeliveredOne(s, 0) && L.InWindow(r.Setup(), LearnerAt(s, 0), i)
    ensures Reachable(r, t) && e == Issue(i, 10, V0, e.from)
    ensures 0 in t.proposers && t.proposers == s.proposers[0 := t.proposers[0]]
    ensures 0 in t.learners && t.learners == s.learners[0 := t.learners[0]] && Settled(t, 0, i) == Some(Accepted(e))
    ensures t.records == s.records[Key(1, i) := Accepted(e)][Key(2, i) := Accepted(e)]
    ensures s.prepares <= t.prepares && (STALE in s.promises ==> STALE in t.promises)
  {
    var s3: State;
    s3, e := ReusedSlotAccepted(r, s, i);
    t := LearnsAhead(r, s3, 0, 1, Accepted(e), 2, Accepted(e));
  }

  lemma StaleReady(r: Rules, s: State, i: nat) returns (t: State)
    requires r.Valid() && r.n == 3 && !r.repairs.checkIid && Reachable(r, s)
    requires Leads(r, s, 1, i) && TheSlot(r, s, 1, i) == Opened(CLEARED, i, 1) && Index(i, r.ring) == Index(1, r.ring)
    requires PrepareReq(i, 11) in s.prepares && STALE in s.promises && Key(0, i) !in s.records
    ensures Reachable(r, t) && Leads(r, t, 1, i)
    ensures var sl := TheSlot(r, t, 1, i); sl.status == P1Ready && sl.ballot == 11 && sl.p1 == None && sl.p2 == None
    ensures t == s.(proposers := t.proposers, promises := t.promises, records := s.records[Key(0, i) := Record(i, 11, 0, false, [])])
  {
    OnePromise(r.repairs, 1, i, 0, PrepareAck(i, 11, 0, []));
    var s1 := Promises(r, s, 1, i, 0);
    t := HearsStale(r, s1, i);
  }

  lemma HearsStale(r: Rules, s: State, i: nat) returns (t: State)
    requires r.Valid() && r.n == 3 && !r.repairs.checkIid && Reachable(r, s)
    requires Leads(r, s, 1, i) && Index(i, r.ring) == Index(1, r.ring) && STALE in s.promises
    requires TheSlot(r, s, 1, i) == Opened(CLEARED, i, 1).(bits := if r.repairs.countDistinct then {0} else {}, count := 1, heard := {0})
    ensures Reachable(r, t) && Leads(r, t, 1, i)
    ensures var sl := TheSlot(r, t, 1, i); sl.status == P1Ready && sl.ballot == 11 && sl.p1 == None && sl.p2 == None
    ensures t == s.(proposers := t.proposers, promises := t.promises)
  {
    TwoPromises(r.repairs, 1, i, 0, 2, TheSlot(r, s, 1, i), STALE.ack);
    t := Go(r, s, Promised(1, STALE));
  }

  /** Proposer 1 gets a promise of acceptor 0 and the stale one, and proposes V1. */
  lemma StalePromiseCounts(r: Rules, s: State, i: nat, e0: Issue) returns (t: State)
    requires r.Valid() && r.n == 3 && r.repairs.acceptGuard && !r.repairs.checkIid && Reachable(r, s)
    requires Leads(r, s, 1, i) && TheSlot(r, s, 1, i) == Opened(CLEARED, i, 1) && Index(i, r.ring) == Index(1, r.ring)
    requires PrepareReq(i, 11) in s.prepares && STALE in s.promises
    requires Key(0, i) !in s.records && Key(1, i) in s.records && s.records[Key(1, i)] == Accepted(e0) && e0.ballot == 10
    ensures Reachable(r, t)
    ensures t.learners == s.learners
    ensures Ack(0, Record(i, 11, 11, false, V1)) in t.acks && Ack(1, Record(i, 11, 11, false, V1)) in t.acks
  {
    var s2 := StaleReady(r, s, i);
    var e1 := Issue(i, 11, V1, TheSlot(r, s2, 1, i).heard);
    var s3 := Proposes(r, s2, 1, i, V1);
    t := Accepts(r, s3, e1, 0, 1);
  }

  lemma WrapIndex(size: nat)
    requires size > 0
    ensures Index(size + 1, size) == Index(1, size)
  {
    assert (size + 1) % size == 1 % size;
  }

  /** lib/proposer.c:190-202 as written: a promise for an instance counts for the one that has
      taken over its slot. */
  lemma OtherInstanceCounts(r: Rules) returns (s: State)
    requires r.Valid() && r.n == 3 && r.ring <= r.window && r.repairs.acceptGuard && !r.repairs.checkIid
    ensures Reachable(r, s) && !Agreement(s)
  {
    var i := r.ring + 1;
    WrapIndex(r.ring);
    var s1 := FirstInstanceDone(r);
    var s2 := OpenUpTo(r, s1, 1, 1, i);
    var s3, e0 := ReusedSlotChosen(r, s2, i);
    var s4 := StalePromiseCounts(r, s3, i, e0);
    var rec := Record(i, 11, 11, false, V1);
    s := LearnsAhead(r, s4, 1, 0, rec, 1, rec);
    assert Settled(s, 0, i) == Some(Accepted(e0));
  }
}
