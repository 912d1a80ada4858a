/** Building concrete runs: one step at a time, and the few moves that recur. */
module Runs {
  import opened PaxosConfig
  import opened Messages
  import opened SlotSpec
  import opened Consensus
  import A = AcceptorSpec
  import L = LearnerSpec

  lemma {:induction false} OneMore(r: Rules, s: State, steps: seq<Step>, st: Step)
    requires r.Valid() && Legal(r, s, steps) && Enabled(r, After(r, s, steps), st)
    ensures Legal(r, s, steps + [st]) && After(r, s, steps + [st]) == Do(r, After(r, s, steps), st)
    decreases |steps|
  {
    if steps == [] {
      assert [st][1..] == [];
    } else {
      OneMore(r, Do(r, s, steps[0]), steps[1..], st);
      assert (steps + [st])[1..] == steps[1..] + [st];
    }
  }

  lemma Go(r: Rules, s: State, st: Step) returns (t: State)
    requires r.Valid() && Reachable(r, s) && Enabled(r, s, st)
    ensures Reachable(r, t) && t == Do(r, s, st)
  {
    var steps :| Legal(r, INIT, steps) && After(r, INIT, steps) == s;
    OneMore(r, INIT, steps, st);
    t := Do(r, s, st);
  }

  lemma Start(r: Rules)
    requires r.Valid()
    ensures Reachable(r, INIT)
  {
    assert Legal(r, INIT, []) && After(r, INIT, []) == INIT;
  }

  /** A proposer becomes leader and opens instance start+1. */
  lemma Lead(r: Rules, s: State, p: nat, start: nat) returns (t: State)
    requires r.Valid() && Reachable(r, s) && p < MAX_N_OF_PROPOSERS
    requires !ProposerAt(s, p).leading && (ProposerAt(s, p).promoted ==> r.reelection)
    ensures Reachable(r, t)
    ensures t == s.(proposers := s.proposers[p := Proposer(true, true, map[Index(start + 1, r.ring) := Opened(CLEARED, start + 1, p)], start + 1)],
                    prepares := s.prepares + {PrepareReq(start + 1, FirstBallot(p))})
  {
    var u := Go(r, s, Promote(p, start));
    assert u == s.(proposers := s.proposers[p := Proposer(true, true, map[], start)]);
    t := OpensFirst(r, u, p, start);
    var pro := Proposer(true, true, map[Index(start + 1, r.ring) := Opened(CLEARED, start + 1, p)], start + 1);
    assert t.proposers == s.proposers[p := pro];
  }

  lemma OpensFirst(r: Rules, s: State, p: nat, start: nat) returns (t: State)
    requires r.Valid() && Reachable(r, s) && p in s.proposers && s.proposers[p] == Proposer(true, true, map[], start)
    ensures Reachable(r, t)
    ensures t == s.(proposers := s.proposers[p := Proposer(true, true, map[Index(start + 1, r.ring) := Opened(CLEARED, start + 1, p)], start + 1)],
                    prepares := s.prepares + {PrepareReq(start + 1, FirstBallot(p))})
  {
    t := Go(r, s, Open(p));
  }

  /** The slot a proposer leads instance i with. */
  predicate Leads(r: Rules, s: State, p: nat, i: nat)
    requires r.Valid()
  {
    && p in s.proposers && s.proposers[p].leading
    && Index(i, r.ring) in s.proposers[p].table
    && s.proposers[p].table[Index(i, r.ring)].iid == i
  }

  function TheSlot(r: Rules, s: State, p: nat, i: nat): Slot
    requires r.Valid() && Leads(r, s, p, i)
  {
    s.proposers[p].table[Index(i, r.ring)]
  }

  function PutSlot(r: Rules, s: State, p: nat, i: nat, sl: Slot): map<nat, Proposer>
    requires r.Valid() && Leads(r, s, p, i)
  {
    s.proposers[p := s.proposers[p].(table := s.proposers[p].table[Index(i, r.ring) := sl])]
  }

  /** What acceptor a answers to the slot's prepare request. */
  function Answer(s: State, a: nat, sl: Slot): Option<Record> {
    A.ApplyPrepare(PrepareReq(sl.iid, sl.ballot), RecordAt(s, a, sl.iid))
  }

  /** An acceptor promises a slot's ballot and the promise arrives at once. */
  lemma Promises(r: Rules, s: State, p: nat, i: nat, a: nat) returns (t: State)
    requires r.Valid() && Reachable(r, s) && Leads(r, s, p, i) && a < r.n
    requires var sl := TheSlot(r, s, p, i);
             && sl.status != Empty && PrepareReq(i, sl.ballot) in s.prepares && Answer(s, a, sl).Some?
             && Answer(s, a, sl).value.iid == i
    ensures Reachable(r, t)
    ensures var sl := TheSlot(r, s, p, i); var rec := Answer(s, a, sl).value; var x := Promise(a, A.PromiseOf(rec));
            && t == s.(records := s.records[Key(a, i) := rec], promises := t.promises,
                       proposers := PutSlot(r, s, p, i, HandleAck(r.repairs, r.n, sl, x.ack, a)))
            && (if r.promisesDuplicate then t.promises == s.promises + multiset{x} else t.promises == s.promises)
  {
    var sl := TheSlot(r, s, p, i);
    var rec := Answer(s, a, sl).value;
    var x := Promise(a, A.PromiseOf(rec));
    var u := Go(r, s, Prepare(a, PrepareReq(i, sl.ballot)));
    t := Go(r, u, Promised(p, x));
    assert (s.promises + multiset{x}) - multiset{x} == s.promises;
  }

  lemma Proposes(r: Rules, s: State, p: nat, i: nat, next: Value) returns (t: State)
    requires r.Valid() && Reachable(r, s) && Leads(r, s, p, i) && (next == [] ==> r.emptyValues)
    requires TheSlot(r, s, p, i).status == P1Ready
    ensures Reachable(r, t)
    ensures var sl := TheSlot(r, s, p, i);
            t == s.(proposers := PutSlot(r, s, p, i, StartPhase2(sl, next)),
                    issues := s.issues + {Issue(i, sl.ballot, Phase2Value(sl, next), sl.heard)})
  {
    t := Go(r, s, Propose(p, Index(i, r.ring), next));
  }

  function Accepted(e: Issue): Record {
    A.AcceptedRecord(AcceptReq(e.iid, e.ballot, e.value))
  }

  /** Two acceptors accept a request. */
  lemma Accepts(r: Rules, s: State, e: Issue, a: nat, b: nat) returns (t: State)
    requires r.Valid() && Reachable(r, s) && e in s.issues && a < r.n && b < r.n && a != b
    requires !A.DropsAccept(r.repairs, AcceptReq(e.iid, e.ballot, e.value), RecordAt(s, a, e.iid))
    requires !A.DropsAccept(r.repairs, AcceptReq(e.iid, e.ballot, e.value), RecordAt(s, b, e.iid))
    ensures Reachable(r, t)
    ensures t == s.(records := s.records[Key(a, e.iid) := Accepted(e)][Key(b, e.iid) := Accepted(e)],
                    acks := s.acks + {Ack(a, Accepted(e)), Ack(b, Accepted(e))}, votes := t.votes)
  {
    var u := Go(r, s, Accept(a, e));
    t := Go(r, u, Accept(b, e));
  }

  // ---- a learner with three acceptors ----

  lemma Scan3(c: L.Setup, inst: L.Instance)
    requires c.n == 3 == |inst.acks|
    requires forall a :: 0 <= a < 3 && inst.acks[a].Some? ==> !inst.acks[a].value.isFinal
    ensures var (v, k) := L.Scan(c, inst, 0, -1, 0);
            && k == |L.AgreeingFrom(c, inst.acks, inst.lastBallot, 0)|
            && (L.Agrees(c, inst.acks, inst.lastBallot, 2) ==> v == 2)
            && (!L.Agrees(c, inst.acks, inst.lastBallot, 2) && L.Agrees(c, inst.acks, inst.lastBallot, 1) ==> v == 1)
  {
    L.ScanFinds(c, inst, 0, -1, 0);
    var g1 := if L.Agrees(c, inst.acks, inst.lastBallot, 0) then (0, 1) else (-1, 0);
    var g2 := if L.Agrees(c, inst.acks, inst.lastBallot, 1) then (1, g1.1 + 1) else g1;
    assert L.Scan(c, inst, 0, -1, 0) == L.Scan(c, inst, 1, g1.0, g1.1);
    assert L.Scan(c, inst, 1, g1.0, g1.1) == L.Scan(c, inst, 2, g2.0, g2.1);
  }

  /** An instance that has one ack, from acceptor a. */
  function OneAck(c: L.Setup, a: nat, p: Record): L.Instance
    requires a < c.n
  {
    L.Instance(p.iid, L.GroupOf(c, p), L.NoAcks(c.n)[a := Some(p)], None)
  }

  lemma FirstAck(c: L.Setup, a: nat, p: Record)
    requires c.n == 3 && a < 3 && p.iid > 0 && !p.isFinal
    ensures L.Learnt(c, L.EmptyInstance(3), a, p) == OneAck(c, a, p)
  {
    var one := OneAck(c, a, p);
    assert L.Update(c, L.EmptyInstance(3), a, p) == (one, true);
    assert L.AgreeingFrom(c, one.acks, one.lastBallot, 0) == {a};
    Scan3(c, one);
  }

  lemma SecondAck(c: L.Setup, a: nat, p: Record, b: nat, q: Record)
    requires c.n == 3 && a < b < 3 && p.iid == q.iid > 0 && !p.isFinal && !q.isFinal
    requires L.GroupOf(c, p) == L.GroupOf(c, q)
    ensures L.Update(c, OneAck(c, a, p), b, q).1
    ensures L.Learnt(c, OneAck(c, a, p), b, q).final == Some(q) && |L.Learnt(c, OneAck(c, a, p), b, q).acks| == 3
  {
    var two := L.Update(c, OneAck(c, a, p), b, q).0;
    assert two.acks == L.NoAcks(3)[a := Some(p)][b := Some(q)];
    assert L.AgreeingFrom(c, two.acks, two.lastBallot, 0) == {a, b};
    Scan3(c, two);
  }

  /** A learner with no other slots closes its current instance on acks of one group from
      acceptors a < b, with the ack of b. */
  lemma TwoAcks(c: L.Setup, x: L.Learner, a: nat, p: Record, b: nat, q: Record)
    requires c.n == 3 && c.window > 0 && a < b < 3 && x.current >= 1 && x.open == map[]
    requires p.iid == q.iid == x.current && L.GroupOf(c, p) == L.GroupOf(c, q) && !p.isFinal && !q.isFinal
    ensures var y := L.HandleAck(c, x, a, p);
            && (forall i :: i in y.open ==> |y.open[i].acks| == 3)
            && var z := L.HandleAck(c, y, b, q);
               && z.current == x.current + 1 && z.delivered == x.delivered + [q] && z.open == map[]
  {
    FirstAck(c, a, p);
    SecondAck(c, a, p, b, q);
    var y := L.HandleAck(c, x, a, p);
    assert y.open == map[x.current := OneAck(c, a, p)];
    var stored := L.Stored(c, y, b, q);
    assert stored.open == map[x.current := L.Learnt(c, OneAck(c, a, p), b, q)];
    assert L.HandleAck(c, y, b, q) == L.DeliverNext(stored);
    var rest := L.DeliverOne(stored);
    assert rest.open == map[];
    assert L.DeliverNext(rest) == rest;
  }

  lemma Learns(r: Rules, s: State, l: nat, a: nat, p: Record, b: nat, q: Record) returns (t: State)
    requires r.Valid() && r.n == 3 && Reachable(r, s) && a < b < 3
    requires Ack(a, p) in s.acks && Ack(b, q) in s.acks
    requires var x := LearnerAt(s, l);
             && x.current >= 1 && x.open == map[] && p.iid == q.iid == x.current
    requires L.GroupOf(r.Setup(), p) == L.GroupOf(r.Setup(), q) && !p.isFinal && !q.isFinal
    ensures Reachable(r, t)
    ensures l in t.learners && t == s.(learners := s.learners[l := t.learners[l]])
    ensures var x := LearnerAt(s, l); var z := t.learners[l];
            z.current == x.current + 1 && z.delivered == x.delivered + [q] && z.open == map[]
  {
    var x := LearnerAt(s, l);
    TwoAcks(r.Setup(), x, a, p, b, q);
    var u := Go(r, s, Learn(l, Ack(a, p)));
    t := Go(r, u, Learn(l, Ack(b, q)));
    assert t.learners[l] == L.HandleAck(r.Setup(), L.HandleAck(r.Setup(), x, a, p), b, q);
  }

  /** Two learners that have delivered different values for the first instance. */
  lemma Disagree(s: State, l: nat, m: nat, v: Record, w: Record)
    requires LearnerAt(s, l).current == 2 && LearnerAt(s, l).delivered == [v]
    requires LearnerAt(s, m).current == 2 && LearnerAt(s, m).delivered == [w]
    requires v.value != w.value
    ensures !Agreement(s)
  {
    assert Settled(s, l, 1) == Some(v) && Settled(s, m, 1) == Some(w);
  }
}
