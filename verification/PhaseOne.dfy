/** What phase 1 of one instance gathers from the promises that reach the leader:
    lib/proposer.c:121-222 over whole sequences of promises. */
module PhaseOne {
  import opened PaxosConfig
  import opened Messages
  import opened SlotSpec

  /** A promise that has reached the leader. */
  datatype Arrival = Arrival(from: nat, ack: PrepareAck)

  /** A slot that has just started a phase 1. */
  predicate Starts(sl: Slot) {
    sl.status == P1Pending && sl.bits == {} && sl.count == 0 && sl.p1 == None && sl.p1Ballot == 0 && sl.heard == {}
  }

  /** The slot after a sequence of promises. */
  function Collect(repairs: Repairs, n: nat, sl: Slot, ps: seq<Arrival>): Slot {
    if ps == [] then sl
    else
      var last := ps[|ps| - 1];
      HandleAck(repairs, n, Collect(repairs, n, sl, ps[..|ps| - 1]), last.ack, last.from)
  }

  function Senders(ps: seq<Arrival>): (r: set<nat>)
    ensures forall a :: a in r <==> exists i :: 0 <= i < |ps| && ps[i].from == a
  {
    set i | 0 <= i < |ps| :: ps[i].from
  }

  /** The promises meant for the phase 1 the slot is in. */
  function Matching(repairs: Repairs, sl: Slot, ps: seq<Arrival>): seq<Arrival> {
    if ps == [] then []
    else
      var before := Matching(repairs, sl, ps[..|ps| - 1]);
      if Relevant(repairs, sl, ps[|ps| - 1].ack) then before + [ps[|ps| - 1]] else before
  }

  /** The promises that were credited: those that arrived before the slot was ready and, when
      the bit vector works, from an acceptor not heard before. */
  function Credited(repairs: Repairs, n: nat, sl: Slot, ps: seq<Arrival>): seq<Arrival> {
    if ps == [] then []
    else
      var before := Credited(repairs, n, sl, ps[..|ps| - 1]);
      var last := ps[|ps| - 1];
      if !Relevant(repairs, sl, last.ack) || |before| >= Quorum(n) || (repairs.countDistinct && last.from in Senders(before))
      then before else before + [last]
  }

  // ---- which value phase 1 finds ----

  predicate Bears(p: Arrival) {
    p.ack.value != [] && p.ack.valueBallot > 0
  }

  /** Arrival i carries the highest value ballot and is the first to do so. */
  ghost predicate Wins(ps: seq<Arrival>, i: int) {
    && 0 <= i < |ps| && Bears(ps[i])
    && (forall j :: 0 <= j < |ps| && Bears(ps[j]) ==> ps[j].ack.valueBallot <= ps[i].ack.valueBallot)
    && (forall j :: 0 <= j < i && Bears(ps[j]) ==> ps[j].ack.valueBallot < ps[i].ack.valueBallot)
  }

  /** (found, ballot) is the value of the highest value ballot among the promises, or nothing
      when none carries a value. */
  ghost predicate Highest(ps: seq<Arrival>, found: Option<Value>, ballot: nat) {
    if found.None? then ballot == 0 && forall j :: 0 <= j < |ps| ==> !Bears(ps[j])
    else exists i :: Wins(ps, i) && ps[i].ack.value == found.value && ps[i].ack.valueBallot == ballot
  }

  lemma SendersGrow(ps: seq<Arrival>, p: Arrival)
    ensures Senders(ps + [p]) == Senders(ps) + {p.from}
  {
    var all := ps + [p];
    forall a
      ensures a in Senders(all) <==> a in Senders(ps) + {p.from}
    {
      if i :| 0 <= i < |ps| && ps[i].from == a {
        assert all[i].from == a;
      }
      assert all[|ps|] == p;
    }
  }

  lemma HighestGrows(ps: seq<Arrival>, p: Arrival, sl: Slot)
    requires Highest(ps, sl.p1, sl.p1Ballot) && (sl.p1.None? <==> sl.p1Ballot == 0)
    ensures var next := Adopt(sl, p.ack);
            Highest(ps + [p], next.p1, next.p1Ballot) && (next.p1.None? <==> next.p1Ballot == 0)
  {
    var all := ps + [p];
    var next := Adopt(sl, p.ack);
    assert all[|ps|] == p;
    assert forall j :: 0 <= j < |ps| ==> all[j] == ps[j];
    if sl.p1.Some? {
      var i :| Wins(ps, i) && ps[i].ack.value == sl.p1.value && ps[i].ack.valueBallot == sl.p1Ballot;
      if Bears(p) && p.ack.valueBallot > sl.p1Ballot {
        assert Wins(all, |ps|);
      } else {
        assert Wins(all, i);
      }
    } else if Bears(p) {
      assert Wins(all, |ps|);
    }
  }

  /** Slot y is the record of the promises k: it counts them, knows who sent them and holds the
      value of the highest value ballot among them. */
  ghost predicate Records(repairs: Repairs, n: nat, sl: Slot, y: Slot, k: seq<Arrival>) {
    && y.iid == sl.iid && y.ballot == sl.ballot && y.p2 == sl.p2
    && y.count == |k| <= Quorum(n) && y.heard == Senders(k)
    && y.bits == (if repairs.countDistinct then Senders(k) else {})
    && (repairs.countDistinct ==> |Senders(k)| == |k|)
    && y.status == (if |k| == Quorum(n) then P1Ready else P1Pending)
    && Highest(k, y.p1, y.p1Ballot)
    && (y.p1.None? <==> y.p1Ballot == 0)
  }

  lemma OneMore(repairs: Repairs, n: nat, sl: Slot, y: Slot, k: seq<Arrival>, p: Arrival)
    requires Records(repairs, n, sl, y, k) && |k| < Quorum(n) && Relevant(repairs, y, p.ack)
    requires repairs.countDistinct ==> p.from !in Senders(k)
    ensures Records(repairs, n, sl, HandleAck(repairs, n, y, p.ack, p.from), k + [p])
  {
    var bits := if repairs.countDistinct then y.bits + {p.from} else {};
    assert y.bits * Mask(repairs, p.from) == {};
    var noted := y.(bits := bits, count := y.count + 1, heard := y.heard + {p.from});
    assert SaveAck(repairs, y, p.ack, p.from) == Adopt(noted, p.ack);
    SendersGrow(k, p);
    HighestGrows(k, p, noted);
  }

  /** After any sequence of promises the slot records exactly those credited to it. */
  lemma {:induction false} CollectRecords(repairs: Repairs, n: nat, sl: Slot, ps: seq<Arrival>)
    requires Starts(sl)
    ensures Records(repairs, n, sl, Collect(repairs, n, sl, ps), Credited(repairs, n, sl, ps))
  {
    if ps != [] {
      var most := ps[..|ps| - 1];
      var last := ps[|ps| - 1];
      CollectRecords(repairs, n, sl, most);
      var before := Collect(repairs, n, sl, most);
      var k := Credited(repairs, n, sl, most);
      if Relevant(repairs, before, last.ack) && !(repairs.countDistinct && last.from in Senders(k)) {
        OneMore(repairs, n, sl, before, k, last);
      } else if Relevant(repairs, before, last.ack) {
        assert before.bits * Mask(repairs, last.from) == {last.from};
      }
    }
  }

  // ---- when phase 1 ends ----

  lemma {:induction false} CreditedAreMatching(repairs: Repairs, n: nat, sl: Slot, ps: seq<Arrival>)
    ensures var k := Credited(repairs, n, sl, ps); var m := Matching(repairs, sl, ps);
            && |k| <= Quorum(n)
            && (!repairs.countDistinct ==> k == m[..if |m| < Quorum(n) then |m| else Quorum(n)])
            && Senders(k) <= Senders(m)
            && (|k| < Quorum(n) ==> Senders(k) == Senders(m))
  {
    if ps != [] {
      var most := ps[..|ps| - 1];
      var last := ps[|ps| - 1];
      CreditedAreMatching(repairs, n, sl, most);
      SendersGrow(Credited(repairs, n, sl, most), last);
      SendersGrow(Matching(repairs, sl, most), last);
    }
  }

  /** With a working bit vector a slot is ready exactly when a quorum of distinct acceptors has
      promised its ballot. */
  lemma ReadyOnQuorum(repairs: Repairs, n: nat, sl: Slot, ps: seq<Arrival>)
    requires Starts(sl) && repairs.countDistinct
    ensures Collect(repairs, n, sl, ps).status == P1Ready <==> |Senders(Matching(repairs, sl, ps))| >= Quorum(n)
  {
    CollectRecords(repairs, n, sl, ps);
    CreditedAreMatching(repairs, n, sl, ps);
    SubsetCount(Senders(Credited(repairs, n, sl, ps)), Senders(Matching(repairs, sl, ps)));
  }

  ghost predicate NoneTwice(ps: seq<Arrival>) {
    forall i, j :: 0 <= i < j < |ps| ==> ps[i].from != ps[j].from
  }

  /** As the code is written any quorum of messages will do, and they stand for a quorum of
      acceptors exactly when no acceptor is among them twice. */
  lemma ReadyAsWritten(repairs: Repairs, n: nat, sl: Slot, ps: seq<Arrival>)
    requires Starts(sl) && !repairs.countDistinct
    ensures var y := Collect(repairs, n, sl, ps); var m := Matching(repairs, sl, ps);
            && (y.status == P1Ready <==> |m| >= Quorum(n))
            && (y.status == P1Ready ==>
                  (|y.heard| >= Quorum(n) <==> NoneTwice(m[..Quorum(n)])))
  {
    CollectRecords(repairs, n, sl, ps);
    CreditedAreMatching(repairs, n, sl, ps);
    var m := Matching(repairs, sl, ps);
    if |m| >= Quorum(n) {
      SendersCount(m[..Quorum(n)]);
    }
  }

  /** A sequence has as many senders as promises exactly when no two are from one acceptor. */
  lemma {:induction false} SendersCount(ps: seq<Arrival>)
    ensures |Senders(ps)| <= |ps|
    ensures |Senders(ps)| == |ps| <==> NoneTwice(ps)
  {
    if ps == [] {
      assert Senders(ps) == {};
    } else {
      var most := ps[..|ps| - 1];
      var last := ps[|ps| - 1];
      SendersCount(most);
      assert ps == most + [last];
      SendersGrow(most, last);
      NoneTwiceGrows(most, last);
    }
  }

  lemma NoneTwiceGrows(ps: seq<Arrival>, p: Arrival)
    ensures NoneTwice(ps + [p]) <==> NoneTwice(ps) && p.from !in Senders(ps)
  {
    var all := ps + [p];
    assert all[|ps|] == p;
    assert forall i :: 0 <= i < |ps| ==> all[i] == ps[i];
    if p.from in Senders(ps) {
      var i :| 0 <= i < |ps| && ps[i].from == p.from;
      assert all[i].from == all[|ps|].from;
    }
    if NoneTwice(all) {
      forall i, j | 0 <= i < j < |ps|
        ensures ps[i].from != ps[j].from
      {
        assert all[i].from != all[j].from;
      }
    }
  }

  // ---- the order of arrival ----

  /** All promises with the highest value ballot carry the same value. */
  ghost predicate TopAgrees(ps: seq<Arrival>) {
    forall i, j :: 0 <= i < |ps| && 0 <= j < |ps| && Tops(ps, i) && Tops(ps, j) ==> ps[i].ack.value == ps[j].ack.value
  }

  ghost predicate Tops(ps: seq<Arrival>, i: int)
    requires 0 <= i < |ps|
  {
    Bears(ps[i]) && forall j :: 0 <= j < |ps| && Bears(ps[j]) ==> ps[j].ack.valueBallot <= ps[i].ack.valueBallot
  }

  /** Same promises, in any order. */
  ghost predicate Reordered(ps: seq<Arrival>, qs: seq<Arrival>) {
    multiset(ps) == multiset(qs)
  }

  lemma SameMembers(ps: seq<Arrival>, qs: seq<Arrival>)
    requires Reordered(ps, qs)
    ensures |ps| == |qs| && forall p :: p in ps <==> p in qs
  {
    assert |ps| == |multiset(ps)|;
    assert |qs| == |multiset(qs)|;
    assert forall p :: p in ps <==> p in multiset(ps);
    assert forall p :: p in qs <==> p in multiset(qs);
  }

  lemma HighestIsAbsolute(ps: seq<Arrival>, qs: seq<Arrival>, v: Option<Value>, b: nat, w: Option<Value>, d: nat)
    requires Reordered(ps, qs) && TopAgrees(ps) && Highest(ps, v, b) && Highest(qs, w, d)
    ensures v == w && b == d
  {
    SameMembers(ps, qs);
    assert v.Some? ==> w.Some? by {
      if v.Some? {
        var i :| Wins(ps, i);
        assert ps[i] in qs;
      }
    }
    assert w.Some? ==> v.Some? by {
      if w.Some? {
        var j :| Wins(qs, j);
        assert qs[j] in ps;
      }
    }
    if v.Some? {
      var i :| Wins(ps, i) && ps[i].ack.value == v.value && ps[i].ack.valueBallot == b;
      var j :| Wins(qs, j) && qs[j].ack.value == w.value && qs[j].ack.valueBallot == d;
      assert qs[j] in ps && ps[i] in qs;
      var m :| 0 <= m < |ps| && ps[m] == qs[j];
      var l :| 0 <= l < |qs| && qs[l] == ps[i];
      assert b == d;
      assert Tops(ps, i) && Tops(ps, m);
    }
  }

  /** The value phase 1 finds is independent of the order in which its promises arrive exactly
      when those of the highest value ballot agree, as the acceptors of one ballot do. */
  lemma OrderIrrelevant(ps: seq<Arrival>)
    ensures TopAgrees(ps)
            <==> forall qs, v, b, w, d {:trigger Reordered(ps, qs), Highest(ps, v, b), Highest(qs, w, d)} ::
                   Reordered(ps, qs) && Highest(ps, v, b) && Highest(qs, w, d) ==> v == w && b == d
  {
    if TopAgrees(ps) {
      forall qs, v, b, w, d | Reordered(ps, qs) && Highest(ps, v, b) && Highest(qs, w, d)
        ensures v == w && b == d
      {
        HighestIsAbsolute(ps, qs, v, b, w, d);
      }
    } else {
      var i, j :| 0 <= i < |ps| && 0 <= j < |ps| && Tops(ps, i) && Tops(ps, j) && ps[i].ack.value != ps[j].ack.value;
      var qi := FirstIs(ps, i);
      var qj := FirstIs(ps, j);
      var v := Some(ps[i].ack.value);
      var w := Some(ps[j].ack.value);
      var b := ps[i].ack.valueBallot;
      var x, d := SomeHighest(ps);
      assert Highest(ps, x, d) && Highest(qi, v, b) && Highest(qj, w, b);
    }
  }

  /** One order in which promise i is the first. */
  lemma FirstIs(ps: seq<Arrival>, i: int) returns (qs: seq<Arrival>)
    requires 0 <= i < |ps| && Tops(ps, i)
    ensures Reordered(ps, qs) && Highest(qs, Some(ps[i].ack.value), ps[i].ack.valueBallot)
  {
    qs := [ps[i]] + ps[..i] + ps[i + 1..];
    assert ps == ps[..i] + [ps[i]] + ps[i + 1..];
    SameMembers(ps, qs);
    assert Wins(qs, 0);
  }

  /** Every sequence has a highest value or none. */
  lemma {:induction false} SomeHighest(ps: seq<Arrival>) returns (v: Option<Value>, b: nat)
    ensures Highest(ps, v, b) && (v.None? <==> b == 0)
  {
    if ps == [] {
      v, b := None, 0;
    } else {
      var most := ps[..|ps| - 1];
      v, b := SomeHighest(most);
      var sl := CLEARED.(p1 := v, p1Ballot := b);
      HighestGrows(most, ps[|ps| - 1], sl);
      assert ps == most + [ps[|ps| - 1]];
      v, b := Adopt(sl, ps[|ps| - 1].ack).p1, Adopt(sl, ps[|ps| - 1].ack).p1Ballot;
    }
  }

  // ---- starting over ----

  /** A phase 1 that timed out starts from nothing, and so does one after phase 2 once repaired. */
  lemma RestartsStart(repairs: Repairs, sl: Slot)
    requires sl.status == P1Pending
    ensures Starts(RetryPhase1(sl)) && RetryPhase1(sl).ballot == sl.ballot + 10
    ensures repairs.restartForgets ==> Starts(RestartPhase1(repairs, sl)) && RestartPhase1(repairs, sl).ballot == sl.ballot + 10
  {
  }

  /** Promises of the ballot it had before, or of an older one, no longer count: neither after a phase 1
      nor after a phase 2 that timed out. */
  lemma {:induction false} StalePromisesIgnored(repairs: Repairs, n: nat, sl: Slot, next: Slot, ps: seq<Arrival>)
    requires next == RetryPhase1(sl) || next == RestartPhase1(repairs, sl)
    requires forall i :: 0 <= i < |ps| ==> ps[i].ack.ballot <= sl.ballot
    ensures Collect(repairs, n, next, ps) == next
    decreases |ps|
  {
    if ps != [] {
      StalePromisesIgnored(repairs, n, sl, next, ps[..|ps| - 1]);
    }
  }

  /** As written, a phase 1 that follows a phase 2 is ready after one promise from an acceptor
      whose bits are clear; repaired it takes a quorum like any other. */
  lemma RestartRemembersCount(repairs: Repairs, n: nat, sl: Slot, p: Arrival)
    requires sl.status == P2Pending && sl.count >= Quorum(n) > 1
    requires p.ack.iid == sl.iid && p.ack.ballot == NextBallot(sl.ballot) && sl.bits * Mask(repairs, p.from) == {}
    ensures Collect(repairs, n, RestartPhase1(repairs, sl), [p]).status == P1Ready <==> !repairs.restartForgets
  {
    assert [p][..0] == [];
    assert Collect(repairs, n, RestartPhase1(repairs, sl), []) == RestartPhase1(repairs, sl);
  }
}
