/** The proposers' steps keep the invariant: promotion and demotion, opening and retrying
    instances, counting a promise, and sending an accept request. */
module ProposerSteps {
  import opened PaxosConfig
  import opened Messages
  import opened SlotSpec
  import opened Consensus
  import opened ConsensusInvariant
  import opened ConsensusCarries

  /** Everything the invariant says of one slot of proposer p. */
  ghost predicate SlotGood(r: Rules, s: State, d: Decisions, p: nat, pro: Proposer, k: nat, sl: Slot) {
    && SlotShape(r, p, pro, k, sl)
    && (InPhase1(sl) ==> Phase1Ok(r, s, d, sl))
    && (forall e :: e in s.issues ==> Fresh(r, d, p, sl, e))
    && (!r.promisesDuplicate ==> forall x :: x in s.promises ==> NotInSlot(d, x, sl))
  }

  lemma SlotIsGood(r: Rules, s: State, d: Decisions, p: nat, k: nat)
    requires ProposersOk(r, s) && SlotsOk(r, s, d) && AllFresh(r, s, d) && TokensOk(r, s, d)
    requires p in s.proposers && k in s.proposers[p].table
    ensures SlotGood(r, s, d, p, s.proposers[p], k, s.proposers[p].table[k])
  {
    forall e | e in s.issues
      ensures Fresh(r, d, p, s.proposers[p].table[k], e)
    {
    }
  }

  /** A slot stays good when the network only loses promises. */
  lemma SlotStaysGood(r: Rules, s: State, d: Decisions, t: State, p: nat, pro: Proposer, pro': Proposer, k: nat, sl: Slot)
    requires SlotGood(r, s, d, p, pro, k, sl) && pro.highestOpen <= pro'.highestOpen
    requires t.records == s.records && t.votes == s.votes && t.issues == s.issues && t.promises <= s.promises
    ensures SlotGood(r, t, d, p, pro', k, sl)
  {
    if InPhase1(sl) {
      CarryPhase1(r, s, d, t, d, sl);
    }
  }

  lemma FewerPromises(r: Rules, s: State, d: Decisions, t: State)
    requires PromisesOk(r, s, d)
    requires t.records == s.records && t.votes == s.votes && t.issues == s.issues && t.promises <= s.promises
    ensures PromisesOk(r, t, d)
    ensures OnePromise(s, d) ==> OnePromise(t, d)
  {
    CarryPromises(r, s, d, t, d);
  }

  ghost predicate OtherSlotsGood(r: Rules, t: State, d: Decisions, p: nat) {
    forall q, k :: q in t.proposers && q != p && k in t.proposers[q].table ==>
      SlotGood(r, t, d, q, t.proposers[q], k, t.proposers[q].table[k])
  }

  lemma OthersStayGood(r: Rules, s: State, d: Decisions, t: State, p: nat, pro: Proposer)
    requires ProposersOk(r, s) && SlotsOk(r, s, d) && AllFresh(r, s, d) && TokensOk(r, s, d)
    requires t.records == s.records && t.votes == s.votes && t.issues == s.issues && t.promises <= s.promises
    requires t.proposers == s.proposers[p := pro]
    ensures OtherSlotsGood(r, t, d, p)
  {
    forall q, k | q in t.proposers && q != p && k in t.proposers[q].table
      ensures SlotGood(r, t, d, q, t.proposers[q], k, t.proposers[q].table[k])
    {
      SlotIsGood(r, s, d, q, k);
      SlotStaysGood(r, s, d, t, q, s.proposers[q], s.proposers[q], k, s.proposers[q].table[k]);
    }
  }

  ghost predicate GoodProposer(r: Rules, t: State, d: Decisions, p: nat, pro: Proposer) {
    && p < MAX_N_OF_PROPOSERS
    && (if pro.leading then pro.promoted else pro.table == map[])
    && forall k :: k in pro.table ==> SlotGood(r, t, d, p, pro, k, pro.table[k])
  }

  lemma AllSlotsGood(r: Rules, s: State, t: State, d: Decisions, p: nat, pro: Proposer)
    requires ProposersOk(r, s) && t.proposers == s.proposers[p := pro]
    requires OtherSlotsGood(r, t, d, p) && GoodProposer(r, t, d, p, pro)
    ensures ProposersOk(r, t) && SlotsOk(r, t, d) && AllFresh(r, t, d)
    ensures !r.promisesDuplicate ==>
              forall x, q, k :: x in t.promises && q in t.proposers && k in t.proposers[q].table ==> NotInSlot(d, x, t.proposers[q].table[k])
  {
    forall q, k | q in t.proposers && k in t.proposers[q].table
      ensures SlotGood(r, t, d, q, t.proposers[q], k, t.proposers[q].table[k])
    {
    }
    forall q, k, e | q in t.proposers && k in t.proposers[q].table && e in t.issues
      ensures Fresh(r, d, q, t.proposers[q].table[k], e)
    {
      assert SlotGood(r, t, d, q, t.proposers[q], k, t.proposers[q].table[k]);
    }
    forall q, k | q in t.proposers && k in t.proposers[q].table && InPhase1(t.proposers[q].table[k])
      ensures Phase1Ok(r, t, d, t.proposers[q].table[k])
    {
      assert SlotGood(r, t, d, q, t.proposers[q], k, t.proposers[q].table[k]);
    }
    if !r.promisesDuplicate {
      forall x, q, k | x in t.promises && q in t.proposers && k in t.proposers[q].table
        ensures NotInSlot(d, x, t.proposers[q].table[k])
      {
        assert SlotGood(r, t, d, q, t.proposers[q], k, t.proposers[q].table[k]);
      }
    }
    forall q | q in t.proposers
      ensures q < MAX_N_OF_PROPOSERS && if t.proposers[q].leading then t.proposers[q].promoted else t.proposers[q].table == map[]
    {
    }
    forall q, k | q in t.proposers && k in t.proposers[q].table
      ensures SlotShape(r, q, t.proposers[q], k, t.proposers[q].table[k])
    {
      assert SlotGood(r, t, d, q, t.proposers[q], k, t.proposers[q].table[k]);
    }
  }

  /** A step that changes one proposer and at most consumes promises. */
  lemma ProposerChange(r: Rules, s: State, d: Decisions, t: State, p: nat, pro: Proposer)
    requires ProposerSide(r, s, d) && OpenedOnce(r, t)
    requires t.records == s.records && t.votes == s.votes && t.issues == s.issues && t.promises <= s.promises
    requires t.proposers == s.proposers[p := pro] && GoodProposer(r, t, d, p, pro)
    ensures ProposerSide(r, t, d)
  {
    OthersStayGood(r, s, d, t, p, pro);
    AllSlotsGood(r, s, t, d, p, pro);
    FewerPromises(r, s, d, t);
    if !r.promisesDuplicate {
      forall x, e | x in t.promises && e in t.issues
        ensures NotInIssue(d, x, e)
      {
        assert NotInIssue(d, x, e);
      }
    }
  }

  /** Replacing one slot by a good one. */
  lemma SlotChange(r: Rules, s: State, d: Decisions, t: State, p: nat, k: nat, sl: Slot, highestOpen: nat)
    requires ProposerSide(r, s, d) && p in s.proposers && s.proposers[p].leading
    requires t.records == s.records && t.votes == s.votes && t.issues == s.issues && t.promises <= s.promises
    requires s.proposers[p].highestOpen <= highestOpen
    requires t.proposers == s.proposers[p := s.proposers[p].(table := s.proposers[p].table[k := sl], highestOpen := highestOpen)]
    requires SlotGood(r, t, d, p, t.proposers[p], k, sl)
    ensures ProposerSide(r, t, d)
  {
    var pro := t.proposers[p];
    forall j | j in pro.table
      ensures SlotGood(r, t, d, p, pro, j, pro.table[j])
    {
      if j != k {
        SlotIsGood(r, s, d, p, j);
        SlotStaysGood(r, s, d, t, p, s.proposers[p], pro, j, s.proposers[p].table[j]);
      }
    }
    ProposerChange(r, s, d, t, p, pro);
  }

  // ---- leadership ----

  lemma PromoteProposers(r: Rules, s: State, d: Decisions, p: nat, start: nat)
    requires r.Valid() && ProposerSide(r, s, d) && Enabled(r, s, Promote(p, start))
    ensures ProposerSide(r, Do(r, s, Promote(p, start)), d)
  {
    ProposerChange(r, s, d, Do(r, s, Promote(p, start)), p, Proposer(true, true, map[], start));
  }

  lemma DemoteProposers(r: Rules, s: State, d: Decisions, p: nat)
    requires r.Valid() && ProposerSide(r, s, d) && Enabled(r, s, Demote(p))
    ensures ProposerSide(r, Do(r, s, Demote(p)), d)
  {
    var pro := ProposerAt(s, p).(leading := false, table := map[]);
    ProposerChange(r, s, d, Do(r, s, Demote(p)), p, pro);
  }

  lemma ForgetProposers(r: Rules, s: State, d: Decisions, p: nat, k: nat, l: nat)
    requires r.Valid() && ProposerSide(r, s, d) && Enabled(r, s, Forget(p, k, l))
    ensures ProposerSide(r, Do(r, s, Forget(p, k, l)), d)
  {
    var t := Do(r, s, Forget(p, k, l));
    var pro := ProposerAt(s, p);
    var pro' := pro.(table := pro.table - {k});
    forall j | j in pro'.table
      ensures SlotGood(r, t, d, p, pro', j, pro'.table[j])
    {
      SlotIsGood(r, s, d, p, j);
      SlotStaysGood(r, s, d, t, p, pro, pro', j, pro.table[j]);
    }
    ProposerChange(r, s, d, t, p, pro');
  }

  // ---- phase 1 ----

  /** A slot that has heard nobody is good as long as its ballot is a new one. */
  lemma UnheardSlot(r: Rules, t: State, d: Decisions, p: nat, pro: Proposer, k: nat, sl: Slot)
    requires SlotShape(r, p, pro, k, sl) && sl.status == P1Pending
    requires sl.heard == {} && sl.count == 0 && sl.p1 == None && sl.p1Ballot == 0
    requires !r.reelection ==> forall e :: e in t.issues && e.iid == sl.iid && Owner(e.ballot) == p ==> e.ballot < sl.ballot
    ensures SlotGood(r, t, d, p, pro, k, sl)
  {
  }

  lemma NextBallotOwner(b: nat)
    ensures Owner(NextBallot(b)) == Owner(b)
  {
  }

  lemma OpenProposers(r: Rules, s: State, d: Decisions, p: nat)
    requires r.Valid() && ProposerSide(r, s, d) && Enabled(r, s, Open(p))
    ensures ProposerSide(r, Do(r, s, Open(p)), d)
  {
    var t := Do(r, s, Open(p));
    var iid := s.proposers[p].highestOpen + 1;
    var k := Index(iid, r.ring);
    var sl := Opened(CLEARED, iid, p);
    assert t.proposers[p].table[k] == sl;
    UnheardSlot(r, t, d, p, t.proposers[p], k, sl);
    SlotChange(r, s, d, t, p, k, sl, iid);
  }

  /** An issue of p for a slot's instance is not above the slot's ballot. */
  lemma IssuesBelow(r: Rules, s: State, d: Decisions, p: nat, k: nat)
    requires AllFresh(r, s, d) && p in s.proposers && k in s.proposers[p].table && !r.reelection
    ensures forall e :: e in s.issues && e.iid == s.proposers[p].table[k].iid && Owner(e.ballot) == p
              ==> e.ballot <= s.proposers[p].table[k].ballot
  {
    forall e | e in s.issues && e.iid == s.proposers[p].table[k].iid && Owner(e.ballot) == p
      ensures e.ballot <= s.proposers[p].table[k].ballot
    {
      assert Fresh(r, d, p, s.proposers[p].table[k], e);
    }
  }

  lemma RetryProposers(r: Rules, s: State, d: Decisions, p: nat, k: nat)
    requires r.Valid() && ProposerSide(r, s, d) && Enabled(r, s, Retry(p, k))
    ensures ProposerSide(r, Do(r, s, Retry(p, k)), d)
  {
    var t := Do(r, s, Retry(p, k));
    var was := SlotAt(s, p, k);
    assert SlotShape(r, p, s.proposers[p], k, was);
    NextBallotOwner(was.ballot);
    if !r.reelection {
      IssuesBelow(r, s, d, p, k);
    }
    UnheardSlot(r, t, d, p, t.proposers[p], k, RetryPhase1(was));
    SlotChange(r, s, d, t, p, k, RetryPhase1(was), s.proposers[p].highestOpen);
  }

  lemma RestartProposers(r: Rules, s: State, d: Decisions, p: nat, k: nat)
    requires r.Valid() && r.repairs.restartForgets && ProposerSide(r, s, d) && Enabled(r, s, Restart(p, k))
    ensures ProposerSide(r, Do(r, s, Restart(p, k)), d)
  {
    var t := Do(r, s, Restart(p, k));
    var was := SlotAt(s, p, k);
    assert SlotShape(r, p, s.proposers[p], k, was);
    NextBallotOwner(was.ballot);
    if !r.reelection {
      IssuesBelow(r, s, d, p, k);
    }
    UnheardSlot(r, t, d, p, t.proposers[p], k, RestartPhase1(r.repairs, was));
    SlotChange(r, s, d, t, p, k, RestartPhase1(r.repairs, was), s.proposers[p].highestOpen);
  }

  // ---- a promise arrives ----

  /** The slot's facts about its promises hold for the larger of two reported ballots. */
  lemma HigherReport(r: Rules, s: State, d: Decisions, a: nat, i: nat, b: nat, m: nat, m': nat)
    requires PromiseHolds(r, s, d, a, i, b, m) && m <= m'
    ensures PromiseHolds(r, s, d, a, i, b, m')
  {
  }

  lemma AdoptHighest(sl: Slot, pa: PrepareAck)
    requires sl.p1.None? <==> sl.p1Ballot == 0
    requires pa.valueBallot == 0 <==> pa.value == []
    ensures var x := Adopt(sl, pa);
            && x == sl.(p1 := x.p1, p1Ballot := x.p1Ballot)
            && x.p1Ballot == Max(sl.p1Ballot, pa.valueBallot)
            && (if pa.valueBallot > sl.p1Ballot then x.p1 == Some(pa.value) else x.p1 == sl.p1)
  {
  }

  /** Counting a promise that is on the network keeps the slot's count honest. */
  lemma SavedPhase1(r: Rules, s: State, d: Decisions, sl: Slot, x: Promise)
    requires Phase1Ok(r, s, d, sl) && PromiseOk(r, s, d, x) && sl.status == P1Pending
    requires x.ack.iid == sl.iid && x.ack.ballot == sl.ballot
    requires r.repairs.countDistinct ==> sl.bits == sl.heard && sl.count == |sl.heard|
    requires r.promisesDuplicate ==> r.repairs.countDistinct
    requires !r.promisesDuplicate ==> NotInSlot(d, x, sl)
    ensures var y := SaveAck(r.repairs, sl, x.ack, x.acceptor);
            && Phase1Ok(r, s, d, y)
            && y.iid == sl.iid && y.ballot == sl.ballot && y.status == P1Pending && y.p2 == sl.p2
            && (r.repairs.countDistinct ==> y.bits == y.heard && y.count == |y.heard|)
            && sl.heard <= y.heard <= sl.heard + {x.acceptor} && sl.p1Ballot <= y.p1Ballot
            && (x.acceptor in y.heard && x.acceptor !in sl.heard ==> x.ack.valueBallot <= y.p1Ballot)
  {
    var y := SaveAck(r.repairs, sl, x.ack, x.acceptor);
    if y != sl {
      AdoptHighest(sl, x.ack);
      var m := Max(sl.p1Ballot, x.ack.valueBallot);
      forall a | a in y.heard
        ensures PromiseHolds(r, s, d, a, sl.iid, sl.ballot, m)
      {
        if a in sl.heard {
          HigherReport(r, s, d, a, sl.iid, sl.ballot, sl.p1Ballot, m);
        } else {
          HigherReport(r, s, d, a, sl.iid, sl.ballot, x.ack.valueBallot, m);
        }
      }
    }
  }

  /** The slot after handle_prepare_ack has counted the promise. */
  lemma CountedSlot(r: Rules, s: State, d: Decisions, p: nat, k: nat, x: Promise)
    requires r.Valid() && r.repairs.checkIid && ProposerSide(r, s, d)
    requires r.promisesDuplicate ==> r.repairs.countDistinct
    requires p in s.proposers && k in s.proposers[p].table && x in s.promises
    requires Relevant(r.repairs, s.proposers[p].table[k], x.ack)
    ensures var sl := s.proposers[p].table[k]; var y := HandleAck(r.repairs, r.n, sl, x.ack, x.acceptor);
            && SlotShape(r, p, s.proposers[p], k, y) && Phase1Ok(r, s, d, y)
            && InPhase1(y) && y.iid == sl.iid && y.ballot == sl.ballot
            && sl.heard <= y.heard <= sl.heard + {x.acceptor} && sl.p1Ballot <= y.p1Ballot
            && (x.acceptor in y.heard && x.acceptor !in sl.heard ==> x.ack.valueBallot <= y.p1Ballot)
  {
    var sl := s.proposers[p].table[k];
    assert SlotShape(r, p, s.proposers[p], k, sl);
    assert Phase1Ok(r, s, d, sl) && PromiseOk(r, s, d, x);
    assert !r.promisesDuplicate ==> NotInSlot(d, x, sl);
    SavedPhase1(r, s, d, sl, x);
    var y := SaveAck(r.repairs, sl, x.ack, x.acceptor);
    if y.count >= Quorum(r.n) {
      ReadyPhase1(r, s, d, y);
    }
  }

  lemma ReadyPhase1(r: Rules, s: State, d: Decisions, sl: Slot)
    requires Phase1Ok(r, s, d, sl) && sl.count >= Quorum(r.n)
    ensures Phase1Ok(r, s, d, sl.(status := P1Ready))
  {
  }

  lemma CountedFresh(r: Rules, s: State, d: Decisions, p: nat, k: nat, x: Promise, y: Slot, e: Issue)
    requires ProposersOk(r, s) && AllFresh(r, s, d) && TokensOk(r, s, d)
    requires r.promisesDuplicate ==> !r.reelection
    requires p in s.proposers && k in s.proposers[p].table && x in s.promises && e in s.issues
    requires var sl := s.proposers[p].table[k];
             InPhase1(sl) && x.ack.iid == sl.iid && x.ack.ballot == sl.ballot
             && y.iid == sl.iid && y.ballot == sl.ballot && y.heard <= sl.heard + {x.acceptor}
    ensures Fresh(r, d, p, y, e)
  {
    var sl := s.proposers[p].table[k];
    assert Fresh(r, d, p, sl, e);
    assert SlotShape(r, p, s.proposers[p], k, sl);
    if !r.promisesDuplicate {
      assert NotInIssue(d, x, e);
    }
  }

  lemma CountedTokens(r: Rules, s: State, d: Decisions, p: nat, k: nat, x: Promise, y: Slot, z: Promise)
    requires TokensOk(r, s, d) && !r.promisesDuplicate
    requires p in s.proposers && k in s.proposers[p].table && x in s.promises && z in s.promises - multiset{x}
    requires var sl := s.proposers[p].table[k];
             InPhase1(sl) && x.ack.iid == sl.iid && x.ack.ballot == sl.ballot
             && y.iid == sl.iid && y.ballot == sl.ballot && y.heard <= sl.heard + {x.acceptor} && sl.p1Ballot <= y.p1Ballot
             && (x.acceptor in y.heard && x.acceptor !in sl.heard ==> x.ack.valueBallot <= y.p1Ballot)
    ensures NotInSlot(d, z, y)
  {
    var sl := s.proposers[p].table[k];
    assert z in s.promises;
    assert NotInSlot(d, z, sl);
    if Plain(d, z) && Plain(d, x) && SameBallot(x, z) {
      assert s.promises[x] == 1;
    }
  }

  /** handle_prepare_ack leaves a good slot, and the promise is used up unless it can be duplicated. */
  lemma CountedGood(r: Rules, s: State, d: Decisions, t: State, p: nat, k: nat, x: Promise)
    requires r.Valid() && r.repairs.checkIid && ProposerSide(r, s, d)
    requires r.promisesDuplicate ==> r.repairs.countDistinct && !r.reelection
    requires p in s.proposers && k in s.proposers[p].table && x in s.promises
    requires t.records == s.records && t.votes == s.votes && t.issues == s.issues
    requires t.promises == if r.promisesDuplicate then s.promises else s.promises - multiset{x}
    requires Relevant(r.repairs, s.proposers[p].table[k], x.ack)
    ensures SlotGood(r, t, d, p, s.proposers[p], k, HandleAck(r.repairs, r.n, s.proposers[p].table[k], x.ack, x.acceptor))
  {
    var y := HandleAck(r.repairs, r.n, s.proposers[p].table[k], x.ack, x.acceptor);
    CountedSlot(r, s, d, p, k, x);
    CarryPhase1(r, s, d, t, d, y);
    forall e | e in t.issues
      ensures Fresh(r, d, p, y, e)
    {
      CountedFresh(r, s, d, p, k, x, y, e);
    }
    if !r.promisesDuplicate {
      forall z | z in t.promises
        ensures NotInSlot(d, z, y)
      {
        CountedTokens(r, s, d, p, k, x, y, z);
      }
    }
  }

  lemma HandledGood(r: Rules, s: State, d: Decisions, t: State, p: nat, k: nat, x: Promise)
    requires r.Valid() && r.repairs.checkIid && ProposerSide(r, s, d)
    requires r.promisesDuplicate ==> r.repairs.countDistinct && !r.reelection
    requires p in s.proposers && k in s.proposers[p].table && x in s.promises
    requires t.records == s.records && t.votes == s.votes && t.issues == s.issues
    requires t.promises == if r.promisesDuplicate then s.promises else s.promises - multiset{x}
    ensures SlotGood(r, t, d, p, s.proposers[p], k, HandleAck(r.repairs, r.n, s.proposers[p].table[k], x.ack, x.acceptor))
  {
    if Relevant(r.repairs, s.proposers[p].table[k], x.ack) {
      CountedGood(r, s, d, t, p, k, x);
    } else {
      SlotIsGood(r, s, d, p, k);
      SlotStaysGood(r, s, d, t, p, s.proposers[p], s.proposers[p], k, s.proposers[p].table[k]);
    }
  }

  lemma FewerTokens(r: Rules, s: State, d: Decisions, t: State)
    requires TokensOk(r, s, d) && t == s.(promises := t.promises) && t.promises <= s.promises
    ensures TokensOk(r, t, d)
  {
    if !r.promisesDuplicate {
      forall x, p, k | x in t.promises && p in t.proposers && k in t.proposers[p].table
        ensures NotInSlot(d, x, t.proposers[p].table[k])
      {
        assert NotInSlot(d, x, s.proposers[p].table[k]);
      }
      forall x, e | x in t.promises && e in t.issues
        ensures NotInIssue(d, x, e)
      {
        assert NotInIssue(d, x, e);
      }
    }
  }

  lemma LostPromise(r: Rules, s: State, d: Decisions, t: State)
    requires ProposerSide(r, s, d) && t == s.(promises := t.promises) && t.promises <= s.promises
    ensures ProposerSide(r, t, d)
  {
    SameSlots(r, s, d, t);
    FewerPromises(r, s, d, t);
    FewerTokens(r, s, d, t);
  }

  lemma SameSlots(r: Rules, s: State, d: Decisions, t: State)
    requires ProposersOk(r, s) && SlotsOk(r, s, d) && AllFresh(r, s, d) && OpenedOnce(r, s)
    requires t == s.(promises := t.promises)
    ensures ProposersOk(r, t) && SlotsOk(r, t, d) && AllFresh(r, t, d) && OpenedOnce(r, t)
  {
    CarryProposers(r, s, d, t, d);
  }

  lemma PromisedProposers(r: Rules, s: State, d: Decisions, p: nat, x: Promise)
    requires r.Valid() && r.repairs.checkIid && ProposerSide(r, s, d) && Enabled(r, s, Promised(p, x))
    requires r.promisesDuplicate ==> r.repairs.countDistinct && !r.reelection
    ensures ProposerSide(r, Do(r, s, Promised(p, x)), d)
  {
    var t := Do(r, s, Promised(p, x));
    var k := Index(x.ack.iid, r.ring);
    var pro := s.proposers[p];
    if k in pro.table {
      assert SlotShape(r, p, pro, k, pro.table[k]);
      HandledGood(r, s, d, t, p, k, x);
      SlotChange(r, s, d, t, p, k, HandleAck(r.repairs, r.n, pro.table[k], x.ack, x.acceptor), pro.highestOpen);
    } else {
      LostPromise(r, s, d, t);
    }
  }
}
