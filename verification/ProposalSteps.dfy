/** Sending an accept request: the step on which the safety of Paxos rests. The value a leader
    proposes is the only one that could have been chosen below its ballot. */
module ProposalSteps {
  import opened PaxosConfig
  import opened SlotSpec
  import opened Consensus
  import opened ConsensusInvariant
  import opened ConsensusCarries
  import opened AcceptorSteps

  /** Either the slot rests on a quorum of distinct acceptors, or it has adopted a decided value. */
  lemma QuorumOrDecided(r: Rules, s: State, d: Decisions, sl: Slot)
    requires Phase1Ok(r, s, d, sl) && sl.status == P1Ready
    ensures IsQuorum(r.n, sl.heard) || (Past(d, sl.iid, sl.ballot) && Late(d, sl.iid, sl.p1Ballot))
    ensures sl.count == |sl.heard| ==> IsQuorum(r.n, sl.heard)
  {
    forall a | a in sl.heard
      ensures a < r.n
    {
      assert PromiseHolds(r, s, d, a, sl.iid, sl.ballot, sl.p1Ballot);
    }
  }

  /** Above the decision of its instance a leader can only propose the decided value. */
  lemma ProposesDecision(r: Rules, s: State, d: Decisions, sl: Slot, next: Value)
    requires Phase1Ok(r, s, d, sl) && sl.status == P1Ready && DecisionsOk(r, s, d) && VotesOk(r, s, d)
    requires Past(d, sl.iid, sl.ballot)
    ensures Phase2Value(sl, next) == d[sl.iid].value
  {
    var i := sl.iid;
    assert DecisionOk(r, s, i, d[i]);
    QuorumOrDecided(r, s, d, sl);
    if !Late(d, i, sl.p1Ballot) {
      var a := QuorumsIntersect(r.n, sl.heard, d[i].quorum);
      assert false;
    }
    DecisionPositive(r, s, d, i);
    if sl.p1.Some? {
      SupportIssued(r, s, d, sl.heard, i, sl.p1Ballot, sl.p1.value);
      var e :| e in s.issues && e.iid == i && e.ballot == sl.p1Ballot && e.value == sl.p1.value;
    }
  }

  /** Below the ballot of a slot that is ready, nothing but its value can be chosen. */
  lemma ReadySafe(r: Rules, s: State, d: Decisions, sl: Slot, next: Value, c: nat, w: Value, q: set<nat>)
    requires Phase1Ok(r, s, d, sl) && sl.status == P1Ready
    requires VotesOk(r, s, d) && OneValuePerBallot(s) && ProposalsSafe(r, s, d)
    requires !Past(d, sl.iid, sl.ballot) && c < sl.ballot && Choosable(r, s, sl.iid, c, w, q)
    ensures w == Phase2Value(sl, next)
  {
    var i := sl.iid;
    QuorumOrDecided(r, s, d, sl);
    var a := QuorumsIntersect(r.n, sl.heard, q);
    assert PromiseHolds(r, s, d, a, i, sl.ballot, sl.p1Ballot);
    assert Keeps(s, d, a, i, sl.ballot);
    assert !MayVote(s, a, i, c);
    assert Voted(s, a, i, c, w);
    assert VoteOk(r, s, d, Vote(a, i, c, w));
    assert c <= sl.p1Ballot;
    SupportIssued(r, s, d, sl.heard, i, sl.p1Ballot, sl.p1.value);
    var e :| e in s.issues && e.iid == i && e.ballot == sl.p1Ballot && e.value == sl.p1.value;
    if c < sl.p1Ballot {
      assert Choosable(r, s, e.iid, c, w, q);
    } else {
      var f :| f in s.issues && f.iid == i && f.ballot == c && f.value == w;
    }
  }

  /** No request was made before with the same ballot, unless for the decided value. */
  lemma BallotUnused(r: Rules, s: State, d: Decisions, p: nat, k: nat, e: Issue)
    requires ProposersOk(r, s) && SlotsOk(r, s, d) && AllFresh(r, s, d) && IssuesOk(r, s, d)
    requires p in s.proposers && k in s.proposers[p].table && s.proposers[p].table[k].status == P1Ready
    requires e in s.issues && e.iid == s.proposers[p].table[k].iid && e.ballot == s.proposers[p].table[k].ballot
    ensures Past(d, e.iid, e.ballot)
  {
    var sl := s.proposers[p].table[k];
    assert Fresh(r, d, p, sl, e);
    if !Past(d, e.iid, e.ballot) {
      assert Phase1Ok(r, s, d, sl);
      QuorumOrDecided(r, s, d, sl);
      assert IssueOk(r, s, d, e);
      var a := QuorumsIntersect(r.n, sl.heard, e.from);
    }
  }

  // ---- the step ----

  function Request(sl: Slot, next: Value): Issue {
    Issue(sl.iid, sl.ballot, Phase2Value(sl, next), sl.heard)
  }

  lemma ProposeEvolves(r: Rules, s: State, d: Decisions, t: State)
    requires t.records == s.records && t.votes == s.votes && s.issues <= t.issues
    ensures Evolves(r, s, d, t, d)
  {
  }

  lemma RequestOk(r: Rules, s: State, d: Decisions, t: State, p: nat, k: nat, next: Value)
    requires ProposersOk(r, s) && SlotsOk(r, s, d) && next != []
    requires p in s.proposers && k in s.proposers[p].table && s.proposers[p].table[k].status == P1Ready
    requires Evolves(r, s, d, t, d)
    ensures IssueOk(r, t, d, Request(s.proposers[p].table[k], next))
  {
    var sl := s.proposers[p].table[k];
    assert SlotShape(r, p, s.proposers[p], k, sl);
    assert Phase1Ok(r, s, d, sl);
    QuorumOrDecided(r, s, d, sl);
    if sl.p1.Some? {
      SupportCarries(s, t, sl.heard, sl.iid, sl.p1Ballot, sl.p1.value);
    }
    assert RestsOn(r, t, d, Request(sl, next), sl.p1Ballot);
  }

  lemma ProposeOneValue(r: Rules, s: State, d: Decisions, t: State, p: nat, k: nat, next: Value)
    requires AcceptorSide(r, s, d) && ProposersOk(r, s) && SlotsOk(r, s, d) && AllFresh(r, s, d)
    requires p in s.proposers && k in s.proposers[p].table && s.proposers[p].table[k].status == P1Ready
    requires t.issues == s.issues + {Request(s.proposers[p].table[k], next)}
    ensures OneValuePerBallot(t)
  {
    var sl := s.proposers[p].table[k];
    forall e | e in s.issues && e.iid == sl.iid && e.ballot == sl.ballot
      ensures e.value == Phase2Value(sl, next)
    {
      BallotUnused(r, s, d, p, k, e);
      assert Phase1Ok(r, s, d, sl);
      ProposesDecision(r, s, d, sl, next);
      assert DecisionOk(r, s, e.iid, d[e.iid]);
    }
  }

  lemma ProposeSafe(r: Rules, s: State, d: Decisions, t: State, p: nat, k: nat, next: Value)
    requires AcceptorSide(r, s, d) && SlotsOk(r, s, d)
    requires p in s.proposers && k in s.proposers[p].table && s.proposers[p].table[k].status == P1Ready
    requires t.records == s.records && t.votes == s.votes
    requires t.issues == s.issues + {Request(s.proposers[p].table[k], next)}
    ensures ProposalsSafe(r, t, d)
  {
    var sl := s.proposers[p].table[k];
    forall e, c: nat, w, q | e in t.issues && c < e.ballot && !Late(d, e.iid, c) && Choosable(r, t, e.iid, c, w, q)
      ensures w == e.value
    {
      assert Choosable(r, s, e.iid, c, w, q);
      if e !in s.issues {
        assert Phase1Ok(r, s, d, sl);
        if Past(d, sl.iid, sl.ballot) {
          ProposesDecision(r, s, d, sl, next);
          BelowDecision(r, s, d, sl.iid, c, w, q);
        } else {
          ReadySafe(r, s, d, sl, next, c, w, q);
        }
      }
    }
  }

  /** Below a decision only the decided value can still be chosen. */
  lemma BelowDecision(r: Rules, s: State, d: Decisions, i: nat, c: nat, w: Value, q: set<nat>)
    requires VotesOk(r, s, d) && ProposalsSafe(r, s, d) && DecisionsOk(r, s, d)
    requires i in d && !Late(d, i, c) && Choosable(r, s, i, c, w, q)
    ensures w == d[i].value
  {
    assert DecisionOk(r, s, i, d[i]);
    var a := QuorumsIntersect(r.n, d[i].quorum, d[i].quorum);
    assert VoteOk(r, s, d, Vote(a, i, d[i].ballot, d[i].value));
    var e :| e in s.issues && e.iid == i && e.ballot == d[i].ballot && e.value == d[i].value;
    assert Choosable(r, s, e.iid, c, w, q);
  }

  /** A request above a decision repeats it, and none is made in the ballot of the decision. */
  lemma ProposeDecision(r: Rules, s: State, d: Decisions, p: nat, k: nat, next: Value, i: nat)
    requires AcceptorSide(r, s, d) && ProposersOk(r, s) && SlotsOk(r, s, d) && AllFresh(r, s, d)
    requires p in s.proposers && k in s.proposers[p].table && s.proposers[p].table[k].status == P1Ready
    requires i in d && i == s.proposers[p].table[k].iid && s.proposers[p].table[k].ballot >= d[i].ballot
    ensures Phase2Value(s.proposers[p].table[k], next) == d[i].value
  {
    var sl := s.proposers[p].table[k];
    assert DecisionOk(r, s, i, d[i]);
    assert Phase1Ok(r, s, d, sl);
    if sl.ballot == d[i].ballot {
      var a := QuorumsIntersect(r.n, d[i].quorum, d[i].quorum);
      assert VoteOk(r, s, d, Vote(a, i, d[i].ballot, d[i].value));
      var e :| e in s.issues && e.iid == i && e.ballot == d[i].ballot && e.value == d[i].value;
      BallotUnused(r, s, d, p, k, e);
    } else {
      ProposesDecision(r, s, d, sl, next);
    }
  }

  lemma DecisionStays(r: Rules, s: State, t: State, sl: Slot, next: Value, i: nat, x: Decision)
    requires DecisionOk(r, s, i, x) && t.records == s.records && t.votes == s.votes
    requires t.issues == s.issues + {Request(sl, next)}
    requires i == sl.iid && sl.ballot >= x.ballot ==> Phase2Value(sl, next) == x.value
    ensures DecisionOk(r, t, i, x)
  {
  }

  lemma ProposeDecisions(r: Rules, s: State, d: Decisions, t: State, p: nat, k: nat, next: Value)
    requires AcceptorSide(r, s, d) && ProposersOk(r, s) && SlotsOk(r, s, d) && AllFresh(r, s, d)
    requires p in s.proposers && k in s.proposers[p].table && s.proposers[p].table[k].status == P1Ready
    requires t.records == s.records && t.votes == s.votes
    requires t.issues == s.issues + {Request(s.proposers[p].table[k], next)}
    ensures DecisionsOk(r, t, d)
  {
    var sl := s.proposers[p].table[k];
    forall i | i in d
      ensures DecisionOk(r, t, i, d[i])
    {
      assert DecisionOk(r, s, i, d[i]);
      if i == sl.iid && sl.ballot >= d[i].ballot {
        ProposeDecision(r, s, d, p, k, next, i);
      }
      DecisionStays(r, s, t, sl, next, i, d[i]);
    }
  }

  lemma ProposeAcceptors(r: Rules, s: State, d: Decisions, t: State, p: nat, k: nat, next: Value)
    requires AcceptorSide(r, s, d) && ProposersOk(r, s) && SlotsOk(r, s, d) && AllFresh(r, s, d) && next != []
    requires p in s.proposers && k in s.proposers[p].table && s.proposers[p].table[k].status == P1Ready
    requires t.records == s.records && t.votes == s.votes
    requires t.issues == s.issues + {Request(s.proposers[p].table[k], next)}
    ensures AcceptorSide(r, t, d)
  {
    ProposeEvolves(r, s, d, t);
    RequestOk(r, s, d, t, p, k, next);
    CarryIssues(r, s, d, t, d);
    ProposeOneValue(r, s, d, t, p, k, next);
    ProposeSafe(r, s, d, t, p, k, next);
    ProposeDecisions(r, s, d, t, p, k, next);
    MoreIssues(r, s, d, t);
  }

  lemma MoreIssues(r: Rules, s: State, d: Decisions, t: State)
    requires RecordsOk(r, s, d) && VotesOk(r, s, d)
    requires t.records == s.records && t.votes == s.votes && s.issues <= t.issues
    ensures RecordsOk(r, t, d) && VotesOk(r, t, d)
  {
    forall k | k in t.records
      ensures RecordOk(r, t, d, k.acceptor, k.iid, t.records[k])
    {
      assert RecordOk(r, s, d, k.acceptor, k.iid, s.records[k]);
    }
    forall v | v in t.votes
      ensures VoteOk(r, t, d, v)
    {
      assert VoteOk(r, s, d, v);
      IssuedCarries(s, t, v.iid, v.ballot, v.value);
    }
  }

  // ---- and the proposers' side of it ----

  lemma ProposeFresh(r: Rules, s: State, d: Decisions, t: State, p: nat, k: nat, next: Value)
    requires ProposersOk(r, s) && AllFresh(r, s, d)
    requires p in s.proposers && k in s.proposers[p].table && s.proposers[p].table[k].status == P1Ready
    requires t.proposers == s.proposers[p := s.proposers[p].(table := s.proposers[p].table[k := StartPhase2(s.proposers[p].table[k], next)])]
    requires t.issues == s.issues + {Request(s.proposers[p].table[k], next)}
    ensures AllFresh(r, t, d)
  {
    var mine := s.proposers[p].table[k];
    assert SlotShape(r, p, s.proposers[p], k, mine);
    forall q, j, e | q in t.proposers && j in t.proposers[q].table && e in t.issues
      ensures Fresh(r, d, q, t.proposers[q].table[j], e)
    {
      var sl := s.proposers[q].table[j];
      assert SlotShape(r, q, s.proposers[q], j, sl);
      if e in s.issues {
        assert Fresh(r, d, q, sl, e);
      }
    }
  }

  lemma ProposeSlots(r: Rules, s: State, d: Decisions, t: State, p: nat, k: nat, next: Value)
    requires ProposersOk(r, s) && SlotsOk(r, s, d) && OpenedOnce(r, s) && next != []
    requires p in s.proposers && k in s.proposers[p].table && s.proposers[p].table[k].status == P1Ready
    requires t.records == s.records && t.votes == s.votes
    requires t.proposers == s.proposers[p := s.proposers[p].(table := s.proposers[p].table[k := StartPhase2(s.proposers[p].table[k], next)])]
    requires t.issues == s.issues + {Request(s.proposers[p].table[k], next)}
    ensures ProposersOk(r, t) && SlotsOk(r, t, d) && OpenedOnce(r, t)
  {
    var mine := s.proposers[p].table[k];
    assert SlotShape(r, p, s.proposers[p], k, mine);
    assert Phase1Ok(r, s, d, mine);
    forall q, j | q in t.proposers && j in t.proposers[q].table
      ensures SlotShape(r, q, t.proposers[q], j, t.proposers[q].table[j])
    {
      assert SlotShape(r, q, s.proposers[q], j, s.proposers[q].table[j]);
    }
    ProposeEvolves(r, s, d, t);
    forall q, j | q in t.proposers && j in t.proposers[q].table && InPhase1(t.proposers[q].table[j])
      ensures Phase1Ok(r, t, d, t.proposers[q].table[j])
    {
      CarryPhase1(r, s, d, t, d, s.proposers[q].table[j]);
    }
  }

  lemma ProposeTokens(r: Rules, s: State, d: Decisions, t: State, p: nat, k: nat, next: Value)
    requires TokensOk(r, s, d)
    requires p in s.proposers && k in s.proposers[p].table && s.proposers[p].table[k].status == P1Ready
    requires t.promises == s.promises
    requires t.proposers == s.proposers[p := s.proposers[p].(table := s.proposers[p].table[k := StartPhase2(s.proposers[p].table[k], next)])]
    requires t.issues == s.issues + {Request(s.proposers[p].table[k], next)}
    ensures TokensOk(r, t, d)
  {
    if !r.promisesDuplicate {
      forall x, q, j | x in t.promises && q in t.proposers && j in t.proposers[q].table
        ensures NotInSlot(d, x, t.proposers[q].table[j])
      {
        assert NotInSlot(d, x, s.proposers[q].table[j]);
      }
      forall x, e | x in t.promises && e in t.issues
        ensures NotInIssue(d, x, e)
      {
        if e in s.issues {
          assert NotInIssue(d, x, e);
        } else {
          assert NotInSlot(d, x, s.proposers[p].table[k]);
        }
      }
    }
  }

  lemma ProposeProposers(r: Rules, s: State, d: Decisions, t: State, p: nat, k: nat, next: Value)
    requires ProposerSide(r, s, d) && next != []
    requires p in s.proposers && k in s.proposers[p].table && s.proposers[p].table[k].status == P1Ready
    requires t.records == s.records && t.votes == s.votes && t.promises == s.promises
    requires t.proposers == s.proposers[p := s.proposers[p].(table := s.proposers[p].table[k := StartPhase2(s.proposers[p].table[k], next)])]
    requires t.issues == s.issues + {Request(s.proposers[p].table[k], next)}
    ensures ProposerSide(r, t, d)
  {
    ProposeFresh(r, s, d, t, p, k, next);
    ProposeSlots(r, s, d, t, p, k, next);
    ProposeTokens(r, s, d, t, p, k, next);
    ProposeEvolves(r, s, d, t);
    CarryPromises(r, s, d, t, d);
  }

  lemma ProposeIs(r: Rules, s: State, p: nat, k: nat, next: Value)
    requires r.Valid() && Enabled(r, s, Propose(p, k, next))
    ensures p in s.proposers && k in s.proposers[p].table
    ensures var t := Do(r, s, Propose(p, k, next));
            && t == s.(proposers := t.proposers, issues := t.issues)
            && t.proposers == s.proposers[p := s.proposers[p].(table := s.proposers[p].table[k := StartPhase2(s.proposers[p].table[k], next)])]
            && t.issues == s.issues + {Request(s.proposers[p].table[k], next)}
  {
  }
}
