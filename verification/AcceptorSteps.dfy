/** The acceptors' steps keep the invariant: promising, accepting, repeating, and storing a
    delivered value over a record. */
module AcceptorSteps {
  import opened PaxosConfig
  import opened Messages
  import opened Consensus
  import opened ConsensusInvariant
  import opened ConsensusCarries
  import A = AcceptorSpec

  // ---- Prepare ----

  function NewPromise(r: Rules, s: State, a: nat, pr: PrepareReq): Promise
    requires A.ApplyPrepare(pr, RecordAt(s, a, pr.iid)).Some?
  {
    Promise(a, A.PromiseOf(A.ApplyPrepare(pr, RecordAt(s, a, pr.iid)).value))
  }

  lemma PrepareEvolves(r: Rules, s: State, d: Decisions, a: nat, pr: PrepareReq)
    requires r.Valid() && Enabled(r, s, Prepare(a, pr)) && RecordsOk(r, s, d)
    ensures Evolves(r, s, d, Do(r, s, Prepare(a, pr)), d)
  {
    var t := Do(r, s, Prepare(a, pr));
    if Key(a, pr.iid) in s.records {
      assert RecordOk(r, s, d, a, pr.iid, s.records[Key(a, pr.iid)]);
    }
    forall b: nat, i: nat, c: nat, m: nat | PromiseHolds(r, s, d, b, i, c, m)
      ensures PromiseHolds(r, t, d, b, i, c, m)
    {
      assert Keeps(s, d, b, i, c);
    }
  }

  lemma PrepareSafety(r: Rules, s: State, d: Decisions, a: nat, pr: PrepareReq)
    requires r.Valid() && Enabled(r, s, Prepare(a, pr)) && RecordsOk(r, s, d) && ProposalsSafe(r, s, d)
    ensures ProposalsSafe(r, Do(r, s, Prepare(a, pr)), d)
  {
    if Key(a, pr.iid) in s.records {
      assert RecordOk(r, s, d, a, pr.iid, s.records[Key(a, pr.iid)]);
    }
    CarrySafety(r, s, d, Do(r, s, Prepare(a, pr)), d);
  }

  lemma PrepareVotes(r: Rules, s: State, d: Decisions, a: nat, pr: PrepareReq)
    requires r.Valid() && Enabled(r, s, Prepare(a, pr)) && pr.ballot > 0
    requires RecordsOk(r, s, d) && VotesOk(r, s, d) && DecisionsOk(r, s, d)
    ensures var t := Do(r, s, Prepare(a, pr)); VotesOk(r, t, d) && DecisionsOk(r, t, d)
  {
    var t := Do(r, s, Prepare(a, pr));
    forall v | v in t.votes
      ensures VoteOk(r, t, d, v)
    {
      assert VoteOk(r, s, d, v);
      IssuedCarries(s, t, v.iid, v.ballot, v.value);
    }
    forall i | i in d
      ensures DecisionOk(r, t, i, d[i])
    {
      assert DecisionOk(r, s, i, d[i]);
    }
  }

  lemma PrepareRecords(r: Rules, s: State, d: Decisions, a: nat, pr: PrepareReq)
    requires r.Valid() && Enabled(r, s, Prepare(a, pr)) && pr.ballot > 0
    requires RecordsOk(r, s, d) && VotesOk(r, s, d) && DecisionsOk(r, s, d)
    ensures var t := Do(r, s, Prepare(a, pr)); RecordsOk(r, t, d) && VotesOk(r, t, d) && DecisionsOk(r, t, d)
  {
    var t := Do(r, s, Prepare(a, pr));
    forall k | k in t.records
      ensures RecordOk(r, t, d, k.acceptor, k.iid, t.records[k])
    {
      if k in s.records {
        assert RecordOk(r, s, d, k.acceptor, k.iid, s.records[k]);
      }
    }
    PrepareVotes(r, s, d, a, pr);
  }

  /** The promise an acceptor makes says all there is to say about its votes. */
  lemma PreparePromise(r: Rules, s: State, d: Decisions, a: nat, pr: PrepareReq)
    requires r.Valid() && Enabled(r, s, Prepare(a, pr)) && pr.ballot > 0
    requires RecordsOk(r, s, d) && VotesOk(r, s, d) && DecisionsOk(r, s, d)
    ensures var t := Do(r, s, Prepare(a, pr));
            PromiseOk(r, t, d, NewPromise(r, s, a, pr))
  {
    var t := Do(r, s, Prepare(a, pr));
    var x := NewPromise(r, s, a, pr);
    var key := Key(a, pr.iid);
    if key in s.records {
      assert RecordOk(r, s, d, a, pr.iid, s.records[key]);
    }
    forall v | v in t.votes && v.acceptor == a && v.iid == pr.iid && v.ballot < pr.ballot
      ensures v.ballot <= x.ack.valueBallot || Late(d, pr.iid, v.ballot)
    {
      assert VoteOk(r, s, d, v);
    }
    if x.ack.value != [] {
      assert Voted(s, a, pr.iid, x.ack.valueBallot, x.ack.value);
    }
    if Past(d, pr.iid, pr.ballot) && a in d[pr.iid].quorum {
      assert DecisionOk(r, s, pr.iid, d[pr.iid]);
    }
  }

  /** An acceptor that has promised a ballot before does it again only with a decided value. */
  lemma PromisedBefore(r: Rules, s: State, d: Decisions, a: nat, pr: PrepareReq)
    requires r.Valid() && Enabled(r, s, Prepare(a, pr)) && RecordsOk(r, s, d)
    requires Keeps(s, d, a, pr.iid, pr.ballot)
    ensures !Plain(d, NewPromise(r, s, a, pr))
  {
    assert RecordOk(r, s, d, a, pr.iid, s.records[Key(a, pr.iid)]);
  }

  lemma PromisedOnce(r: Rules, s: State, d: Decisions, a: nat, pr: PrepareReq, y: Promise)
    requires r.Valid() && Enabled(r, s, Prepare(a, pr)) && RecordsOk(r, s, d) && PromisesOk(r, s, d)
    requires y in s.promises && SameBallot(NewPromise(r, s, a, pr), y)
    ensures !Plain(d, NewPromise(r, s, a, pr))
  {
    if Key(a, pr.iid) in s.records {
      assert RecordOk(r, s, d, a, pr.iid, s.records[Key(a, pr.iid)]);
    }
    assert PromiseOk(r, s, d, y);
    PromisedBefore(r, s, d, a, pr);
  }

  lemma OneMorePromise(s: State, d: Decisions, t: State, x: Promise)
    requires OnePromise(s, d) && t.promises == s.promises + multiset{x}
    requires forall y :: y in s.promises && SameBallot(x, y) ==> !Plain(d, x)
    ensures OnePromise(t, d)
  {
    assert x in s.promises ==> SameBallot(x, x);
    assert forall y :: y in s.promises && SameBallot(y, x) && Plain(d, x) ==> !SameBallot(x, y);
  }

  lemma PrepareOnePromise(r: Rules, s: State, d: Decisions, a: nat, pr: PrepareReq)
    requires r.Valid() && Enabled(r, s, Prepare(a, pr)) && RecordsOk(r, s, d) && PromisesOk(r, s, d) && OnePromise(s, d)
    ensures OnePromise(Do(r, s, Prepare(a, pr)), d)
  {
    var x := NewPromise(r, s, a, pr);
    assert Do(r, s, Prepare(a, pr)).promises == s.promises + multiset{x};
    forall y | y in s.promises && SameBallot(x, y)
      ensures !Plain(d, x)
    {
      PromisedOnce(r, s, d, a, pr, y);
    }
    OneMorePromise(s, d, Do(r, s, Prepare(a, pr)), x);
  }

  lemma PrepareNotCounted(r: Rules, s: State, d: Decisions, a: nat, pr: PrepareReq)
    requires r.Valid() && Enabled(r, s, Prepare(a, pr)) && RecordsOk(r, s, d) && SlotsOk(r, s, d) && IssuesOk(r, s, d)
    requires NotCounted(s, d)
    ensures NotCounted(Do(r, s, Prepare(a, pr)), d)
  {
    var t := Do(r, s, Prepare(a, pr));
    var x := NewPromise(r, s, a, pr);
    if Key(a, pr.iid) in s.records {
      assert RecordOk(r, s, d, a, pr.iid, s.records[Key(a, pr.iid)]);
    }
    forall p, k | p in s.proposers && k in s.proposers[p].table
      ensures NotInSlot(d, x, s.proposers[p].table[k])
    {
      var sl := s.proposers[p].table[k];
      if InPhase1(sl) && a in sl.heard && sl.iid == pr.iid && sl.ballot == pr.ballot {
        assert Phase1Ok(r, s, d, sl);
        assert PromiseHolds(r, s, d, a, sl.iid, sl.ballot, sl.p1Ballot);
        PromisedBefore(r, s, d, a, pr);
      }
    }
    forall e | e in s.issues
      ensures NotInIssue(d, x, e)
    {
      assert IssueOk(r, s, d, e);
      var m :| RestsOn(r, s, d, e, m);
      if a in e.from && e.iid == pr.iid && e.ballot == pr.ballot {
        assert PromiseHolds(r, s, d, a, e.iid, e.ballot, m);
        PromisedBefore(r, s, d, a, pr);
      }
    }
    assert forall y :: y in t.promises ==> y in s.promises || y == x;
  }

  /** A promise for a ballot is made once, unless it reports a decided value. */
  lemma PrepareTokens(r: Rules, s: State, d: Decisions, a: nat, pr: PrepareReq)
    requires r.Valid() && Enabled(r, s, Prepare(a, pr)) && RecordsOk(r, s, d)
    requires PromisesOk(r, s, d) && SlotsOk(r, s, d) && IssuesOk(r, s, d) && TokensOk(r, s, d)
    ensures TokensOk(r, Do(r, s, Prepare(a, pr)), d)
  {
    if !r.promisesDuplicate {
      PrepareOnePromise(r, s, d, a, pr);
      PrepareNotCounted(r, s, d, a, pr);
    }
  }

  lemma PrepareAcceptors(r: Rules, s: State, d: Decisions, a: nat, pr: PrepareReq)
    requires r.Valid() && AcceptorSide(r, s, d) && Enabled(r, s, Prepare(a, pr)) && pr.ballot > 0
    ensures AcceptorSide(r, Do(r, s, Prepare(a, pr)), d)
  {
    PrepareEvolves(r, s, d, a, pr);
    PrepareRecords(r, s, d, a, pr);
    PrepareSafety(r, s, d, a, pr);
    CarryIssues(r, s, d, Do(r, s, Prepare(a, pr)), d);
  }

  lemma PrepareProposers(r: Rules, s: State, d: Decisions, a: nat, pr: PrepareReq)
    requires r.Valid() && Enabled(r, s, Prepare(a, pr)) && pr.ballot > 0
    requires RecordsOk(r, s, d) && VotesOk(r, s, d) && DecisionsOk(r, s, d) && IssuesOk(r, s, d) && ProposerSide(r, s, d)
    ensures ProposerSide(r, Do(r, s, Prepare(a, pr)), d)
  {
    var t := Do(r, s, Prepare(a, pr));
    PrepareEvolves(r, s, d, a, pr);
    PreparePromise(r, s, d, a, pr);
    CarryPromises(r, s, d, t, d);
    CarryProposers(r, s, d, t, d);
    PrepareTokens(r, s, d, a, pr);
  }

  // ---- Accept ----

  lemma AcceptEvolves(r: Rules, s: State, d: Decisions, a: nat, e: Issue)
    requires r.Valid() && r.repairs.acceptGuard && Enabled(r, s, Accept(a, e)) && RecordsOk(r, s, d)
    ensures Evolves(r, s, d, Do(r, s, Accept(a, e)), d)
  {
    var t := Do(r, s, Accept(a, e));
    var key := Key(a, e.iid);
    if key in s.records {
      assert RecordOk(r, s, d, a, e.iid, s.records[key]);
    }
    forall b: nat, i: nat, c: nat, m: nat | PromiseHolds(r, s, d, b, i, c, m)
      ensures PromiseHolds(r, t, d, b, i, c, m)
    {
      assert Keeps(s, d, b, i, c);
    }
  }

  lemma AcceptRecords(r: Rules, s: State, d: Decisions, a: nat, e: Issue)
    requires r.Valid() && Enabled(r, s, Accept(a, e)) && RecordsOk(r, s, d) && e.value != [] && e.ballot > 0
    ensures RecordsOk(r, Do(r, s, Accept(a, e)), d)
  {
    var t := Do(r, s, Accept(a, e));
    forall k | k in t.records
      ensures RecordOk(r, t, d, k.acceptor, k.iid, t.records[k])
    {
      if k != Key(a, e.iid) {
        assert RecordOk(r, s, d, k.acceptor, k.iid, s.records[k]);
      }
    }
  }

  lemma AcceptVotes(r: Rules, s: State, d: Decisions, a: nat, e: Issue)
    requires r.Valid() && r.repairs.acceptGuard && Enabled(r, s, Accept(a, e)) && e.value != [] && e.ballot > 0
    requires RecordsOk(r, s, d) && VotesOk(r, s, d)
    ensures VotesOk(r, Do(r, s, Accept(a, e)), d)
  {
    var t := Do(r, s, Accept(a, e));
    if Key(a, e.iid) in s.records {
      assert RecordOk(r, s, d, a, e.iid, s.records[Key(a, e.iid)]);
    }
    forall v | v in t.votes
      ensures VoteOk(r, t, d, v)
    {
      if v in s.votes {
        assert VoteOk(r, s, d, v);
        IssuedCarries(s, t, v.iid, v.ballot, v.value);
      } else {
        assert Issued(t, e.iid, e.ballot, e.value);
      }
    }
  }

  lemma AcceptDecisions(r: Rules, s: State, d: Decisions, a: nat, e: Issue)
    requires r.Valid() && r.repairs.acceptGuard && Enabled(r, s, Accept(a, e)) && RecordsOk(r, s, d) && DecisionsOk(r, s, d)
    ensures DecisionsOk(r, Do(r, s, Accept(a, e)), d)
  {
    var t := Do(r, s, Accept(a, e));
    if Key(a, e.iid) in s.records {
      assert RecordOk(r, s, d, a, e.iid, s.records[Key(a, e.iid)]);
    }
    forall i | i in d
      ensures DecisionOk(r, t, i, d[i])
    {
      assert DecisionOk(r, s, i, d[i]);
    }
  }

  lemma AcceptSafety(r: Rules, s: State, d: Decisions, a: nat, e: Issue)
    requires r.Valid() && r.repairs.acceptGuard && Enabled(r, s, Accept(a, e)) && ProposalsSafe(r, s, d)
    ensures ProposalsSafe(r, Do(r, s, Accept(a, e)), d)
  {
    CarrySafety(r, s, d, Do(r, s, Accept(a, e)), d);
  }

  lemma AcceptAcceptors(r: Rules, s: State, d: Decisions, a: nat, e: Issue)
    requires r.Valid() && r.repairs.acceptGuard && AcceptorSide(r, s, d) && Enabled(r, s, Accept(a, e))
    ensures AcceptorSide(r, Do(r, s, Accept(a, e)), d)
  {
    AcceptEvolves(r, s, d, a, e);
    assert IssueOk(r, s, d, e);
    AcceptRecords(r, s, d, a, e);
    AcceptVotes(r, s, d, a, e);
    AcceptDecisions(r, s, d, a, e);
    AcceptSafety(r, s, d, a, e);
    CarryIssues(r, s, d, Do(r, s, Accept(a, e)), d);
  }

  lemma AcceptLearners(r: Rules, s: State, d: Decisions, a: nat, e: Issue)
    requires r.Valid() && r.repairs.acceptGuard && Enabled(r, s, Accept(a, e))
    requires RecordsOk(r, s, d) && IssuesOk(r, s, d) && LearnerSide(r, s, d)
    ensures LearnerSide(r, Do(r, s, Accept(a, e)), d)
  {
    AcceptEvolves(r, s, d, a, e);
    assert IssueOk(r, s, d, e);
    CarryLearners(r, s, d, Do(r, s, Accept(a, e)), d);
  }

  // ---- Repeat ----

  lemma RepeatLearners(r: Rules, s: State, d: Decisions, a: nat, iid: nat)
    requires r.Valid() && Enabled(r, s, Repeat(a, iid)) && RecordsOk(r, s, d) && LearnerSide(r, s, d)
    ensures LearnerSide(r, Do(r, s, Repeat(a, iid)), d)
  {
    assert RecordOk(r, s, d, a, iid, RecordAt(s, a, iid).value);
    CarryLearners(r, s, d, Do(r, s, Repeat(a, iid)), d);
  }

  /** What is said of acceptors depends on records, votes and requests only. */
  lemma SameAcceptors(r: Rules, s: State, d: Decisions, t: State)
    requires AcceptorSide(r, s, d) && t.records == s.records && t.votes == s.votes && t.issues == s.issues
    ensures AcceptorSide(r, t, d)
  {
    assert Evolves(r, s, d, t, d);
    forall k | k in t.records
      ensures RecordOk(r, t, d, k.acceptor, k.iid, t.records[k])
    {
      assert RecordOk(r, s, d, k.acceptor, k.iid, s.records[k]);
    }
    forall v | v in t.votes
      ensures VoteOk(r, t, d, v)
    {
      assert VoteOk(r, s, d, v);
      IssuedCarries(s, t, v.iid, v.ballot, v.value);
    }
    forall i | i in d
      ensures DecisionOk(r, t, i, d[i])
    {
      assert DecisionOk(r, s, i, d[i]);
    }
    CarryIssues(r, s, d, t, d);
    CarrySafety(r, s, d, t, d);
  }

  /** A step of an acceptor or a learner leaves everything about proposers alone. */
  lemma SameProposers(r: Rules, s: State, d: Decisions, t: State, d': Decisions)
    requires Evolves(r, s, d, t, d') && ProposerSide(r, s, d)
    requires t.proposers == s.proposers && t.issues == s.issues && t.promises == s.promises
    ensures ProposerSide(r, t, d')
  {
    CarryPromises(r, s, d, t, d');
    CarryProposers(r, s, d, t, d');
    CarryTokens(r, s, d, t, d');
  }

  lemma DecisionPositive(r: Rules, s: State, d: Decisions, i: nat)
    requires VotesOk(r, s, d) && DecisionsOk(r, s, d) && i in d
    ensures d[i].ballot > 0
  {
    assert DecisionOk(r, s, i, d[i]);
    var a := QuorumsIntersect(r.n, d[i].quorum, d[i].quorum);
    assert VoteOk(r, s, d, Vote(a, i, d[i].ballot, d[i].value));
  }
}
