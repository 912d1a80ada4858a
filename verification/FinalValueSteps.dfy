/** ACCEPTOR_UPDATE_ON_DELIVER: overwriting a record with a delivered value keeps the invariant,
    although it may lower the acceptor's promise. What makes up for the broken promise is the
    decision: from its ballot on nothing but the decided value is ever proposed. */
module FinalValueSteps {
  import opened PaxosConfig
  import opened Messages
  import opened Consensus
  import opened ConsensusInvariant
  import opened ConsensusCarries
  import opened AcceptorSteps
  import A = AcceptorSpec
  import L = LearnerSpec

  /** A chosen value agrees with the decision of its instance, if there is one. */
  lemma ChosenIsDecided(r: Rules, s: State, d: Decisions, i: nat, b: nat, v: Value, q: set<nat>)
    requires VotesOk(r, s, d) && ProposalsSafe(r, s, d) && DecisionsOk(r, s, d)
    requires QuorumVoted(r, s, q, i, b, v) && i in d
    ensures v == d[i].value
  {
    assert DecisionOk(r, s, i, d[i]);
    if Late(d, i, b) {
      var a := QuorumsIntersect(r.n, q, q);
      assert Voted(s, a, i, b, v);
      assert VoteOk(r, s, d, Vote(a, i, b, v));
    } else {
      var a := QuorumsIntersect(r.n, d[i].quorum, d[i].quorum);
      assert Voted(s, a, i, d[i].ballot, d[i].value);
      assert VoteOk(r, s, d, Vote(a, i, d[i].ballot, d[i].value));
      var e :| e in s.issues && e.iid == i && e.ballot == d[i].ballot && e.value == d[i].value;
      assert Choosable(r, s, e.iid, b, v, q);
    }
  }

  /** The decisions once the choice of v in ballot b is known to be final. */
  function Lowered(d: Decisions, i: nat, b: nat, v: Value, q: set<nat>): Decisions {
    if Late(d, i, b) then d else d[i := Decision(b, v, q)]
  }

  lemma LoweredEvolves(r: Rules, s: State, d: Decisions, i: nat, b: nat, v: Value, q: set<nat>)
    requires VotesOk(r, s, d) && ProposalsSafe(r, s, d) && DecisionsOk(r, s, d)
    requires QuorumVoted(r, s, q, i, b, v)
    ensures Evolves(r, s, d, s, Lowered(d, i, b, v, q))
  {
    var d' := Lowered(d, i, b, v, q);
    if i in d {
      ChosenIsDecided(r, s, d, i, b, v, q);
    }
    forall a: nat, j: nat, c: nat, m: nat | PromiseHolds(r, s, d, a, j, c, m)
      ensures PromiseHolds(r, s, d', a, j, c, m)
    {
      assert Keeps(s, d, a, j, c);
      if j == i && d' != d && Past(d', j, c) && a in q {
        assert Voted(s, a, i, b, v);
      }
    }
  }

  lemma LoweredDecisions(r: Rules, s: State, d: Decisions, i: nat, b: nat, v: Value, q: set<nat>)
    requires VotesOk(r, s, d) && ProposalsSafe(r, s, d) && DecisionsOk(r, s, d) && OneValuePerBallot(s)
    requires QuorumVoted(r, s, q, i, b, v)
    ensures DecisionsOk(r, s, Lowered(d, i, b, v, q))
  {
    var d' := Lowered(d, i, b, v, q);
    if d' != d {
      forall a | a in q
        ensures Key(a, i) in s.records && s.records[Key(a, i)].valueBallot >= b && Issued(s, i, b, v)
      {
        assert Voted(s, a, i, b, v);
        assert VoteOk(r, s, d, Vote(a, i, b, v));
      }
      var a := QuorumsIntersect(r.n, q, q);
      assert Issued(s, i, b, v);
      forall e | e in s.issues && e.iid == i && e.ballot >= b
        ensures e.value == v
      {
        assert Choosable(r, s, e.iid, b, v, q);
      }
      assert DecisionOk(r, s, i, d'[i]);
    }
    forall j | j in d' && j != i
      ensures DecisionOk(r, s, j, d'[j])
    {
      assert DecisionOk(r, s, j, d[j]);
    }
  }

  lemma LoweredAcceptors(r: Rules, s: State, d: Decisions, i: nat, b: nat, v: Value, q: set<nat>)
    requires AcceptorSide(r, s, d) && QuorumVoted(r, s, q, i, b, v)
    ensures AcceptorSide(r, s, Lowered(d, i, b, v, q))
  {
    var d' := Lowered(d, i, b, v, q);
    LoweredEvolves(r, s, d, i, b, v, q);
    LoweredDecisions(r, s, d, i, b, v, q);
    CarryIssues(r, s, d, s, d');
    CarrySafety(r, s, d, s, d');
    WeakerRecords(r, s, d, d');
  }

  lemma WeakerRecords(r: Rules, s: State, d: Decisions, d': Decisions)
    requires Evolves(r, s, d, s, d') && RecordsOk(r, s, d) && VotesOk(r, s, d)
    ensures RecordsOk(r, s, d') && VotesOk(r, s, d')
  {
    forall k | k in s.records
      ensures RecordOk(r, s, d', k.acceptor, k.iid, s.records[k])
    {
      assert RecordOk(r, s, d, k.acceptor, k.iid, s.records[k]);
    }
    forall v | v in s.votes
      ensures VoteOk(r, s, d', v)
    {
      assert VoteOk(r, s, d, v);
    }
  }

  /** What a learner delivers is decided at or below the ballot it delivers it with. */
  lemma Decide(r: Rules, s: State, d: Decisions, i: nat, f: Record) returns (d': Decisions)
    requires AcceptorSide(r, s, d) && Justified(r, s, d, i, f)
    ensures AcceptorSide(r, s, d') && Evolves(r, s, d, s, d')
    ensures Late(d', i, f.ballot) && d'[i].value == f.value
  {
    if f.isFinal {
      return d;
    }
    var q :| QuorumVoted(r, s, q, i, f.valueBallot, f.value);
    d' := Lowered(d, i, f.valueBallot, f.value, q);
    LoweredEvolves(r, s, d, i, f.valueBallot, f.value, q);
    LoweredAcceptors(r, s, d, i, f.valueBallot, f.value, q);
    if i in d {
      ChosenIsDecided(r, s, d, i, f.valueBallot, f.value, q);
    }
  }

  // ---- the overwrite itself ----

  function Overwritten(s: State, a: nat, i: nat, f: Record): State {
    WithRecord(s, a, A.FinalRecord(i, f.ballot, f.value))
  }

  lemma OverwriteEvolves(r: Rules, s: State, d: Decisions, a: nat, i: nat, f: Record)
    requires Late(d, i, f.ballot) && d[i].value == f.value
    ensures Evolves(r, s, d, Overwritten(s, a, i, f), d)
  {
    var t := Overwritten(s, a, i, f);
    forall b: nat, j: nat, c: nat, m: nat | PromiseHolds(r, s, d, b, j, c, m)
      ensures PromiseHolds(r, t, d, b, j, c, m)
    {
      assert Keeps(s, d, b, j, c);
    }
  }

  lemma OverwriteRecords(r: Rules, s: State, d: Decisions, a: nat, i: nat, f: Record)
    requires RecordsOk(r, s, d) && VotesOk(r, s, d) && DecisionsOk(r, s, d)
    requires a < r.n && f.value != [] && f.ballot > 0 && Late(d, i, f.ballot) && d[i].value == f.value
    ensures var t := Overwritten(s, a, i, f); RecordsOk(r, t, d) && VotesOk(r, t, d) && DecisionsOk(r, t, d)
  {
    var t := Overwritten(s, a, i, f);
    forall k | k in t.records
      ensures RecordOk(r, t, d, k.acceptor, k.iid, t.records[k])
    {
      if k != Key(a, i) {
        assert RecordOk(r, s, d, k.acceptor, k.iid, s.records[k]);
      }
    }
    forall v | v in t.votes
      ensures VoteOk(r, t, d, v)
    {
      assert VoteOk(r, s, d, v);
      IssuedCarries(s, t, v.iid, v.ballot, v.value);
    }
    forall j | j in d
      ensures DecisionOk(r, t, j, d[j])
    {
      assert DecisionOk(r, s, j, d[j]);
    }
  }

  /** The promise may be lowered, but not below the decision, and below it nothing reopens. */
  lemma OverwriteSafety(r: Rules, s: State, d: Decisions, a: nat, i: nat, f: Record)
    requires ProposalsSafe(r, s, d) && Late(d, i, f.ballot)
    ensures ProposalsSafe(r, Overwritten(s, a, i, f), d)
  {
    var t := Overwritten(s, a, i, f);
    CarrySafety(r, s, d, t, d);
  }

  lemma OverwriteAcceptors(r: Rules, s: State, d: Decisions, a: nat, i: nat, f: Record)
    requires AcceptorSide(r, s, d)
    requires a < r.n && f.value != [] && f.ballot > 0 && Late(d, i, f.ballot) && d[i].value == f.value
    ensures AcceptorSide(r, Overwritten(s, a, i, f), d)
  {
    OverwriteEvolves(r, s, d, a, i, f);
    OverwriteRecords(r, s, d, a, i, f);
    OverwriteSafety(r, s, d, a, i, f);
    CarryIssues(r, s, d, Overwritten(s, a, i, f), d);
  }

  lemma EvolvesOn(r: Rules, s: State, d: Decisions, d': Decisions, t: State)
    requires Evolves(r, s, d, s, d') && Evolves(r, s, d', t, d')
    ensures Evolves(r, s, d, t, d')
  {
  }

  lemma DeliveredJustified(r: Rules, s: State, d: Decisions, l: nat, iid: nat) returns (f: Record)
    requires LearnersOk(r, s, d) && Delivered(s, l, iid)
    ensures f == LearnerAt(s, l).delivered[iid - 1] && Justified(r, s, d, iid, f)
  {
    f := LearnerAt(s, l).delivered[iid - 1];
    var x := LearnerAt(s, l);
    if l in s.learners {
      assert LearnerFair(r, s, d, x);
      assert L.Outcome(x, iid) == Some(f);
    }
  }

  lemma SaveFinalAcceptors(r: Rules, s: State, d: Decisions, a: nat, iid: nat, f: Record) returns (d': Decisions)
    requires AcceptorSide(r, s, d) && Justified(r, s, d, iid, f) && a < r.n
    ensures AcceptorSide(r, Overwritten(s, a, iid, f), d') && Evolves(r, s, d, Overwritten(s, a, iid, f), d')
  {
    d' := Decide(r, s, d, iid, f);
    DecisionPositive(r, s, d', iid);
    OverwriteEvolves(r, s, d', a, iid, f);
    OverwriteAcceptors(r, s, d', a, iid, f);
    EvolvesOn(r, s, d, d', Overwritten(s, a, iid, f));
  }

  lemma SaveFinalIsOverwrite(r: Rules, s: State, a: nat, l: nat, iid: nat)
    requires r.Valid() && Enabled(r, s, SaveFinal(a, l, iid))
    ensures Do(r, s, SaveFinal(a, l, iid)) == Overwritten(s, a, iid, LearnerAt(s, l).delivered[iid - 1])
  {
  }

  lemma OverwriteOthers(r: Rules, s: State, d: Decisions, a: nat, iid: nat, f: Record, d': Decisions)
    requires ProposerSide(r, s, d) && LearnerSide(r, s, d) && Evolves(r, s, d, Overwritten(s, a, iid, f), d')
    ensures ProposerSide(r, Overwritten(s, a, iid, f), d') && LearnerSide(r, Overwritten(s, a, iid, f), d')
  {
    SameProposers(r, s, d, Overwritten(s, a, iid, f), d');
    CarryLearners(r, s, d, Overwritten(s, a, iid, f), d');
  }

  lemma SaveFinalKeeps(r: Rules, s: State, d: Decisions, a: nat, l: nat, iid: nat) returns (d': Decisions)
    requires r.Valid() && Enabled(r, s, SaveFinal(a, l, iid))
    requires AcceptorSide(r, s, d) && ProposerSide(r, s, d) && LearnerSide(r, s, d)
    ensures var t := Do(r, s, SaveFinal(a, l, iid));
            AcceptorSide(r, t, d') && ProposerSide(r, t, d') && LearnerSide(r, t, d')
  {
    var f := DeliveredJustified(r, s, d, l, iid);
    SaveFinalIsOverwrite(r, s, a, l, iid);
    d' := SaveFinalAcceptors(r, s, d, a, iid, f);
    OverwriteOthers(r, s, d, a, iid, f, d');
  }
}
