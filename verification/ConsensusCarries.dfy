/** What the acceptors' steps leave standing: the facts about votes, records, promises and
    slots that survive every change an acceptor makes. */
module ConsensusCarries {
  import opened PaxosConfig
  import opened Messages
  import opened SlotSpec
  import opened Consensus
  import opened ConsensusInvariant
  import L = LearnerSpec

  /** From s to t votes and requests only grow, decisions only move down, and no acceptor
      takes back a promise. */
  ghost predicate Evolves(r: Rules, s: State, d: Decisions, t: State, d': Decisions) {
    && s.votes <= t.votes && s.issues <= t.issues
    && (forall i :: i in d ==> i in d' && d'[i].ballot <= d[i].ballot && d'[i].value == d[i].value)
    && (forall a: nat, i: nat, b: nat :: Keeps(s, d, a, i, b) ==> Keeps(t, d', a, i, b))
    && (forall a: nat, i: nat, b: nat, m: nat :: PromiseHolds(r, s, d, a, i, b, m) ==> PromiseHolds(r, t, d', a, i, b, m))
  }

  lemma IssuedCarries(s: State, t: State, i: nat, b: nat, v: Value)
    requires s.issues <= t.issues && Issued(s, i, b, v)
    ensures Issued(t, i, b, v)
  {
    var e :| e in s.issues && e.iid == i && e.ballot == b && e.value == v;
    assert e in t.issues;
  }

  lemma SupportCarries(s: State, t: State, q: set<nat>, i: nat, b: nat, v: Value)
    requires s.votes <= t.votes && Supported(s, q, i, b, v)
    ensures Supported(t, q, i, b, v)
  {
    var a :| a in q && Voted(s, a, i, b, v);
    assert Voted(t, a, i, b, v);
  }

  /** Where there is support there has been a request. */
  lemma SupportIssued(r: Rules, s: State, d: Decisions, q: set<nat>, i: nat, b: nat, v: Value)
    requires VotesOk(r, s, d) && Supported(s, q, i, b, v)
    ensures Issued(s, i, b, v)
  {
    var a :| a in q && Voted(s, a, i, b, v);
    assert VoteOk(r, s, d, Vote(a, i, b, v));
  }

  lemma CarryPromises(r: Rules, s: State, d: Decisions, t: State, d': Decisions)
    requires Evolves(r, s, d, t, d') && PromisesOk(r, s, d)
    requires forall x :: x in t.promises && x !in s.promises ==> PromiseOk(r, t, d', x)
    ensures PromisesOk(r, t, d')
  {
    forall x | x in t.promises
      ensures PromiseOk(r, t, d', x)
    {
      if x in s.promises {
        assert PromiseOk(r, s, d, x);
      }
    }
  }

  lemma CarryPhase1(r: Rules, s: State, d: Decisions, t: State, d': Decisions, sl: Slot)
    requires Evolves(r, s, d, t, d') && Phase1Ok(r, s, d, sl)
    ensures Phase1Ok(r, t, d', sl)
  {
    if sl.p1.Some? {
      SupportCarries(s, t, sl.heard, sl.iid, sl.p1Ballot, sl.p1.value);
    }
  }

  /** A step that touches neither proposers nor requests keeps what is said of them. */
  lemma CarryProposers(r: Rules, s: State, d: Decisions, t: State, d': Decisions)
    requires Evolves(r, s, d, t, d') && t.proposers == s.proposers && t.issues == s.issues
    requires ProposersOk(r, s) && SlotsOk(r, s, d) && AllFresh(r, s, d) && OpenedOnce(r, s)
    ensures ProposersOk(r, t) && SlotsOk(r, t, d') && AllFresh(r, t, d') && OpenedOnce(r, t)
  {
    forall p, k | p in t.proposers && k in t.proposers[p].table && InPhase1(t.proposers[p].table[k])
      ensures Phase1Ok(r, t, d', t.proposers[p].table[k])
    {
      CarryPhase1(r, s, d, t, d', s.proposers[p].table[k]);
    }
    forall p, k, e | p in t.proposers && k in t.proposers[p].table && e in t.issues
      ensures Fresh(r, d', p, t.proposers[p].table[k], e)
    {
      assert Fresh(r, d, p, s.proposers[p].table[k], e);
    }
  }

  lemma CarryTokens(r: Rules, s: State, d: Decisions, t: State, d': Decisions)
    requires Evolves(r, s, d, t, d') && t.proposers == s.proposers && t.issues == s.issues && t.promises == s.promises
    requires TokensOk(r, s, d)
    ensures TokensOk(r, t, d')
  {
    if !r.promisesDuplicate {
      forall x, p, k | x in t.promises && p in t.proposers && k in t.proposers[p].table
        ensures NotInSlot(d', x, t.proposers[p].table[k])
      {
        assert NotInSlot(d, x, s.proposers[p].table[k]);
      }
      forall x, e | x in t.promises && e in t.issues
        ensures NotInIssue(d', x, e)
      {
        assert NotInIssue(d, x, e);
      }
    }
  }

  lemma CarryIssue(r: Rules, s: State, d: Decisions, t: State, d': Decisions, e: Issue)
    requires Evolves(r, s, d, t, d') && IssueOk(r, s, d, e)
    ensures IssueOk(r, t, d', e)
  {
    var m :| RestsOn(r, s, d, e, m);
    if m > 0 {
      SupportCarries(s, t, e.from, e.iid, m, e.value);
    }
    assert RestsOn(r, t, d', e, m);
  }

  lemma CarryIssues(r: Rules, s: State, d: Decisions, t: State, d': Decisions)
    requires Evolves(r, s, d, t, d') && IssuesOk(r, s, d)
    requires forall e :: e in t.issues && e !in s.issues ==> IssueOk(r, t, d', e)
    ensures IssuesOk(r, t, d')
  {
    forall e | e in t.issues
      ensures IssueOk(r, t, d', e)
    {
      if e in s.issues {
        CarryIssue(r, s, d, t, d', e);
      }
    }
  }

  /** If nobody can vote who could not before, no value becomes choosable. */
  lemma CarrySafety(r: Rules, s: State, d: Decisions, t: State, d': Decisions)
    requires ProposalsSafe(r, s, d) && t.issues == s.issues
    requires forall i :: i in d ==> i in d' && d'[i].ballot <= d[i].ballot
    requires forall b, i, c: nat, w :: !Late(d', i, c) && (Voted(t, b, i, c, w) || MayVote(t, b, i, c))
                                      ==> Voted(s, b, i, c, w) || MayVote(s, b, i, c)
    ensures ProposalsSafe(r, t, d')
  {
    forall e, c: nat, w, q | e in t.issues && c < e.ballot && !Late(d', e.iid, c) && Choosable(r, t, e.iid, c, w, q)
      ensures w == e.value
    {
      assert Choosable(r, s, e.iid, c, w, q);
      assert !Late(d, e.iid, c);
    }
  }

  lemma CarryAck(r: Rules, s: State, d: Decisions, t: State, d': Decisions, a: nat, rec: Record)
    requires Evolves(r, s, d, t, d') && AckOk(r, s, d, a, rec)
    ensures AckOk(r, t, d', a, rec)
  {
  }

  lemma CarryJustified(r: Rules, s: State, d: Decisions, t: State, d': Decisions, i: nat, f: Record)
    requires Evolves(r, s, d, t, d') && Justified(r, s, d, i, f)
    ensures Justified(r, t, d', i, f)
  {
    if !f.isFinal {
      var q :| QuorumVoted(r, s, q, i, f.valueBallot, f.value);
      assert QuorumVoted(r, t, q, i, f.valueBallot, f.value);
    }
  }

  lemma CarryLearners(r: Rules, s: State, d: Decisions, t: State, d': Decisions)
    requires Evolves(r, s, d, t, d') && LearnerSide(r, s, d) && t.learners == s.learners
    requires forall x :: x in t.acks && x !in s.acks ==> AckOk(r, t, d', x.acceptor, x.rec)
    ensures LearnerSide(r, t, d')
  {
    forall x | x in t.acks
      ensures AckOk(r, t, d', x.acceptor, x.rec)
    {
      if x in s.acks {
        CarryAck(r, s, d, t, d', x.acceptor, x.rec);
      }
    }
    forall l | l in t.learners
      ensures LearnerFair(r, t, d', t.learners[l])
    {
      CarryLearner(r, s, d, t, d', s.learners[l]);
    }
  }

  lemma CarryLearner(r: Rules, s: State, d: Decisions, t: State, d': Decisions, x: L.Learner)
    requires Evolves(r, s, d, t, d') && LearnerFair(r, s, d, x)
    ensures LearnerFair(r, t, d', x)
  {
    forall i | i in x.open
      ensures InstanceFair(r, t, d', i, x.open[i])
    {
      assert InstanceFair(r, s, d, i, x.open[i]);
    }
    forall i: nat | L.Outcome(x, i).Some?
      ensures Justified(r, t, d', i, L.Outcome(x, i).value)
    {
      CarryJustified(r, s, d, t, d', i, L.Outcome(x, i).value);
    }
  }
}
