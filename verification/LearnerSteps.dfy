/** A learner's step keeps the invariant, and the invariant gives agreement. */
module LearnerSteps {
  import opened PaxosConfig
  import opened Messages
  import opened Consensus
  import opened ConsensusInvariant
  import opened ConsensusCarries
  import L = LearnerSpec

  /** Two votes in one ballot are for one value. */
  lemma OneVote(r: Rules, s: State, d: Decisions, a: nat, b: nat, i: nat, c: nat, v: Value, w: Value)
    requires VotesOk(r, s, d) && OneValuePerBallot(s)
    requires Voted(s, a, i, c, v) && Voted(s, b, i, c, w)
    ensures v == w
  {
    assert VoteOk(r, s, d, Vote(a, i, c, v)) && VoteOk(r, s, d, Vote(b, i, c, w));
  }

  /** lea_check_quorum closes an instance only on a chosen or a decided value. */
  lemma CheckJustified(r: Rules, s: State, d: Decisions, i: nat, inst: L.Instance)
    requires r.Valid() && r.repairs.groupByVote
    requires VotesOk(r, s, d) && OneValuePerBallot(s) && InstanceFair(r, s, d, i, inst) && inst.final.None?
    ensures var f := L.Check(r.Setup(), inst).final; f.Some? ==> Justified(r, s, d, i, f.value)
  {
    var c := r.Setup();
    L.CheckCloses(c, inst);
    var f := L.Check(c, inst).final;
    if f.Some? {
      var k :| 0 <= k < r.n && inst.acks[k] == f;
      assert AckOk(r, s, d, k, f.value);
      if !f.value.isFinal {
        var q := L.AgreeingFrom(c, inst.acks, inst.lastBallot, 0);
        forall a | a in q
          ensures a < r.n && Voted(s, a, i, f.value.valueBallot, f.value.value)
        {
          assert L.Agrees(c, inst.acks, inst.lastBallot, a);
          var ack := inst.acks[a].value;
          assert !ack.isFinal;
          assert AckOk(r, s, d, a, ack);
          OneVote(r, s, d, a, k, i, inst.lastBallot, ack.value, f.value.value);
        }
        assert QuorumVoted(r, s, q, i, f.value.valueBallot, f.value.value);
      }
    }
  }

  lemma UpdateFair(r: Rules, s: State, d: Decisions, i: nat, inst: L.Instance, a: nat, rec: Record)
    requires r.Valid() && AckOk(r, s, d, a, rec) && rec.iid == i
    requires InstanceFair(r, s, d, i, inst) || (inst == L.EmptyInstance(r.n) && i > 0)
    ensures var (next, stored) := L.Update(r.Setup(), inst, a, rec);
            InstanceFair(r, s, d, i, next) && (stored ==> next.final.None?) && (!stored ==> next.final == inst.final)
  {
  }

  lemma LearntFair(r: Rules, s: State, d: Decisions, x: L.Learner, a: nat, rec: Record)
    requires r.Valid() && r.repairs.groupByVote && VotesOk(r, s, d) && OneValuePerBallot(s)
    requires LearnerFair(r, s, d, x) && AckOk(r, s, d, a, rec) && L.InWindow(r.Setup(), x, rec.iid)
    ensures var inst := L.Learnt(r.Setup(), L.SlotOf(r.Setup(), x, rec.iid), a, rec);
            && InstanceFair(r, s, d, rec.iid, inst)
            && (inst.final.Some? ==> Justified(r, s, d, rec.iid, inst.final.value))
  {
    var c := r.Setup();
    var before := L.SlotOf(c, x, rec.iid);
    UpdateFair(r, s, d, rec.iid, before, a, rec);
    var (next, stored) := L.Update(c, before, a, rec);
    if stored {
      CheckJustified(r, s, d, rec.iid, next);
    } else {
      assert before.final == L.Outcome(x, rec.iid);
    }
  }

  lemma HandleAckFair(r: Rules, s: State, d: Decisions, x: L.Learner, a: nat, rec: Record)
    requires r.Valid() && r.repairs.groupByVote && VotesOk(r, s, d) && OneValuePerBallot(s)
    requires LearnerFair(r, s, d, x) && AckOk(r, s, d, a, rec)
    requires forall i :: i in x.open ==> |x.open[i].acks| == r.n
    ensures LearnerFair(r, s, d, L.HandleAck(r.Setup(), x, a, rec))
  {
    var c := r.Setup();
    L.HandleAckSettles(c, x, a, rec);
    var y := L.HandleAck(c, x, a, rec);
    if L.InWindow(c, x, rec.iid) {
      LearntFair(r, s, d, x, a, rec);
    }
    forall i | i in y.open
      ensures InstanceFair(r, s, d, i, y.open[i])
    {
      if !(i == rec.iid && L.InWindow(c, x, i)) {
        assert InstanceFair(r, s, d, i, x.open[i]);
      }
    }
  }

  lemma LearnLearners(r: Rules, s: State, d: Decisions, l: nat, ack: Ack)
    requires r.Valid() && r.repairs.groupByVote && VotesOk(r, s, d) && OneValuePerBallot(s)
    requires LearnerSide(r, s, d) && Enabled(r, s, Learn(l, ack))
    ensures LearnerSide(r, Do(r, s, Learn(l, ack)), d)
  {
    var t := Do(r, s, Learn(l, ack));
    var x := LearnerAt(s, l);
    assert LearnerFair(r, s, d, x);
    HandleAckFair(r, s, d, x, ack.acceptor, ack.rec);
    assert Evolves(r, s, d, t, d);
    forall m | m in t.learners
      ensures LearnerFair(r, t, d, t.learners[m])
    {
      CarryLearner(r, s, d, t, d, t.learners[m]);
    }
    forall z | z in t.acks
      ensures AckOk(r, t, d, z.acceptor, z.rec)
    {
      CarryAck(r, s, d, t, d, z.acceptor, z.rec);
    }
  }

  /** A learner that starts again has settled nothing, and what it had settled stays justified. */
  lemma RebootLearners(r: Rules, s: State, d: Decisions, l: nat, past: nat)
    requires r.Valid() && LearnerSide(r, s, d) && Enabled(r, s, Reboot(l, past))
    ensures LearnerSide(r, Do(r, s, Reboot(l, past)), d)
  {
    var t := Do(r, s, Reboot(l, past));
    assert Evolves(r, s, d, t, d);
    forall m | m in t.learners
      ensures LearnerFair(r, t, d, t.learners[m])
    {
      if m in s.learners && m != l && m != past {
        CarryLearner(r, s, d, t, d, s.learners[m]);
      } else if m == past && l in s.learners {
        CarryLearner(r, s, d, t, d, s.learners[l]);
      }
    }
    forall z | z in t.acks
      ensures AckOk(r, t, d, z.acceptor, z.rec)
    {
      CarryAck(r, s, d, t, d, z.acceptor, z.rec);
    }
  }

  // ---- agreement ----

  /** Two choices for one instance are for one value. */
  lemma ChosenOnce(r: Rules, s: State, d: Decisions, i: nat, b: nat, v: Value, p: set<nat>, c: nat, w: Value, q: set<nat>)
    requires VotesOk(r, s, d) && ProposalsSafe(r, s, d) && DecisionsOk(r, s, d) && OneValuePerBallot(s)
    requires QuorumVoted(r, s, p, i, b, v) && QuorumVoted(r, s, q, i, c, w) && b <= c && !Late(d, i, b)
    ensures v == w
  {
    var a := QuorumsIntersect(r.n, p, q);
    if b == c {
      OneVote(r, s, d, a, a, i, b, v, w);
    } else {
      assert Voted(s, a, i, c, w);
      assert VoteOk(r, s, d, Vote(a, i, c, w));
      var e :| e in s.issues && e.iid == i && e.ballot == c && e.value == w;
      assert Choosable(r, s, e.iid, b, v, p);
    }
  }

  lemma JustifiedAgree(r: Rules, s: State, d: Decisions, i: nat, f: Record, g: Record)
    requires AcceptorSide(r, s, d) && Justified(r, s, d, i, f) && Justified(r, s, d, i, g)
    ensures f.value == g.value
  {
    if i in d {
      JustifiedDecided(r, s, d, i, f);
      JustifiedDecided(r, s, d, i, g);
    } else {
      var p :| QuorumVoted(r, s, p, i, f.valueBallot, f.value);
      var q :| QuorumVoted(r, s, q, i, g.valueBallot, g.value);
      if f.valueBallot <= g.valueBallot {
        ChosenOnce(r, s, d, i, f.valueBallot, f.value, p, g.valueBallot, g.value, q);
      } else {
        ChosenOnce(r, s, d, i, g.valueBallot, g.value, q, f.valueBallot, f.value, p);
      }
    }
  }

  lemma JustifiedDecided(r: Rules, s: State, d: Decisions, i: nat, f: Record)
    requires AcceptorSide(r, s, d) && Justified(r, s, d, i, f) && i in d
    ensures f.value == d[i].value
  {
    if !f.isFinal {
      var q :| QuorumVoted(r, s, q, i, f.valueBallot, f.value);
      assert DecisionOk(r, s, i, d[i]);
      if Late(d, i, f.valueBallot) {
        var a := QuorumsIntersect(r.n, q, q);
        assert Voted(s, a, i, f.valueBallot, f.value);
        assert VoteOk(r, s, d, Vote(a, i, f.valueBallot, f.value));
      } else {
        ChosenOnce(r, s, d, i, f.valueBallot, f.value, q, d[i].ballot, d[i].value, d[i].quorum);
      }
    }
  }

  lemma SettledJustified(r: Rules, s: State, d: Decisions, l: nat, i: nat)
    requires LearnersOk(r, s, d)
    ensures Settled(s, l, i).Some? ==> Justified(r, s, d, i, Settled(s, l, i).value)
  {
    if l in s.learners {
      assert LearnerFair(r, s, d, s.learners[l]);
    }
  }

  lemma InvAgreement(r: Rules, s: State, d: Decisions)
    requires AcceptorSide(r, s, d) && LearnersOk(r, s, d)
    ensures Agreement(s)
  {
    forall l, m, i: nat | Settled(s, l, i).Some? && Settled(s, m, i).Some?
      ensures Settled(s, l, i).value.value == Settled(s, m, i).value.value
    {
      SettledJustified(r, s, d, l, i);
      SettledJustified(r, s, d, m, i);
      JustifiedAgree(r, s, d, i, Settled(s, l, i).value, Settled(s, m, i).value);
    }
  }
}
