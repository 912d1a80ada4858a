/** The main results about runs: exactly when agreement holds, and what the learners deliver. */
module AtomicBroadcast {
  import opened PaxosConfig
  import opened Messages
  import opened Consensus
  import opened ConsensusInvariant
  import opened Safety
  import opened Violations
  import opened LearnerSteps
  import L = LearnerSpec
  import P = PhaseOne

  ghost predicate AlwaysAgrees(r: Rules)
    requires r.Valid()
  {
    forall s :: Reachable(r, s) ==> Agreement(s)
  }

  /** Three acceptors (the configured number) agree on every run exactly in the sound
      deployments: each of the first five repairs but the one on duplicates is needed, values
      must not be empty, and if promises can be duplicated then duplicates must be recognised and
      no proposer may lead twice. Storing delivered values in the acceptors makes no difference. */
  lemma AgreementExactlyWhenSound(r: Rules)
    requires r.Valid() && r.n == N_OF_ACCEPTORS && r.ring <= r.window
    ensures AlwaysAgrees(r) <==> Sound(r)
  {
    if Sound(r) {
      forall s | Reachable(r, s)
        ensures Agreement(s)
      {
        SoundAgreement(r, s);
      }
    } else if !r.repairs.acceptGuard {
      var s := LateRequestOverwrites(r);
    } else if !r.repairs.restartForgets {
      var s := RestartRemembers(r);
    } else if !r.repairs.checkIid {
      var s := OtherInstanceCounts(r);
    } else if !r.repairs.groupByVote {
      var s := RepeatedAcksMix(r);
    } else if r.emptyValues {
      var s := EmptyValueForgotten(r);
    } else if !r.repairs.countDistinct {
      var s := DuplicatesCounted(r);
    } else {
      var s := BallotUsedTwice(r);
    }
  }

  // ---- proposals ----

  /** Vote v is the one in the highest ballot below the request's, of the members of q. */
  ghost predicate HighestVoteOf(s: State, q: set<nat>, e: Issue, v: Vote) {
    && v in s.votes && v.acceptor in q && v.iid == e.iid && v.ballot < e.ballot
    && forall w :: w in s.votes && w.acceptor in q && w.iid == e.iid && w.ballot < e.ballot ==> w.ballot <= v.ballot
  }

  /** P2c of "Paxos Made Simple", section 2.2, on every run: every request rests on a quorum such
      that, if any member has accepted something below its ballot, its value is the one accepted in
      the highest such ballot. Unless delivered values are stored, the quorum is that of the
      promises the request was made from. */
  lemma RequestsFollowHighestVote(r: Rules, s: State, e: Issue) returns (q: set<nat>)
    requires r.Valid() && Sound(r) && Reachable(r, s) && e in s.issues
    ensures IsQuorum(r.n, q)
    ensures forall v :: HighestVoteOf(s, q, e, v) ==> v.value == e.value
    ensures !r.updateOnDeliver ==> q == e.from
  {
    var d := ReachableInv(r, s);
    if Past(d, e.iid, e.ballot) {
      q := d[e.iid].quorum;
      AboveDecision(r, s, d, e);
    } else {
      q := e.from;
      BelowDecisionFollows(r, s, d, e);
    }
  }

  /** Above the decision of its instance a request repeats what the deciding quorum voted for. */
  lemma AboveDecision(r: Rules, s: State, d: Decisions, e: Issue)
    requires VotesOk(r, s, d) && DecisionsOk(r, s, d) && e in s.issues && Past(d, e.iid, e.ballot)
    ensures IsQuorum(r.n, d[e.iid].quorum)
    ensures forall v :: HighestVoteOf(s, d[e.iid].quorum, e, v) ==> v.value == e.value
  {
    var x := d[e.iid];
    assert DecisionOk(r, s, e.iid, x);
    forall v | HighestVoteOf(s, x.quorum, e, v)
      ensures v.value == e.value
    {
      assert Voted(s, v.acceptor, e.iid, x.ballot, x.value);
      assert v.ballot >= Vote(v.acceptor, e.iid, x.ballot, x.value).ballot;
      assert VoteOk(r, s, d, v);
    }
  }

  /** Up to the decision a request has the value of the highest vote among its promises. */
  lemma BelowDecisionFollows(r: Rules, s: State, d: Decisions, e: Issue)
    requires IssuesOk(r, s, d) && VotesOk(r, s, d) && OneValuePerBallot(s)
    requires e in s.issues && !Past(d, e.iid, e.ballot)
    ensures IsQuorum(r.n, e.from)
    ensures forall v :: HighestVoteOf(s, e.from, e, v) ==> v.value == e.value
  {
    assert IssueOk(r, s, d, e);
    var m :| RestsOn(r, s, d, e, m);
    forall v | HighestVoteOf(s, e.from, e, v)
      ensures v.value == e.value
    {
      assert PromiseHolds(r, s, d, v.acceptor, e.iid, e.ballot, m);
      assert VoteOk(r, s, d, v);
      var a :| a in e.from && Voted(s, a, e.iid, m, e.value);
      assert Vote(a, e.iid, m, e.value) in s.votes;
      OneVote(r, s, d, a, v.acceptor, e.iid, m, e.value, v.value);
    }
  }

  /** Every request rests on the promises of a quorum: always where distinct promises are counted,
      and with either count where acceptors do not store delivered values. */
  lemma RequestsRestOnQuorums(r: Rules, s: State, e: Issue)
    requires r.Valid() && Sound(r) && Reachable(r, s) && e in s.issues
    requires !r.updateOnDeliver || r.repairs.countDistinct
    ensures IsQuorum(r.n, e.from)
  {
    var d := ReachableInv(r, s);
    assert IssueOk(r, s, d, e);
  }

  /** The promise has been on the network at some time on a run to state s. */
  ghost predicate WasSent(r: Rules, s: State, x: Promise)
    requires r.Valid()
  {
    exists was, steps :: Reachable(r, was) && x in was.promises && Legal(r, was, steps) && After(r, was, steps) == s
  }

  lemma {:induction false} VotesStay(r: Rules, s: State, steps: seq<Step>)
    requires r.Valid() && Legal(r, s, steps)
    ensures s.votes <= After(r, s, steps).votes
    decreases |steps|
  {
    if steps != [] {
      VotesStay(r, Do(r, s, steps[0]), steps[1..]);
    }
  }

  lemma SentVoted(r: Rules, s: State, x: Promise)
    requires r.Valid() && Sound(r) && WasSent(r, s, x)
    ensures x.ack.valueBallot == 0 <==> x.ack.value == []
    ensures x.ack.value != [] ==> Voted(s, x.acceptor, x.ack.iid, x.ack.valueBallot, x.ack.value)
  {
    var was, steps :| Reachable(r, was) && x in was.promises && Legal(r, was, steps) && After(r, was, steps) == s;
    var d := ReachableInv(r, was);
    assert PromiseOk(r, was, d, x);
    VotesStay(r, was, steps);
  }

  /** Any two promises ever sent for an instance that report a value accepted in one ballot report
      the same value. */
  lemma PromisesAgree(r: Rules, s: State, x: Promise, y: Promise)
    requires r.Valid() && Sound(r) && Reachable(r, s) && WasSent(r, s, x) && WasSent(r, s, y)
    requires x.ack.iid == y.ack.iid && x.ack.valueBallot == y.ack.valueBallot
    ensures x.ack.value == y.ack.value
  {
    var d := ReachableInv(r, s);
    SentVoted(r, s, x);
    SentVoted(r, s, y);
    if x.ack.value != [] {
      OneVote(r, s, d, x.acceptor, y.acceptor, x.ack.iid, x.ack.valueBallot, x.ack.value, y.ack.value);
    }
  }

  /** So the value phase 1 of an instance finds does not depend on the order in which the promises
      of the protocol reach the leader. */
  lemma ArrivalOrderIrrelevant(r: Rules, s: State, i: nat, ps: seq<P.Arrival>, qs: seq<P.Arrival>,
                               v: Option<Value>, b: nat, w: Option<Value>, c: nat)
    requires r.Valid() && Sound(r) && Reachable(r, s)
    requires forall k :: 0 <= k < |ps| ==> ps[k].ack.iid == i && WasSent(r, s, Promise(ps[k].from, ps[k].ack))
    requires P.Reordered(ps, qs) && P.Highest(ps, v, b) && P.Highest(qs, w, c)
    ensures v == w && b == c
  {
    forall j, k | 0 <= j < |ps| && 0 <= k < |ps| && P.Tops(ps, j) && P.Tops(ps, k)
      ensures ps[j].ack.value == ps[k].ack.value
    {
      PromisesAgree(r, s, Promise(ps[j].from, ps[j].ack), Promise(ps[k].from, ps[k].ack));
    }
    P.HighestIsAbsolute(ps, qs, v, b, w, c);
  }

  /** At most one value is ever proposed in a ballot, although a proposer starts again with its
      first ballot whenever it is elected. */
  lemma OneValuePerBallotAlways(r: Rules, s: State, e: Issue, f: Issue)
    requires r.Valid() && Sound(r) && Reachable(r, s)
    requires e in s.issues && f in s.issues && e.iid == f.iid && e.ballot == f.ballot
    ensures e.value == f.value
  {
    var d := ReachableInv(r, s);
  }

  // ---- delivery ----

  ghost predicate InOrder(r: Rules, s: State) {
    forall l: nat :: L.LearnerOk(r.Setup(), LearnerAt(s, l))
  }

  lemma StepKeepsOrder(r: Rules, s: State, st: Step)
    requires r.Valid() && Enabled(r, s, st) && InOrder(r, s)
    ensures InOrder(r, Do(r, s, st))
  {
    var t := Do(r, s, st);
    forall l: nat
      ensures L.LearnerOk(r.Setup(), LearnerAt(t, l))
    {
      assert L.LearnerOk(r.Setup(), LearnerAt(s, l));
      if st.Learn? && st.l == l {
        L.HandleAckKeepsOrder(r.Setup(), LearnerAt(s, l), st.ack.acceptor, st.ack.rec);
      } else if st.Reboot? && st.past == l {
        assert L.LearnerOk(r.Setup(), LearnerAt(s, st.l));
      }
    }
  }

  /** Whatever else is wrong, every learner keeps its window in order on every run. */
  lemma {:induction false} LearnersInOrder(r: Rules, s: State, steps: seq<Step>)
    requires r.Valid() && Legal(r, s, steps) && InOrder(r, s)
    ensures InOrder(r, After(r, s, steps))
    decreases |steps|
  {
    if steps != [] {
      StepKeepsOrder(r, s, steps[0]);
      LearnersInOrder(r, Do(r, s, steps[0]), steps[1..]);
    }
  }

  /** A learner has delivered exactly the instances before its current one, each once, in order. */
  lemma DeliversWithoutGaps(r: Rules, s: State, l: nat)
    requires r.Valid() && Reachable(r, s)
    ensures var x := LearnerAt(s, l);
            && |x.delivered| == x.current - 1
            && forall k :: 0 <= k < |x.delivered| ==> x.delivered[k].iid == k + 1
  {
    var steps :| Legal(r, INIT, steps) && After(r, INIT, steps) == s;
    LearnersInOrder(r, INIT, steps);
    assert L.LearnerOk(r.Setup(), LearnerAt(s, l));
  }

  function ValuesOf(d: seq<Record>): seq<Value> {
    seq(|d|, k requires 0 <= k < |d| => d[k].value)
  }

  /** Atomic broadcast: of the value sequences two learners have delivered, one is a prefix of
      the other. */
  lemma DeliveriesAreOrdered(r: Rules, s: State, l: nat, m: nat)
    requires r.Valid() && Sound(r) && Reachable(r, s)
    ensures var x := ValuesOf(LearnerAt(s, l).delivered); var y := ValuesOf(LearnerAt(s, m).delivered);
            x <= y || y <= x
  {
    SoundAgreement(r, s);
    DeliversWithoutGaps(r, s, l);
    DeliversWithoutGaps(r, s, m);
    var x := LearnerAt(s, l).delivered;
    var y := LearnerAt(s, m).delivered;
    forall k | 0 <= k < |x| && k < |y|
      ensures x[k].value == y[k].value
    {
      assert Settled(s, l, k + 1) == Some(x[k]) && Settled(s, m, k + 1) == Some(y[k]);
    }
  }
}
