/** What every reachable state of a sound deployment satisfies. */
module ConsensusInvariant {
  import opened PaxosConfig
  import opened Messages
  import opened SlotSpec
  import opened Consensus
  import L = LearnerSpec

  /** The deployments that keep agreement: four of the tests repaired and no empty values;
      and where promises may be duplicated, distinct promises counted and no re-election. */
  predicate Sound(r: Rules) {
    && r.repairs.acceptGuard && r.repairs.restartForgets && r.repairs.checkIid && r.repairs.groupByVote
    && !r.emptyValues
    && (r.promisesDuplicate ==> r.repairs.countDistinct && !r.reelection)
  }

  /** For an instance with a final record somewhere: the lowest ballot whose choice was saved
      as final, the value, and the quorum that voted for it. */
  datatype Decision = Decision(ballot: nat, value: Value, quorum: set<nat>)
  type Decisions = map<nat, Decision>

  ghost predicate Issued(s: State, i: nat, b: nat, v: Value) {
    exists e :: e in s.issues && e.iid == i && e.ballot == b && e.value == v
  }

  ghost predicate Voted(s: State, a: nat, i: nat, b: nat, v: Value) {
    Vote(a, i, b, v) in s.votes
  }

  /** An acceptor that could still vote in ballot c. */
  ghost predicate MayVote(s: State, a: nat, i: nat, c: nat) {
    Key(a, i) in s.records ==> s.records[Key(a, i)].ballot <= c
  }

  /** A quorum that has voted, or could still vote, for v in ballot c. */
  ghost predicate Choosable(r: Rules, s: State, i: nat, c: nat, v: Value, q: set<nat>) {
    IsQuorum(r.n, q) && forall a :: a in q ==> Voted(s, a, i, c, v) || MayVote(s, a, i, c)
  }

  /** Value v has been chosen in ballot b by quorum q. */
  ghost predicate QuorumVoted(r: Rules, s: State, q: set<nat>, i: nat, b: nat, v: Value) {
    IsQuorum(r.n, q) && forall a :: a in q ==> Voted(s, a, i, b, v)
  }

  /** Ballot m is at or above the decision of instance i. */
  predicate Late(d: Decisions, i: nat, m: nat) {
    i in d && d[i].ballot <= m
  }

  /** Ballot b is above the decision of instance i: everything proposed there is the decided value. */
  predicate Past(d: Decisions, i: nat, b: nat) {
    i in d && d[i].ballot < b
  }

  /** Acceptor a keeps its promise for ballot b, or has since stored a final record for i. */
  ghost predicate Keeps(s: State, d: Decisions, a: nat, i: nat, b: nat) {
    && Key(a, i) in s.records
    && (s.records[Key(a, i)].ballot >= b || (Past(d, i, b) && Late(d, i, s.records[Key(a, i)].valueBallot)))
  }

  /** What a promise of a for ballot b says when it reports m as its highest vote. */
  ghost predicate PromiseHolds(r: Rules, s: State, d: Decisions, a: nat, i: nat, b: nat, m: nat) {
    && a < r.n
    && Keeps(s, d, a, i, b)
    && (forall v :: v in s.votes && v.acceptor == a && v.iid == i && v.ballot < b ==> v.ballot <= m || Late(d, i, v.ballot))
    && (Past(d, i, b) && a in d[i].quorum ==> Late(d, i, m))
  }

  // ---- acceptors ----

  ghost predicate RecordOk(r: Rules, s: State, d: Decisions, a: nat, i: nat, rec: Record) {
    && a < r.n && rec.iid == i
    && rec.valueBallot <= rec.ballot && rec.ballot > 0
    && (rec.valueBallot == 0 <==> rec.value == [])
    && (if rec.isFinal then Late(d, i, rec.valueBallot) && rec.valueBallot == rec.ballot && rec.value == d[i].value
        else rec.valueBallot > 0 ==> Voted(s, a, i, rec.valueBallot, rec.value))
  }

  ghost predicate RecordsOk(r: Rules, s: State, d: Decisions) {
    forall k :: k in s.records ==> RecordOk(r, s, d, k.acceptor, k.iid, s.records[k])
  }

  ghost predicate VoteOk(r: Rules, s: State, d: Decisions, v: Vote) {
    && v.acceptor < r.n && v.ballot > 0 && v.value != []
    && Issued(s, v.iid, v.ballot, v.value)
    && Key(v.acceptor, v.iid) in s.records
    && var m := s.records[Key(v.acceptor, v.iid)].valueBallot; v.ballot <= m || Late(d, v.iid, m)
  }

  ghost predicate VotesOk(r: Rules, s: State, d: Decisions) {
    forall v :: v in s.votes ==> VoteOk(r, s, d, v)
  }

  // ---- accept requests ----

  /** Some acceptor of q has voted for v in ballot m. */
  ghost predicate Supported(s: State, q: set<nat>, i: nat, m: nat, v: Value) {
    exists a :: a in q && Voted(s, a, i, m, v)
  }

  /** A request rests on promises that report m as the highest vote, and on a vote for its value
      in that ballot. */
  ghost predicate RestsOn(r: Rules, s: State, d: Decisions, e: Issue, m: nat) {
    && m < e.ballot
    && (forall a :: a in e.from ==> PromiseHolds(r, s, d, a, e.iid, e.ballot, m))
    && (m > 0 ==> Supported(s, e.from, e.iid, m, e.value))
  }

  ghost predicate IssueOk(r: Rules, s: State, d: Decisions, e: Issue) {
    && e.value != [] && e.ballot > 0
    && (!Past(d, e.iid, e.ballot) || r.repairs.countDistinct ==> IsQuorum(r.n, e.from))
    && (exists m :: RestsOn(r, s, d, e, m))
  }

  ghost predicate IssuesOk(r: Rules, s: State, d: Decisions) {
    forall e :: e in s.issues ==> IssueOk(r, s, d, e)
  }

  ghost predicate OneValuePerBallot(s: State) {
    forall e, f :: e in s.issues && f in s.issues && e.iid == f.iid && e.ballot == f.ballot ==> e.value == f.value
  }

  /** P2c of "Paxos Made Simple", section 2.2: below a proposal of v nothing but v can be chosen
      (as far down as no final record has overridden the acceptors' promises). */
  ghost predicate ProposalsSafe(r: Rules, s: State, d: Decisions) {
    forall e, c: nat, w, q :: e in s.issues && c < e.ballot && !Late(d, e.iid, c) && Choosable(r, s, e.iid, c, w, q) ==> w == e.value
  }

  ghost predicate DecisionOk(r: Rules, s: State, i: nat, x: Decision) {
    && QuorumVoted(r, s, x.quorum, i, x.ballot, x.value)
    && (forall a :: a in x.quorum ==> Key(a, i) in s.records && s.records[Key(a, i)].valueBallot >= x.ballot)
    && (forall e :: e in s.issues && e.iid == i && e.ballot >= x.ballot ==> e.value == x.value)
  }

  ghost predicate DecisionsOk(r: Rules, s: State, d: Decisions) {
    forall i :: i in d ==> DecisionOk(r, s, i, d[i])
  }

  // ---- promises and slots ----

  ghost predicate PromiseOk(r: Rules, s: State, d: Decisions, x: Promise) {
    && x.ack.ballot > 0 && x.ack.valueBallot < x.ack.ballot
    && PromiseHolds(r, s, d, x.acceptor, x.ack.iid, x.ack.ballot, x.ack.valueBallot)
    && (x.ack.valueBallot == 0 <==> x.ack.value == [])
    && (x.ack.value != [] ==> Voted(s, x.acceptor, x.ack.iid, x.ack.valueBallot, x.ack.value))
  }

  ghost predicate PromisesOk(r: Rules, s: State, d: Decisions) {
    forall x :: x in s.promises ==> PromiseOk(r, s, d, x)
  }

  predicate InPhase1(sl: Slot) {
    sl.status == P1Pending || sl.status == P1Ready
  }

  ghost predicate SlotShape(r: Rules, p: nat, pro: Proposer, k: nat, sl: Slot) {
    && sl.status != Empty && r.ring > 0 && k == Index(sl.iid, r.ring)
    && Owner(sl.ballot) == p && sl.ballot > 0
    && sl.iid <= pro.highestOpen
    && (sl.p2.Some? ==> sl.p2.value != [])
    && (r.repairs.countDistinct ==> sl.bits == sl.heard && sl.count == |sl.heard|)
  }

  ghost predicate Phase1Ok(r: Rules, s: State, d: Decisions, sl: Slot) {
    && sl.p1Ballot < sl.ballot
    && (sl.p1.None? <==> sl.p1Ballot == 0)
    && (sl.p1.Some? ==> sl.p1.value != [] && Supported(s, sl.heard, sl.iid, sl.p1Ballot, sl.p1.value))
    && (forall a :: a in sl.heard ==> PromiseHolds(r, s, d, a, sl.iid, sl.ballot, sl.p1Ballot))
    && (sl.count <= |sl.heard| || (Past(d, sl.iid, sl.ballot) && Late(d, sl.iid, sl.p1Ballot)))
    && (sl.status == P1Ready ==> sl.count >= Quorum(r.n))
  }

  ghost predicate ProposersOk(r: Rules, s: State) {
    forall p :: p in s.proposers ==>
      && p < MAX_N_OF_PROPOSERS
      && (if s.proposers[p].leading then s.proposers[p].promoted else s.proposers[p].table == map[])
      && forall k :: k in s.proposers[p].table ==> SlotShape(r, p, s.proposers[p], k, s.proposers[p].table[k])
  }

  ghost predicate SlotsOk(r: Rules, s: State, d: Decisions) {
    forall p, k :: p in s.proposers && k in s.proposers[p].table && InPhase1(s.proposers[p].table[k]) ==>
      Phase1Ok(r, s, d, s.proposers[p].table[k])
  }

  /** A proposer's slots do not count twice an acceptor a request of the same ballot rests on;
      and without re-election a ballot is never used twice at all. */
  predicate Fresh(r: Rules, d: Decisions, p: nat, sl: Slot, e: Issue) {
    && (InPhase1(sl) && sl.iid == e.iid && sl.ballot == e.ballot && !Past(d, e.iid, e.ballot) ==> sl.heard * e.from == {})
    && (!r.reelection && sl.iid == e.iid && Owner(e.ballot) == p ==>
          e.ballot <= sl.ballot && (InPhase1(sl) ==> e.ballot < sl.ballot))
  }

  ghost predicate AllFresh(r: Rules, s: State, d: Decisions) {
    forall p, k, e :: p in s.proposers && k in s.proposers[p].table && e in s.issues ==>
      Fresh(r, d, p, s.proposers[p].table[k], e)
  }

  /** Without re-election no instance is opened twice. */
  ghost predicate OpenedOnce(r: Rules, s: State) {
    !r.reelection ==>
      forall e :: e in s.issues ==>
        Owner(e.ballot) in s.proposers && s.proposers[Owner(e.ballot)].promoted
        && e.iid <= s.proposers[Owner(e.ballot)].highestOpen
  }

  ghost predicate SameBallot(x: Promise, y: Promise) {
    x.acceptor == y.acceptor && x.ack.iid == y.ack.iid && x.ack.ballot == y.ack.ballot
  }

  /** Where promises are consumed: an acceptor promises a ballot once (or again with a decided
      value, after storing a final record). */
  ghost predicate Plain(d: Decisions, x: Promise) {
    !(Past(d, x.ack.iid, x.ack.ballot) && Late(d, x.ack.iid, x.ack.valueBallot))
  }

  ghost predicate OnePromise(s: State, d: Decisions) {
    && (forall x :: x in s.promises && Plain(d, x) ==> s.promises[x] == 1)
    && (forall x, y :: x in s.promises && y in s.promises && Plain(d, x) && Plain(d, y) && SameBallot(x, y) ==> x == y)
  }

  ghost predicate NotCounted(s: State, d: Decisions) {
    && (forall x, p, k :: x in s.promises && p in s.proposers && k in s.proposers[p].table ==>
          NotInSlot(d, x, s.proposers[p].table[k]))
    && (forall x, e :: x in s.promises && e in s.issues ==> NotInIssue(d, x, e))
  }

  ghost predicate NotInSlot(d: Decisions, x: Promise, sl: Slot) {
    InPhase1(sl) && sl.iid == x.ack.iid && sl.ballot == x.ack.ballot && x.acceptor in sl.heard && Plain(d, x) ==>
      Past(d, sl.iid, sl.ballot) && Late(d, sl.iid, sl.p1Ballot)
  }

  ghost predicate NotInIssue(d: Decisions, x: Promise, e: Issue) {
    x.ack.iid == e.iid && x.ack.ballot == e.ballot && x.acceptor in e.from ==> Past(d, e.iid, e.ballot)
  }

  ghost predicate TokensOk(r: Rules, s: State, d: Decisions) {
    !r.promisesDuplicate ==> OnePromise(s, d) && NotCounted(s, d)
  }

  // ---- learners ----

  ghost predicate AckOk(r: Rules, s: State, d: Decisions, a: nat, rec: Record) {
    && a < r.n && rec.value != [] && rec.valueBallot <= rec.ballot
    && (if rec.isFinal then Late(d, rec.iid, rec.ballot) && rec.value == d[rec.iid].value
        else Voted(s, a, rec.iid, rec.valueBallot, rec.value))
  }

  ghost predicate AcksOk(r: Rules, s: State, d: Decisions) {
    forall x :: x in s.acks ==> AckOk(r, s, d, x.acceptor, x.rec)
  }

  /** Why a learner may settle on f for instance i. */
  ghost predicate Justified(r: Rules, s: State, d: Decisions, i: nat, f: Record) {
    && f.valueBallot <= f.ballot && f.value != []
    && if f.isFinal then Late(d, i, f.ballot) && f.value == d[i].value
       else exists q :: QuorumVoted(r, s, q, i, f.valueBallot, f.value)
  }

  ghost predicate InstanceFair(r: Rules, s: State, d: Decisions, i: nat, inst: L.Instance) {
    && |inst.acks| == r.n && inst.iid == i
    && forall a: nat :: a < r.n && inst.acks[a].Some? ==>
         inst.acks[a].value.iid == i && AckOk(r, s, d, a, inst.acks[a].value)
  }

  ghost predicate LearnerFair(r: Rules, s: State, d: Decisions, x: L.Learner) {
    && L.Numbered(x)
    && (forall i :: i in x.open ==> InstanceFair(r, s, d, i, x.open[i]))
    && (forall i: nat :: L.Outcome(x, i).Some? ==> Justified(r, s, d, i, L.Outcome(x, i).value))
  }

  ghost predicate LearnersOk(r: Rules, s: State, d: Decisions) {
    forall l :: l in s.learners ==> LearnerFair(r, s, d, s.learners[l])
  }

  // ---- everything together ----

  ghost predicate AcceptorSide(r: Rules, s: State, d: Decisions) {
    && RecordsOk(r, s, d) && VotesOk(r, s, d) && IssuesOk(r, s, d) && OneValuePerBallot(s)
    && ProposalsSafe(r, s, d) && DecisionsOk(r, s, d)
  }

  ghost predicate ProposerSide(r: Rules, s: State, d: Decisions) {
    && PromisesOk(r, s, d) && ProposersOk(r, s) && SlotsOk(r, s, d)
    && AllFresh(r, s, d) && OpenedOnce(r, s) && TokensOk(r, s, d)
  }

  ghost predicate LearnerSide(r: Rules, s: State, d: Decisions) {
    AcksOk(r, s, d) && LearnersOk(r, s, d)
  }

  ghost predicate Inv(r: Rules, s: State, d: Decisions) {
    && (forall pr :: pr in s.prepares ==> pr.ballot > 0)
    && AcceptorSide(r, s, d) && ProposerSide(r, s, d) && LearnerSide(r, s, d)
  }
}
