/** Agreement and proposal safety on every run of a sound deployment. */
module Safety {
  import opened PaxosConfig
  import opened Messages
  import opened Consensus
  import opened ConsensusInvariant
  import opened ConsensusCarries
  import opened AcceptorSteps
  import opened FinalValueSteps
  import opened LearnerSteps
  import opened ProposerSteps
  import opened ProposalSteps

  /** A step of a proposer other than an accept request changes nothing acceptors or learners see. */
  lemma OthersUnmoved(r: Rules, s: State, d: Decisions, t: State)
    requires AcceptorSide(r, s, d) && LearnerSide(r, s, d)
    requires t == s.(proposers := t.proposers, prepares := t.prepares, promises := t.promises)
    ensures AcceptorSide(r, t, d) && LearnerSide(r, t, d)
  {
    SameAcceptors(r, s, d, t);
    LearnersUnmoved(r, s, d, t);
  }

  lemma LearnersUnmoved(r: Rules, s: State, d: Decisions, t: State)
    requires LearnerSide(r, s, d)
    requires t == s.(proposers := t.proposers, prepares := t.prepares, promises := t.promises)
    ensures LearnerSide(r, t, d)
  {
    ProposeEvolves(r, s, d, t);
    CarryLearners(r, s, d, t, d);
  }

  lemma OnlyLearnersMove(r: Rules, s: State, d: Decisions, t: State)
    requires AcceptorSide(r, s, d) && ProposerSide(r, s, d)
    requires t == s.(learners := t.learners, acks := t.acks)
    ensures AcceptorSide(r, t, d) && ProposerSide(r, t, d)
  {
    SameAcceptors(r, s, d, t);
    ProposersUnmoved(r, s, d, t);
  }

  lemma ProposersUnmoved(r: Rules, s: State, d: Decisions, t: State)
    requires ProposerSide(r, s, d) && t == s.(learners := t.learners, acks := t.acks)
    ensures ProposerSide(r, t, d)
  {
    ProposeEvolves(r, s, d, t);
    SameProposers(r, s, d, t, d);
  }

  predicate IsProposerStep(st: Step) {
    st.Promote? || st.Demote? || st.Open? || st.Retry? || st.Restart? || st.Promised? || st.Forget?
  }

  lemma ProposerStepSide(r: Rules, s: State, d: Decisions, st: Step)
    requires r.Valid() && Sound(r) && ProposerSide(r, s, d) && IsProposerStep(st) && Enabled(r, s, st)
    ensures ProposerSide(r, Do(r, s, st), d)
  {
    match st
    case Promote(p, start) => PromoteProposers(r, s, d, p, start);
    case Demote(p) => DemoteProposers(r, s, d, p);
    case Open(p) => OpenProposers(r, s, d, p);
    case Retry(p, k) => RetryProposers(r, s, d, p, k);
    case Restart(p, k) => RestartProposers(r, s, d, p, k);
    case Promised(p, msg) => PromisedProposers(r, s, d, p, msg);
    case Forget(p, k, l) => ForgetProposers(r, s, d, p, k, l);
  }

  lemma ProposerStepFrame(r: Rules, s: State, st: Step)
    requires r.Valid() && IsProposerStep(st) && Enabled(r, s, st)
    requires forall pr :: pr in s.prepares ==> pr.ballot > 0
    ensures var t := Do(r, s, st);
            && t == s.(proposers := t.proposers, prepares := t.prepares, promises := t.promises)
            && forall pr :: pr in t.prepares ==> pr.ballot > 0
  {
  }

  lemma ProposerStepKeeps(r: Rules, s: State, d: Decisions, st: Step)
    requires r.Valid() && Sound(r) && Inv(r, s, d) && IsProposerStep(st) && Enabled(r, s, st)
    ensures Inv(r, Do(r, s, st), d)
  {
    ProposerStepSide(r, s, d, st);
    ProposerStepFrame(r, s, st);
    OthersUnmoved(r, s, d, Do(r, s, st));
  }

  lemma ProposeKeeps(r: Rules, s: State, d: Decisions, p: nat, k: nat, next: Value)
    requires r.Valid() && Sound(r) && Inv(r, s, d) && Enabled(r, s, Propose(p, k, next))
    ensures Inv(r, Do(r, s, Propose(p, k, next)), d)
  {
    var t := Do(r, s, Propose(p, k, next));
    ProposeIs(r, s, p, k, next);
    ProposeAcceptors(r, s, d, t, p, k, next);
    ProposeProposers(r, s, d, t, p, k, next);
    ProposeEvolves(r, s, d, t);
    CarryLearners(r, s, d, t, d);
  }

  lemma PrepareKeeps(r: Rules, s: State, d: Decisions, a: nat, pr: PrepareReq)
    requires r.Valid() && Inv(r, s, d) && Enabled(r, s, Prepare(a, pr))
    ensures Inv(r, Do(r, s, Prepare(a, pr)), d)
  {
    PrepareAcceptors(r, s, d, a, pr);
    PrepareProposers(r, s, d, a, pr);
    PrepareEvolves(r, s, d, a, pr);
    CarryLearners(r, s, d, Do(r, s, Prepare(a, pr)), d);
  }

  lemma AcceptKeeps(r: Rules, s: State, d: Decisions, a: nat, e: Issue)
    requires r.Valid() && r.repairs.acceptGuard && Inv(r, s, d) && Enabled(r, s, Accept(a, e))
    ensures Inv(r, Do(r, s, Accept(a, e)), d)
  {
    AcceptAcceptors(r, s, d, a, e);
    AcceptLearners(r, s, d, a, e);
    AcceptEvolves(r, s, d, a, e);
    SameProposers(r, s, d, Do(r, s, Accept(a, e)), d);
  }

  lemma RepeatKeeps(r: Rules, s: State, d: Decisions, a: nat, iid: nat)
    requires r.Valid() && Inv(r, s, d) && Enabled(r, s, Repeat(a, iid))
    ensures Inv(r, Do(r, s, Repeat(a, iid)), d)
  {
    var t := Do(r, s, Repeat(a, iid));
    RepeatLearners(r, s, d, a, iid);
    OnlyLearnersMove(r, s, d, t);
  }

  lemma LearnKeeps(r: Rules, s: State, d: Decisions, l: nat, ack: Ack)
    requires r.Valid() && r.repairs.groupByVote && Inv(r, s, d) && Enabled(r, s, Learn(l, ack))
    ensures Inv(r, Do(r, s, Learn(l, ack)), d)
  {
    var t := Do(r, s, Learn(l, ack));
    LearnLearners(r, s, d, l, ack);
    OnlyLearnersMove(r, s, d, t);
  }

  lemma RebootKeeps(r: Rules, s: State, d: Decisions, l: nat, past: nat)
    requires r.Valid() && Inv(r, s, d) && Enabled(r, s, Reboot(l, past))
    ensures Inv(r, Do(r, s, Reboot(l, past)), d)
  {
    RebootLearners(r, s, d, l, past);
    OnlyLearnersMove(r, s, d, Do(r, s, Reboot(l, past)));
  }

  /** Every step of a sound deployment keeps the invariant. */
  lemma StepKeeps(r: Rules, s: State, d: Decisions, st: Step) returns (d': Decisions)
    requires r.Valid() && Sound(r) && Inv(r, s, d) && Enabled(r, s, st)
    ensures Inv(r, Do(r, s, st), d')
    ensures !r.updateOnDeliver ==> d' == d
  {
    d' := d;
    match st
    case Propose(p, k, next) => ProposeKeeps(r, s, d, p, k, next);
    case Prepare(a, pr) => PrepareKeeps(r, s, d, a, pr);
    case Accept(a, e) => AcceptKeeps(r, s, d, a, e);
    case Repeat(a, iid) => RepeatKeeps(r, s, d, a, iid);
    case SaveFinal(a, l, iid) => d' := SaveFinalStep(r, s, d, a, l, iid);
    case Learn(l, ack) => LearnKeeps(r, s, d, l, ack);
    case Reboot(l, past) => RebootKeeps(r, s, d, l, past);
    case _ => ProposerStepKeeps(r, s, d, st);
  }

  lemma SaveFinalStep(r: Rules, s: State, d: Decisions, a: nat, l: nat, iid: nat) returns (d': Decisions)
    requires r.Valid() && Inv(r, s, d) && Enabled(r, s, SaveFinal(a, l, iid))
    ensures Inv(r, Do(r, s, SaveFinal(a, l, iid)), d')
  {
    d' := SaveFinalKeeps(r, s, d, a, l, iid);
  }

  lemma {:induction false} RunKeeps(r: Rules, s: State, d: Decisions, steps: seq<Step>) returns (d': Decisions)
    requires r.Valid() && Sound(r) && Inv(r, s, d) && Legal(r, s, steps)
    ensures Inv(r, After(r, s, steps), d')
    ensures !r.updateOnDeliver ==> d' == d
    decreases |steps|
  {
    d' := d;
    if steps != [] {
      d' := StepKeeps(r, s, d, steps[0]);
      d' := RunKeeps(r, Do(r, s, steps[0]), d', steps[1..]);
    }
  }

  lemma InitInv(r: Rules)
    requires r.Valid()
    ensures Inv(r, INIT, map[])
  {
  }

  lemma ReachableInv(r: Rules, s: State) returns (d: Decisions)
    requires r.Valid() && Sound(r) && Reachable(r, s)
    ensures Inv(r, s, d)
    ensures !r.updateOnDeliver ==> d == map[]
  {
    var steps :| Legal(r, INIT, steps) && After(r, INIT, steps) == s;
    InitInv(r);
    d := RunKeeps(r, INIT, map[], steps);
  }

  /** Agreement: on every run of a sound deployment no two learners settle on different values
      for an instance, for any number of acceptors, proposers and instances. */
  lemma SoundAgreement(r: Rules, s: State)
    requires r.Valid() && Sound(r) && Reachable(r, s)
    ensures Agreement(s)
  {
    var d := ReachableInv(r, s);
    InvAgreement(r, s, d);
  }
}
