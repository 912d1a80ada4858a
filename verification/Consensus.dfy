/** LibPaxos2 as a step system: any number of acceptors, proposers, learners and instances,
    over a network that loses, delays and reorders messages. Every step is one of the
    functions the handlers are built from, applied to one participant. */
module Consensus {
  import opened PaxosConfig
  import opened Messages
  import opened SlotSpec
  import A = AcceptorSpec
  import L = LearnerSpec

  /** What a deployment is made of: its sizes, which departures from its comments are repaired, and what
      its environment may do.
        promisesDuplicate  the network may deliver one promise more than once
        reelection         one proposer id may be leader more than once
        emptyValues        clients may submit the empty value
        updateOnDeliver    ACCEPTOR_UPDATE_ON_DELIVER: acceptors store delivered values */
  datatype Rules = Rules(n: nat, ring: nat, window: nat, repairs: Repairs,
                         promisesDuplicate: bool, reelection: bool, emptyValues: bool, updateOnDeliver: bool)
  {
    predicate Valid() {
      n > 0 && ring > 0 && window > 0
    }

    function Setup(): L.Setup {
      L.Setup(n, window, repairs.groupByVote)
    }
  }

  /** One proposer: its slots by index, and p1_info.highest_open. Slots not in the table are empty. */
  datatype Proposer = Proposer(leading: bool, promoted: bool, table: map<nat, Slot>, highestOpen: nat)

  datatype Promise = Promise(acceptor: nat, ack: PrepareAck)
  datatype Ack = Ack(acceptor: nat, rec: Record)

  // History: a vote is one acceptance, an issue is one accept request with the acceptors
  // whose promises it rests on.
  datatype Vote = Vote(acceptor: nat, iid: nat, ballot: nat, value: Value)
  datatype Issue = Issue(iid: nat, ballot: nat, value: Value, from: set<nat>)

  datatype Key = Key(acceptor: nat, iid: nat)

  /** Prepare requests, accept requests and acks stay on the network for good: each may still
      arrive anywhere, any number of times, or never. Promises are consumed on arrival unless
      the network duplicates them. */
  datatype State = State(records: map<Key, Record>, proposers: map<nat, Proposer>, learners: map<nat, L.Learner>,
                         prepares: set<PrepareReq>, promises: multiset<Promise>, issues: set<Issue>,
                         acks: set<Ack>, votes: set<Vote>)

  const INIT: State := State(map[], map[], map[], {}, multiset{}, {}, {}, {})

  datatype Step =
    | Promote(p: nat, start: nat)           // pro_handle_oracle_msg, leader_init
    | Demote(p: nat)                        // pro_handle_oracle_msg, leader_shutdown
    | Open(p: nat)                          // leader_open_instances_p1, one instance
    | Retry(p: nat, k: nat)                 // leader_check_p1_pending, one expired slot
    | Restart(p: nat, k: nat)               // leader_periodic_p2_check, one expired slot
    | Promised(p: nat, msg: Promise)        // handle_prepare_ack
    | Propose(p: nat, k: nat, next: Value)  // leader_execute_p2
    | Forget(p: nat, k: nat, l: nat)        // leader_deliver: the slot of a delivered instance is cleared
    | Prepare(a: nat, pr: PrepareReq)       // handle_prepare_req_batch, one request
    | Accept(a: nat, e: Issue)              // handle_accept_req_batch, one request
    | Repeat(a: nat, iid: nat)              // handle_repeat_req_batch, one request
    | SaveFinal(a: nat, l: nat, iid: nat)   // acc_deliver_callback
    | Learn(l: nat, ack: Ack)               // handle_accept_ack
    | Reboot(l: nat, past: nat)             // learner l starts again from nothing

  function ProposerAt(s: State, p: nat): Proposer {
    if p in s.proposers then s.proposers[p] else Proposer(false, false, map[], 0)
  }

  function LearnerAt(s: State, l: nat): L.Learner {
    if l in s.learners then s.learners[l] else L.NEW_LEARNER
  }

  function RecordAt(s: State, a: nat, iid: nat): Option<Record> {
    if Key(a, iid) in s.records then Some(s.records[Key(a, iid)]) else None
  }

  function SlotAt(s: State, p: nat, k: nat): Slot {
    if k in ProposerAt(s, p).table then ProposerAt(s, p).table[k] else CLEARED
  }

  function WithProposer(s: State, p: nat, v: Proposer): State {
    s.(proposers := s.proposers[p := v])
  }

  function WithSlot(s: State, p: nat, k: nat, sl: Slot): State {
    WithProposer(s, p, ProposerAt(s, p).(table := ProposerAt(s, p).table[k := sl]))
  }

  function WithRecord(s: State, a: nat, rec: Record): State {
    s.(records := s.records[Key(a, rec.iid) := rec])
  }

  predicate Delivered(s: State, l: nat, iid: nat) {
    1 <= iid <= |LearnerAt(s, l).delivered|
  }

  predicate Enabled(r: Rules, s: State, st: Step)
    requires r.Valid()
  {
    match st
    case Promote(p, _) =>
      p < MAX_N_OF_PROPOSERS && !ProposerAt(s, p).leading && (ProposerAt(s, p).promoted ==> r.reelection)
    case Demote(p) => ProposerAt(s, p).leading
    case Open(p) =>
      var pro := ProposerAt(s, p);
      pro.leading && Index(pro.highestOpen + 1, r.ring) !in pro.table
    case Retry(p, k) => SlotAt(s, p, k).status == P1Pending
    case Restart(p, k) => SlotAt(s, p, k).status == P2Pending
    case Promised(p, msg) => ProposerAt(s, p).leading && msg in s.promises
    case Propose(p, k, next) => SlotAt(s, p, k).status == P1Ready && (next == [] ==> r.emptyValues)
    case Forget(p, k, l) => SlotAt(s, p, k).status != Empty && Delivered(s, l, SlotAt(s, p, k).iid)
    case Prepare(a, pr) => a < r.n && pr in s.prepares && A.ApplyPrepare(pr, RecordAt(s, a, pr.iid)).Some?
    case Accept(a, e) =>
      && a < r.n && e in s.issues
      && A.ApplyAccept(r.repairs, AcceptReq(e.iid, e.ballot, e.value), RecordAt(s, a, e.iid)).Some?
    case Repeat(a, iid) => a < r.n && RecordAt(s, a, iid).Some? && RecordAt(s, a, iid).value.value != []
    case SaveFinal(a, l, iid) => r.updateOnDeliver && a < r.n && Delivered(s, l, iid)
    case Learn(l, ack) =>
      && ack in s.acks && ack.acceptor < r.n
      && forall i :: i in LearnerAt(s, l).open ==> |LearnerAt(s, l).open[i].acks| == r.n
    case Reboot(l, past) => l != past && LearnerAt(s, past) == L.NEW_LEARNER
  }

  function Do(r: Rules, s: State, st: Step): State
    requires r.Valid() && Enabled(r, s, st)
  {
    match st
    case Promote(p, start) => WithProposer(s, p, Proposer(true, true, map[], start))
    case Demote(p) => WithProposer(s, p, ProposerAt(s, p).(leading := false, table := map[]))
    case Open(p) =>
      var pro := ProposerAt(s, p);
      var iid := pro.highestOpen + 1;
      var next := pro.(table := pro.table[Index(iid, r.ring) := Opened(CLEARED, iid, p)], highestOpen := iid);
      WithProposer(s, p, next).(prepares := s.prepares + {PrepareReq(iid, FirstBallot(p))})
    case Retry(p, k) =>
      var sl := RetryPhase1(SlotAt(s, p, k));
      WithSlot(s, p, k, sl).(prepares := s.prepares + {PrepareReq(sl.iid, sl.ballot)})
    case Restart(p, k) =>
      var sl := RestartPhase1(r.repairs, SlotAt(s, p, k));
      WithSlot(s, p, k, sl).(prepares := s.prepares + {PrepareReq(sl.iid, sl.ballot)})
    case Promised(p, msg) =>
      var k := Index(msg.ack.iid, r.ring);
      var rest := if r.promisesDuplicate then s.promises else s.promises - multiset{msg};
      var t := s.(promises := rest);
      if SlotAt(s, p, k).status == Empty then t
      else WithSlot(t, p, k, HandleAck(r.repairs, r.n, SlotAt(s, p, k), msg.ack, msg.acceptor))
    case Propose(p, k, next) =>
      var sl := StartPhase2(SlotAt(s, p, k), next);
      WithSlot(s, p, k, sl).(issues := s.issues + {Issue(sl.iid, sl.ballot, sl.p2.value, sl.heard)})
    case Forget(p, k, l) =>
      WithProposer(s, p, ProposerAt(s, p).(table := ProposerAt(s, p).table - {k}))
    case Prepare(a, pr) =>
      var rec := A.ApplyPrepare(pr, RecordAt(s, a, pr.iid)).value;
      WithRecord(s, a, rec).(promises := s.promises + multiset{Promise(a, A.PromiseOf(rec))})
    case Accept(a, e) =>
      var rec := A.AcceptedRecord(AcceptReq(e.iid, e.ballot, e.value));
      WithRecord(s, a, rec).(acks := s.acks + {Ack(a, rec)}, votes := s.votes + {Vote(a, e.iid, e.ballot, e.value)})
    case Repeat(a, iid) => s.(acks := s.acks + {Ack(a, RecordAt(s, a, iid).value)})
    case SaveFinal(a, l, iid) =>
      var f := LearnerAt(s, l).delivered[iid - 1];
      WithRecord(s, a, A.FinalRecord(iid, f.ballot, f.value))
    case Learn(l, ack) =>
      s.(learners := s.learners[l := L.HandleAck(r.Setup(), LearnerAt(s, l), ack.acceptor, ack.rec)])
    // what the learner had delivered before stays on record under another number
    case Reboot(l, past) => s.(learners := s.learners[past := LearnerAt(s, l)][l := L.NEW_LEARNER])
  }

  // ---- runs ----

  ghost predicate Legal(r: Rules, s: State, steps: seq<Step>)
    requires r.Valid()
    decreases |steps|
  {
    steps == [] || (Enabled(r, s, steps[0]) && Legal(r, Do(r, s, steps[0]), steps[1..]))
  }

  ghost function After(r: Rules, s: State, steps: seq<Step>): State
    requires r.Valid() && Legal(r, s, steps)
    decreases |steps|
  {
    if steps == [] then s else After(r, Do(r, s, steps[0]), steps[1..])
  }

  ghost predicate Reachable(r: Rules, s: State)
    requires r.Valid()
  {
    exists steps :: Legal(r, INIT, steps) && After(r, INIT, steps) == s
  }

  /** No two learners settle on different values for an instance. */
  ghost predicate Agreement(s: State) {
    forall l, m, i: nat ::
      Settled(s, l, i).Some? && Settled(s, m, i).Some? ==> Settled(s, l, i).value.value == Settled(s, m, i).value.value
  }

  ghost function Settled(s: State, l: nat, i: nat): Option<Record> {
    var x := LearnerAt(s, l);
    if |x.delivered| == x.current - 1 then L.Outcome(x, i) else None
  }
}
