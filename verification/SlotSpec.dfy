/** One slot of the leader's instance table and everything that happens to it:
    lib/proposer.c:60-70,102-222 and lib/proposer_leader.c:120-134,177-181,239-277,427-430. */
module SlotSpec {
  import opened PaxosConfig
  import opened Messages

  datatype Status = Empty | P1Pending | P1Ready | P2Pending | P2Completed

  /** p_inst_info. The promise bit vector is the set of its one bits. `heard` is history:
      the acceptors whose promise was counted in the current phase 1. Deadlines are not
      kept: which of them have passed is an input of the periodic checks. */
  datatype Slot = Slot(iid: nat, status: Status, ballot: nat, bits: set<nat>, count: nat,
                       p1: Option<Value>, p1Ballot: nat, p2: Option<Value>, heard: set<nat>)

  /** pro_clear_instance_info. */
  const CLEARED: Slot := Slot(0, Empty, 0, {}, 0, None, 0, None, {})

  /** A slot just opened by leader_open_instances_p1. */
  function Opened(sl: Slot, iid: nat, proposer: nat): Slot {
    sl.(iid := iid, status := P1Pending, ballot := FirstBallot(proposer))
  }

  /** A phase 1 that timed out starts over with the next ballot. */
  function RetryPhase1(sl: Slot): Slot {
    sl.(bits := {}, count := 0, p1Ballot := 0, p1 := None, ballot := NextBallot(sl.ballot), heard := {})
  }

  /** A phase 2 that timed out goes back to phase 1. As written the promises counted in the
      previous phase 1 stay counted. */
  function RestartPhase1(repairs: Repairs, sl: Slot): Slot {
    var next := sl.(status := P1Pending, ballot := NextBallot(sl.ballot), heard := {});
    if repairs.restartForgets then next.(bits := {}, count := 0, p1Ballot := 0, p1 := None) else next
  }

  /** The bits an acceptor's promise tests and sets. As written the expression is a comparison,
      which yields 1 (bit 0) or 0 (no bit). */
  function Mask(repairs: Repairs, acceptor: nat): set<nat> {
    if repairs.countDistinct then {acceptor} else if 1 < acceptor then {0} else {}
  }

  /** The value part of pro_save_prepare_ack. */
  function Adopt(sl: Slot, pa: PrepareAck): Slot {
    if pa.value == [] then sl
    else if sl.p1Ballot >= pa.valueBallot then sl
    else if sl.p1 == Some(pa.value) then sl.(p1Ballot := pa.valueBallot)
    else sl.(p1 := Some(pa.value), p1Ballot := pa.valueBallot)
  }

  /** pro_save_prepare_ack. */
  function SaveAck(repairs: Repairs, sl: Slot, pa: PrepareAck, acceptor: nat): Slot {
    var mask := Mask(repairs, acceptor);
    if sl.bits * mask != {} then sl
    else
      var bits := if repairs.countDistinct then sl.bits + mask else sl.bits * mask;
      Adopt(sl.(bits := bits, count := sl.count + 1, heard := sl.heard + {acceptor}), pa)
  }

  /** The tests of handle_prepare_ack that let a promise through. */
  predicate Relevant(repairs: Repairs, sl: Slot, pa: PrepareAck) {
    sl.status == P1Pending && pa.ballot == sl.ballot && (repairs.checkIid ==> pa.iid == sl.iid)
  }

  /** handle_prepare_ack on the slot. */
  function HandleAck(repairs: Repairs, n: nat, sl: Slot, pa: PrepareAck, acceptor: nat): Slot {
    if !Relevant(repairs, sl, pa) then sl
    else
      var saved := SaveAck(repairs, sl, pa, acceptor);
      if saved.count < Quorum(n) then saved else saved.(status := P1Ready)
  }

  /** The value leader_execute_p2 sends: found in phase 1, else already assigned, else new. */
  function Phase2Value(sl: Slot, next: Value): Value {
    if sl.p1.Some? then sl.p1.value else if sl.p2.Some? then sl.p2.value else next
  }

  /** leader_execute_p2 on the slot. */
  function StartPhase2(sl: Slot, next: Value): Slot {
    sl.(p2 := Some(Phase2Value(sl, next)), p1 := None,
        p1Ballot := if sl.p1.Some? then 0 else sl.p1Ballot, status := P2Pending)
  }
}
