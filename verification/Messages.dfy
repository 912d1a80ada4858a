/** The protocol messages of include/libpaxos_messages.h. The acceptor's stored
    record and the accept acknowledgement are one type, as in the source. */
module Messages {
  import opened PaxosConfig

  /** Phase 1a. */
  datatype PrepareReq = PrepareReq(iid: nat, ballot: nat)

  /** Phase 1b: the promise, with the last accepted value if there is one. */
  datatype PrepareAck = PrepareAck(iid: nat, ballot: nat, valueBallot: nat, value: Value)

  /** Phase 2a. */
  datatype AcceptReq = AcceptReq(iid: nat, ballot: nat, value: Value)

  /** Phase 2b, and what an acceptor stores for an instance. */
  datatype Record = Record(iid: nat, ballot: nat, valueBallot: nat, isFinal: bool, value: Value)

  /** The code does in seven places something else than its comments or its names say. Each flag
      says that one of them has been brought in line; the code as it stands has none set. The last
      two are about the leader's own books and no matter to agreement.
        acceptGuard      lib/acceptor.c:47            drop an accept below the promise, not above it
        countDistinct    lib/proposer.c:124,130       remember in a bit vector who has promised
        restartForgets   lib/proposer_leader.c:427    a new phase 1 after a phase 2 timeout starts from nothing
        checkIid         lib/proposer.c:191           a promise counts for its own instance only
        groupByVote      lib/learner.c:111,175        acks agree when their value ballots do
        pushBack         lib/proposer_leader.c:247    the branch for a slot with two values can be reached
        countOff         lib/proposer_leader.c:468    a delivered slot that was ready leaves ready_count */
  datatype Repairs = Repairs(acceptGuard: bool, countDistinct: bool, restartForgets: bool,
                             checkIid: bool, groupByVote: bool, pushBack: bool, countOff: bool)
}
