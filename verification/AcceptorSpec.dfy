/** What an acceptor does to one stored record: lib/acceptor.c:45-98 and the
    save functions of lib/acceptor_stable_storage.c:367-489. */
module AcceptorSpec {
  import opened PaxosConfig
  import opened Messages

  /** stablestorage_save_prepare. */
  function PreparedRecord(pr: PrepareReq, rec: Option<Record>): Record {
    match rec
    case None => Record(pr.iid, pr.ballot, 0, false, [])
    case Some(stored) => stored.(ballot := pr.ballot)
  }

  /** stablestorage_save_accept. */
  function AcceptedRecord(ar: AcceptReq): Record {
    Record(ar.iid, ar.ballot, ar.ballot, false, ar.value)
  }

  /** stablestorage_save_final_value. */
  function FinalRecord(iid: nat, ballot: nat, value: Value): Record {
    Record(iid, ballot, ballot, true, value)
  }

  /** acc_apply_prepare: None when the request is dropped. */
  function ApplyPrepare(pr: PrepareReq, rec: Option<Record>): Option<Record> {
    if rec.Some? && rec.value.ballot >= pr.ballot then None
    else if rec.Some? && rec.value.isFinal then None
    else Some(PreparedRecord(pr, rec))
  }

  /** The test of acc_apply_accept that drops a request. */
  predicate DropsAccept(repairs: Repairs, ar: AcceptReq, rec: Option<Record>) {
    && rec.Some?
    && if repairs.acceptGuard then rec.value.ballot > ar.ballot else rec.value.ballot < ar.ballot
  }

  /** acc_apply_accept: None when the request is dropped. */
  function ApplyAccept(repairs: Repairs, ar: AcceptReq, rec: Option<Record>): Option<Record> {
    if DropsAccept(repairs, ar, rec) then None else Some(AcceptedRecord(ar))
  }

  /** The promise sendbuf_add_prepare_ack makes of a record. */
  function PromiseOf(rec: Record): PrepareAck {
    PrepareAck(rec.iid, rec.ballot, rec.valueBallot, rec.value)
  }
}
