/** The acceptor of lib/acceptor.c and lib/acceptor_stable_storage.c as it keeps its state: one
    record buffer, a database inside a transaction, and a send buffer. Every handler does what
    WriteAhead does on values. */
module AcceptorServer {
  import opened PaxosConfig
  import opened Messages
  import opened Wire
  import opened SendBuffer
  import opened WriteAhead
  import A = AcceptorSpec

  /** A record small enough to be acknowledged. */
  predicate Small(rec: Record) {
    InRange(Accepted(rec)) && FitsAlone(Accepted(rec))
  }

  ghost predicate StoreFits(store: map<nat, Record>) {
    forall i :: i in store ==> store[i].iid == i && Small(store[i])
  }

  /** Requests a receiver can have read from a message, with values that can be acknowledged. */
  predicate Acceptable(req: Req) {
    match req
    case Prepares(pr) => InRange(Prepare(pr))
    case Accepts(ar) => Small(A.AcceptedRecord(ar))
    case _ => true
  }

  predicate AllAcceptable(reqs: seq<Req>) {
    forall i :: 0 <= i < |reqs| ==> Acceptable(reqs[i])
  }

  lemma SmallFits(rec: Record)
    requires Small(rec)
    ensures Fits(AcceptAcks, Accepted(rec)) && Fits(PrepareAcks, Promise(A.PromiseOf(rec)))
  {
  }

  function AnswerKind(req: Req): Kind {
    if req.Prepares? then PrepareAcks else AcceptAcks
  }

  lemma AnswerFits(repairs: Repairs, store: map<nat, Record>, req: Req)
    requires StoreFits(store) && Acceptable(req)
    ensures var effect := EffectOf(repairs, store, req);
            && AllFit(AnswerKind(req), effect.answers)
            && StoreFits(WriteAll(store, effect.writes))
  {
    var effect := EffectOf(repairs, store, req);
    if effect.writes != [] {
      assert effect.writes[..0] == [];
      assert WriteAll(store, effect.writes) == store[effect.writes[0].iid := effect.writes[0]];
    }
  }

  /** All answers to a batch of one kind fit in messages, and so do those to the next. */
  lemma {:induction false} AnswersFit(repairs: Repairs, store: map<nat, Record>, k: Kind, reqs: seq<Req>)
    requires StoreFits(store) && AllAcceptable(reqs) && forall i :: 0 <= i < |reqs| ==> AnswerKind(reqs[i]) == k
    ensures AllFit(k, Answers(repairs, store, reqs)) && StoreFits(StoreAfter(repairs, store, reqs))
    decreases |reqs|
  {
    if reqs != [] {
      AnswerFits(repairs, store, reqs[0]);
      var effect := EffectOf(repairs, store, reqs[0]);
      AnswersFit(repairs, WriteAll(store, effect.writes), k, reqs[1..]);
    }
  }

  /** A request that writes nothing only adds its answer. */
  lemma ReadsOnly(repairs: Repairs, x: Acceptor, req: Req)
    requires EffectOf(repairs, StoreOf(x), req).writes == []
    ensures var answers := EffectOf(repairs, StoreOf(x), req).answers;
            AnswerOne(repairs, x, req) == if answers == [] then x else WriteAhead.AddAnswer(x, answers[0])
  {
    assert x.disk.open + [] == x.disk.open;
    assert Written(x, []) == x;
  }

  lemma OnlyOne(repairs: Repairs, x: Acceptor, req: Req)
    ensures AnswerAll(repairs, x, [req]) == AnswerOne(repairs, x, req)
  {
    assert [req][1..] == [];
    assert AnswerAll(repairs, AnswerOne(repairs, x, req), []) == AnswerOne(repairs, x, req);
  }

  class Server {
    const repairs: Repairs
    /** this_acceptor_id. */
    const me: int
    /** The send buffer: to_proposers or to_learners, whichever the handler fills. */
    const out: Sender
    /** The database: what is committed, and what the open transaction sees. */
    var durable: map<nat, Record>
    var store: map<nat, Record>
    /** record_buffer, which every read and write of the database goes through. */
    var buffer: Record
    /** highest_accepted_iid. */
    var highest: nat
    ghost var disk: Disk
    ghost var marks: seq<nat>

    ghost function View(): Acceptor
      reads this, out
    {
      Acceptor(disk, out.out, marks)
    }

    /** The database is what has been written, and every record in it can be acknowledged. */
    ghost predicate Stored()
      reads this
    {
      && durable == Replay(disk.log) && store == Replay(disk.log + disk.open)
      && StoreFits(store) && StoreFits(durable)
      && (highest == 0 || highest in store)
    }

    ghost predicate Valid()
      reads this, out, out.buffer
    {
      out.Valid() && Stored()
    }

    constructor (repairs: Repairs, me: int)
      ensures Valid() && View() == NEW_ACCEPTOR && this.repairs == repairs && this.me == me
      ensures fresh(out) && fresh(out.buffer)
    {
      this.repairs, this.me := repairs, me;
      out := new Sender(PrepareAcks, 0);
      durable, store, highest := map[], map[], 0;
      buffer := Record(0, 0, 0, false, []);
      disk, marks := Disk([], []), [];
    }

    // ---- stable storage ----

    /** stablestorage_tx_end. */
    method TxEnd()
      requires Stored()
      modifies this`durable, this`disk
      ensures Stored() && View() == Commit(old(View()))
    {
      durable := store;
      disk := Disk(disk.log + disk.open, []);
      assert disk.log + disk.open == disk.log;
    }

    /** stablestorage_get_record. */
    method GetRecord(iid: nat) returns (found: bool)
      requires Stored()
      modifies this`buffer
      ensures found <==> iid in store
      ensures found ==> buffer == store[iid]
    {
      if iid !in store {
        return false;
      }
      buffer := store[iid];
      assert iid == buffer.iid;
      return true;
    }

    /** The put of the save functions. */
    method Put()
      requires Stored() && Small(buffer)
      modifies this`store, this`disk
      ensures Stored() && store == old(store)[buffer.iid := buffer]
      ensures disk == Disk(old(disk).log, old(disk).open + [buffer])
    {
      store := store[buffer.iid := buffer];
      ReplayMore(disk.log + disk.open, [buffer]);
      assert [buffer][..0] == [];
      assert disk.log + (disk.open + [buffer]) == (disk.log + disk.open) + [buffer];
      disk := Disk(disk.log, disk.open + [buffer]);
    }

    /** stablestorage_save_accept. */
    method SaveAccept(ar: AcceptReq)
      requires Stored() && Small(A.AcceptedRecord(ar))
      modifies this`buffer, this`store, this`disk
      ensures Stored() && buffer == A.AcceptedRecord(ar) && ar.iid in store
      ensures disk == Disk(old(disk).log, old(disk).open + [buffer])
    {
      buffer := buffer.(iid := ar.iid, ballot := ar.ballot);
      buffer := buffer.(valueBallot := ar.ballot, isFinal := false);
      buffer := buffer.(value := ar.value);
      Put();
    }

    /** stablestorage_save_prepare: a record that was found is still in the buffer. */
    method SavePrepare(pr: PrepareReq, found: bool)
      requires Stored() && InRange(Prepare(pr)) && (found <==> pr.iid in store) && (found ==> buffer == store[pr.iid])
      modifies this`buffer, this`store, this`disk
      ensures Stored() && buffer == A.PreparedRecord(pr, Find(old(store), pr.iid)) && Small(buffer)
      ensures disk == Disk(old(disk).log, old(disk).open + [buffer])
    {
      if !found {
        buffer := buffer.(iid := pr.iid, ballot := pr.ballot);
        buffer := buffer.(valueBallot := 0, isFinal := false, value := []);
      } else {
        buffer := buffer.(ballot := pr.ballot);
      }
      Put();
    }

    // ---- answers ----

    /** Before a full message is sent the transaction ends. */
    method EndIfFull(e: Entry, ghost r: Acceptor)
      requires Valid() && r == WriteAhead.AddAnswer(View(), e)
      modifies this`durable, this`disk, this`marks
      ensures Stored() && disk == r.disk && marks == r.marks && Add(out.out, e) == r.out
    {
      if MESSAGE_HEADER + out.dataSize + RecordSize(e) >= MAX_UDP_MSG_SIZE {
        TxEnd();
        marks := if out.dirty then marks + [|disk.log|] else marks;
      }
    }

    /** sendbuf_add_prepare_ack and sendbuf_add_accept_ack. */
    method AddAnswer(e: Entry, ghost r: Acceptor)
      requires Valid() && Fits(out.kind, e) && r == WriteAhead.AddAnswer(View(), e)
      modifies this`durable, this`disk, this`marks, out, out.buffer
      ensures Valid() && View() == r && out.kind == old(out.kind)
    {
      EndIfFull(e, r);
      out.AddEntry(e);
    }

    // ---- one request ----

    /** stablestorage_get_record and acc_apply_prepare. */
    method ApplyPrepare(pr: PrepareReq) returns (applied: bool)
      requires Stored() && Acceptable(Prepares(pr))
      modifies this`buffer, this`store, this`disk
      ensures Stored()
      ensures applied <==> A.ApplyPrepare(pr, Find(old(store), pr.iid)).Some?
      ensures var effect := EffectOf(repairs, old(store), Prepares(pr));
              && disk == Disk(old(disk).log, old(disk).open + effect.writes)
              && effect.answers == (if applied then [Promise(A.PromiseOf(buffer))] else [])
      ensures applied ==> Fits(PrepareAcks, Promise(A.PromiseOf(buffer)))
    {
      var found := GetRecord(pr.iid);
      if found && buffer.ballot >= pr.ballot {
        return false;
      }
      if found && buffer.isFinal {
        return false;
      }
      SavePrepare(pr, found);
      SmallFits(buffer);
      return true;
    }

    /** The highest instance accepted is remembered for retransmission. */
    method NoteAccepted(iid: nat)
      requires Stored() && iid in store
      modifies this`highest
      ensures Stored() && highest == Max(old(highest), iid)
    {
      if iid > highest {
        highest := iid;
      }
    }

    /** The part of acc_apply_accept for a request that is not dropped. */
    method StoreAccepted(ar: AcceptReq)
      requires Stored() && Acceptable(Accepts(ar))
      modifies this`buffer, this`store, this`disk, this`highest
      ensures Stored() && buffer == A.AcceptedRecord(ar) && highest == Max(old(highest), ar.iid)
      ensures disk == Disk(old(disk).log, old(disk).open + [buffer]) && Fits(AcceptAcks, Accepted(buffer))
    {
      SaveAccept(ar);
      SmallFits(buffer);
      NoteAccepted(ar.iid);
    }

    /** stablestorage_get_record and acc_apply_accept. */
    method ApplyAccept(ar: AcceptReq) returns (applied: bool)
      requires Stored() && Acceptable(Accepts(ar))
      modifies this`buffer, this`store, this`disk, this`highest
      ensures Stored()
      ensures var effect := EffectOf(repairs, old(store), Accepts(ar));
              && disk == Disk(old(disk).log, old(disk).open + effect.writes)
              && effect.answers == (if applied then [Accepted(buffer)] else [])
      ensures applied ==> Fits(AcceptAcks, Accepted(buffer))
      ensures highest == if applied then Max(old(highest), ar.iid) else old(highest)
    {
      var found := GetRecord(ar.iid);
      var dropped := found && if repairs.acceptGuard then buffer.ballot > ar.ballot else buffer.ballot < ar.ballot;
      assert dropped <==> A.DropsAccept(repairs, ar, Find(store, ar.iid));
      if dropped {
        return false;
      }
      StoreAccepted(ar);
      return true;
    }

    /** One turn of the loop of handle_prepare_req_batch. */
    method AnswerPrepare(pr: PrepareReq)
      requires Valid() && Acceptable(Prepares(pr)) && out.kind == PrepareAcks
      modifies this, out, out.buffer
      ensures Valid() && View() == AnswerOne(repairs, old(View()), Prepares(pr)) && out.kind == PrepareAcks
    {
      var applied := ApplyPrepare(pr);
      if applied {
        AddAnswer(Promise(A.PromiseOf(buffer)), WriteAhead.AddAnswer(View(), Promise(A.PromiseOf(buffer))));
      }
    }

    /** One turn of the loop of handle_accept_req_batch. */
    method AnswerAccept(ar: AcceptReq)
      requires Valid() && Acceptable(Accepts(ar)) && out.kind == AcceptAcks
      modifies this, out, out.buffer
      ensures Valid() && View() == AnswerOne(repairs, old(View()), Accepts(ar)) && out.kind == AcceptAcks
    {
      var applied := ApplyAccept(ar);
      if applied {
        AddAnswer(Accepted(buffer), WriteAhead.AddAnswer(View(), Accepted(buffer)));
      }
    }

    /** The record of the instance is read, if a value was accepted. */
    method ReadAccepted(iid: nat) returns (accepted: bool)
      requires Stored()
      modifies this`buffer
      ensures var effect := EffectOf(repairs, store, Repeats(iid));
              effect.writes == [] && effect.answers == if accepted then [Accepted(buffer)] else []
      ensures accepted ==> Fits(AcceptAcks, Accepted(buffer))
    {
      var found := GetRecord(iid);
      return found && |buffer.value| > 0;
    }

    /** One turn of the loop of handle_repeat_req_batch. */
    method AnswerRepeat(iid: nat)
      requires Valid() && out.kind == AcceptAcks
      modifies this, out, out.buffer
      ensures Valid() && View() == AnswerOne(repairs, old(View()), Repeats(iid)) && out.kind == AcceptAcks
    {
      ReadsOnly(repairs, View(), Repeats(iid));
      var accepted := ReadAccepted(iid);
      if accepted {
        AddAnswer(Accepted(buffer), WriteAhead.AddAnswer(View(), Accepted(buffer)));
      }
    }

    // ---- handlers ----

    /** sendbuf_clear at the start of a handler. */
    method Begin(k: Kind)
      requires Valid()
      modifies out
      ensures Valid() && View() == old(View()).(out := Cleared(old(out.out), k, me)) && out.kind == k
    {
      out.Clear(k, me);
    }

    /** The commit and the flush at the end of a handler. */
    method Finish()
      requires Valid()
      modifies this`durable, this`disk, this`marks, out
      ensures Valid() && View() == WriteAhead.Flush(Commit(old(View())))
    {
      TxEnd();
      marks := if out.dirty then marks + [|disk.log|] else marks;
      out.Flush();
    }

    /** The loop of handle_prepare_req_batch. */
    method AnswerPrepares(batch: seq<PrepareReq>, ghost e: Acceptor)
      requires Valid() && out.kind == PrepareAcks && e == AnswerAll(repairs, View(), PrepareReqsOf(batch))
      requires AllAcceptable(PrepareReqsOf(batch))
      modifies this, out, out.buffer
      ensures Valid() && View() == e
    {
      ghost var reqs := PrepareReqsOf(batch);
      var i := 0;
      while i < |batch|
        invariant 0 <= i <= |batch| && Valid() && out.kind == PrepareAcks
        invariant AnswerAll(repairs, View(), reqs[i..]) == e
      {
        assert reqs[i..][0] == Prepares(batch[i]) && reqs[i..][1..] == reqs[i + 1..];
        AnswerPrepare(batch[i]);
        i := i + 1;
      }
    }

    /** handle_prepare_req_batch. */
    method HandlePrepareReqBatch(batch: seq<PrepareReq>)
      requires Valid() && AllAcceptable(PrepareReqsOf(batch))
      modifies this, out, out.buffer
      ensures Valid() && View() == HandleBatch(repairs, old(View()), PrepareAcks, me, PrepareReqsOf(batch))
    {
      Begin(PrepareAcks);
      AnswerPrepares(batch, AnswerAll(repairs, View(), PrepareReqsOf(batch)));
      Finish();
    }

    /** The loop of handle_accept_req_batch. */
    method AnswerAccepts(batch: seq<AcceptReq>, ghost e: Acceptor)
      requires Valid() && out.kind == AcceptAcks && e == AnswerAll(repairs, View(), AcceptReqsOf(batch))
      requires AllAcceptable(AcceptReqsOf(batch))
      modifies this, out, out.buffer
      ensures Valid() && View() == e
    {
      ghost var reqs := AcceptReqsOf(batch);
      var i := 0;
      while i < |batch|
        invariant 0 <= i <= |batch| && Valid() && out.kind == AcceptAcks
        invariant AnswerAll(repairs, View(), reqs[i..]) == e
      {
        assert reqs[i..][0] == Accepts(batch[i]) && reqs[i..][1..] == reqs[i + 1..];
        AnswerAccept(batch[i]);
        i := i + 1;
      }
    }

    /** handle_accept_req_batch. */
    method HandleAcceptReqBatch(batch: seq<AcceptReq>)
      requires Valid() && AllAcceptable(AcceptReqsOf(batch))
      modifies this, out, out.buffer
      ensures Valid() && View() == HandleBatch(repairs, old(View()), AcceptAcks, me, AcceptReqsOf(batch))
    {
      Begin(AcceptAcks);
      AnswerAccepts(batch, AnswerAll(repairs, View(), AcceptReqsOf(batch)));
      Finish();
    }

    /** The loop of handle_repeat_req_batch. */
    method AnswerRepeats(batch: seq<nat>, ghost e: Acceptor)
      requires Valid() && out.kind == AcceptAcks && e == AnswerAll(repairs, View(), RepeatReqsOf(batch))
      modifies this, out, out.buffer
      ensures Valid() && View() == e
    {
      ghost var reqs := RepeatReqsOf(batch);
      var i := 0;
      while i < |batch|
        invariant 0 <= i <= |batch| && Valid() && out.kind == AcceptAcks
        invariant AnswerAll(repairs, View(), reqs[i..]) == e
      {
        assert reqs[i..][0] == Repeats(batch[i]) && reqs[i..][1..] == reqs[i + 1..];
        AnswerRepeat(batch[i]);
        i := i + 1;
      }
    }

    /** handle_repeat_req_batch. */
    method HandleRepeatReqBatch(batch: seq<nat>)
      requires Valid()
      modifies this, out, out.buffer
      ensures Valid() && View() == HandleBatch(repairs, old(View()), AcceptAcks, me, RepeatReqsOf(batch))
    {
      Begin(AcceptAcks);
      AnswerRepeats(batch, AnswerAll(repairs, View(), RepeatReqsOf(batch)));
      Finish();
    }

    /** The record of the highest instance accepted is read. */
    method ReadLatest()
      requires Stored() && highest > 0
      modifies this`buffer
      ensures EffectOf(repairs, store, Latest(highest)) == Effect([], [Accepted(buffer)])
      ensures Fits(AcceptAcks, Accepted(buffer))
    {
      var found := GetRecord(highest);
      SmallFits(buffer);
    }

    /** It goes into the message. */
    method RepeatLatest()
      requires Valid() && highest > 0 && out.kind == AcceptAcks
      modifies this`buffer, this`durable, this`disk, this`marks, out, out.buffer
      ensures Valid() && View() == AnswerAll(repairs, old(View()), [Latest(highest)])
    {
      ghost var r := AnswerAll(repairs, View(), [Latest(highest)]);
      ReadsOnly(repairs, View(), Latest(highest));
      OnlyOne(repairs, View(), Latest(highest));
      ReadLatest();
      AddAnswer(Accepted(buffer), r);
    }

    /** acc_retransmit_latest_accept, when something has been accepted since the start. */
    method RetransmitLatestAccept()
      requires Valid() && highest > 0
      modifies this, out, out.buffer
      ensures Valid() && View() == HandleBatch(repairs, old(View()), AcceptAcks, me, [Latest(highest)])
    {
      Begin(AcceptAcks);
      RepeatLatest();
      Finish();
    }

    /** stablestorage_save_final_value. */
    method SaveFinalValue(value: Value, iid: nat, ballot: nat)
      requires Stored() && Small(A.FinalRecord(iid, ballot, value))
      modifies this`buffer, this`store, this`disk
      ensures Stored() && disk == Disk(old(disk).log, old(disk).open + [A.FinalRecord(iid, ballot, value)])
    {
      buffer := buffer.(iid := iid, ballot := ballot);
      buffer := buffer.(valueBallot := ballot, isFinal := true);
      buffer := buffer.(value := value);
      Put();
    }

    /** acc_deliver_callback with ACCEPTOR_UPDATE_ON_DELIVER: the value delivered replaces the record. */
    method DeliverCallback(value: Value, iid: nat, ballot: nat)
      requires Valid() && Small(A.FinalRecord(iid, ballot, value))
      modifies this
      ensures Valid() && View() == SaveFinal(old(View()), iid, ballot, value)
    {
      SaveFinalValue(value, iid, ballot);
      TxEnd();
    }

    /** The process dies and the acceptor starts again in recovery mode, between two handlers or
        inside one: what was committed is read back, everything else is gone. */
    method Recover()
      requires Valid()
      modifies this, out
      ensures Valid() && View() == Crash(old(View())) && highest == 0
    {
      store := durable;
      disk := Disk(disk.log, []);
      highest := 0;
      buffer := Record(0, 0, 0, false, []);
      out.Forget();
      assert disk.log + disk.open == disk.log;
    }
  }

  function PrepareReqsOf(batch: seq<PrepareReq>): seq<Req> {
    seq(|batch|, i requires 0 <= i < |batch| => Prepares(batch[i]))
  }

  function AcceptReqsOf(batch: seq<AcceptReq>): seq<Req> {
    seq(|batch|, i requires 0 <= i < |batch| => Accepts(batch[i]))
  }

  function RepeatReqsOf(batch: seq<nat>): seq<Req> {
    seq(|batch|, i requires 0 <= i < |batch| => Repeats(batch[i]))
  }
}
