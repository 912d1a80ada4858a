/** The acceptor's batch handlers, lib/acceptor.c:152-264, over its transactional store,
    lib/acceptor_stable_storage.c:290-489: records are written inside a transaction that is
    committed before any message that tells of them is sent, also when a batch of answers has to
    be split. */
module WriteAhead {
  import opened PaxosConfig
  import opened Messages
  import opened Wire
  import opened SendBuffer
  import A = AcceptorSpec

  // ---- the store ----

  /** The writes that are committed, and those of the open transaction, oldest first. */
  datatype Disk = Disk(log: seq<Record>, open: seq<Record>)

  /** What a sequence of writes leaves: the last record of each instance. */
  function Replay(log: seq<Record>): map<nat, Record> {
    if log == [] then map[] else Replay(log[..|log| - 1])[log[|log| - 1].iid := log[|log| - 1]]
  }

  function Find(store: map<nat, Record>, iid: nat): Option<Record> {
    if iid in store then Some(store[iid]) else None
  }

  function WriteAll(store: map<nat, Record>, ws: seq<Record>): map<nat, Record> {
    if ws == [] then store else WriteAll(store, ws[..|ws| - 1])[ws[|ws| - 1].iid := ws[|ws| - 1]]
  }

  // ---- one request ----

  datatype Req =
    | Prepares(pr: PrepareReq)
    | Accepts(ar: AcceptReq)
    | Repeats(iid: nat)     // handle_repeat_req_batch
    | Latest(iid: nat)      // acc_retransmit_latest_accept

  /** What a request makes the acceptor write and answer. */
  datatype Effect = Effect(writes: seq<Record>, answers: seq<Entry>)

  function EffectOf(repairs: Repairs, store: map<nat, Record>, req: Req): Effect {
    match req
    case Prepares(pr) =>
      var rec := A.ApplyPrepare(pr, Find(store, pr.iid));
      if rec.None? then Effect([], []) else Effect([rec.value], [Promise(A.PromiseOf(rec.value))])
    case Accepts(ar) =>
      var rec := A.ApplyAccept(repairs, ar, Find(store, ar.iid));
      if rec.None? then Effect([], []) else Effect([rec.value], [Accepted(rec.value)])
    case Repeats(iid) =>
      if iid in store && store[iid].value != [] then Effect([], [Accepted(store[iid])]) else Effect([], [])
    case Latest(iid) =>
      if iid in store then Effect([], [Accepted(store[iid])]) else Effect([], [])
  }

  // ---- the simple form: no transactions, no messages ----

  /** The store after a batch of requests. */
  function StoreAfter(repairs: Repairs, store: map<nat, Record>, reqs: seq<Req>): map<nat, Record>
    decreases |reqs|
  {
    if reqs == [] then store
    else StoreAfter(repairs, WriteAll(store, EffectOf(repairs, store, reqs[0]).writes), reqs[1..])
  }

  /** All answers to a batch of requests, in order. */
  function Answers(repairs: Repairs, store: map<nat, Record>, reqs: seq<Req>): seq<Entry>
    decreases |reqs|
  {
    if reqs == [] then []
    else
      var effect := EffectOf(repairs, store, reqs[0]);
      effect.answers + Answers(repairs, WriteAll(store, effect.writes), reqs[1..])
  }

  // ---- the acceptor ----

  /** The store, the send buffer, and as history how much of the log was committed when each
      message was sent. */
  datatype Acceptor = Acceptor(disk: Disk, out: Out, marks: seq<nat>)

  function StoreOf(x: Acceptor): map<nat, Record> {
    Replay(x.disk.log + x.disk.open)
  }

  /** stablestorage_tx_end. */
  function Commit(x: Acceptor): Acceptor {
    x.(disk := Disk(x.disk.log + x.disk.open, []))
  }

  /** sendbuf_flush. */
  function Flush(x: Acceptor): Acceptor {
    x.(out := Flushed(x.out), marks := if x.out.dirty then x.marks + [|x.disk.log|] else x.marks)
  }

  /** sendbuf_add_prepare_ack and sendbuf_add_accept_ack: a full message is sent after a commit. */
  function AddAnswer(x: Acceptor, e: Entry): Acceptor {
    var y := if Splits(x.out, e) then Flush(Commit(x)) else x;
    y.(out := Add(x.out, e))
  }

  /** The save functions. */
  function Written(x: Acceptor, ws: seq<Record>): Acceptor {
    x.(disk := x.disk.(open := x.disk.open + ws))
  }

  function AnswerOne(repairs: Repairs, x: Acceptor, req: Req): Acceptor {
    var effect := EffectOf(repairs, StoreOf(x), req);
    var y := Written(x, effect.writes);
    if effect.answers == [] then y else AddAnswer(y, effect.answers[0])
  }

  function AnswerAll(repairs: Repairs, x: Acceptor, reqs: seq<Req>): Acceptor
    decreases |reqs|
  {
    if reqs == [] then x else AnswerAll(repairs, AnswerOne(repairs, x, reqs[0]), reqs[1..])
  }

  /** A batch handler: an empty message, a transaction around the loop, and what is left of the
      answers after the commit. */
  function HandleBatch(repairs: Repairs, x: Acceptor, k: Kind, me: int, reqs: seq<Req>): Acceptor {
    Flush(Commit(AnswerAll(repairs, x.(out := Cleared(x.out, k, me)), reqs)))
  }

  /** acc_deliver_callback. */
  function SaveFinal(x: Acceptor, iid: nat, ballot: nat, value: Value): Acceptor {
    Commit(Written(x, [A.FinalRecord(iid, ballot, value)]))
  }

  /** A crash: the open transaction and the message being built are gone. */
  function Crash(x: Acceptor): Acceptor {
    x.(disk := x.disk.(open := []), out := x.out.(current := [], dirty := false))
  }

  // ---- what is on disk ----

  /** What an answer tells was written. */
  ghost predicate Backed(e: Entry, log: seq<Record>) {
    match e
    case Promise(pa) => exists i :: 0 <= i < |log| && A.PromiseOf(log[i]) == pa
    case Accepted(rec) => rec in log
    case _ => false
  }

  ghost predicate AllBacked(es: seq<Entry>, log: seq<Record>) {
    forall i :: 0 <= i < |es| ==> Backed(es[i], log)
  }

  /** Every message sent told only of what was committed when it was sent; the message being
      built tells only of what has been written. */
  ghost predicate WrittenAhead(x: Acceptor) {
    && |x.marks| == |x.out.sent|
    && (forall i :: 0 <= i < |x.marks| ==> x.marks[i] <= |x.disk.log| && AllBacked(x.out.sent[i].entries, x.disk.log[..x.marks[i]]))
    && AllBacked(x.out.current, x.disk.log + x.disk.open)
  }

  lemma BackedMore(e: Entry, log: seq<Record>, more: seq<Record>)
    requires Backed(e, log)
    ensures Backed(e, log + more)
  {
    match e
    case Promise(pa) =>
      var i :| 0 <= i < |log| && A.PromiseOf(log[i]) == pa;
      assert (log + more)[i] == log[i];
    case Accepted(rec) =>
  }

  lemma {:induction false} ReplayHolds(log: seq<Record>, iid: nat)
    ensures iid in Replay(log) ==> Replay(log)[iid] in log && Replay(log)[iid].iid == iid
  {
    if log != [] {
      ReplayHolds(log[..|log| - 1], iid);
    }
  }

  lemma {:induction false} ReplayMore(log: seq<Record>, ws: seq<Record>)
    ensures Replay(log + ws) == WriteAll(Replay(log), ws)
  {
    if ws == [] {
      assert log + ws == log;
    } else {
      assert (log + ws)[..|log + ws| - 1] == log + ws[..|ws| - 1];
      ReplayMore(log, ws[..|ws| - 1]);
    }
  }

  /** The answer to a request is backed by what the request makes the acceptor write or by what
      is there already. */
  lemma AnswerIsBacked(repairs: Repairs, log: seq<Record>, req: Req)
    ensures var effect := EffectOf(repairs, Replay(log), req);
            |effect.answers| <= 1 && |effect.writes| <= 1 && AllBacked(effect.answers, log + effect.writes)
  {
    var effect := EffectOf(repairs, Replay(log), req);
    var all := log + effect.writes;
    if effect.writes != [] {
      assert all[|log|] == effect.writes[0];
    }
    match req
    case Prepares(pr) =>
    case Accepts(ar) =>
    case Repeats(iid) => ReplayHolds(log, iid);
    case Latest(iid) => ReplayHolds(log, iid);
  }

  // ---- every step writes ahead ----

  lemma MarksKeep(x: Acceptor, log: seq<Record>)
    requires WrittenAhead(x) && |x.disk.log| <= |log| && log[..|x.disk.log|] == x.disk.log
    ensures forall i :: 0 <= i < |x.marks| ==> x.marks[i] <= |log| && AllBacked(x.out.sent[i].entries, log[..x.marks[i]])
  {
    forall i | 0 <= i < |x.marks|
      ensures x.marks[i] <= |log| && AllBacked(x.out.sent[i].entries, log[..x.marks[i]])
    {
      assert log[..x.marks[i]] == x.disk.log[..x.marks[i]];
    }
  }

  lemma CommitKeeps(x: Acceptor)
    requires WrittenAhead(x)
    ensures WrittenAhead(Commit(x)) && StoreOf(Commit(x)) == StoreOf(x)
  {
    var log := x.disk.log + x.disk.open;
    MarksKeep(x, log);
    assert log + [] == log;
  }

  lemma FlushKeeps(x: Acceptor)
    requires WrittenAhead(x) && x.disk.open == []
    ensures WrittenAhead(Flush(x)) && StoreOf(Flush(x)) == StoreOf(x)
  {
    assert x.disk.log + [] == x.disk.log == x.disk.log[..|x.disk.log|];
  }

  lemma AddAnswerKeeps(x: Acceptor, e: Entry)
    requires WrittenAhead(x) && Backed(e, x.disk.log + x.disk.open)
    ensures WrittenAhead(AddAnswer(x, e)) && StoreOf(AddAnswer(x, e)) == StoreOf(x)
  {
    if Splits(x.out, e) {
      CommitKeeps(x);
      FlushKeeps(Commit(x));
      var y := Flush(Commit(x));
      assert y.disk.log + y.disk.open == x.disk.log + x.disk.open;
      assert AddAnswer(x, e).out.current == [e];
    }
  }

  lemma WritesKeep(x: Acceptor, ws: seq<Record>)
    requires WrittenAhead(x)
    ensures WrittenAhead(Written(x, ws)) && StoreOf(Written(x, ws)) == WriteAll(StoreOf(x), ws)
  {
    var log := x.disk.log + x.disk.open;
    assert x.disk.log + (x.disk.open + ws) == log + ws;
    ReplayMore(log, ws);
    forall i | 0 <= i < |x.out.current|
      ensures Backed(x.out.current[i], log + ws)
    {
      BackedMore(x.out.current[i], log, ws);
    }
  }

  lemma AnswerOneKeeps(repairs: Repairs, x: Acceptor, req: Req)
    requires WrittenAhead(x)
    ensures var r := AnswerOne(repairs, x, req); var effect := EffectOf(repairs, StoreOf(x), req);
            && WrittenAhead(r)
            && StoreOf(r) == WriteAll(StoreOf(x), effect.writes)
            && r.out == AddAll(x.out, effect.answers)
  {
    var effect := EffectOf(repairs, StoreOf(x), req);
    var log := x.disk.log + x.disk.open;
    var y := Written(x, effect.writes);
    AnswerIsBacked(repairs, log, req);
    WritesKeep(x, effect.writes);
    assert y.disk.log + y.disk.open == log + effect.writes;
    if effect.answers != [] {
      AddAnswerKeeps(y, effect.answers[0]);
      assert effect.answers[1..] == [];
      assert AddAll(x.out, effect.answers) == AddAll(Add(x.out, effect.answers[0]), []);
    }
  }

  lemma {:induction false} AddAllAll(o: Out, a: seq<Entry>, b: seq<Entry>)
    ensures AddAll(AddAll(o, a), b) == AddAll(o, a + b)
    decreases |a|
  {
    if a == [] {
      assert a + b == b;
    } else {
      assert (a + b)[1..] == a[1..] + b;
      AddAllAll(Add(o, a[0]), a[1..], b);
    }
  }

  /** The loop of a handler does what the simple form does. */
  lemma {:induction false} AnswerAllKeeps(repairs: Repairs, x: Acceptor, reqs: seq<Req>, r: Acceptor)
    requires WrittenAhead(x) && r == AnswerAll(repairs, x, reqs)
    ensures WrittenAhead(r)
    ensures StoreOf(r) == StoreAfter(repairs, StoreOf(x), reqs)
    ensures r.out == AddAll(x.out, Answers(repairs, StoreOf(x), reqs))
    decreases |reqs|
  {
    if reqs != [] {
      AnswerOneKeeps(repairs, x, reqs[0]);
      var one := AnswerOne(repairs, x, reqs[0]);
      AnswerAllKeeps(repairs, one, reqs[1..], r);
      AddAllAll(x.out, EffectOf(repairs, StoreOf(x), reqs[0]).answers, Answers(repairs, StoreOf(one), reqs[1..]));
    }
  }

  /** The answers are of the kind of the message and fit in one. */
  ghost predicate Answerable(repairs: Repairs, x: Acceptor, k: Kind, reqs: seq<Req>) {
    AllFit(k, Answers(repairs, StoreOf(x), reqs))
  }

  /** Main result: every message of a handler is sent after what it tells of has been committed,
      and the handler leaves, committed, the store the simple form leaves. */
  lemma HandleBatchWritesAhead(repairs: Repairs, x: Acceptor, k: Kind, me: int, reqs: seq<Req>)
    requires WrittenAhead(x)
    ensures var r := HandleBatch(repairs, x, k, me, reqs);
            && WrittenAhead(r) && r.disk.open == []
            && Replay(r.disk.log) == StoreAfter(repairs, StoreOf(x), reqs)
            && r.out == SendAll(x.out, k, me, Answers(repairs, StoreOf(x), reqs))
  {
    var c := x.(out := Cleared(x.out, k, me));
    assert WrittenAhead(c);
    var r := AnswerAll(repairs, c, reqs);
    AnswerAllKeeps(repairs, c, reqs, r);
    CommitKeeps(r);
    FlushKeeps(Commit(r));
    var f := Flush(Commit(r));
    assert f.disk.log + [] == f.disk.log;
  }

  /** Its messages carry exactly the answers of the simple form. */
  lemma HandleBatchAnswers(repairs: Repairs, x: Acceptor, k: Kind, me: int, reqs: seq<Req>)
    requires WrittenAhead(x) && Answerable(repairs, x, k, reqs)
    ensures var r := HandleBatch(repairs, x, k, me, reqs);
            && Entries(r.out.sent) == Entries(x.out.sent) + Answers(repairs, StoreOf(x), reqs)
            && SentSince(Cleared(x.out, k, me), r.out)
  {
    HandleBatchWritesAhead(repairs, x, k, me, reqs);
    SendAllDelivers(x.out, k, me, Answers(repairs, StoreOf(x), reqs));
  }

  // ---- whole runs ----

  datatype Event =
    | Requests(k: Kind, reqs: seq<Req>)
    | Learnt(iid: nat, ballot: nat, value: Value)
    | Crashed

  const NEW_ACCEPTOR: Acceptor := Acceptor(Disk([], []), Out(PrepareAcks, 0, [], false, []), [])

  function Step(repairs: Repairs, me: int, x: Acceptor, ev: Event): Acceptor {
    match ev
    case Requests(k, reqs) => HandleBatch(repairs, x, k, me, reqs)
    case Learnt(iid, ballot, value) => SaveFinal(x, iid, ballot, value)
    case Crashed => Crash(x)
  }

  function Run(repairs: Repairs, me: int, x: Acceptor, events: seq<Event>): Acceptor {
    if events == [] then x else Step(repairs, me, Run(repairs, me, x, events[..|events| - 1]), events[|events| - 1])
  }

  lemma StepWritesAhead(repairs: Repairs, me: int, x: Acceptor, ev: Event)
    requires WrittenAhead(x) && x.disk.open == []
    ensures WrittenAhead(Step(repairs, me, x, ev)) && Step(repairs, me, x, ev).disk.open == []
  {
    match ev
    case Requests(k, reqs) => HandleBatchWritesAhead(repairs, x, k, me, reqs);
    case Learnt(iid, ballot, value) =>
      WritesKeep(x, [A.FinalRecord(iid, ballot, value)]);
      CommitKeeps(Written(x, [A.FinalRecord(iid, ballot, value)]));
    case Crashed =>
      assert x.disk.log + [] == x.disk.log;
  }

  /** However requests, deliveries and crashes alternate, nothing is acknowledged before it is
      stored. */
  lemma {:induction false} RunsWriteAhead(repairs: Repairs, me: int, events: seq<Event>)
    ensures var x := Run(repairs, me, NEW_ACCEPTOR, events); WrittenAhead(x) && x.disk.open == []
  {
    if events != [] {
      RunsWriteAhead(repairs, me, events[..|events| - 1]);
      StepWritesAhead(repairs, me, Run(repairs, me, NEW_ACCEPTOR, events[..|events| - 1]), events[|events| - 1]);
    }
  }

  /** A crash between two handlers loses nothing at all. */
  lemma CrashLosesNothing(repairs: Repairs, me: int, events: seq<Event>)
    ensures var x := Run(repairs, me, NEW_ACCEPTOR, events);
            StoreOf(Crash(x)) == StoreOf(x) && Crash(x).out.sent == x.out.sent
  {
    RunsWriteAhead(repairs, me, events);
  }

  // ---- the records of a run ----

  /** No record reports a vote above its promise. */
  ghost predicate VotesBelow(log: seq<Record>) {
    forall i :: 0 <= i < |log| ==> log[i].valueBallot <= log[i].ballot
  }

  lemma WriteVotesBelow(repairs: Repairs, log: seq<Record>, req: Req)
    requires VotesBelow(log)
    ensures VotesBelow(log + EffectOf(repairs, Replay(log), req).writes)
  {
    if req.Prepares? {
      ReplayHolds(log, req.pr.iid);
    }
  }

  lemma {:induction false} AnswersVoteBelow(repairs: Repairs, x: Acceptor, reqs: seq<Req>, r: Acceptor)
    requires VotesBelow(x.disk.log + x.disk.open) && r == AnswerAll(repairs, x, reqs)
    ensures VotesBelow(r.disk.log + r.disk.open)
    decreases |reqs|
  {
    if reqs != [] {
      var one := AnswerOne(repairs, x, reqs[0]);
      var ws := EffectOf(repairs, StoreOf(x), reqs[0]).writes;
      WriteVotesBelow(repairs, x.disk.log + x.disk.open, reqs[0]);
      assert one.disk.log + one.disk.open == (x.disk.log + x.disk.open) + ws;
      AnswersVoteBelow(repairs, one, reqs[1..], r);
    }
  }

  /** Whatever an acceptor is sent and whichever guard it uses, every record it ever stores has a
      value ballot not above its ballot. */
  lemma {:induction false} RunsVoteBelow(repairs: Repairs, me: int, events: seq<Event>)
    ensures VotesBelow(Run(repairs, me, NEW_ACCEPTOR, events).disk.log)
  {
    if events != [] {
      var most, last := events[..|events| - 1], events[|events| - 1];
      RunsVoteBelow(repairs, me, most);
      RunsWriteAhead(repairs, me, most);
      var x := Run(repairs, me, NEW_ACCEPTOR, most);
      if last.Requests? {
        var c := x.(out := Cleared(x.out, last.k, me));
        assert c.disk.log + c.disk.open == x.disk.log;
        AnswersVoteBelow(repairs, c, last.reqs, AnswerAll(repairs, c, last.reqs));
      }
    }
  }

  // ---- promises ----

  /** The ballots written for one instance never go down. */
  ghost predicate Rising(log: seq<Record>) {
    forall i, j :: 0 <= i < j < |log| && log[i].iid == log[j].iid ==> log[i].ballot <= log[j].ballot
  }

  lemma {:induction false} LastIsHighest(log: seq<Record>, i: nat)
    requires Rising(log) && i < |log|
    ensures log[i].iid in Replay(log) && Replay(log)[log[i].iid].ballot >= log[i].ballot
  {
    var m := |log| - 1;
    if log[m].iid != log[i].iid {
      LastIsHighest(log[..m], i);
    }
  }

  /** The guard of acc_apply_accept decides whether an accept can lower a promise. */
  lemma AcceptNeverLowers(repairs: Repairs)
    ensures repairs.acceptGuard
            <==> forall ar, rec {:trigger A.ApplyAccept(repairs, ar, Some(rec))} ::
                   A.ApplyAccept(repairs, ar, Some(rec)).Some? ==> A.ApplyAccept(repairs, ar, Some(rec)).value.ballot >= rec.ballot
  {
    if !repairs.acceptGuard {
      var ar := AcceptReq(1, 10, [0]);
      var rec := Record(1, 20, 0, false, []);
      assert A.ApplyAccept(repairs, ar, Some(rec)) == Some(A.AcceptedRecord(ar));
    }
  }

  lemma WriteIsHigher(repairs: Repairs, log: seq<Record>, req: Req)
    requires repairs.acceptGuard && Rising(log)
    ensures Rising(log + EffectOf(repairs, Replay(log), req).writes)
  {
    var ws := EffectOf(repairs, Replay(log), req).writes;
    if ws != [] {
      assert |ws| == 1;
      if req.Prepares? {
        ReplayHolds(log, req.pr.iid);
      }
      forall i | 0 <= i < |log| && log[i].iid == ws[0].iid
        ensures log[i].ballot <= ws[0].ballot
      {
        LastIsHighest(log, i);
      }
    }
  }

  lemma {:induction false} AnswerAllRises(repairs: Repairs, x: Acceptor, reqs: seq<Req>, r: Acceptor)
    requires repairs.acceptGuard && Rising(x.disk.log + x.disk.open) && r == AnswerAll(repairs, x, reqs)
    ensures Rising(r.disk.log + r.disk.open)
    decreases |reqs|
  {
    if reqs != [] {
      var one := AnswerOne(repairs, x, reqs[0]);
      var ws := EffectOf(repairs, StoreOf(x), reqs[0]).writes;
      WriteIsHigher(repairs, x.disk.log + x.disk.open, reqs[0]);
      assert x.disk.log + (x.disk.open + ws) == (x.disk.log + x.disk.open) + ws;
      assert one.disk.log + one.disk.open == (x.disk.log + x.disk.open) + ws;
      AnswerAllRises(repairs, one, reqs[1..], r);
    }
  }

  /** What an acceptor has promised, its store still knows. */
  ghost predicate KeepsPromises(x: Acceptor) {
    forall i, j :: 0 <= i < |x.out.sent| && 0 <= j < |x.out.sent[i].entries| ==> Kept(x, x.out.sent[i].entries[j])
  }

  ghost predicate Kept(x: Acceptor, e: Entry) {
    e.Promise? ==> e.pa.iid in StoreOf(x) && StoreOf(x)[e.pa.iid].ballot >= e.pa.ballot
  }

  /** Storing a delivered value overwrites a higher promise. */
  predicate Lowers(x: Acceptor, ev: Event) {
    ev.Learnt? && ev.iid in StoreOf(x) && StoreOf(x)[ev.iid].ballot > ev.ballot
  }

  ghost predicate NoneLowers(repairs: Repairs, me: int, events: seq<Event>) {
    forall k: nat :: k < |events| ==> !Lowers(Run(repairs, me, NEW_ACCEPTOR, events[..k]), events[k])
  }

  lemma FirstLower(repairs: Repairs, me: int, events: seq<Event>)
    requires events != []
    ensures var most, last := events[..|events| - 1], events[|events| - 1];
            NoneLowers(repairs, me, events)
            <==> NoneLowers(repairs, me, most) && !Lowers(Run(repairs, me, NEW_ACCEPTOR, most), last)
  {
    var most := events[..|events| - 1];
    assert forall k: nat :: k < |most| ==> events[..k] == most[..k];
  }

  lemma LearntRises(x: Acceptor, rec: Record)
    requires x.disk.open == []
    ensures Rising(x.disk.log + [rec])
            <==> Rising(x.disk.log) && !(rec.iid in StoreOf(x) && StoreOf(x)[rec.iid].ballot > rec.ballot)
  {
    var log := x.disk.log;
    var all := log + [rec];
    assert log + [] == log;
    assert forall i :: 0 <= i < |log| ==> all[i] == log[i];
    assert all[|log|] == rec;
    if Rising(all) {
      RisingFirst(log, [rec]);
    }
    if rec.iid in StoreOf(x) {
      ReplayHolds(log, rec.iid);
      var i :| 0 <= i < |log| && log[i] == StoreOf(x)[rec.iid];
      assert Rising(all) ==> all[i].ballot <= all[|log|].ballot;
    }
    if Rising(log) {
      forall i | 0 <= i < |log| && log[i].iid == rec.iid
        ensures rec.iid in StoreOf(x) && log[i].ballot <= StoreOf(x)[rec.iid].ballot
      {
        LastIsHighest(log, i);
      }
    }
  }

  lemma RisingFirst(log: seq<Record>, more: seq<Record>)
    requires Rising(log + more)
    ensures Rising(log)
  {
    assert forall i :: 0 <= i < |log| ==> (log + more)[i] == log[i];
  }

  /** Without a write the log of a batch only grows. */
  lemma {:induction false} AnswerAllGrows(repairs: Repairs, x: Acceptor, reqs: seq<Req>, r: Acceptor)
    requires r == AnswerAll(repairs, x, reqs)
    ensures x.disk.log + x.disk.open <= r.disk.log + r.disk.open
    decreases |reqs|
  {
    if reqs != [] {
      AnswerAllGrows(repairs, AnswerOne(repairs, x, reqs[0]), reqs[1..], r);
    }
  }

  lemma StepRises(repairs: Repairs, me: int, x: Acceptor, ev: Event)
    requires repairs.acceptGuard && WrittenAhead(x) && x.disk.open == []
    ensures Rising(Step(repairs, me, x, ev).disk.log) <==> Rising(x.disk.log) && !Lowers(x, ev)
  {
    match ev
    case Requests(k, reqs) =>
      var c := x.(out := Cleared(x.out, k, me));
      var r := AnswerAll(repairs, c, reqs);
      assert c.disk.log + c.disk.open == x.disk.log;
      AnswerAllGrows(repairs, c, reqs, r);
      var all := r.disk.log + r.disk.open;
      assert all == x.disk.log + all[|x.disk.log|..];
      if Rising(all) {
        RisingFirst(x.disk.log, all[|x.disk.log|..]);
      }
      if Rising(x.disk.log) {
        AnswerAllRises(repairs, c, reqs, r);
      }
    case Learnt(iid, ballot, value) =>
      var rec := A.FinalRecord(iid, ballot, value);
      LearntRises(x, rec);
      assert x.disk.log + ([] + [rec]) == x.disk.log + [rec];
    case Crashed =>
  }

  /** Under the guard of the comments the ballots an acceptor has written for an instance never go
      down, exactly when no delivered value was stored over a higher promise. */
  lemma {:induction false} RunsRise(repairs: Repairs, me: int, events: seq<Event>)
    requires repairs.acceptGuard
    ensures Rising(Run(repairs, me, NEW_ACCEPTOR, events).disk.log) <==> NoneLowers(repairs, me, events)
  {
    if events != [] {
      var most, last := events[..|events| - 1], events[|events| - 1];
      RunsRise(repairs, me, most);
      RunsWriteAhead(repairs, me, most);
      StepRises(repairs, me, Run(repairs, me, NEW_ACCEPTOR, most), last);
      FirstLower(repairs, me, events);
    }
  }

  lemma RisingKeeps(x: Acceptor)
    requires WrittenAhead(x) && x.disk.open == [] && Rising(x.disk.log)
    ensures KeepsPromises(x)
  {
    forall i, j | 0 <= i < |x.out.sent| && 0 <= j < |x.out.sent[i].entries|
      ensures Kept(x, x.out.sent[i].entries[j])
    {
      var e := x.out.sent[i].entries[j];
      if e.Promise? {
        var part := x.disk.log[..x.marks[i]];
        assert AllBacked(x.out.sent[i].entries, part) && Backed(e, part);
        var n :| 0 <= n < |part| && A.PromiseOf(part[n]) == e.pa;
        assert x.disk.log[n] == part[n];
        LastIsHighest(x.disk.log, n);
        assert x.disk.log + x.disk.open == x.disk.log;
      }
    }
  }

  /** Main result: an acceptor that stores no delivered value over a higher promise keeps every
      promise it has ever sent, through crashes, exactly when the guard on accept requests is the
      one of the comments. */
  lemma PromisesKeptExactly(repairs: Repairs, me: int)
    ensures repairs.acceptGuard
            <==> forall events :: NoneLowers(repairs, me, events) ==> KeepsPromises(Run(repairs, me, NEW_ACCEPTOR, events))
  {
    if repairs.acceptGuard {
      forall events | NoneLowers(repairs, me, events)
        ensures KeepsPromises(Run(repairs, me, NEW_ACCEPTOR, events))
      {
        RunsWriteAhead(repairs, me, events);
        RunsRise(repairs, me, events);
        RisingKeeps(Run(repairs, me, NEW_ACCEPTOR, events));
      }
    } else {
      var events := LoweredPromise(repairs, me);
      assert NoneLowers(repairs, me, events);
    }
  }

  /** One promise at ballot 20, then an accept request at ballot 10. */
  lemma LoweredPromise(repairs: Repairs, me: int) returns (events: seq<Event>)
    requires !repairs.acceptGuard
    ensures (forall ev :: ev in events ==> !ev.Learnt?) && !KeepsPromises(Run(repairs, me, NEW_ACCEPTOR, events))
  {
    var one := Requests(PrepareAcks, [Prepares(PrepareReq(1, 20))]);
    var two := Requests(AcceptAcks, [Accepts(AcceptReq(1, 10, [0]))]);
    events := [one, two];
    var x1 := Run(repairs, me, NEW_ACCEPTOR, [one]);
    assert [one][..0] == [] && events[..1] == [one];
    RunsWriteAhead(repairs, me, [one]);
    Promised20(repairs, me, x1);
    Accepted10(repairs, me, x1, Run(repairs, me, NEW_ACCEPTOR, events));
  }

  lemma Promised20(repairs: Repairs, me: int, x: Acceptor)
    requires x == HandleBatch(repairs, NEW_ACCEPTOR, PrepareAcks, me, [Prepares(PrepareReq(1, 20))])
    ensures StoreOf(x) == map[1 := Record(1, 20, 0, false, [])]
    ensures x.out.sent == [Batch(PrepareAcks, me, [Promise(PrepareAck(1, 20, 0, []))])]
  {
    var req := Prepares(PrepareReq(1, 20));
    HandleBatchWritesAhead(repairs, NEW_ACCEPTOR, PrepareAcks, me, [req]);
    OnePrepare(repairs, me, NEW_ACCEPTOR, req, Record(1, 20, 0, false, []));
    assert x.disk.log + x.disk.open == x.disk.log;
  }

  lemma Accepted10(repairs: Repairs, me: int, x: Acceptor, y: Acceptor)
    requires !repairs.acceptGuard && WrittenAhead(x) && StoreOf(x) == map[1 := Record(1, 20, 0, false, [])]
    requires x.out.sent == [Batch(PrepareAcks, me, [Promise(PrepareAck(1, 20, 0, []))])]
    requires y == HandleBatch(repairs, x, AcceptAcks, me, [Accepts(AcceptReq(1, 10, [0]))])
    ensures !KeepsPromises(y)
  {
    var req := Accepts(AcceptReq(1, 10, [0]));
    HandleBatchWritesAhead(repairs, x, AcceptAcks, me, [req]);
    OneAccept(repairs, x, req, Record(1, 10, 10, false, [0]));
    assert y.disk.log + y.disk.open == y.disk.log;
    SendsMore(x.out, AcceptAcks, me, Answers(repairs, StoreOf(x), [req]));
    assert y.out.sent[0] == x.out.sent[0];
    assert !Kept(y, y.out.sent[0].entries[0]);
  }

  lemma OnePrepare(repairs: Repairs, me: int, x: Acceptor, req: Req, rec: Record)
    requires x == NEW_ACCEPTOR && req == Prepares(PrepareReq(1, 20)) && rec == Record(1, 20, 0, false, [])
    ensures StoreAfter(repairs, StoreOf(x), [req]) == map[1 := rec]
    ensures SendAll(x.out, PrepareAcks, me, Answers(repairs, StoreOf(x), [req])).sent
            == [Batch(PrepareAcks, me, [Promise(A.PromiseOf(rec))])]
  {
    assert x.disk.log + x.disk.open == [];
    var effect := EffectOf(repairs, map[], req);
    assert effect == Effect([rec], [Promise(A.PromiseOf(rec))]);
    assert [rec][..0] == [] && [req][1..] == [];
    assert WriteAll(map[], [rec]) == map[1 := rec];
    var e := Promise(A.PromiseOf(rec));
    assert Answers(repairs, map[], [req]) == [e];
    OneSent(x.out, me, e);
  }

  lemma OneSent(o: Out, me: int, e: Entry)
    requires e == Promise(PrepareAck(1, 20, 0, []))
    ensures SendAll(o, PrepareAcks, me, [e]).sent == o.sent + [Batch(PrepareAcks, me, [e])]
  {
    var c := Cleared(o, PrepareAcks, me);
    assert [e][1..] == [];
    assert AddAll(c, [e]) == Add(c, e);
    assert !Splits(c, e);
    assert Add(c, e).current == [e];
  }

  lemma OneAccept(repairs: Repairs, x: Acceptor, req: Req, low: Record)
    requires !repairs.acceptGuard && StoreOf(x) == map[1 := Record(1, 20, 0, false, [])]
    requires req == Accepts(AcceptReq(1, 10, [0])) && low == Record(1, 10, 10, false, [0])
    ensures StoreAfter(repairs, StoreOf(x), [req]) == map[1 := low]
  {
    var effect := EffectOf(repairs, StoreOf(x), req);
    assert effect == Effect([low], [Accepted(low)]);
    assert [low][..0] == [] && [req][1..] == [];
    assert WriteAll(StoreOf(x), [low]) == map[1 := low];
  }

  lemma {:induction false} SendsMore(o: Out, k: Kind, me: int, es: seq<Entry>)
    ensures o.sent <= SendAll(o, k, me, es).sent
  {
    AddsMore(Cleared(o, k, me), es);
  }

  lemma {:induction false} AddsMore(o: Out, es: seq<Entry>)
    ensures o.sent <= AddAll(o, es).sent
    decreases |es|
  {
    if es != [] {
      AddsMore(Add(o, es[0]), es[1..]);
    }
  }
}
