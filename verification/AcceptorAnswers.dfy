/** What an acceptor answers, request by request, in terms of the records it has: which requests it
    ignores, and what the messages that leave say. */
module AcceptorAnswers {
  import opened PaxosConfig
  import opened Messages
  import opened Wire
  import opened SendBuffer
  import opened WriteAhead
  import opened AcceptorServer
  import H = HoleDetection
  import L = LearnerSpec
  import X = Interruption

  // ---- one request ----

  /** A prepare request is ignored when the record has promised as much, or is final. */
  predicate IgnoresPrepare(store: map<nat, Record>, pr: PrepareReq) {
    pr.iid in store && (store[pr.iid].ballot >= pr.ballot || store[pr.iid].isFinal)
  }

  /** An accept request is ignored below the promise, or as written above it. */
  predicate IgnoresAccept(repairs: Repairs, store: map<nat, Record>, ar: AcceptReq) {
    ar.iid in store && if repairs.acceptGuard then ar.ballot < store[ar.iid].ballot else ar.ballot > store[ar.iid].ballot
  }

  /** The acceptor has accepted a value for the instance. */
  predicate HasValue(store: map<nat, Record>, iid: nat) {
    iid in store && store[iid].value != []
  }

  /** A promise reports the last value accepted; an accept or a repeat request is answered with the
      record. */
  function Reply(repairs: Repairs, store: map<nat, Record>, req: Req): seq<Entry> {
    match req
    case Prepares(pr) =>
      if IgnoresPrepare(store, pr) then []
      else if pr.iid in store
      then [Promise(PrepareAck(pr.iid, pr.ballot, store[pr.iid].valueBallot, store[pr.iid].value))]
      else [Promise(PrepareAck(pr.iid, pr.ballot, 0, []))]
    case Accepts(ar) =>
      if IgnoresAccept(repairs, store, ar) then [] else [Accepted(Record(ar.iid, ar.ballot, ar.ballot, false, ar.value))]
    case Repeats(iid) => if HasValue(store, iid) then [Accepted(store[iid])] else []
    case Latest(iid) => if iid in store then [Accepted(store[iid])] else []
  }

  /** The store once the request is answered. */
  function Next(repairs: Repairs, store: map<nat, Record>, req: Req): map<nat, Record> {
    match req
    case Prepares(pr) =>
      if IgnoresPrepare(store, pr) then store
      else if pr.iid in store then store[pr.iid := store[pr.iid].(ballot := pr.ballot)]
      else store[pr.iid := Record(pr.iid, pr.ballot, 0, false, [])]
    case Accepts(ar) =>
      if IgnoresAccept(repairs, store, ar) then store else store[ar.iid := Record(ar.iid, ar.ballot, ar.ballot, false, ar.value)]
    case _ => store
  }

  function Replies(repairs: Repairs, store: map<nat, Record>, reqs: seq<Req>): seq<Entry>
    decreases |reqs|
  {
    if reqs == [] then [] else Reply(repairs, store, reqs[0]) + Replies(repairs, Next(repairs, store, reqs[0]), reqs[1..])
  }

  function NextAll(repairs: Repairs, store: map<nat, Record>, reqs: seq<Req>): map<nat, Record>
    decreases |reqs|
  {
    if reqs == [] then store else NextAll(repairs, Next(repairs, store, reqs[0]), reqs[1..])
  }

  ghost predicate Keyed(store: map<nat, Record>) {
    forall i :: i in store ==> store[i].iid == i
  }

  lemma RequestReplies(repairs: Repairs, store: map<nat, Record>, req: Req)
    requires Keyed(store)
    ensures var effect := EffectOf(repairs, store, req);
            effect.answers == Reply(repairs, store, req) && WriteAll(store, effect.writes) == Next(repairs, store, req)
    ensures Keyed(Next(repairs, store, req))
  {
    var effect := EffectOf(repairs, store, req);
    if effect.writes != [] {
      assert effect.writes[..0] == [];
    }
  }

  lemma {:induction false} RequestsReply(repairs: Repairs, store: map<nat, Record>, reqs: seq<Req>)
    requires Keyed(store)
    ensures Answers(repairs, store, reqs) == Replies(repairs, store, reqs)
    ensures StoreAfter(repairs, store, reqs) == NextAll(repairs, store, reqs)
    decreases |reqs|
  {
    if reqs != [] {
      RequestReplies(repairs, store, reqs[0]);
      RequestsReply(repairs, Next(repairs, store, reqs[0]), reqs[1..]);
    }
  }

  // ---- a handler ----

  lemma StoreIsKeyed(x: Acceptor)
    ensures Keyed(StoreOf(x))
  {
    forall i | i in StoreOf(x)
      ensures StoreOf(x)[i].iid == i
    {
      ReplayHolds(x.disk.log + x.disk.open, i);
    }
  }

  /** Whatever the sizes of the records, all of them leave in the messages, in order. */
  lemma {:induction false} AddAllCarries(o: Out, es: seq<Entry>)
    requires X.Honest(o)
    ensures var r := AddAll(o, es); X.Honest(r) && Entries(r.sent) + r.current == Entries(o.sent) + o.current + es
    decreases |es|
  {
    if es != [] {
      X.AddSends(o, es[0]);
      AddAllCarries(Add(o, es[0]), es[1..]);
      X.Regrouped(Entries(o.sent) + o.current, [es[0]], es[1..]);
      assert [es[0]] + es[1..] == es;
    }
  }

  lemma {:induction false} AddAllKeeps(o: Out, es: seq<Entry>)
    requires X.Honest(o)
    ensures Entries(o.sent) <= Entries(AddAll(o, es).sent)
    decreases |es|
  {
    if es != [] {
      X.AddSends(o, es[0]);
      AddAllKeeps(Add(o, es[0]), es[1..]);
    }
  }

  lemma SendAllCarries(o: Out, k: Kind, sender: int, es: seq<Entry>)
    ensures Entries(SendAll(o, k, sender, es).sent) == Entries(o.sent) + es
  {
    var c := Cleared(o, k, sender);
    var r := AddAll(c, es);
    AddAllCarries(c, es);
    assert Entries(o.sent) + [] == Entries(o.sent);
    if r.dirty {
      EntriesOneMore(r.sent, Batch(r.kind, r.sender, r.current));
    }
  }

  /** Every handler sends exactly the replies to its requests, one after the other, each in terms of
      the store the earlier ones have left, and commits what they leave. */
  lemma HandlerReplies(repairs: Repairs, x: Acceptor, k: Kind, me: int, reqs: seq<Req>)
    requires WrittenAhead(x)
    ensures var r := HandleBatch(repairs, x, k, me, reqs);
            && Entries(x.out.sent) <= Entries(r.out.sent) && X.SentBy(x, r) == Replies(repairs, StoreOf(x), reqs)
            && StoreOf(r) == NextAll(repairs, StoreOf(x), reqs) && r.disk.open == []
  {
    StoreIsKeyed(x);
    RequestsReply(repairs, StoreOf(x), reqs);
    HandleBatchWritesAhead(repairs, x, k, me, reqs);
    SendAllCarries(x.out, k, me, Answers(repairs, StoreOf(x), reqs));
    var r := HandleBatch(repairs, x, k, me, reqs);
    assert r.disk.log + r.disk.open == r.disk.log;
  }

  /** How many requests have been applied at a point of a handler. */
  function AppliedAt(reqs: seq<Req>, pt: X.Point): (n: nat)
    requires X.Inside(reqs, pt)
    ensures n <= |reqs|
  {
    match pt
    case Before(j) => j
    case Within(j) => j + 1
    case Ending => |reqs|
  }

  /** And how many of their replies have been given. */
  function RepliedAt(reqs: seq<Req>, pt: X.Point): (n: nat)
    requires X.Inside(reqs, pt)
    ensures n <= |reqs|
  {
    if pt.Ending? then |reqs| else pt.j
  }

  lemma AnsweredSoFar(repairs: Repairs, x: Acceptor, k: Kind, me: int, reqs: seq<Req>, y: Acceptor)
    requires WrittenAhead(x) && y == AnswerAll(repairs, x.(out := Cleared(x.out, k, me)), reqs)
    ensures WrittenAhead(y) && StoreOf(y) == NextAll(repairs, StoreOf(x), reqs)
    ensures Entries(y.out.sent) + y.out.current == Entries(x.out.sent) + Replies(repairs, StoreOf(x), reqs)
  {
    var c := x.(out := Cleared(x.out, k, me));
    StoreIsKeyed(x);
    RequestsReply(repairs, StoreOf(x), reqs);
    AnswerAllKeeps(repairs, c, reqs, y);
    AddAllCarries(c.out, Replies(repairs, StoreOf(x), reqs));
    assert Entries(x.out.sent) + [] == Entries(x.out.sent);
  }

  lemma {:induction false} NextOneMore(repairs: Repairs, store: map<nat, Record>, reqs: seq<Req>, req: Req)
    ensures NextAll(repairs, store, reqs + [req]) == Next(repairs, NextAll(repairs, store, reqs), req)
    decreases |reqs|
  {
    var all := reqs + [req];
    if reqs == [] {
      assert all[1..] == [];
      assert NextAll(repairs, Next(repairs, store, req), []) == Next(repairs, store, req);
    } else {
      assert all[1..] == reqs[1..] + [req];
      NextOneMore(repairs, Next(repairs, store, reqs[0]), reqs[1..], req);
    }
  }

  /** At every point of a handler the store is what the requests applied so far leave, all of it committed
      where the transaction has just ended, and the replies so far are in messages that are out or
      in the one being built. */
  lemma HandlerIsAt(repairs: Repairs, x: Acceptor, k: Kind, me: int, reqs: seq<Req>, pt: X.Point)
    requires WrittenAhead(x) && X.Inside(reqs, pt)
    ensures var y := X.At(repairs, x, k, me, reqs, pt);
            && StoreOf(y) == NextAll(repairs, StoreOf(x), reqs[..AppliedAt(reqs, pt)])
            && Entries(y.out.sent) + y.out.current
               == Entries(x.out.sent) + Replies(repairs, StoreOf(x), reqs[..RepliedAt(reqs, pt)])
            && (!pt.Before? ==> y.disk.open == [])
  {
    var c := x.(out := Cleared(x.out, k, me));
    var done := reqs[..RepliedAt(reqs, pt)];
    var y := AnswerAll(repairs, c, done);
    AnsweredSoFar(repairs, x, k, me, done, y);
    match pt
    case Before(j) =>
    case Within(j) =>
      assert reqs[..j + 1] == done + [reqs[j]];
      NextOneMore(repairs, StoreOf(x), done, reqs[j]);
      StoreIsKeyed(y);
      RequestReplies(repairs, StoreOf(y), reqs[j]);
      WritesKeep(y, EffectOf(repairs, StoreOf(y), reqs[j]).writes);
      CommitKeeps(Written(y, EffectOf(repairs, StoreOf(y), reqs[j]).writes));
    case Ending =>
      assert done == reqs;
      CommitKeeps(y);
  }

  // ---- repeats ----

  /** The records of those of the instances a value has been accepted for. */
  function ValuesOf(store: map<nat, Record>, iids: seq<nat>): seq<Entry> {
    if iids == [] then []
    else (if HasValue(store, iids[0]) then [Accepted(store[iids[0]])] else []) + ValuesOf(store, iids[1..])
  }

  lemma {:induction false} RepeatsReply(repairs: Repairs, store: map<nat, Record>, iids: seq<nat>)
    ensures Replies(repairs, store, RepeatReqsOf(iids)) == ValuesOf(store, iids)
    ensures NextAll(repairs, store, RepeatReqsOf(iids)) == store
    ensures forall i :: i in iids && HasValue(store, i) ==> Accepted(store[i]) in ValuesOf(store, iids)
  {
    if iids != [] {
      assert RepeatReqsOf(iids)[1..] == RepeatReqsOf(iids[1..]);
      RepeatsReply(repairs, store, iids[1..]);
    }
  }

  /** handle_repeat_req_batch: the acks sent are, in order, the stored records of those requested
      instances a value has been accepted for. */
  lemma RepeatsAnswered(repairs: Repairs, x: Acceptor, me: int, iids: seq<nat>)
    requires WrittenAhead(x)
    ensures var r := HandleBatch(repairs, x, AcceptAcks, me, RepeatReqsOf(iids));
            X.SentBy(x, r) == ValuesOf(StoreOf(x), iids) && StoreOf(r) == StoreOf(x)
  {
    RepeatsReply(repairs, StoreOf(x), iids);
    HandlerReplies(repairs, x, AcceptAcks, me, RepeatReqsOf(iids));
  }

  /** acc_retransmit_latest_accept: one ack, the record of the instance. */
  lemma LatestAnswered(repairs: Repairs, x: Acceptor, me: int, iid: nat)
    requires WrittenAhead(x) && iid in StoreOf(x)
    ensures var r := HandleBatch(repairs, x, AcceptAcks, me, [Latest(iid)]);
            X.SentBy(x, r) == [Accepted(StoreOf(x)[iid])] && StoreOf(r) == StoreOf(x)
  {
    OneReply(repairs, StoreOf(x), Latest(iid));
    HandlerReplies(repairs, x, AcceptAcks, me, [Latest(iid)]);
  }

  lemma OneReply(repairs: Repairs, store: map<nat, Record>, req: Req)
    ensures Replies(repairs, store, [req]) == Reply(repairs, store, req)
    ensures NextAll(repairs, store, [req]) == Next(repairs, store, req)
  {
    assert [req][1..] == [];
    assert Replies(repairs, Next(repairs, store, req), []) == [];
  }

  /** A hole comes back: whatever a learner finds missing and asks for, an acceptor that has accepted
      a value for it answers with its record. */
  lemma HolesComeBack(c: L.Setup, l: L.Learner, repairs: Repairs, x: Acceptor, me: int, i: nat)
    requires c.Valid() && L.LearnerOk(c, l) && WrittenAhead(x)
    requires L.InWindow(c, l, i) && !L.IsClosed(l, i) && (i < l.closed || (l.seen > l.current + c.window && i < l.seen))
    requires HasValue(StoreOf(x), i)
    ensures var r := HandleBatch(repairs, x, AcceptAcks, me, RepeatReqsOf(H.HoleCheck(c, l)));
            Accepted(StoreOf(x)[i]) in X.SentBy(x, r)
  {
    RepeatsAnswered(repairs, x, me, H.HoleCheck(c, l));
    RepeatsReply(repairs, StoreOf(x), H.HoleCheck(c, l));
    H.OwnSlot(c, l, i);
    H.RequestsAre(c, l, l.current, if H.Lagging(c, l) then l.seen else l.closed, i);
  }

  // ---- delivered values ----

  /** acc_deliver_callback: the record of the instance is the value, final in its ballot, and it is
      committed; no other record changes, and nothing is sent. */
  lemma DeliveredIsStored(repairs: Repairs, x: Acceptor, iid: nat, ballot: nat, value: Value)
    requires WrittenAhead(x)
    ensures var r := SaveFinal(x, iid, ballot, value);
            && StoreOf(r) == StoreOf(x)[iid := Record(iid, ballot, ballot, true, value)] && r.disk.open == []
            && r.out == x.out
  {
    var rec := Record(iid, ballot, ballot, true, value);
    WritesKeep(x, [rec]);
    CommitKeeps(Written(x, [rec]));
    assert [rec][..0] == [];
  }

  /** From then on every prepare request for it is ignored, whatever its ballot, and a learner that
      asks gets the final value. */
  lemma FinalIsAnswered(repairs: Repairs, x: Acceptor, me: int, iid: nat, ballot: nat, value: Value, pr: PrepareReq)
    requires WrittenAhead(x) && x.disk.open == [] && value != [] && pr.iid == iid
    ensures var y := SaveFinal(x, iid, ballot, value);
            && X.SentBy(y, HandleBatch(repairs, y, PrepareAcks, me, [Prepares(pr)])) == []
            && StoreOf(HandleBatch(repairs, y, PrepareAcks, me, [Prepares(pr)])) == StoreOf(y)
            && X.SentBy(y, HandleBatch(repairs, y, AcceptAcks, me, RepeatReqsOf([iid])))
               == [Accepted(Record(iid, ballot, ballot, true, value))]
  {
    var y := SaveFinal(x, iid, ballot, value);
    DeliveredIsStored(repairs, x, iid, ballot, value);
    StepWritesAhead(repairs, me, x, Learnt(iid, ballot, value));
    OneReply(repairs, StoreOf(y), Prepares(pr));
    HandlerReplies(repairs, y, PrepareAcks, me, [Prepares(pr)]);
    RepeatsAnswered(repairs, y, me, [iid]);
    assert [iid][1..] == [] && ValuesOf(StoreOf(y), []) == [];
  }

  // ---- prepare requests ----

  /** A phase 1 that starts over is answered: an acceptor that has promised the ballot before and has
      no final record promises the new one and reports its vote. */
  lemma RetryIsAnswered(repairs: Repairs, x: Acceptor, me: int, iid: nat, ballot: nat)
    requires WrittenAhead(x)
    requires iid in StoreOf(x) && StoreOf(x)[iid].ballot <= ballot && !StoreOf(x)[iid].isFinal
    ensures var pr := PrepareReq(iid, ballot + MAX_N_OF_PROPOSERS); var rec := StoreOf(x)[iid];
            var r := HandleBatch(repairs, x, PrepareAcks, me, [Prepares(pr)]);
            && X.SentBy(x, r) == [Promise(PrepareAck(iid, ballot + MAX_N_OF_PROPOSERS, rec.valueBallot, rec.value))]
            && StoreOf(r) == StoreOf(x)[iid := rec.(ballot := ballot + MAX_N_OF_PROPOSERS)]
  {
    var pr := PrepareReq(iid, ballot + MAX_N_OF_PROPOSERS);
    OneReply(repairs, StoreOf(x), Prepares(pr));
    HandlerReplies(repairs, x, PrepareAcks, me, [Prepares(pr)]);
  }
}
