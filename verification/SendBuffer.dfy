/** Batching: lib/udp_sendbuf.c packs records into messages no larger than MAX_UDP_MSG_SIZE and
    starts a new message when the next record does not fit; lib/udp_receiver.c checks a message
    and walks it. */
module SendBuffer {
  import opened PaxosConfig
  import opened Wire

  /** sizeof(paxos_msg). */
  const MESSAGE_HEADER: nat := 16

  /** sizeof the batch structure: two shorts, aligned to what follows them. */
  function BatchHeader(k: Kind): nat {
    match k
    case PrepareReqs => 8
    case PrepareAcks => 4
    case AcceptReqs => 4
    case AcceptAcks => 4
    case RepeatReqs => 8
  }

  // ---- batches of records ----

  datatype Batch = Batch(kind: Kind, sender: int, entries: seq<Entry>)

  /** The message being built and the messages sent so far. */
  datatype Out = Out(kind: Kind, sender: int, current: seq<Entry>, dirty: bool, sent: seq<Batch>)

  /** PREPARE_ACK_SIZE and the like, as the sender computes it. */
  function RecordSize(e: Entry): nat {
    HeaderSize(KindOf(e)) + |ValueOf(e)|
  }

  function Bytes(es: seq<Entry>): nat {
    if es == [] then 0 else Bytes(es[..|es| - 1]) + RecordSize(es[|es| - 1])
  }

  lemma BytesOneMore(es: seq<Entry>, e: Entry)
    ensures Bytes(es + [e]) == Bytes(es) + RecordSize(e)
  {
    assert (es + [e])[..|es|] == es;
  }

  lemma {:induction false} BytesAreEncoded(es: seq<Entry>)
    ensures |EncodeAll(es)| == Bytes(es)
  {
    if es != [] {
      var most, last := es[..|es| - 1], es[|es| - 1];
      assert es == most + [last];
      BytesAreEncoded(most);
      EncodeOneMore(most, last);
    }
  }

  /** The size of a message with these records. */
  function SizeWith(k: Kind, es: seq<Entry>): nat {
    MESSAGE_HEADER + BatchHeader(k) + Bytes(es)
  }

  /** sendbuf_clear. */
  function Cleared(o: Out, k: Kind, sender: int): Out {
    Out(k, sender, [], false, o.sent)
  }

  /** sendbuf_flush: the message stays in the buffer, still dirty. */
  function Flushed(o: Out): Out {
    if o.dirty then o.(sent := o.sent + [Batch(o.kind, o.sender, o.current)]) else o
  }

  /** The test of the sendbuf_add functions. */
  predicate Splits(o: Out, e: Entry) {
    SizeWith(o.kind, o.current) + RecordSize(e) >= MAX_UDP_MSG_SIZE
  }

  /** The sendbuf_add functions. */
  function Add(o: Out, e: Entry): Out {
    var p := if Splits(o, e) then Cleared(Flushed(o), o.kind, o.sender) else o;
    p.(current := p.current + [e], dirty := true)
  }

  function AddAll(o: Out, es: seq<Entry>): Out
    decreases |es|
  {
    if es == [] then o else AddAll(Add(o, es[0]), es[1..])
  }

  /** All records of a series of messages. */
  function Entries(bs: seq<Batch>): seq<Entry> {
    if bs == [] then [] else Entries(bs[..|bs| - 1]) + bs[|bs| - 1].entries
  }

  /** A record that fits in a message of its own. */
  predicate FitsAlone(e: Entry) {
    MESSAGE_HEADER + BatchHeader(KindOf(e)) + RecordSize(e) <= MAX_UDP_MSG_SIZE
  }

  /** A record of the kind that fits in a message of its own. */
  ghost predicate Fits(k: Kind, e: Entry) {
    KindOf(e) == k && InRange(e) && FitsAlone(e)
  }

  /** The message being built holds one kind of record, is dirty as soon as it holds one, and
      fits the buffer; it is smaller than the limit unless a single record fills it. */
  ghost predicate OutOk(o: Out) {
    && (o.dirty <==> o.current != [])
    && Sendable(o.kind, o.current)
    && BatchOk(Batch(o.kind, o.sender, o.current))
  }

  ghost predicate BatchOk(b: Batch) {
    SizeWith(b.kind, b.entries) < MAX_UDP_MSG_SIZE || (|b.entries| == 1 && SizeWith(b.kind, b.entries) == MAX_UDP_MSG_SIZE)
  }

  /** Since state o the records es have been added, in messages of the same kind that fit. */
  ghost predicate Packed(o: Out, r: Out, es: seq<Entry>) {
    && OutOk(r) && r.kind == o.kind && r.sender == o.sender
    && Entries(r.sent) + r.current == Entries(o.sent) + o.current + es
    && SentSince(o, r)
  }

  ghost predicate SentSince(o: Out, r: Out) {
    && |o.sent| <= |r.sent| && r.sent[..|o.sent|] == o.sent
    && forall i :: |o.sent| <= i < |r.sent| ==> Good(r.sent[i], o.kind, o.sender)
  }

  ghost predicate Good(b: Batch, k: Kind, sender: int) {
    BatchOk(b) && b.kind == k && b.sender == sender && Sendable(k, b.entries)
  }

  lemma EntriesOneMore(bs: seq<Batch>, b: Batch)
    ensures Entries(bs + [b]) == Entries(bs) + b.entries
  {
    assert (bs + [b])[..|bs|] == bs;
  }

  lemma SendableOneMore(k: Kind, es: seq<Entry>, e: Entry)
    requires Sendable(k, es) && KindOf(e) == k && InRange(e)
    ensures Sendable(k, es + [e])
  {
  }

  lemma AloneFits(k: Kind, e: Entry)
    requires Fits(k, e)
    ensures Sendable(k, [e]) && BatchOk(Batch(k, 0, [e]))
  {
    assert [] + [e] == [e];
    BytesOneMore([], e);
  }

  lemma AddFits(o: Out, e: Entry)
    requires OutOk(o) && Fits(o.kind, e)
    ensures OutOk(Add(o, e))
  {
    var r := Add(o, e);
    if Splits(o, e) {
      AloneFits(o.kind, e);
      assert r.current == [e];
    } else {
      SendableOneMore(o.kind, o.current, e);
      BytesOneMore(o.current, e);
    }
  }

  lemma AddKeeps(o: Out, e: Entry)
    requires OutOk(o) && Fits(o.kind, e)
    ensures Packed(o, Add(o, e), [e])
  {
    var r := Add(o, e);
    AddFits(o, e);
    if Splits(o, e) && o.dirty {
      EntriesOneMore(o.sent, Batch(o.kind, o.sender, o.current));
    }
  }

  lemma PackedPacked(o: Out, m: Out, r: Out, es: seq<Entry>, e: Entry)
    requires Packed(o, m, es) && Packed(m, r, [e])
    ensures Packed(o, r, es + [e])
  {
    assert Entries(o.sent) + o.current + (es + [e]) == (Entries(o.sent) + o.current + es) + [e];
    forall i | |o.sent| <= i < |r.sent|
      ensures Good(r.sent[i], o.kind, o.sender)
    {
      if i < |m.sent| {
        assert r.sent[..|m.sent|][i] == m.sent[i];
      }
    }
    assert r.sent[..|o.sent|] == r.sent[..|m.sent|][..|o.sent|];
  }

  ghost predicate AllFit(k: Kind, es: seq<Entry>) {
    forall i :: 0 <= i < |es| ==> Fits(k, es[i])
  }

  lemma PackOne(o: Out, m: Out, done: seq<Entry>, e: Entry)
    requires Packed(o, m, done) && Fits(o.kind, e)
    ensures Packed(o, Add(m, e), done + [e])
  {
    AddKeeps(m, e);
    PackedPacked(o, m, Add(m, e), done, e);
  }

  lemma OneDone(done: seq<Entry>, es: seq<Entry>, k: Kind)
    requires es != [] && AllFit(k, es)
    ensures done + es == (done + [es[0]]) + es[1..]
    ensures Fits(k, es[0]) && AllFit(k, es[1..])
  {
  }

  /** Packing any sequence of records that fit keeps them all, in order, in messages that fit. */
  lemma {:induction false} AddAllKeeps(o: Out, m: Out, done: seq<Entry>, es: seq<Entry>, all: seq<Entry>, r: Out)
    requires Packed(o, m, done) && AllFit(o.kind, es) && all == done + es && r == AddAll(m, es)
    ensures Packed(o, r, all)
    decreases |es|
  {
    if es == [] {
      assert all == done;
    } else {
      OneDone(done, es, o.kind);
      PackOne(o, m, done, es[0]);
      AddAllKeeps(o, Add(m, es[0]), done + [es[0]], es[1..], all, r);
    }
  }

  lemma NothingPacked(o: Out)
    requires OutOk(o)
    ensures Packed(o, o, [])
  {
    assert Entries(o.sent) + o.current + [] == Entries(o.sent) + o.current;
  }

  /** What leaves between a clear and a flush. */
  function SendAll(o: Out, k: Kind, sender: int, es: seq<Entry>): Out {
    Flushed(AddAll(Cleared(o, k, sender), es))
  }

  lemma FlushSends(o: Out, p: Out, es: seq<Entry>)
    requires Packed(o, p, es) && o.current == []
    ensures Entries(Flushed(p).sent) == Entries(o.sent) + es && SentSince(o, Flushed(p))
  {
    assert Entries(o.sent) + o.current + es == Entries(o.sent) + es;
    if p.dirty {
      EntriesOneMore(p.sent, Batch(p.kind, p.sender, p.current));
      assert Flushed(p).sent[..|p.sent|] == p.sent;
      assert Flushed(p).sent[..|o.sent|] == p.sent[..|o.sent|];
    } else {
      assert Entries(p.sent) + p.current == Entries(p.sent);
    }
  }

  /** Main result of batching: the messages sent for a sequence of records hold exactly that
      sequence, and each of them fits the limit. */
  lemma SendAllDelivers(o: Out, k: Kind, sender: int, es: seq<Entry>)
    requires AllFit(k, es)
    ensures Entries(SendAll(o, k, sender, es).sent) == Entries(o.sent) + es
    ensures SentSince(Cleared(o, k, sender), SendAll(o, k, sender, es))
  {
    var c := Cleared(o, k, sender);
    NothingPacked(c);
    assert [] + es == es;
    AddAllKeeps(c, c, [], es, es, AddAll(c, es));
    FlushSends(c, AddAll(c, es), es);
  }

  // ---- no message leaves early ----

  /** The record could not have gone into the message. */
  predicate NoRoom(b: Batch, e: Entry) {
    MESSAGE_HEADER + BatchHeader(b.kind) + Bytes(b.entries) + RecordSize(e) >= MAX_UDP_MSG_SIZE
  }

  /** The record that follows message i. */
  function Following(r: Out, i: nat): seq<Entry>
    requires i < |r.sent|
  {
    if i + 1 < |r.sent| then r.sent[i + 1].entries else r.current
  }

  /** Of the messages since number `base` each was left only for a record it had no room for. */
  ghost predicate Tight(base: nat, r: Out) {
    forall i :: base <= i < |r.sent| ==> Following(r, i) != [] && NoRoom(r.sent[i], Following(r, i)[0])
  }

  lemma AddIsTight(base: nat, o: Out, e: Entry)
    requires Tight(base, o) && (o.dirty <==> o.current != [])
    ensures Tight(base, Add(o, e)) && Add(o, e).dirty && Add(o, e).current != []
  {
    var r := Add(o, e);
    forall i | base <= i < |r.sent|
      ensures Following(r, i) != [] && NoRoom(r.sent[i], Following(r, i)[0])
    {
      if i < |o.sent| {
        assert r.sent[i] == o.sent[i];
        assert Following(o, i) != [] && NoRoom(o.sent[i], Following(o, i)[0]);
      }
    }
  }

  lemma {:induction false} AddAllIsTight(base: nat, o: Out, es: seq<Entry>)
    requires Tight(base, o) && (o.dirty <==> o.current != [])
    ensures var r := AddAll(o, es); Tight(base, r) && (r.dirty <==> r.current != [])
    decreases |es|
  {
    if es != [] {
      AddIsTight(base, o, es[0]);
      AddAllIsTight(base, Add(o, es[0]), es[1..]);
    }
  }

  /** Of two messages that leave one after the other the first had no room for the first record of
      the second. */
  predicate Follows(a: Batch, b: Batch) {
    b.entries != [] && NoRoom(a, b.entries[0])
  }

  ghost predicate LeavesLate(base: nat, sent: seq<Batch>) {
    forall i, j :: base <= i < j == i + 1 < |sent| ==> Follows(sent[i], sent[j])
  }

  lemma FlushIsTight(base: nat, r: Out)
    requires Tight(base, r) && base <= |r.sent|
    ensures LeavesLate(base, Flushed(r).sent)
  {
    var sent := Flushed(r).sent;
    forall i, j | base <= i < j == i + 1 < |sent|
      ensures Follows(sent[i], sent[j])
    {
      assert Following(r, i) == sent[j].entries && r.sent[i] == sent[i];
    }
  }

  /** A message is closed before the last one only when the first record of the next one does not fit
      in it any more. */
  lemma SendAllPacks(o: Out, k: Kind, sender: int, es: seq<Entry>)
    ensures LeavesLate(|o.sent|, SendAll(o, k, sender, es).sent)
  {
    AddAllIsTight(|o.sent|, Cleared(o, k, sender), es);
    AddAllSends(Cleared(o, k, sender), es);
    FlushIsTight(|o.sent|, AddAll(Cleared(o, k, sender), es));
  }

  lemma {:induction false} AddAllSends(o: Out, es: seq<Entry>)
    ensures |o.sent| <= |AddAll(o, es).sent|
    decreases |es|
  {
    if es != [] {
      AddAllSends(Add(o, es[0]), es[1..]);
    }
  }

  /** Nothing is sent exactly when there is nothing to send. */
  lemma SendsOnlyFull(o: Out, k: Kind, sender: int, es: seq<Entry>)
    requires AllFit(k, es)
    ensures SendAll(o, k, sender, es).sent == o.sent <==> es == []
  {
    SendAllDelivers(o, k, sender, es);
    var r := SendAll(o, k, sender, es);
    if r.sent == o.sent {
      assert |Entries(r.sent)| == |Entries(o.sent)| + |es|;
    }
  }

  // ---- messages as bytes ----

  /** paxos_msg with its batch header: what the headers say, and the bytes of the records. */
  datatype Packet = Packet(kind: Kind, sender: int, count: nat, dataSize: nat, data: seq<byte>)

  function PacketOf(b: Batch): Packet {
    Packet(b.kind, b.sender, |b.entries|, BatchHeader(b.kind) + Bytes(b.entries), EncodeAll(b.entries))
  }

  /** A receiver of a message reads the records that were packed, and its size walker returns
      exactly the size the message declares. */
  lemma PacketReads(b: Batch)
    requires Sendable(b.kind, b.entries)
    ensures var p := PacketOf(b);
            && WellFormed(p.kind, p.data, p.count)
            && Walk(p.kind, p.data, p.count) == b.entries
            && BatchHeader(p.kind) + WalkSize(p.kind, p.data, p.count) == p.dataSize
  {
    WalkEncodes(b.kind, b.entries);
    BytesAreEncoded(b.entries);
  }

  ghost predicate Walkable(ps: seq<Packet>) {
    forall i :: 0 <= i < |ps| ==> WellFormed(ps[i].kind, ps[i].data, ps[i].count)
  }

  /** What the receiver of a series of messages reads, walking one after the other. */
  function ReadAll(ps: seq<Packet>): seq<Entry>
    requires Walkable(ps)
  {
    if ps == [] then []
    else ReadAll(ps[..|ps| - 1]) + Walk(ps[|ps| - 1].kind, ps[|ps| - 1].data, ps[|ps| - 1].count)
  }

  function PacketsOf(bs: seq<Batch>): seq<Packet> {
    seq(|bs|, i requires 0 <= i < |bs| => PacketOf(bs[i]))
  }

  lemma ReadOneMore(ps: seq<Packet>, p: Packet)
    requires Walkable(ps) && WellFormed(p.kind, p.data, p.count)
    ensures Walkable(ps + [p]) && ReadAll(ps + [p]) == ReadAll(ps) + Walk(p.kind, p.data, p.count)
  {
    assert (ps + [p])[..|ps|] == ps;
  }

  lemma LastRead(most: seq<Batch>, last: Batch, ps: seq<Packet>, p: Packet)
    requires ps == PacketsOf(most) && Walkable(ps) && Sendable(last.kind, last.entries) && p == PacketOf(last)
    ensures PacketsOf(most + [last]) == ps + [p]
    ensures Walkable(ps + [p]) && ReadAll(ps + [p]) == ReadAll(ps) + last.entries
  {
    PacketReads(last);
    ReadOneMore(ps, p);
  }

  ghost predicate AllSendable(bs: seq<Batch>) {
    forall i :: 0 <= i < |bs| ==> Sendable(bs[i].kind, bs[i].entries)
  }

  lemma {:induction false} PacketsRead(bs: seq<Batch>, ps: seq<Packet>)
    requires AllSendable(bs) && ps == PacketsOf(bs)
    ensures Walkable(ps) && ReadAll(ps) == Entries(bs)
    decreases |bs|
  {
    if bs == [] {
    } else {
      var most, last := bs[..|bs| - 1], bs[|bs| - 1];
      assert bs == most + [last];
      assert Sendable(last.kind, last.entries);
      PacketsRead(most, PacketsOf(most));
      LastRead(most, last, PacketsOf(most), PacketOf(last));
    }
  }

  /** Batching end to end: whatever sequence of records is packed between a clear and a flush, the
      receiver of the bytes of the messages that were sent for it reads exactly that sequence. */
  lemma SendAllReads(o: Out, k: Kind, sender: int, es: seq<Entry>)
    requires AllFit(k, es)
    ensures var sent := SendAll(o, k, sender, es).sent;
            |o.sent| <= |sent| && Walkable(PacketsOf(sent[|o.sent|..])) && ReadAll(PacketsOf(sent[|o.sent|..])) == es
  {
    SendAllDelivers(o, k, sender, es);
    var sent := SendAll(o, k, sender, es).sent;
    forall i | 0 <= i < |sent| - |o.sent|
      ensures Sendable(sent[|o.sent|..][i].kind, sent[|o.sent|..][i].entries)
    {
      assert Good(sent[|o.sent| + i], k, sender);
    }
    assert AllSendable(sent[|o.sent|..]);
    PacketsRead(sent[|o.sent|..], PacketsOf(sent[|o.sent|..]));
    EntriesSplit(o.sent, sent[|o.sent|..]);
    assert sent == o.sent + sent[|o.sent|..];
    assert Entries(o.sent) + es == Entries(o.sent) + Entries(sent[|o.sent|..]);
    SameRest(Entries(o.sent), es, Entries(sent[|o.sent|..]));
  }

  lemma SameRest(a: seq<Entry>, x: seq<Entry>, y: seq<Entry>)
    requires a + x == a + y
    ensures x == y
  {
    assert x == (a + x)[|a|..] == (a + y)[|a|..] == y;
  }

  lemma {:induction false} EntriesSplit(a: seq<Batch>, b: seq<Batch>)
    ensures Entries(a + b) == Entries(a) + Entries(b)
  {
    if b == [] {
      assert a + b == a;
    } else {
      assert (a + b)[..|a + b| - 1] == a + b[..|b| - 1];
      EntriesSplit(a, b[..|b| - 1]);
    }
  }

  /** The senders validate_paxos_msg lets through. */
  predicate KnownSender(k: Kind, sender: int) {
    match k
    case PrepareReqs => 0 <= sender < MAX_N_OF_PROPOSERS
    case AcceptReqs => 0 <= sender < MAX_N_OF_PROPOSERS
    case PrepareAcks => 0 <= sender < N_OF_ACCEPTORS
    case AcceptAcks => 0 <= sender < N_OF_ACCEPTORS
    case RepeatReqs => true
  }

  /** validate_paxos_msg: the declared size must be the received one and the sender known. The
      comparison with the sum of the record sizes stands after the default branch of the switch
      and is never reached. */
  predicate Validates(p: Packet, received: nat) {
    p.dataSize + MESSAGE_HEADER == received && KnownSender(p.kind, p.sender)
  }

  /** A message is let through exactly when it has the size it declares and comes from one of the ten
      proposers or the three acceptors; repeat requests come from anybody. */
  lemma ValidatesExactly(p: Packet, received: nat)
    ensures Validates(p, received)
            <==> received == 16 + p.dataSize
                 && (p.kind == PrepareReqs || p.kind == AcceptReqs ==> 0 <= p.sender <= 9)
                 && (p.kind == PrepareAcks || p.kind == AcceptAcks ==> 0 <= p.sender <= 2)
  {
  }

  /** What is sent is accepted from a known sender, when all of it arrives. */
  lemma SentValidates(b: Batch, received: nat)
    requires KnownSender(b.kind, b.sender)
    ensures Validates(PacketOf(b), received) <==> received == SizeWith(b.kind, b.entries)
  {
  }

  function Concat(records: seq<seq<byte>>): seq<byte> {
    if records == [] then [] else records[0] + Concat(records[1..])
  }

  lemma {:induction false} ConcatOneMore(records: seq<seq<byte>>, r: seq<byte>)
    ensures Concat(records + [r]) == Concat(records) + r
  {
    var all := records + [r];
    if records == [] {
      assert all[1..] == [];
      assert Concat(all) == r;
    } else {
      assert all[1..] == records[1..] + [r];
      ConcatOneMore(records[1..], r);
      Regroup(records[0], Concat(records[1..]), r);
    }
  }

  /** The records es, each as its bytes. */
  ghost predicate Coded(records: seq<seq<byte>>, es: seq<Entry>) {
    |records| == |es| && forall i :: 0 <= i < |records| ==> records[i] == Encode(es[i])
  }

  lemma CodedOneMore(records: seq<seq<byte>>, es: seq<Entry>, e: Entry)
    requires Coded(records, es)
    ensures Coded(records + [Encode(e)], es + [e])
  {
  }

  lemma {:induction false} CodedConcat(records: seq<seq<byte>>, es: seq<Entry>)
    requires Coded(records, es)
    ensures Concat(records) == EncodeAll(es)
    decreases |es|
  {
    if es != [] {
      CodedConcat(records[1..], es[1..]);
    }
  }

  /** udp_send_buffer. The buffer starts after the message header. */
  class Sender {
    const buffer: array<byte>
    var kind: Kind
    var sender: int
    var dataSize: nat
    var count: nat
    var dirty: bool
    /** The messages handed to the socket. */
    var sent: seq<Packet>
    ghost var records: seq<seq<byte>>
    ghost var out: Out

    /** The buffer holds the records one after the other. */
    ghost predicate Holds()
      reads this, buffer
    {
      && buffer.Length == MAX_UDP_MSG_SIZE - MESSAGE_HEADER
      && BatchHeader(kind) + |Concat(records)| == dataSize <= buffer.Length
      && buffer[BatchHeader(kind)..dataSize] == Concat(records)
    }

    /** The messages sent are those of the batches sent. */
    ghost predicate HasSent(bs: seq<Batch>)
      reads this
    {
      |sent| == |bs| && forall i :: 0 <= i < |sent| ==> sent[i] == PacketOf(bs[i])
    }

    ghost predicate Valid()
      reads this, buffer
    {
      && Holds() && OutOk(out) && HasSent(out.sent) && Coded(records, out.current)
      && kind == out.kind && sender == out.sender && dirty == out.dirty && count == |out.current|
      && dataSize == BatchHeader(kind) + Bytes(out.current)
    }

    constructor (k: Kind, who: int)
      ensures Valid() && out == Out(k, who, [], false, []) && fresh(buffer)
    {
      buffer := new byte[MAX_UDP_MSG_SIZE - MESSAGE_HEADER](_ => 0);
      kind, sender, dataSize, count, dirty, sent := k, who, BatchHeader(k), 0, false, [];
      records := [];
      out := Out(k, who, [], false, []);
    }

    /** sendbuf_clear. */
    method Clear(k: Kind, who: int)
      requires Valid()
      modifies this
      ensures Valid() && out == Cleared(old(out), k, who) && dataSize == BatchHeader(k)
    {
      dirty := false;
      kind := k;
      sender := who;
      dataSize := BatchHeader(k);
      count := 0;
      records := [];
      out := Cleared(out, k, who);
      assert buffer[BatchHeader(kind)..dataSize] == [];
    }

    /** A restart: the message being built is gone. */
    method Forget()
      requires Valid()
      modifies this
      ensures Valid() && out == old(out).(current := [], dirty := false)
    {
      Clear(kind, sender);
    }

    /** sendbuf_flush. */
    method Flush()
      requires Valid()
      modifies this`sent, this`out
      ensures Valid() && out == Flushed(old(out))
    {
      if !dirty {
        return;
      }
      CodedConcat(records, out.current);
      sent := sent + [Packet(kind, sender, count, dataSize, buffer[BatchHeader(kind)..dataSize])];
      out := Flushed(out);
    }

    /** memcpy to the end of the message. */
    method Copy(bytes: seq<byte>)
      requires dataSize + |bytes| <= buffer.Length
      modifies buffer
      ensures buffer[..dataSize] == old(buffer[..dataSize])
      ensures buffer[dataSize..dataSize + |bytes|] == bytes
    {
      var i := 0;
      while i < |bytes|
        invariant 0 <= i <= |bytes|
        invariant buffer[..dataSize] == old(buffer[..dataSize])
        invariant buffer[dataSize..dataSize + i] == bytes[..i]
      {
        buffer[dataSize + i] := bytes[i];
        i := i + 1;
      }
    }

    /** One more record at the end of the message. */
    method AppendBytes(bytes: seq<byte>)
      requires Holds() && dataSize + |bytes| <= buffer.Length
      modifies buffer, this`dataSize, this`records
      ensures Holds() && records == old(records) + [bytes] && dataSize == old(dataSize) + |bytes|
    {
      ghost var h := BatchHeader(kind);
      Copy(bytes);
      ConcatOneMore(records, bytes);
      assert buffer[h..dataSize] == old(buffer[..dataSize])[h..];
      assert buffer[h..dataSize + |bytes|] == buffer[h..dataSize] + buffer[dataSize..dataSize + |bytes|];
      dataSize := dataSize + |bytes|;
      records := records + [bytes];
    }

    /** Makes room for a record, sending what does not leave any. */
    method MakeRoom(e: Entry)
      requires Valid() && Fits(kind, e)
      modifies this
      ensures Valid() && out == (if Splits(old(out), e) then Cleared(Flushed(old(out)), old(out).kind, old(out).sender) else old(out))
      ensures dataSize + RecordSize(e) <= buffer.Length
    {
      if MESSAGE_HEADER + dataSize + RecordSize(e) >= MAX_UDP_MSG_SIZE {
        Flush();
        Clear(kind, sender);
      }
    }

    /** The part of the sendbuf_add functions that appends the record. */
    method Append(e: Entry)
      requires Valid() && dataSize + RecordSize(e) <= buffer.Length
      requires OutOk(out.(current := out.current + [e], dirty := true))
      modifies this, buffer
      ensures Valid() && out == old(out).(current := old(out).current + [e], dirty := true)
    {
      BytesOneMore(out.current, e);
      CodedOneMore(records, out.current, e);
      AppendBytes(Encode(e));
      count := count + 1;
      dirty := true;
      out := out.(current := out.current + [e], dirty := true);
    }

    /** sendbuf_add_prepare_req, _prepare_ack, _accept_req, _accept_ack and _repeat_req. */
    method AddEntry(e: Entry)
      requires Valid() && Fits(kind, e)
      modifies this, buffer
      ensures Valid() && out == Add(old(out), e)
    {
      AddFits(out, e);
      MakeRoom(e);
      Append(e);
    }
  }
}
