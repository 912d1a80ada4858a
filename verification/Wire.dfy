/** Records as bytes: the structures of include/libpaxos_messages.h on a little-endian machine with
    8 byte sizes and instance numbers and 4 byte ballots, and the walk of a receiver over a batch
    of them (lib/udp_receiver.c:10-67). */
module Wire {
  import opened PaxosConfig
  import opened Messages

  // ---- numbers ----

  /** The low `width` bytes of n, least significant first. */
  function Put(n: nat, width: nat): (r: seq<byte>)
    ensures |r| == width
  {
    if width == 0 then [] else [(n % 256) as byte] + Put(n / 256, width - 1)
  }

  function Get(s: seq<byte>): nat {
    if s == [] then 0 else s[0] as nat + 256 * Get(s[1..])
  }

  function Limit(width: nat): nat {
    if width == 0 then 1 else 256 * Limit(width - 1)
  }

  /** Numbers survive exactly when they fit the field. */
  lemma {:induction false} PutGet(n: nat, width: nat)
    ensures Get(Put(n, width)) == n <==> n < Limit(width)
    ensures Get(Put(n, width)) < Limit(width)
  {
    if width > 0 {
      PutGet(n / 256, width - 1);
      assert Put(n, width)[1..] == Put(n / 256, width - 1);
      assert n == n % 256 + 256 * (n / 256);
    }
  }

  // ---- records ----

  datatype Kind = PrepareReqs | PrepareAcks | AcceptReqs | AcceptAcks | RepeatReqs

  datatype Entry =
    | Prepare(pr: PrepareReq)
    | Promise(pa: PrepareAck)
    | Request(ar: AcceptReq)
    | Accepted(rec: Record)
    | Again(iid: nat)

  function KindOf(e: Entry): Kind {
    match e
    case Prepare(_) => PrepareReqs
    case Promise(_) => PrepareAcks
    case Request(_) => AcceptReqs
    case Accepted(_) => AcceptAcks
    case Again(_) => RepeatReqs
  }

  function ValueOf(e: Entry): Value {
    match e
    case Prepare(_) => []
    case Promise(pa) => pa.value
    case Request(ar) => ar.value
    case Accepted(rec) => rec.value
    case Again(_) => []
  }

  /** sizeof the fixed part of a record. */
  function HeaderSize(k: Kind): nat {
    match k
    case PrepareReqs => 16
    case PrepareAcks => 24
    case AcceptReqs => 24
    case AcceptAcks => 32
    case RepeatReqs => 8
  }

  /** Whether records of the kind end with a value, whose size is the last field of the header. */
  predicate Bears(k: Kind) {
    k == PrepareAcks || k == AcceptReqs || k == AcceptAcks
  }

  /** The fixed part, with the padding the alignment of its fields asks for. */
  function Header(e: Entry): (r: seq<byte>)
    ensures |r| == HeaderSize(KindOf(e))
  {
    match e
    case Prepare(pr) => Put(pr.iid, 8) + Put(pr.ballot, 4) + Put(0, 4)
    case Promise(pa) => Put(pa.iid, 8) + Put(pa.ballot, 4) + Put(pa.valueBallot, 4) + Put(|pa.value|, 8)
    case Request(ar) => Put(ar.iid, 8) + Put(ar.ballot, 4) + Put(0, 4) + Put(|ar.value|, 8)
    case Accepted(rec) =>
      Put(rec.iid, 8) + Put(rec.ballot, 4) + Put(rec.valueBallot, 4) + Put(if rec.isFinal then 1 else 0, 2)
      + Put(0, 6) + Put(|rec.value|, 8)
    case Again(iid) => Put(iid, 8)
  }

  function Encode(e: Entry): (r: seq<byte>)
    ensures |r| == HeaderSize(KindOf(e)) + |ValueOf(e)|
  {
    Header(e) + ValueOf(e)
  }

  /** The field values that the structures can hold. */
  predicate InRange(e: Entry) {
    && |ValueOf(e)| < Limit(8)
    && match e
       case Prepare(pr) => pr.iid < Limit(8) && pr.ballot < Limit(4)
       case Promise(pa) => pa.iid < Limit(8) && pa.ballot < Limit(4) && pa.valueBallot < Limit(4)
       case Request(ar) => ar.iid < Limit(8) && ar.ballot < Limit(4)
       case Accepted(rec) => rec.iid < Limit(8) && rec.ballot < Limit(4) && rec.valueBallot < Limit(4)
       case Again(iid) => iid < Limit(8)
  }

  /** PREPARE_ACK_SIZE and the like: the size of the record that starts the data. */
  function SizeOf(k: Kind, data: seq<byte>): nat
    requires |data| >= HeaderSize(k)
  {
    HeaderSize(k) + if Bears(k) then Get(data[HeaderSize(k) - 8..HeaderSize(k)]) else 0
  }

  /** A whole record is there. */
  predicate Whole(k: Kind, data: seq<byte>) {
    |data| >= HeaderSize(k) && |data| >= SizeOf(k, data)
  }

  function Decode(k: Kind, data: seq<byte>): Entry
    requires Whole(k, data)
  {
    var iid := Get(data[0..8]);
    match k
    case PrepareReqs => Prepare(PrepareReq(iid, Get(data[8..12])))
    case PrepareAcks => Promise(PrepareAck(iid, Get(data[8..12]), Get(data[12..16]), data[24..SizeOf(k, data)]))
    case AcceptReqs => Request(AcceptReq(iid, Get(data[8..12]), data[24..SizeOf(k, data)]))
    case AcceptAcks =>
      Accepted(Record(iid, Get(data[8..12]), Get(data[12..16]), Get(data[16..18]) != 0, data[32..SizeOf(k, data)]))
    case RepeatReqs => Again(iid)
  }

  /** The size field of a header. */
  lemma SizeField(e: Entry, rest: seq<byte>)
    requires InRange(e)
    ensures Whole(KindOf(e), Encode(e) + rest) && SizeOf(KindOf(e), Encode(e) + rest) == |Encode(e)|
  {
    var k := KindOf(e);
    var h := HeaderSize(k);
    var data := Encode(e) + rest;
    if Bears(k) {
      assert data[h - 8..h] == Header(e)[h - 8..h] == Put(|ValueOf(e)|, 8);
      PutGet(|ValueOf(e)|, 8);
    }
  }

  /** A record read back is the record written, whatever follows it. */
  lemma EncodeDecode(e: Entry, rest: seq<byte>)
    requires InRange(e)
    ensures Whole(KindOf(e), Encode(e) + rest) && Decode(KindOf(e), Encode(e) + rest) == e
  {
    var k := KindOf(e);
    var data := Encode(e) + rest;
    SizeField(e, rest);
    assert data[HeaderSize(k)..|Encode(e)|] == ValueOf(e);
    assert forall i, j :: 0 <= i <= j <= HeaderSize(k) ==> data[i..j] == Header(e)[i..j];
    HeaderFields(e);
  }

  lemma HeaderFields(e: Entry)
    requires InRange(e)
    ensures var h := Header(e);
            match e
            case Prepare(pr) => Get(h[0..8]) == pr.iid && Get(h[8..12]) == pr.ballot
            case Promise(pa) => Get(h[0..8]) == pa.iid && Get(h[8..12]) == pa.ballot && Get(h[12..16]) == pa.valueBallot
            case Request(ar) => Get(h[0..8]) == ar.iid && Get(h[8..12]) == ar.ballot
            case Accepted(rec) =>
              && Get(h[0..8]) == rec.iid && Get(h[8..12]) == rec.ballot && Get(h[12..16]) == rec.valueBallot
              && (Get(h[16..18]) != 0 <==> rec.isFinal)
            case Again(iid) => Get(h[0..8]) == iid
  {
    var h := Header(e);
    match e
    case Prepare(pr) =>
      assert h[0..8] == Put(pr.iid, 8) && h[8..12] == Put(pr.ballot, 4);
      PutGet(pr.iid, 8); PutGet(pr.ballot, 4);
    case Promise(pa) =>
      assert h[0..8] == Put(pa.iid, 8) && h[8..12] == Put(pa.ballot, 4) && h[12..16] == Put(pa.valueBallot, 4);
      PutGet(pa.iid, 8); PutGet(pa.ballot, 4); PutGet(pa.valueBallot, 4);
    case Request(ar) =>
      assert h[0..8] == Put(ar.iid, 8) && h[8..12] == Put(ar.ballot, 4);
      PutGet(ar.iid, 8); PutGet(ar.ballot, 4);
    case Accepted(rec) =>
      var f := if rec.isFinal then 1 else 0;
      assert h[0..8] == Put(rec.iid, 8) && h[8..12] == Put(rec.ballot, 4) && h[12..16] == Put(rec.valueBallot, 4)
             && h[16..18] == Put(f, 2);
      PutGet(rec.iid, 8); PutGet(rec.ballot, 4); PutGet(rec.valueBallot, 4); PutGet(f, 2);
      assert Limit(2) == 65536;
    case Again(iid) =>
      assert h[0..8] == Put(iid, 8);
      PutGet(iid, 8);
  }

  // ---- batches ----

  function EncodeAll(es: seq<Entry>): seq<byte> {
    if es == [] then [] else Encode(es[0]) + EncodeAll(es[1..])
  }

  /** The data holds count whole records, one after the other. */
  predicate WellFormed(k: Kind, data: seq<byte>, count: nat)
    decreases count
  {
    count == 0 || (Whole(k, data) && WellFormed(k, data[SizeOf(k, data)..], count - 1))
  }

  /** What a receiver reads from a batch. */
  function Walk(k: Kind, data: seq<byte>, count: nat): seq<Entry>
    requires WellFormed(k, data, count)
    decreases count
  {
    if count == 0 then [] else [Decode(k, data)] + Walk(k, data[SizeOf(k, data)..], count - 1)
  }

  /** The sum of the sizes it steps over. */
  function WalkSize(k: Kind, data: seq<byte>, count: nat): nat
    requires WellFormed(k, data, count)
    decreases count
  {
    if count == 0 then 0 else SizeOf(k, data) + WalkSize(k, data[SizeOf(k, data)..], count - 1)
  }

  ghost predicate Sendable(k: Kind, es: seq<Entry>) {
    forall i :: 0 <= i < |es| ==> KindOf(es[i]) == k && InRange(es[i])
  }

  lemma Regroup(a: seq<byte>, b: seq<byte>, c: seq<byte>)
    ensures (a + b) + c == a + (b + c)
  {
  }

  lemma {:induction false} EncodeOneMore(es: seq<Entry>, e: Entry)
    ensures EncodeAll(es + [e]) == EncodeAll(es) + Encode(e)
  {
    var all := es + [e];
    if es == [] {
      assert all[1..] == [];
      assert EncodeAll(all) == Encode(e);
    } else {
      assert all[1..] == es[1..] + [e];
      EncodeOneMore(es[1..], e);
      Regroup(Encode(es[0]), EncodeAll(es[1..]), Encode(e));
    }
  }

  /** Walking the bytes of a batch gives exactly the records of the batch, and steps over exactly
      its bytes. */
  lemma {:induction false} WalkEncodes(k: Kind, es: seq<Entry>)
    requires Sendable(k, es)
    ensures var data := EncodeAll(es);
            WellFormed(k, data, |es|) && Walk(k, data, |es|) == es && WalkSize(k, data, |es|) == |data|
    decreases |es|
  {
    if es != [] {
      var data := EncodeAll(es);
      var rest := EncodeAll(es[1..]);
      assert es == [es[0]] + es[1..];
      SizeField(es[0], rest);
      EncodeDecode(es[0], rest);
      assert data[|Encode(es[0])|..] == rest;
      WalkEncodes(k, es[1..]);
    }
  }

  /** prepare_ack_batch_size_calc, accept_req_batch_size_calc and accept_ack_batch_size_calc,
      without the batch header. */
  method BatchSizeCalc(k: Kind, data: seq<byte>, count: nat) returns (offset: nat)
    requires WellFormed(k, data, count)
    ensures offset == WalkSize(k, data, count) <= |data|
  {
    offset := 0;
    var i := 0;
    while i < count
      invariant 0 <= i <= count && offset <= |data|
      invariant WellFormed(k, data[offset..], count - i)
      invariant offset + WalkSize(k, data[offset..], count - i) == WalkSize(k, data, count)
    {
      var size := SizeOf(k, data[offset..]);
      assert data[offset..][size..] == data[offset + size..];
      offset := offset + size;
      i := i + 1;
    }
  }

  /** The receiving loops (handle_prepare_ack_batch, handle_accept_ack_batch): each record is
      handed on and its size added to the offset. */
  method ReadBatch(k: Kind, data: seq<byte>, count: nat) returns (es: seq<Entry>)
    requires WellFormed(k, data, count)
    ensures es == Walk(k, data, count)
  {
    es := [];
    var offset := 0;
    var i := 0;
    while i < count
      invariant 0 <= i <= count && offset <= |data|
      invariant WellFormed(k, data[offset..], count - i)
      invariant es + Walk(k, data[offset..], count - i) == Walk(k, data, count)
    {
      var size := SizeOf(k, data[offset..]);
      assert data[offset..][size..] == data[offset + size..];
      es := es + [Decode(k, data[offset..])];
      offset := offset + size;
      i := i + 1;
    }
  }
}
