/** The records on the wire are the structures of include/libpaxos_messages.h: each field stands at
    the offset its alignment asks for. */
module WireLayout {
  import opened Messages
  import opened Wire

  /** The widths of the fields of the structure, in order; those of a record that ends with a value
      end with the field of its size. */
  function Fields(k: Kind): seq<nat> {
    match k
    case PrepareReqs => [8, 4]
    case PrepareAcks => [8, 4, 4, 8]
    case AcceptReqs => [8, 4, 8]
    case AcceptAcks => [8, 4, 4, 2, 8]
    case RepeatReqs => [8]
  }

  /** The next multiple of a width, where a field of that width may stand. */
  function Aligned(offset: nat, width: nat): nat
    requires width > 0
  {
    if offset % width == 0 then offset else offset + width - offset % width
  }

  /** Where field i of a structure stands. */
  function OffsetOf(widths: seq<nat>, i: nat): nat
    requires i < |widths| && forall j :: 0 <= j < |widths| ==> widths[j] > 0
  {
    if i == 0 then 0 else Aligned(OffsetOf(widths, i - 1) + widths[i - 1], widths[i])
  }

  function Offsets(k: Kind): (r: seq<nat>)
    ensures |r| == |Fields(k)|
  {
    match k
    case PrepareReqs => [0, 8]
    case PrepareAcks => [0, 8, 12, 16]
    case AcceptReqs => [0, 8, 16]
    case AcceptAcks => [0, 8, 12, 16, 24]
    case RepeatReqs => [0]
  }

  lemma {:induction false} OffsetsAre(k: Kind, i: nat)
    requires i < |Fields(k)|
    ensures OffsetOf(Fields(k), i) == Offsets(k)[i]
  {
    if i > 0 {
      OffsetsAre(k, i - 1);
    }
  }

  /** What the fields of a record's structure hold. */
  function Held(e: Entry): (r: seq<nat>)
    ensures |r| == |Fields(KindOf(e))|
  {
    match e
    case Prepare(pr) => [pr.iid, pr.ballot]
    case Promise(pa) => [pa.iid, pa.ballot, pa.valueBallot, |pa.value|]
    case Request(ar) => [ar.iid, ar.ballot, |ar.value|]
    case Accepted(rec) => [rec.iid, rec.ballot, rec.valueBallot, if rec.isFinal then 1 else 0, |rec.value|]
    case Again(iid) => [iid]
  }

  lemma Part<T>(before: seq<T>, part: seq<T>, after: seq<T>, all: seq<T>)
    requires all == before + part + after
    ensures all[|before|..|before| + |part|] == part
  {
  }

  lemma FourParts<T>(a: seq<T>, b: seq<T>, d: seq<T>, f: seq<T>, all: seq<T>)
    requires all == a + b + d + f
    ensures all[..|a|] == a && all[|a|..|a| + |b|] == b
    ensures all[|a| + |b|..|a| + |b| + |d|] == d && all[|a| + |b| + |d|..] == f
  {
    Part([], a, b + d + f, all);
    Part(a, b, d + f, all);
    Part(a + b, d, f, all);
    Part(a + b + d, f, [], all);
  }

  lemma FieldStands(e: Entry, i: nat)
    requires i < |Fields(KindOf(e))|
    ensures var at := Offsets(KindOf(e))[i]; var width := Fields(KindOf(e))[i];
            at + width <= |Header(e)| && Header(e)[at..at + width] == Put(Held(e)[i], width)
  {
    match e
    case Prepare(pr) => FourParts(Put(pr.iid, 8), Put(pr.ballot, 4), Put(0, 4), [], Header(e));
    case Promise(pa) => FourParts(Put(pa.iid, 8), Put(pa.ballot, 4), Put(pa.valueBallot, 4), Put(|pa.value|, 8), Header(e));
    case Request(ar) => FourParts(Put(ar.iid, 8), Put(ar.ballot, 4), Put(0, 4), Put(|ar.value|, 8), Header(e));
    case Accepted(rec) => AckFieldStands(rec, i);
    case Again(iid) => FourParts(Put(iid, 8), [], [], [], Header(e));
  }

  lemma AckFieldStands(rec: Record, i: nat)
    requires i < 5
    ensures var e := Accepted(rec); var at := Offsets(AcceptAcks)[i]; var width := Fields(AcceptAcks)[i];
            at + width <= |Header(e)| && Header(e)[at..at + width] == Put(Held(e)[i], width)
  {
    var numbers := Put(rec.iid, 8) + Put(rec.ballot, 4) + Put(rec.valueBallot, 4);
    var last := Put(if rec.isFinal then 1 else 0, 2) + Put(0, 6) + Put(|rec.value|, 8);
    assert Header(Accepted(rec)) == numbers + last;
    FourParts(Put(rec.iid, 8), Put(rec.ballot, 4), Put(rec.valueBallot, 4), last, Header(Accepted(rec)));
    FourParts(numbers, Put(if rec.isFinal then 1 else 0, 2), Put(0, 6), Put(|rec.value|, 8), Header(Accepted(rec)));
  }

  /** Field i of the record stands where its structure has it. */
  ghost predicate Stands(e: Entry, i: nat)
    requires i < |Fields(KindOf(e))|
  {
    var at := OffsetOf(Fields(KindOf(e)), i); var width := Fields(KindOf(e))[i];
    at + width <= |Encode(e)| && Encode(e)[at..at + width] == Put(Held(e)[i], width)
  }

  lemma EncodedStands(e: Entry, i: nat)
    requires i < |Fields(KindOf(e))|
    ensures Stands(e, i)
  {
    OffsetsAre(KindOf(e), i);
    FieldStands(e, i);
    SliceOfFirst(Header(e), ValueOf(e), Offsets(KindOf(e))[i], Offsets(KindOf(e))[i] + Fields(KindOf(e))[i]);
  }

  lemma SliceOfFirst<T>(a: seq<T>, b: seq<T>, i: nat, j: nat)
    requires i <= j <= |a|
    ensures (a + b)[i..j] == a[i..j]
  {
  }

  /** A record on the wire is its structure, each field at the offset its alignment asks for, followed
      by the value. */
  lemma RecordsAreStructures(e: Entry)
    ensures var w := Fields(KindOf(e)); HeaderSize(KindOf(e)) == Aligned(OffsetOf(w, |w| - 1) + w[|w| - 1], 8)
    ensures Encode(e)[HeaderSize(KindOf(e))..] == ValueOf(e)
    ensures forall i :: 0 <= i < |Fields(KindOf(e))| ==> Stands(e, i)
  {
    OffsetsAre(KindOf(e), |Fields(KindOf(e))| - 1);
    forall i | 0 <= i < |Fields(KindOf(e))|
      ensures Stands(e, i)
    {
      EncodedStands(e, i);
    }
  }
}
