/** What a learner knows after any sequence of acks: the highest instance it has heard of, what it
    keeps of each ack, and which instances it asks for again. */
module LearnerHistory {
  import opened PaxosConfig
  import opened Messages
  import opened LearnerSpec
  import opened HoleDetection

  /** An ack and the acceptor it comes from. */
  datatype Heard = Heard(from: nat, ack: Record)

  ghost predicate Known(c: Setup, hs: seq<Heard>) {
    forall k :: 0 <= k < |hs| ==> hs[k].from < c.n
  }

  /** A new learner after the acks, one after the other. */
  ghost function After(c: Setup, hs: seq<Heard>): (l: Learner)
    requires c.Valid() && Known(c, hs)
    ensures LearnerOk(c, l)
  {
    if hs == [] then NEW_LEARNER
    else
      var before := After(c, hs[..|hs| - 1]);
      var last := hs[|hs| - 1];
      HandleAckKeepsOrder(c, before, last.from, last.ack);
      HandleAck(c, before, last.from, last.ack)
  }

  // ---- the highest instance ----

  /** One more ack moves the highest instance seen to its own, if that is higher. */
  lemma AckIsSeen(c: Setup, l: Learner, a: nat, ack: Record)
    requires c.Valid() && LearnerOk(c, l) && a < c.n
    ensures HandleAck(c, l, a, ack).seen == Max(l.seen, ack.iid)
  {
    if InWindow(c, l, ack.iid) {
      DeliveryIsMaximal(Stored(c, l, a, ack));
    }
  }

  /** Number m is the highest instance of the acks, or 1 where none is higher. */
  ghost predicate Highest(m: nat, hs: seq<Heard>) {
    && m >= 1 && (forall k :: 0 <= k < |hs| ==> hs[k].ack.iid <= m)
    && (m == 1 || exists k :: 0 <= k < |hs| && hs[k].ack.iid == m)
  }

  lemma HighestOneMore(m: nat, hs: seq<Heard>, h: Heard)
    requires Highest(m, hs)
    ensures Highest(Max(m, h.ack.iid), hs + [h])
  {
    var all := hs + [h];
    assert all[|hs|] == h;
    if m != 1 {
      var k :| 0 <= k < |hs| && hs[k].ack.iid == m;
      assert all[k].ack.iid == m;
    }
  }

  /** After any acks the highest instance seen is the highest of theirs, in the window of the learner
      or far beyond it. */
  lemma {:induction false} SeenIsHighest(c: Setup, hs: seq<Heard>)
    requires c.Valid() && Known(c, hs)
    ensures Highest(After(c, hs).seen, hs)
  {
    if hs != [] {
      var most, last := hs[..|hs| - 1], hs[|hs| - 1];
      SeenIsHighest(c, most);
      AckIsSeen(c, After(c, most), last.from, last.ack);
      HighestOneMore(After(c, most).seen, most, last);
      assert hs == most + [last];
    }
  }

  /** A learner that has ever heard of an instance more than a window beyond its current one asks for
      every open instance of its window, and for every other one below the highest it has heard of
      exactly when no closed instance lies more than a window below that. */
  lemma FarAckAsksForHoles(c: Setup, hs: seq<Heard>, k: nat)
    requires c.Valid() && Known(c, hs) && k < |hs| && hs[k].ack.iid > After(c, hs).current + c.window
    ensures var l := After(c, hs);
            && (forall i: nat :: l.current <= i < l.current + c.window && !IsClosed(l, i) ==> i in HoleCheck(c, l))
            && ((forall i: nat :: l.current <= i < l.seen && !IsClosed(l, i) ==> i in HoleCheck(c, l))
                <==> forall j: nat :: IsClosed(l, j) ==> l.seen <= j + c.window)
            && hs[k].ack.iid <= l.seen
  {
    var l := After(c, hs);
    SeenIsHighest(c, hs);
    LaggingRequestsComplete(c, l);
    forall i: nat | l.current <= i < l.current + c.window && !IsClosed(l, i)
      ensures i in HoleCheck(c, l)
    {
      RequestsAre(c, l, l.current, l.seen, i);
      OwnSlot(c, l, i);
    }
  }

  // ---- what is kept of an ack ----

  /** The acks stored for an instance. */
  function AcksAt(c: Setup, l: Learner, i: nat): seq<Option<Record>> {
    if i in l.open then l.open[i].acks else NoAcks(c.n)
  }

  /** Of the acks of one acceptor the first of the highest ballot is kept. */
  function Kept(acks: seq<Option<Record>>, a: nat, ack: Record): seq<Option<Record>>
    requires a < |acks|
  {
    if acks[a].Some? && acks[a].value.ballot >= ack.ballot then acks else acks[a := Some(ack)]
  }

  /** How many acceptors' stored acks have the ballot the ack is grouped under. */
  function Alike(c: Setup, acks: seq<Option<Record>>, ack: Record): nat {
    |AgreeingFrom(c, acks, if c.groupByVote then ack.valueBallot else ack.ballot, 0)|
  }

  lemma SlotKeeps(c: Setup, inst: Instance, i: nat, a: nat, ack: Record)
    requires c.Valid() && a < c.n && InstanceOk(c, inst) && inst.final.None? && (inst.iid == 0 || inst.iid == i) && ack.iid == i
    ensures var next := Learnt(c, inst, a, ack); var acks := Kept(inst.acks, a, ack);
            && next.acks == acks
            && (next.final.Some? <==> acks != inst.acks && (ack.isFinal || Alike(c, acks, ack) > c.n / 2))
            && (next.final.Some? ==> next.final in acks)
  {
    var (next, stored) := Update(c, inst, a, ack);
    var acks := Kept(inst.acks, a, ack);
    assert next.acks == acks && (stored <==> acks != inst.acks);
    if stored {
      StoringDecides(c, inst.acks, a, ack);
      CheckCloses(c, next);
      assert Agrees(c, next.acks, next.lastBallot, a);
      assert FinalAgrees(c, next, 0) <==> ack.isFinal;
    }
  }

  /** An ack for an open instance of the window is kept unless the acceptor's last one has the same or
      a higher ballot; it closes the instance exactly when it is kept and is final or completes a
      majority; and no other open instance changes. */
  lemma AckIsKept(c: Setup, l: Learner, a: nat, ack: Record)
    requires c.Valid() && LearnerOk(c, l) && a < c.n
    requires l.current <= ack.iid < l.current + c.window && Outcome(l, ack.iid).None?
    ensures var r := HandleAck(c, l, a, ack); var was := AcksAt(c, l, ack.iid);
            |was| == c.n && |r.delivered| == r.current - 1 &&
            var acks := Kept(was, a, ack);
            && (Outcome(r, ack.iid).Some? <==> acks != was && (ack.isFinal || Alike(c, acks, ack) > c.n / 2))
            && (Outcome(r, ack.iid).Some? ==> Outcome(r, ack.iid) in acks)
            && (ack.iid >= r.current ==> AcksAt(c, r, ack.iid) == acks)
            && (forall i: nat :: i != ack.iid && i >= r.current ==>
                  AcksAt(c, r, i) == AcksAt(c, l, i) && Outcome(r, i) == Outcome(l, i))
  {
    var i := ack.iid;
    var before := SlotOf(c, l, i);
    if i in l.open {
      assert SlotOk(c, l.open[i], i);
    } else {
      NothingDecided(c);
    }
    SlotKeeps(c, before, i, a, ack);
    HandleAckSettles(c, l, a, ack);
    StillOpen(c, l, a, ack);
  }

  /** What was open and is not delivered is open. */
  lemma StillOpen(c: Setup, l: Learner, a: nat, ack: Record)
    requires c.Valid() && LearnerOk(c, l) && a < c.n && InWindow(c, l, ack.iid)
    ensures var r := HandleAck(c, l, a, ack);
            forall i: nat :: i >= r.current ==> (i in r.open <==> i in l.open || i == ack.iid)
  {
    StoredKeepsWindow(c, l, a, ack);
    DeliveryIsMaximal(Stored(c, l, a, ack));
  }

  /** Any other ack changes nothing but the highest instance seen. */
  lemma AckIsIgnored(c: Setup, l: Learner, a: nat, ack: Record)
    requires c.Valid() && LearnerOk(c, l) && a < c.n
    requires !(l.current <= ack.iid < l.current + c.window) || Outcome(l, ack.iid).Some?
    ensures HandleAck(c, l, a, ack) == l.(seen := Max(l.seen, ack.iid))
  {
    if InWindow(c, l, ack.iid) {
      assert l.open[ack.iid := l.open[ack.iid]] == l.open;
    }
  }
}
