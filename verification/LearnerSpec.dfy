/** The learner of lib/learner.c on values: what each handler does to an unbounded map of
    instances. The class in RingLearner.dfy does the same in a ring buffer. */
module LearnerSpec {
  import opened PaxosConfig
  import opened Messages

  /** Number of acceptors, LEARNER_ARRAY_SIZE, and how acks are grouped. */
  datatype Setup = Setup(n: nat, window: nat, groupByVote: bool) {
    predicate Valid() {
      n > 0 && window > 0
    }
  }

  /** l_inst_info. */
  datatype Instance = Instance(iid: nat, lastBallot: nat, acks: seq<Option<Record>>, final: Option<Record>)

  /** The learner: `open` maps an instance to its slot, `delivered` is what went to the callback. */
  datatype Learner = Learner(current: nat, seen: nat, closed: nat, open: map<nat, Instance>, delivered: seq<Record>)

  function NoAcks(n: nat): (r: seq<Option<Record>>)
    ensures |r| == n && forall a :: 0 <= a < n ==> r[a] == None
  {
    seq(n, _ => None)
  }

  function EmptyInstance(n: nat): Instance {
    Instance(0, 0, NoAcks(n), None)
  }

  const NEW_LEARNER: Learner := Learner(1, 1, 0, map[], [])

  /** The ballot an ack is grouped under. */
  function GroupOf(c: Setup, ack: Record): nat {
    if c.groupByVote then ack.valueBallot else ack.ballot
  }

  /** lea_update_state: the new slot, and whether the ack was stored. */
  function Update(c: Setup, inst: Instance, a: nat, ack: Record): (Instance, bool)
    requires a < |inst.acks|
  {
    var named := if inst.iid == 0 then inst.(iid := ack.iid, lastBallot := GroupOf(c, ack)) else inst;
    var stored := named.(acks := named.acks[a := Some(ack)], lastBallot := GroupOf(c, ack));
    if named.final.Some? then (named, false)
    else if named.acks[a].None? then (stored, true)
    else if named.acks[a].value.ballot >= ack.ballot then (named, false)
    else (stored, true)
  }

  predicate Agrees(c: Setup, acks: seq<Option<Record>>, b: nat, a: nat) {
    a < |acks| && acks[a].Some? && GroupOf(c, acks[a].value) == b
  }

  /** The loop of lea_check_quorum from acceptor i on: the last index it settles on and the count. */
  function Scan(c: Setup, inst: Instance, i: nat, valid: int, count: nat): (int, nat)
    requires i <= |inst.acks| == c.n
    decreases c.n - i
  {
    if i == c.n then (valid, count)
    else if !Agrees(c, inst.acks, inst.lastBallot, i) then Scan(c, inst, i + 1, valid, count)
    else if inst.acks[i].value.isFinal then (i, count + 1 + c.n)
    else Scan(c, inst, i + 1, i, count + 1)
  }

  ghost predicate FinalAgrees(c: Setup, inst: Instance, i: nat)
  {
    exists a :: i <= a < |inst.acks| && Agrees(c, inst.acks, inst.lastBallot, a) && inst.acks[a].value.isFinal
  }

  /** What the scan finds: a final ack of the right group at once, otherwise the exact number
      of acks of that group and one of them. */
  lemma {:induction false} ScanFinds(c: Setup, inst: Instance, i: nat, valid: int, count: nat)
    requires i <= |inst.acks| == c.n
    ensures var (v, k) := Scan(c, inst, i, valid, count);
            if FinalAgrees(c, inst, i) then
              k >= count + 1 + c.n && i <= v < c.n && Agrees(c, inst.acks, inst.lastBallot, v) && inst.acks[v].value.isFinal
            else
              k == count + |AgreeingFrom(c, inst.acks, inst.lastBallot, i)|
              && if k == count then v == valid
                 else i <= v < c.n && Agrees(c, inst.acks, inst.lastBallot, v)
    decreases c.n - i
  {
    if i == c.n {
    } else if !Agrees(c, inst.acks, inst.lastBallot, i) {
      ScanFinds(c, inst, i + 1, valid, count);
      assert FinalAgrees(c, inst, i) ==> FinalAgrees(c, inst, i + 1);
    } else if inst.acks[i].value.isFinal {
      assert FinalAgrees(c, inst, i);
    } else {
      ScanFinds(c, inst, i + 1, i, count + 1);
      assert FinalAgrees(c, inst, i) ==> FinalAgrees(c, inst, i + 1);
    }
  }

  /** The acceptors from i on whose stored ack is of group b. */
  function AgreeingFrom(c: Setup, acks: seq<Option<Record>>, b: nat, i: nat): (r: set<nat>)
    requires i <= |acks|
    ensures forall a :: a in r <==> i <= a < |acks| && Agrees(c, acks, b, a)
    decreases |acks| - i
  {
    if i == |acks| then {}
    else (if Agrees(c, acks, b, i) then {i} else {}) + AgreeingFrom(c, acks, b, i + 1)
  }

  /** lea_check_quorum: the slot with its final value set if the instance can be closed. */
  function Check(c: Setup, inst: Instance): Instance
    requires |inst.acks| == c.n
  {
    var (valid, count) := Scan(c, inst, 0, -1, 0);
    if count < Quorum(c.n) || !(0 <= valid < c.n) then inst else inst.(final := inst.acks[valid])
  }

  /** The part of handle_accept_ack that concerns one slot. */
  function Learnt(c: Setup, inst: Instance, a: nat, ack: Record): Instance
    requires a < |inst.acks| == c.n
  {
    var (next, stored) := Update(c, inst, a, ack);
    if stored then Check(c, next) else next
  }

  // ---- the incremental test against a full rescan ----

  /** What a rescan of every stored ack would look for: a final ack, or a quorum of one group. */
  ghost predicate Decisive(c: Setup, acks: seq<Option<Record>>) {
    || (exists a :: 0 <= a < |acks| && acks[a].Some? && acks[a].value.isFinal)
    || (exists b :: |AgreeingFrom(c, acks, b, 0)| >= Quorum(c.n))
  }

  /** A slot is closed exactly when a full rescan of its acks would close it. */
  ghost predicate InstanceOk(c: Setup, inst: Instance) {
    && |inst.acks| == c.n
    && (inst.final.Some? <==> Decisive(c, inst.acks))
    && (inst.final.Some? ==> inst.final in inst.acks)
  }

  lemma {:induction false} StoringCounts(c: Setup, acks: seq<Option<Record>>, a: nat, ack: Record, b: nat)
    requires a < |acks| && b != GroupOf(c, ack)
    ensures AgreeingFrom(c, acks[a := Some(ack)], b, 0) <= AgreeingFrom(c, acks, b, 0)
  {
  }

  /** One more ack can only complete its own group. */
  lemma StoringDecides(c: Setup, acks: seq<Option<Record>>, a: nat, ack: Record)
    requires a < |acks| && !Decisive(c, acks)
    ensures var next := acks[a := Some(ack)];
            Decisive(c, next) <==> ack.isFinal || |AgreeingFrom(c, next, GroupOf(c, ack), 0)| >= Quorum(c.n)
  {
    var next := acks[a := Some(ack)];
    assert next[a] == Some(ack);
    forall b | b != GroupOf(c, ack)
      ensures |AgreeingFrom(c, next, b, 0)| < Quorum(c.n)
    {
      StoringCounts(c, acks, a, ack, b);
      SubsetCount(AgreeingFrom(c, next, b, 0), AgreeingFrom(c, acks, b, 0));
    }
  }

  /** When lea_check_quorum closes an instance, and with what. */
  lemma CheckCloses(c: Setup, inst: Instance)
    requires c.Valid() && |inst.acks| == c.n && inst.final.None?
    ensures Check(c, inst).final.Some?
            <==> FinalAgrees(c, inst, 0) || |AgreeingFrom(c, inst.acks, inst.lastBallot, 0)| >= Quorum(c.n)
    ensures var f := Check(c, inst).final;
            f.Some? ==>
              && f in inst.acks
              && GroupOf(c, f.value) == inst.lastBallot
              && (f.value.isFinal <==> FinalAgrees(c, inst, 0))
  {
    ScanFinds(c, inst, 0, -1, 0);
    var (v, k) := Scan(c, inst, 0, -1, 0);
    assert k == 0 ==> v == -1;
  }

  /** Storing one ack and testing only its group closes the instance exactly when some group
      has just reached a quorum, or the ack is final. */
  lemma IncrementalTestIsFullRescan(c: Setup, inst: Instance, a: nat, ack: Record)
    requires c.Valid() && InstanceOk(c, inst) && a < c.n
    ensures InstanceOk(c, Learnt(c, inst, a, ack))
  {
    var (next, stored) := Update(c, inst, a, ack);
    if stored {
      StoringDecides(c, inst.acks, a, ack);
      CheckCloses(c, next);
      assert Agrees(c, next.acks, next.lastBallot, a);
      assert FinalAgrees(c, next, 0) <==> ack.isFinal;
    }
  }

  // ---- handlers ----

  function SlotOf(c: Setup, l: Learner, i: nat): Instance {
    if i in l.open then l.open[i] else EmptyInstance(c.n)
  }

  predicate IsClosed(l: Learner, i: nat) {
    i in l.open && l.open[i].final.Some?
  }

  /** One turn of the loop of lea_deliver_next_closed. */
  function DeliverOne(l: Learner): Learner
    requires IsClosed(l, l.current)
  {
    l.(current := l.current + 1, open := l.open - {l.current},
       delivered := l.delivered + [l.open[l.current].final.value])
  }

  lemma DeliverOneShrinks(l: Learner)
    requires IsClosed(l, l.current)
    ensures |DeliverOne(l).open| < |l.open|
  {
    var rest := l.open - {l.current};
    SubsetCount(rest.Keys + {l.current}, l.open.Keys);
  }

  /** lea_deliver_next_closed. */
  function DeliverNext(l: Learner): Learner
    decreases |l.open|
  {
    if !IsClosed(l, l.current) then l
    else
      DeliverOneShrinks(l);
      DeliverNext(DeliverOne(l))
  }

  /** handle_accept_ack before any delivery. */
  function Stored(c: Setup, l: Learner, a: nat, ack: Record): Learner
    requires forall i :: i in l.open ==> |l.open[i].acks| == c.n
    requires a < c.n
  {
    var before := SlotOf(c, l, ack.iid);
    var after := Learnt(c, before, a, ack);
    var stored := Update(c, before, a, ack).1;
    l.(seen := Max(l.seen, ack.iid), open := l.open[ack.iid := after],
       closed := if stored && after.final.Some? then Max(l.closed, ack.iid) else l.closed)
  }

  predicate InWindow(c: Setup, l: Learner, i: nat) {
    l.current <= i < l.current + c.window
  }

  /** handle_accept_ack. */
  function HandleAck(c: Setup, l: Learner, a: nat, ack: Record): Learner
    requires forall i :: i in l.open ==> |l.open[i].acks| == c.n
    requires a < c.n
  {
    if !InWindow(c, l, ack.iid) then l.(seen := Max(l.seen, ack.iid))
    else
      var next := Stored(c, l, a, ack);
      if Update(c, SlotOf(c, l, ack.iid), a, ack).1 && IsClosed(next, ack.iid) && ack.iid == l.current
      then DeliverNext(next) else next
  }

  // ---- what holds between handlers ----

  ghost predicate SlotOk(c: Setup, inst: Instance, i: nat) {
    && inst.iid == i
    && InstanceOk(c, inst)
    && forall ack :: Some(ack) in inst.acks ==> ack.iid == i
  }

  ghost predicate WindowOk(c: Setup, l: Learner) {
    && l.current >= 1
    && |l.delivered| == l.current - 1
    && (forall k :: 0 <= k < |l.delivered| ==> l.delivered[k].iid == k + 1)
    && (forall i :: i in l.open ==> l.current <= i < l.current + c.window && SlotOk(c, l.open[i], i))
    && (forall i :: i in l.open && l.open[i].final.Some? ==> i <= l.closed)
    && (l.closed >= l.current ==> IsClosed(l, l.closed))
  }

  /** The learner between two messages: the next instance to deliver is not closed. */
  ghost predicate LearnerOk(c: Setup, l: Learner) {
    WindowOk(c, l) && !IsClosed(l, l.current)
  }

  /** What the learner has settled on for an instance, delivered or not. */
  function Outcome(l: Learner, i: nat): Option<Record>
    requires |l.delivered| == l.current - 1
  {
    if 1 <= i < l.current then Some(l.delivered[i - 1])
    else if i in l.open then l.open[i].final
    else None
  }

  lemma DeliverOneKeepsOrder(c: Setup, l: Learner)
    requires WindowOk(c, l) && IsClosed(l, l.current)
    ensures WindowOk(c, DeliverOne(l))
  {
    assert SlotOk(c, l.open[l.current], l.current);
  }

  /** The loop ends with the learner in order. */
  lemma {:induction false} DeliveryKeepsOrder(c: Setup, l: Learner)
    requires WindowOk(c, l)
    ensures LearnerOk(c, DeliverNext(l))
    decreases |l.open|
  {
    if IsClosed(l, l.current) {
      DeliverOneShrinks(l);
      DeliverOneKeepsOrder(c, l);
      DeliveryKeepsOrder(c, DeliverOne(l));
    }
  }

  /** Instances below the current one are gone from the slots. */
  ghost predicate Numbered(l: Learner) {
    && l.current >= 1 && |l.delivered| == l.current - 1
    && forall i :: i in l.open ==> l.current <= i
  }

  /** The delivery loop delivers the longest run of closed instances from the current one, in
      order, and leaves everything else alone. */
  lemma {:induction false} DeliveryIsMaximal(l: Learner)
    requires Numbered(l)
    ensures var r := DeliverNext(l);
            && Numbered(r) && l.current <= r.current && l.delivered <= r.delivered
            && r.seen == l.seen && r.closed == l.closed
            && (forall i: nat :: l.current <= i < r.current ==> IsClosed(l, i))
            && !IsClosed(l, r.current)
            && (forall i: nat :: Outcome(r, i) == Outcome(l, i))
            && (forall i :: i in r.open <==> i in l.open && i >= r.current)
            && (forall i :: i in r.open ==> r.open[i] == l.open[i])
    decreases |l.open|
  {
    if IsClosed(l, l.current) {
      var one := DeliverOne(l);
      assert forall i :: i in one.open <==> i in l.open && i != l.current;
      assert forall i: nat :: Outcome(one, i) == Outcome(l, i);
      DeliverOneShrinks(l);
      DeliveryIsMaximal(one);
      var r := DeliverNext(one);
      assert DeliverNext(l) == r;
      forall i: nat | l.current <= i < r.current
        ensures IsClosed(l, i)
      {
        assert i == l.current || IsClosed(one, i);
      }
      assert !IsClosed(one, r.current);
    }
  }

  lemma NothingDecided(c: Setup)
    requires c.Valid()
    ensures InstanceOk(c, EmptyInstance(c.n))
  {
    forall b
      ensures AgreeingFrom(c, NoAcks(c.n), b, 0) == {}
    {
    }
  }

  lemma SlotLearns(c: Setup, l: Learner, a: nat, ack: Record)
    requires c.Valid() && LearnerOk(c, l) && a < c.n && InWindow(c, l, ack.iid)
    ensures SlotOk(c, Learnt(c, SlotOf(c, l, ack.iid), a, ack), ack.iid)
    ensures SlotOf(c, l, ack.iid).final.Some? ==> Learnt(c, SlotOf(c, l, ack.iid), a, ack) == l.open[ack.iid]
  {
    var before := SlotOf(c, l, ack.iid);
    NothingDecided(c);
    if ack.iid in l.open {
      assert SlotOk(c, before, ack.iid);
    }
    IncrementalTestIsFullRescan(c, before, a, ack);
    var (next, stored) := Update(c, before, a, ack);
    assert Learnt(c, before, a, ack).acks == next.acks;
    forall k | Some(k) in next.acks
      ensures k.iid == ack.iid
    {
      assert Some(k) in before.acks || k == ack;
    }
  }

  lemma StoredKeepsWindow(c: Setup, l: Learner, a: nat, ack: Record)
    requires c.Valid() && LearnerOk(c, l) && a < c.n && InWindow(c, l, ack.iid)
    ensures WindowOk(c, Stored(c, l, a, ack))
  {
    SlotLearns(c, l, a, ack);
    var next := Stored(c, l, a, ack);
    assert forall i :: i in next.open ==> i == ack.iid || (i in l.open && next.open[i] == l.open[i]);
  }

  /** Every handler keeps the learner in order. */
  lemma HandleAckKeepsOrder(c: Setup, l: Learner, a: nat, ack: Record)
    requires c.Valid() && LearnerOk(c, l) && a < c.n
    ensures LearnerOk(c, HandleAck(c, l, a, ack))
  {
    if InWindow(c, l, ack.iid) {
      SlotLearns(c, l, a, ack);
      StoredKeepsWindow(c, l, a, ack);
      DeliveryKeepsOrder(c, Stored(c, l, a, ack));
    }
  }

  /** What one message changes about the settled values: at most the instance of the ack, and
      that one as its slot says. */
  lemma HandleAckSettles(c: Setup, l: Learner, a: nat, ack: Record)
    requires Numbered(l) && a < c.n
    requires forall i :: i in l.open ==> |l.open[i].acks| == c.n
    ensures var r := HandleAck(c, l, a, ack);
            && Numbered(r)
            && (forall i: nat :: i != ack.iid ==> Outcome(r, i) == Outcome(l, i))
            && Outcome(r, ack.iid) == (if InWindow(c, l, ack.iid) then Learnt(c, SlotOf(c, l, ack.iid), a, ack).final
                                       else Outcome(l, ack.iid))
            && (forall i :: i in r.open ==>
                  if i == ack.iid && InWindow(c, l, i) then r.open[i] == Learnt(c, SlotOf(c, l, i), a, ack)
                  else i in l.open && r.open[i] == l.open[i])
  {
    if InWindow(c, l, ack.iid) {
      var next := Stored(c, l, a, ack);
      assert forall i :: i in next.open <==> i in l.open || i == ack.iid;
      assert Numbered(next);
      DeliveryIsMaximal(next);
      var r := HandleAck(c, l, a, ack);
      assert r == next || r == DeliverNext(next);
      assert forall i: nat :: i != ack.iid ==> Outcome(next, i) == Outcome(l, i);
    }
  }
}
