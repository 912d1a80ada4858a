/** What holds of the leader's table between any two statements that matter: where the slots of
    each frontier are, what the counters count, and where every client value is. */
module LeaderInvariant {
  import opened PaxosConfig
  import opened SlotSpec
  import opened LeaderSpec

  // ---- counting slots ----

  datatype SlotKind =
    | Pending     // waits for promises
    | Ready       // phase 1 is done
    | Fresh       // in phase 1 with no value assigned yet
    | InPhase2    // has a value and is not known to be closed
    | Closed      // has a value and is known to be closed
    | Used

  predicate Is(kind: SlotKind, sl: Slot) {
    match kind
    case Pending => sl.status == P1Pending
    case Ready => sl.status == P1Ready
    case Fresh => (sl.status == P1Pending || sl.status == P1Ready) && sl.p2.None?
    case InPhase2 => sl.status != Empty && sl.status != P2Completed && sl.p2.Some?
    case Closed => sl.status == P2Completed
    case Used => sl.status != Empty
  }

  function Weight(kind: SlotKind, sl: Slot): nat {
    if Is(kind, sl) then 1 else 0
  }

  function Tally(slots: seq<Slot>, kind: SlotKind): nat {
    if slots == [] then 0 else Tally(slots[..|slots| - 1], kind) + Weight(kind, slots[|slots| - 1])
  }

  function Copies(v: Value, o: Option<Value>): nat {
    if o == Some(v) then 1 else 0
  }

  function Times(v: Value, s: seq<Value>): nat {
    multiset(s)[v]
  }

  /** In how many slots value v is assigned to an instance. */
  function Held(slots: seq<Slot>, v: Value): nat {
    if slots == [] then 0 else Held(slots[..|slots| - 1], v) + Copies(v, slots[|slots| - 1].p2)
  }

  lemma {:induction false} TallyUpdate(slots: seq<Slot>, k: nat, sl: Slot, kind: SlotKind)
    requires k < |slots|
    ensures Tally(slots[k := sl], kind) == Tally(slots, kind) - Weight(kind, slots[k]) + Weight(kind, sl)
  {
    var m := |slots| - 1;
    if k == m {
      assert slots[k := sl][..m] == slots[..m];
    } else {
      assert slots[k := sl][..m] == slots[..m][k := sl];
      TallyUpdate(slots[..m], k, sl, kind);
    }
  }

  lemma {:induction false} HeldUpdate(slots: seq<Slot>, k: nat, sl: Slot, v: Value)
    requires k < |slots|
    ensures Held(slots[k := sl], v) == Held(slots, v) - Copies(v, slots[k].p2) + Copies(v, sl.p2)
  {
    var m := |slots| - 1;
    if k == m {
      assert slots[k := sl][..m] == slots[..m];
    } else {
      assert slots[k := sl][..m] == slots[..m][k := sl];
      HeldUpdate(slots[..m], k, sl, v);
    }
  }

  lemma {:induction false} TallyAll(slots: seq<Slot>, kind: SlotKind)
    ensures Tally(slots, kind) <= |slots|
    ensures (forall k :: 0 <= k < |slots| ==> Is(kind, slots[k])) <==> Tally(slots, kind) == |slots|
    ensures (forall k :: 0 <= k < |slots| ==> !Is(kind, slots[k])) <==> Tally(slots, kind) == 0
  {
    if slots != [] {
      var m := |slots| - 1;
      TallyAll(slots[..m], kind);
      assert forall k :: 0 <= k < m ==> slots[..m][k] == slots[k];
      if forall k :: 0 <= k < m ==> Is(kind, slots[k]) {
        assert forall k :: 0 <= k < m ==> Is(kind, slots[..m][k]);
      }
      if forall k :: 0 <= k < m ==> !Is(kind, slots[k]) {
        assert forall k :: 0 <= k < m ==> !Is(kind, slots[..m][k]);
      }
    }
  }

  lemma {:induction false} FreshAreActive(slots: seq<Slot>)
    ensures Tally(slots, Fresh) <= Tally(slots, Pending) + Tally(slots, Ready)
  {
    if slots != [] {
      FreshAreActive(slots[..|slots| - 1]);
    }
  }

  /** Every slot in use is of one of three kinds. */
  lemma {:induction false} UsedAre(slots: seq<Slot>)
    requires forall k :: 0 <= k < |slots| ==> InPhase2Has(slots[k])
    ensures Tally(slots, Used) == Tally(slots, Fresh) + Tally(slots, InPhase2) + Tally(slots, Closed)
  {
    if slots != [] {
      var m := |slots| - 1;
      assert forall k :: 0 <= k < m ==> slots[..m][k] == slots[k];
      UsedAre(slots[..m]);
      assert InPhase2Has(slots[m]);
    }
  }

  predicate InPhase2Has(sl: Slot) {
    sl.status == P2Pending ==> sl.p2.Some?
  }

  // ---- the invariant ----

  /** Slot k is clear, or holds the instance of the window that belongs there: with a value
      exactly below nextUnused, in phase 1 from there on, and always under an own ballot. */
  ghost predicate SlotOk(c: Office, t: Table, k: nat)
    requires t.Sized() && k < |t.slots|
  {
    var sl := t.slots[k];
    || sl == CLEARED
    || (&& t.current <= sl.iid <= t.highestOpen && Index(sl.iid, |t.slots|) == k
        && sl.status != Empty
        && (sl.p2.Some? <==> sl.iid < t.nextUnused)
        && (sl.status == P2Pending || sl.status == P2Completed ==> sl.p2.Some?)
        && Owner(sl.ballot) == c.me)
  }

  ghost predicate SlotsOk(c: Office, t: Table)
    requires t.Sized()
  {
    && (forall k :: 0 <= k < |t.slots| ==> SlotOk(c, t, k))
    && (forall i: nat :: t.current <= i <= t.highestOpen ==> t.At(i).iid == i)
  }

  ghost predicate Frontiers(t: Table) {
    1 <= t.current <= t.nextUnused <= t.highestOpen + 1 <= t.current + |t.slots|
  }

  /** pending_count and open_count are exact; ready_count is too large by the ready slots that
      were delivered. */
  ghost predicate Counters(t: Table) {
    && t.pendingCount == Tally(t.slots, Pending)
    && t.readyCount == Tally(t.slots, Ready) + t.staleReady
    && t.openCount == Tally(t.slots, InPhase2) <= PROPOSER_P2_CONCURRENCY + 1
    && Tally(t.slots, Used) == t.highestOpen + 1 - t.current
  }

  /** Every copy of a value ever taken is pending, assigned, reported as delivered or as failed, or
      lost, and in one place only. */
  ghost predicate Balanced(t: Table, v: Value) {
    Times(v, t.taken) == Times(v, t.queue) + Held(t.slots, v) + Times(v, t.notified) + Times(v, t.failed) + Times(v, t.lost)
  }

  ghost predicate Ledger(t: Table) {
    forall v :: Balanced(t, v)
  }

  ghost predicate TableOk(c: Office, t: Table) {
    t.Sized() && c.me < MAX_N_OF_PROPOSERS && Frontiers(t) && SlotsOk(c, t) && Counters(t) && Ledger(t)
  }

  /** No slot below instance i that has a value waits for its phase 2. */
  ghost predicate NoneWaits(t: Table, i: nat) {
    forall k :: 0 <= k < |t.slots| && t.slots[k].p2.Some? && t.slots[k].iid < i ==> t.slots[k].status != P1Ready
  }

  /** Between handlers no slot waits for a phase 2 it could have, and phase 1 runs at most one
      window ahead. */
  ghost predicate Settled(t: Table) {
    NoneWaits(t, t.nextUnused) && Tally(t.slots, Fresh) <= PROPOSER_PREEXEC_WIN_SIZE
  }

  ghost predicate Clear(slots: seq<Slot>) {
    forall k :: 0 <= k < |slots| ==> slots[k] == CLEARED
  }

  /** The proposer between two events. */
  ghost predicate LeaderOk(c: Office, t: Table) {
    && t.Sized() && c.me < MAX_N_OF_PROPOSERS && t.current >= 1
    && if t.leading then TableOk(c, t) && Settled(t)
       else Clear(t.slots) && t.queue == [] && Ledger(t)
  }

  // ---- replacing one slot ----

  /** What the table asks of the slot it keeps for an instance of the window. */
  ghost predicate Fits(c: Office, t: Table, i: nat, sl: Slot) {
    && sl.iid == i && sl.status != Empty
    && (sl.p2.Some? <==> i < t.nextUnused)
    && (sl.status == P2Pending || sl.status == P2Completed ==> sl.p2.Some?)
    && Owner(sl.ballot) == c.me
  }

  /** What every change of a slot does to a sum. */
  lemma Recount(t: Table, i: nat, sl: Slot, kind: SlotKind)
    requires t.Sized()
    ensures Tally(t.With(i, sl).slots, kind) == Tally(t.slots, kind) - Weight(kind, t.At(i)) + Weight(kind, sl)
  {
    TallyUpdate(t.slots, Index(i, |t.slots|), sl, kind);
  }

  lemma Rehold(t: Table, i: nat, sl: Slot, v: Value)
    requires t.Sized()
    ensures Held(t.With(i, sl).slots, v) == Held(t.slots, v) - Copies(v, t.At(i).p2) + Copies(v, sl.p2)
  {
    HeldUpdate(t.slots, Index(i, |t.slots|), sl, v);
  }

  /** The ledger is about six of the fields. */
  lemma SameLedger(t: Table, r: Table)
    requires Ledger(t) && r.slots == t.slots && r.queue == t.queue
    requires r.taken == t.taken && r.notified == t.notified && r.failed == t.failed && r.lost == t.lost
    ensures Ledger(r)
  {
    forall v
      ensures Balanced(r, v)
    {
      assert Balanced(t, v);
    }
  }

  lemma Distinct(t: Table, i: nat, j: nat)
    requires t.Sized() && Frontiers(t) && t.current <= i <= t.highestOpen && t.current <= j <= t.highestOpen && i != j
    ensures Index(i, |t.slots|) != Index(j, |t.slots|)
  {
    if Index(i, |t.slots|) == Index(j, |t.slots|) {
      if i < j { SameIndex(i, j, |t.slots|); } else { SameIndex(j, i, |t.slots|); }
    }
  }

  /** An instance of the window may get any slot that fits its place. */
  lemma Replace(c: Office, t: Table, i: nat, sl: Slot)
    requires t.Sized() && Frontiers(t) && SlotsOk(c, t) && t.current <= i <= t.highestOpen && Fits(c, t, i, sl)
    ensures SlotsOk(c, t.With(i, sl))
  {
    var r := t.With(i, sl);
    forall k | 0 <= k < |r.slots|
      ensures SlotOk(c, r, k)
    {
      assert SlotOk(c, t, k);
    }
    forall j: nat | t.current <= j <= t.highestOpen
      ensures r.At(j).iid == j
    {
      if j != i {
        Distinct(t, i, j);
      }
      assert t.At(j).iid == j;
    }
  }

  /** The slot of an instance of the window. */
  lemma SlotAt(c: Office, t: Table, i: nat)
    requires t.Sized() && SlotsOk(c, t) && t.current <= i <= t.highestOpen && t.current >= 1
    ensures Fits(c, t, i, t.At(i))
  {
    assert SlotOk(c, t, Index(i, |t.slots|));
  }

  /** The counters still count after one slot has changed along with them. */
  lemma CountersMove(t: Table, i: nat, sl: Slot, r: Table)
    requires t.Sized() && Counters(t) && r.slots == t.With(i, sl).slots
    requires r.pendingCount == t.pendingCount - Weight(Pending, t.At(i)) + Weight(Pending, sl)
    requires r.readyCount - r.staleReady == t.readyCount - t.staleReady - Weight(Ready, t.At(i)) + Weight(Ready, sl)
    requires r.openCount == t.openCount - Weight(InPhase2, t.At(i)) + Weight(InPhase2, sl)
    requires r.openCount <= PROPOSER_P2_CONCURRENCY + 1
    requires r.highestOpen - r.current == t.highestOpen - t.current - Weight(Used, t.At(i)) + Weight(Used, sl)
    ensures Counters(r)
    ensures Tally(r.slots, Fresh) == Tally(t.slots, Fresh) - Weight(Fresh, t.At(i)) + Weight(Fresh, sl)
  {
    Recount(t, i, sl, Pending);
    Recount(t, i, sl, Ready);
    Recount(t, i, sl, InPhase2);
    Recount(t, i, sl, Used);
    Recount(t, i, sl, Fresh);
  }

  /** Slots of instance i are the slot of instance i. */
  lemma OnlyInstance(c: Office, t: Table, i: nat)
    requires t.Sized() && SlotsOk(c, t) && i >= 1
    ensures forall k :: 0 <= k < |t.slots| && t.slots[k].iid == i ==> k == Index(i, |t.slots|)
  {
    forall k | 0 <= k < |t.slots| && t.slots[k].iid == i
      ensures k == Index(i, |t.slots|)
    {
      assert SlotOk(c, t, k);
    }
  }

  lemma EmptyBeyond(c: Office, t: Table, i: nat)
    requires t.Sized() && SlotsOk(c, t) && t.highestOpen < i < t.current + |t.slots|
    ensures t.At(i) == CLEARED
  {
    var sl := t.At(i);
    assert SlotOk(c, t, Index(i, |t.slots|));
    if sl != CLEARED {
      SameIndex(sl.iid, i, |t.slots|);
    }
  }

  lemma AroundTheRing(t: Table)
    requires t.Sized()
    ensures t.At(t.current + |t.slots|) == t.At(t.current)
  {
    RemainderIs(t.current + |t.slots|, |t.slots|, t.current / |t.slots| + 1, t.current % |t.slots|);
  }
}
