/** What each handler of the leader does, in terms of the slots of the window, the pending list and
    the messages that leave: which instance goes where, with which ballot and which value, and
    which client is told what. Nothing here is said by way of how the handlers do it. */
module LeaderEffects {
  import opened PaxosConfig
  import opened Messages
  import opened SlotSpec
  import opened LeaderSpec
  import opened LeaderSteps
  import opened LeaderRuns
  import opened LeaderOverrun

  // ---- phase 1 ----

  /** A slot in phase 1 that has heard nobody. */
  predicate StartsOver(next: Slot, iid: nat, ballot: nat, p2: Option<Value>) {
    next == Slot(iid, P1Pending, ballot, {}, 0, None, 0, p2, {})
  }

  /** The prepare requests for the expired instances of [from, to), in the next ballot of each. */
  function RetryRequests(t: Table, expired: set<nat>, from: nat, to: nat): seq<PrepareReq>
    requires t.Sized()
    decreases if from < to then to - from else 0
  {
    if from >= to then []
    else
      var sl := t.At(from);
      (if sl.status == P1Pending && from in expired then [PrepareReq(from, sl.ballot + MAX_N_OF_PROPOSERS)] else [])
      + RetryRequests(t, expired, from + 1, to)
  }

  /** Instances of [from, to) in table t that are as in table w. */
  ghost predicate SameFrom(w: Table, t: Table, from: nat, to: nat)
    requires w.Sized() && t.Sized()
  {
    forall i: nat :: from <= i < to ==> t.At(i) == w.At(i)
  }

  /** Placed instances outside [from, to) are the same in both tables. */
  ghost predicate SameOutside(t: Table, e: Table, from: nat, to: nat)
    requires t.Sized() && e.Sized()
  {
    forall j: nat :: t.At(j).iid == j && !(from <= j < to) ==> e.At(j) == t.At(j)
  }

  ghost predicate Retried(w: Table, e: Table, expired: set<nat>, from: nat, to: nat)
    requires w.Sized() && e.Sized()
  {
    forall i: nat :: from <= i < to ==>
      if w.At(i).status == P1Pending && i in expired
      then StartsOver(e.At(i), i, w.At(i).ballot + MAX_N_OF_PROPOSERS, w.At(i).p2)
      else e.At(i) == w.At(i)
  }

  lemma SentInTurn<T>(a: seq<T>, b: seq<T>, d: seq<T>)
    ensures (a + b) + d == a + (b + d)
  {
  }

  /** One visited instance, the others left alone. */
  lemma VisitMovesOne(c: Office, job: Job, t: Table, i: nat, to: nat)
    requires Sane(c, t) && t.leading && !job.Drop? && InReach(job, t, i) && to <= t.highestOpen + 1
    ensures t.At(i).iid == i
    ensures var r := Visit(c, job, t, i); SameOutside(t, r, i, i + 1) && SameFrom(t, r, i + 1, to)
    ensures forall j: nat :: Visit(c, job, t, i).At(j).iid == t.At(j).iid
  {
    VisitSane(c, job, t, i);
    var r := Visit(c, job, t, i);
    assert r.slots == t.With(i, r.At(i)).slots;
    forall j: nat | t.At(j).iid == j && j != i
      ensures r.At(j) == t.At(j)
    {
      Apart(t, i, j);
    }
  }

  lemma RetryOne(c: Office, t: Table, expired: set<nat>, i: nat, r: Table)
    requires Sane(c, t) && t.leading && t.current <= i <= t.highestOpen && r == Visit(c, Retry(expired), t, i)
    ensures Retried(t, r, expired, i, i + 1)
    ensures r == t.(slots := r.slots, prepares := t.prepares + RetryRequests(t, expired, i, i + 1))
  {
    VisitSane(c, Retry(expired), t, i);
    assert RetryRequests(t, expired, i + 1, i + 1) == [];
  }

  lemma RetriesJoin(w: Table, t: Table, r: Table, e: Table, expired: set<nat>, from: nat, to: nat)
    requires w.Sized() && t.Sized() && r.Sized() && e.Sized() && from < to && SameFrom(w, t, from, to) && t.At(from).iid == from
    requires Retried(t, r, expired, from, from + 1) && SameOutside(t, r, from, from + 1)
    requires (forall j: nat :: r.At(j).iid == t.At(j).iid)
    requires Retried(w, e, expired, from + 1, to) && SameOutside(r, e, from + 1, to)
    ensures Retried(w, e, expired, from, to) && SameOutside(t, e, from, to)
    ensures RetryRequests(w, expired, from, to) == RetryRequests(t, expired, from, from + 1) + RetryRequests(w, expired, from + 1, to)
  {
    assert e.At(from) == r.At(from);
    assert RetryRequests(t, expired, from + 1, from + 1) == [];
  }

  lemma {:induction false} RetriesDo(c: Office, w: Table, t: Table, expired: set<nat>, from: nat, to: nat, e: Table)
    requires Sane(c, t) && t.leading && t.current <= from && to == t.highestOpen + 1 && w.Sized() && SameFrom(w, t, from, to)
    requires e == Each(c, Retry(expired), t, from, to)
    ensures Retried(w, e, expired, from, to) && SameOutside(t, e, from, to)
    ensures e == t.(slots := e.slots, prepares := t.prepares + RetryRequests(w, expired, from, to))
    decreases if from < to then to - from else 0
  {
    if from < to {
      var r := Visit(c, Retry(expired), t, from);
      VisitMovesOne(c, Retry(expired), t, from, to);
      VisitSane(c, Retry(expired), t, from);
      RetryOne(c, t, expired, from, r);
      RetriesDo(c, w, r, expired, from + 1, to, e);
      RetriesJoin(w, t, r, e, expired, from, to);
      SentInTurn(t.prepares, RetryRequests(t, expired, from, from + 1), RetryRequests(w, expired, from + 1, to));
    }
  }

  /** The prepare requests for k new instances, in the proposer's first ballot. */
  function OpeningRequests(me: nat, from: nat, k: nat): seq<PrepareReq>
    decreases k
  {
    if k == 0 then [] else [PrepareReq(from, MAX_N_OF_PROPOSERS + me)] + OpeningRequests(me, from + 1, k - 1)
  }

  ghost predicate NewlyOpen(c: Office, e: Table, from: nat, to: nat)
    requires e.Sized()
  {
    forall i: nat :: from <= i < to ==> StartsOver(e.At(i), i, MAX_N_OF_PROPOSERS + c.me, None)
  }

  /** No slot in use is touched. */
  ghost predicate UsedStay(t: Table, e: Table)
    requires |t.slots| == |e.slots|
  {
    forall k :: 0 <= k < |t.slots| && t.slots[k].status != Empty ==> e.slots[k] == t.slots[k]
  }

  lemma {:induction false} OpensDo(c: Office, t: Table, k: nat, e: Table)
    requires Sane(c, t) && t.leading && k <= |t.slots| && OpensEmptySlots(t, k) && e == OpenMany(c, t, k)
    ensures NewlyOpen(c, e, t.highestOpen + 1, t.highestOpen + 1 + k) && UsedStay(t, e)
    ensures e == t.(slots := e.slots, prepares := t.prepares + OpeningRequests(c.me, t.highestOpen + 1, k),
                    highestOpen := t.highestOpen + k, pendingCount := t.pendingCount + k)
    decreases k
  {
    if k > 0 {
      var r := OpenOne(c, t);
      StillEmpty(c, t, k);
      OpenOneSane(c, t);
      OpensDo(c, r, k - 1, e);
      assert e.At(t.highestOpen + 1) == r.At(t.highestOpen + 1);
    }
  }

  /** How many instances a phase 1 window of this size lacks. */
  function Lacking(active: int): nat {
    if active < 150 then 300 - active else 0
  }

  /** leader_periodic_p1_check: every expired instance of the window starts phase 1 over in a ballot
      that is higher by the number of proposers; a window less than half full is filled up with
      new instances in the first ballot; a prepare request leaves for each of them, in order; and
      nothing else changes. */
  lemma P1CheckDoes(c: Office, t: Table, expired: set<nat>)
    requires Sane(c, t) && t.leading && |t.slots| > PROPOSER_PREEXEC_WIN_SIZE && Survives(c, t, P1Timer(expired))
    ensures var r := P1Check(c, t, expired); var k := Lacking(t.pendingCount + t.readyCount);
            && Retried(t, r, expired, t.current, t.highestOpen + 1)
            && NewlyOpen(c, r, t.highestOpen + 1, t.highestOpen + 1 + k)
            && r == t.(slots := r.slots, highestOpen := t.highestOpen + k, pendingCount := t.pendingCount + k,
                       prepares := t.prepares + RetryRequests(t, expired, t.current, t.highestOpen + 1)
                                   + OpeningRequests(c.me, t.highestOpen + 1, k))
  {
    var e := Each(c, Retry(expired), t, t.current, t.highestOpen + 1);
    RetriesLeave(c, t, expired, e);
    OpensAfter(c, t, expired, RetryRequests(t, expired, t.current, t.highestOpen + 1), e, OpenP1(c, e));
  }

  lemma OpensAfter(c: Office, t: Table, expired: set<nat>, again: seq<PrepareReq>, e: Table, r: Table)
    requires t.Sized() && |e.slots| > PROPOSER_PREEXEC_WIN_SIZE
    requires Sane(c, e) && e.leading && InUse(e, t.current, t.highestOpen + 1)
    requires Retried(t, e, expired, t.current, t.highestOpen + 1)
    requires e == t.(slots := e.slots, prepares := t.prepares + again)
    requires e.pendingCount + e.readyCount >= 0 && OpensEmptySlots(e, ToOpen(e)) && r == OpenP1(c, e)
    ensures var k := Lacking(t.pendingCount + t.readyCount);
            && Retried(t, r, expired, t.current, t.highestOpen + 1)
            && NewlyOpen(c, r, t.highestOpen + 1, t.highestOpen + 1 + k)
            && r == t.(slots := r.slots, highestOpen := t.highestOpen + k, pendingCount := t.pendingCount + k,
                       prepares := t.prepares + again + OpeningRequests(c.me, t.highestOpen + 1, k))
  {
    OpenP1Does(c, e);
    RetryThenOpen(c, t, e, r, expired, again, OpeningRequests(c.me, t.highestOpen + 1, Lacking(t.pendingCount + t.readyCount)));
  }

  ghost predicate InUse(t: Table, from: nat, to: nat)
    requires t.Sized()
  {
    forall i: nat :: from <= i < to ==> t.At(i).status != Empty
  }

  lemma RetriesLeave(c: Office, t: Table, expired: set<nat>, e: Table)
    requires Sane(c, t) && t.leading && e == Each(c, Retry(expired), t, t.current, t.highestOpen + 1)
    ensures Sane(c, e) && e.leading && InUse(e, t.current, t.highestOpen + 1)
    ensures Retried(t, e, expired, t.current, t.highestOpen + 1)
    ensures e == t.(slots := e.slots, prepares := t.prepares + RetryRequests(t, expired, t.current, t.highestOpen + 1))
  {
    RetriesDo(c, t, t, expired, t.current, t.highestOpen + 1, e);
    EachSane(c, Retry(expired), t, t.current, t.highestOpen + 1, e);
    WindowUsed(c, e);
  }

  lemma RetryThenOpen(c: Office, t: Table, e: Table, r: Table, expired: set<nat>, again: seq<PrepareReq>, more: seq<PrepareReq>)
    requires t.Sized() && e.Sized() && |r.slots| == |e.slots|
    requires Retried(t, e, expired, t.current, t.highestOpen + 1) && UsedStay(e, r)
    requires InUse(e, t.current, t.highestOpen + 1)
    requires e == t.(slots := e.slots, prepares := t.prepares + again)
    requires r == e.(slots := r.slots, prepares := e.prepares + more, highestOpen := r.highestOpen, pendingCount := r.pendingCount)
    ensures Retried(t, r, expired, t.current, t.highestOpen + 1)
    ensures r == t.(slots := r.slots, prepares := t.prepares + again + more,
                    highestOpen := r.highestOpen, pendingCount := r.pendingCount)
  {
    RetriedStay(t, e, r, expired, t.current, t.highestOpen + 1);
  }

  /** leader_open_instances_p1. */
  lemma OpenP1Does(c: Office, t: Table)
    requires Sane(c, t) && t.leading && |t.slots| > PROPOSER_PREEXEC_WIN_SIZE
    requires t.pendingCount + t.readyCount >= 0 && OpensEmptySlots(t, ToOpen(t))
    ensures var r := OpenP1(c, t); var k := Lacking(t.pendingCount + t.readyCount);
            && NewlyOpen(c, r, t.highestOpen + 1, t.highestOpen + 1 + k) && UsedStay(t, r)
            && r == t.(slots := r.slots, prepares := t.prepares + OpeningRequests(c.me, t.highestOpen + 1, k),
                       highestOpen := t.highestOpen + k, pendingCount := t.pendingCount + k)
  {
    OpensDo(c, t, ToOpen(t), OpenP1(c, t));
  }

  lemma FirstWindowDoes(c: Office, t: Table, from: nat, k: nat, r: Table)
    requires Sane(c, t) && t.leading && |t.slots| > PROPOSER_PREEXEC_WIN_SIZE && t.pendingCount == t.readyCount == 0
    requires from == t.highestOpen + 1 && k == PROPOSER_PREEXEC_WIN_SIZE && OpensEmptySlots(t, k) && r == OpenP1(c, t)
    ensures NewlyOpen(c, r, from, from + k) && UsedStay(t, r)
    ensures r == t.(slots := r.slots, prepares := t.prepares + OpeningRequests(c.me, from, k),
                    highestOpen := from - 1 + k, pendingCount := k)
  {
    OpenP1Does(c, t);
  }

  lemma ElectionOpens(c: Office, t: Table, m: Table)
    requires Sane(c, t) && !t.leading && m == Reset(t) && Survives(c, t, Elected)
    ensures Sane(c, m) && m.leading && OpensEmptySlots(m, PROPOSER_PREEXEC_WIN_SIZE) && Promote(c, t) == OpenP1(c, m)
    ensures m == t.(leading := true, promoted := true, queue := [], nextUnused := t.current, highestOpen := t.current - 1,
                    pendingCount := 0, readyCount := 0, openCount := 0, staleReady := 0)
  {
    ResetSane(c, t);
  }

  /** From table t the program has become leader with table r. */
  ghost predicate Leads(c: Office, t: Table, r: Table)
    requires t.Sized() && |r.slots| == |t.slots|
  {
    && t.current >= 1 && NewlyOpen(c, r, t.current, t.current + PROPOSER_PREEXEC_WIN_SIZE) && UsedStay(t, r)
    && r == t.(slots := r.slots, leading := true, promoted := true, queue := [], nextUnused := t.current,
               highestOpen := t.current - 1 + PROPOSER_PREEXEC_WIN_SIZE, pendingCount := PROPOSER_PREEXEC_WIN_SIZE,
               readyCount := 0, openCount := 0, staleReady := 0,
               prepares := t.prepares + OpeningRequests(c.me, t.current, PROPOSER_PREEXEC_WIN_SIZE))
  }

  lemma LeadsThen(c: Office, t: Table, m: Table, r: Table)
    requires Sane(c, t) && Sane(c, m) && m.leading && |m.slots| > PROPOSER_PREEXEC_WIN_SIZE
    requires OpensEmptySlots(m, PROPOSER_PREEXEC_WIN_SIZE) && r == OpenP1(c, m)
    requires m == t.(leading := true, promoted := true, queue := [], nextUnused := t.current, highestOpen := t.current - 1,
                     pendingCount := 0, readyCount := 0, openCount := 0, staleReady := 0)
    ensures |r.slots| == |t.slots| && Leads(c, t, r)
  {
    FirstWindowDoes(c, m, t.current, PROPOSER_PREEXEC_WIN_SIZE, r);
  }

  /** leader_init: the counters start from nothing, a full window of new instances is opened from the
      current one on, and a prepare request leaves for each. */
  lemma ElectionDoes(c: Office, t: Table)
    requires Sane(c, t) && !t.leading && |t.slots| > PROPOSER_PREEXEC_WIN_SIZE && Survives(c, t, Elected)
    ensures |Promote(c, t).slots| == |t.slots| && Leads(c, t, Promote(c, t))
  {
    ElectionOpens(c, t, Reset(t));
    LeadsThen(c, t, Reset(t), Promote(c, t));
  }

  lemma RetriedStay(t: Table, e: Table, r: Table, expired: set<nat>, from: nat, to: nat)
    requires t.Sized() && e.Sized() && |r.slots| == |e.slots| && Retried(t, e, expired, from, to) && UsedStay(e, r)
    requires InUse(e, from, to)
    ensures Retried(t, r, expired, from, to)
  {
    assert forall i: nat :: from <= i < to ==> r.At(i) == e.At(i);
  }

  /** Every instance of the window has its slot. */
  lemma WindowUsed(c: Office, t: Table)
    requires Sane(c, t) && t.leading
    ensures InUse(t, t.current, t.highestOpen + 1)
  {
    forall i: nat | t.current <= i <= t.highestOpen
      ensures t.At(i).status != Empty
    {
      AtPlace(c, t, i);
    }
  }

  // ---- phase 2 timeouts ----

  /** What a phase 2 check makes of the slot of an instance. */
  predicate Rechecked(c: Office, sl: Slot, next: Slot, closed: bool, expired: bool) {
    if sl.status != P2Pending then next == sl
    else if closed then next == sl.(status := P2Completed)
    else if !expired then next == sl
    else if c.repairs.restartForgets then StartsOver(next, sl.iid, sl.ballot + MAX_N_OF_PROPOSERS, sl.p2)
    else next == sl.(status := P1Pending, ballot := sl.ballot + MAX_N_OF_PROPOSERS, heard := {})
  }

  ghost predicate AllRechecked(c: Office, w: Table, e: Table, closed: set<nat>, expired: set<nat>, from: nat, to: nat)
    requires w.Sized() && e.Sized()
  {
    forall i: nat :: from <= i < to ==> Rechecked(c, w.At(i), e.At(i), i in closed, i in expired)
  }

  predicate TimedOut(sl: Slot, closed: bool, expired: bool) {
    sl.status == P2Pending && !closed && expired
  }

  function RestartRequests(t: Table, closed: set<nat>, expired: set<nat>, from: nat, to: nat): seq<PrepareReq>
    requires t.Sized()
    decreases if from < to then to - from else 0
  {
    if from >= to then []
    else
      (if TimedOut(t.At(from), from in closed, from in expired)
       then [PrepareReq(from, t.At(from).ballot + MAX_N_OF_PROPOSERS)] else [])
      + RestartRequests(t, closed, expired, from + 1, to)
  }

  /** How many instances in phase 2 are closed. */
  function NowClosed(t: Table, closed: set<nat>, from: nat, to: nat): nat
    requires t.Sized()
    decreases if from < to then to - from else 0
  {
    if from >= to then 0
    else (if t.At(from).status == P2Pending && from in closed then 1 else 0) + NowClosed(t, closed, from + 1, to)
  }

  lemma RestartOne(c: Office, t: Table, closed: set<nat>, expired: set<nat>, i: nat, r: Table)
    requires Sane(c, t) && t.leading && t.current <= i < t.nextUnused && r == Visit(c, Restart(closed, expired), t, i)
    ensures AllRechecked(c, t, r, closed, expired, i, i + 1)
    ensures r == t.(slots := r.slots, prepares := t.prepares + RestartRequests(t, closed, expired, i, i + 1),
                    pendingCount := r.pendingCount, openCount := t.openCount - NowClosed(t, closed, i, i + 1))
    ensures r.pendingCount == t.pendingCount + |RestartRequests(t, closed, expired, i, i + 1)|
  {
    VisitSane(c, Restart(closed, expired), t, i);
    assert RestartRequests(t, closed, expired, i + 1, i + 1) == [];
    assert NowClosed(t, closed, i + 1, i + 1) == 0;
  }

  lemma RestartsJoin(c: Office, w: Table, t: Table, r: Table, e: Table, closed: set<nat>, expired: set<nat>, from: nat, to: nat)
    requires w.Sized() && t.Sized() && r.Sized() && e.Sized() && from < to && SameFrom(w, t, from, to) && t.At(from).iid == from
    requires AllRechecked(c, t, r, closed, expired, from, from + 1) && SameOutside(t, r, from, from + 1)
    requires (forall j: nat :: r.At(j).iid == t.At(j).iid)
    requires AllRechecked(c, w, e, closed, expired, from + 1, to) && SameOutside(r, e, from + 1, to)
    ensures AllRechecked(c, w, e, closed, expired, from, to) && SameOutside(t, e, from, to)
    ensures RestartRequests(w, closed, expired, from, to)
            == RestartRequests(t, closed, expired, from, from + 1) + RestartRequests(w, closed, expired, from + 1, to)
    ensures NowClosed(w, closed, from, to) == NowClosed(t, closed, from, from + 1) + NowClosed(w, closed, from + 1, to)
  {
    assert e.At(from) == r.At(from);
    assert RestartRequests(t, closed, expired, from + 1, from + 1) == [];
    assert NowClosed(t, closed, from + 1, from + 1) == 0;
  }

  lemma {:induction false} RestartsDo(c: Office, w: Table, t: Table, closed: set<nat>, expired: set<nat>, from: nat, to: nat, e: Table)
    requires Sane(c, t) && t.leading && t.current <= from && to == t.nextUnused && w.Sized() && SameFrom(w, t, from, to)
    requires e == Each(c, Restart(closed, expired), t, from, to)
    ensures AllRechecked(c, w, e, closed, expired, from, to) && SameOutside(t, e, from, to)
    ensures e == t.(slots := e.slots, prepares := t.prepares + RestartRequests(w, closed, expired, from, to),
                    pendingCount := e.pendingCount, openCount := t.openCount - NowClosed(w, closed, from, to))
    ensures e.pendingCount == t.pendingCount + |RestartRequests(w, closed, expired, from, to)|
    decreases if from < to then to - from else 0
  {
    if from < to {
      var r := Visit(c, Restart(closed, expired), t, from);
      VisitMovesOne(c, Restart(closed, expired), t, from, to);
      VisitSane(c, Restart(closed, expired), t, from);
      RestartOne(c, t, closed, expired, from, r);
      RestartsDo(c, w, r, closed, expired, from + 1, to, e);
      RestartsJoin(c, w, t, r, e, closed, expired, from, to);
      SentInTurn(t.prepares, RestartRequests(t, closed, expired, from, from + 1), RestartRequests(w, closed, expired, from + 1, to));
    }
  }
}
