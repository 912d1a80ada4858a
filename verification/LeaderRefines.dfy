/** The leader's table is the proposer of the protocol: everything a handler does to it is a
    sequence of steps of Consensus, so whatever holds on every run of the protocol holds of
    proposers that keep their instances in this table. */
module LeaderRefines {
  import opened PaxosConfig
  import opened Messages
  import opened SlotSpec
  import opened LeaderSpec
  import opened LeaderSteps
  import opened LeaderRuns
  import opened LeaderOverrun
  import C = Consensus
  import R = Runs
  import B = AtomicBroadcast
  import I = ConsensusInvariant

  // ---- the relation ----

  /** The protocol does not tell a closed instance from one in phase 2. */
  function Proto(sl: Slot): Slot {
    if sl.status == P2Completed then sl.(status := P2Pending) else sl
  }

  /** An instance left over from an earlier leadership. */
  predicate Bygone(t: Table, sl: Slot) {
    sl.iid < t.current && (t.leading ==> sl.iid < t.nextUnused)
  }

  /** A slot in use is that of the protocol, or the protocol has forgotten it and the leader will
      not come back to it. */
  ghost predicate SlotTracks(t: Table, s: C.State, p: nat, k: nat)
    requires k < |t.slots|
  {
    if k in C.ProposerAt(s, p).table then t.slots[k].status != Empty && C.ProposerAt(s, p).table[k] == Proto(t.slots[k])
    else t.slots[k].status == Empty || Bygone(t, t.slots[k])
  }

  ghost predicate Issued(s: C.State, ar: AcceptReq) {
    exists from :: C.Issue(ar.iid, ar.ballot, ar.value, from) in s.issues
  }

  /** No empty value has got into the leader, unless clients may submit one. */
  ghost predicate Solid(r: C.Rules, t: Table) {
    !r.emptyValues ==>
      [] !in t.queue && forall k :: 0 <= k < |t.slots| ==> t.slots[k].p2 != Some([]) && t.slots[k].p1 != Some([])
  }

  ghost predicate Runs(r: C.Rules, c: Office) {
    r.Valid() && c.n == r.n && c.repairs == r.repairs && c.me < MAX_N_OF_PROPOSERS
  }

  /** Proposer c.me of state s keeps its instances in table t, and what t has sent is on the network. */
  ghost predicate Tracks(r: C.Rules, c: Office, t: Table, s: C.State) {
    && |t.slots| == r.ring
    && C.ProposerAt(s, c.me).leading == t.leading && C.ProposerAt(s, c.me).promoted == t.promoted
    && (if t.leading then C.ProposerAt(s, c.me).highestOpen == t.highestOpen else C.ProposerAt(s, c.me).table == map[])
    && (forall k :: 0 <= k < |t.slots| ==> SlotTracks(t, s, c.me, k))
    && (forall k :: k in C.ProposerAt(s, c.me).table ==> k < r.ring)
    && (forall pr :: pr in t.prepares ==> pr in s.prepares)
    && (forall ar :: ar in t.accepts ==> Issued(s, ar))
    && Solid(r, t)
  }

  /** What a proposer's own steps leave alone. */
  ghost predicate Beside(s: C.State, u: C.State, p: nat) {
    && u.records == s.records && u.learners == s.learners && u.acks == s.acks && u.votes == s.votes
    && u.proposers - {p} == s.proposers - {p}
    && s.prepares <= u.prepares && s.issues <= u.issues
  }

  // ---- one slot ----

  lemma InUse(t: Table, s: C.State, p: nat, i: nat)
    requires t.Sized() && SlotTracks(t, s, p, Index(i, |t.slots|)) && t.At(i).status != Empty && !Bygone(t, t.At(i))
    ensures Index(i, |t.slots|) in C.ProposerAt(s, p).table && C.SlotAt(s, p, Index(i, |t.slots|)) == Proto(t.At(i))
  {
  }

  /** A protocol step that puts a slot and sends something is what the table does with its own. */
  lemma PutTracks(r: C.Rules, c: Office, t: Table, s: C.State, i: nat, sl: Slot, t2: Table, s2: C.State)
    requires Runs(r, c) && Tracks(r, c, t, s) && t.Sized() && t.leading
    requires t2.slots == t.With(i, sl).slots && sl.status != Empty
    requires C.ProposerAt(s2, c.me) == C.ProposerAt(s, c.me).(table := C.ProposerAt(s, c.me).table[Index(i, r.ring) := Proto(sl)])
    requires t2.leading == t.leading && t2.promoted == t.promoted && t2.highestOpen == t.highestOpen
    requires t2.current == t.current && t2.nextUnused >= t.nextUnused
    requires forall pr :: pr in t2.prepares ==> pr in s2.prepares
    requires forall ar :: ar in t2.accepts ==> Issued(s2, ar)
    requires Solid(r, t2)
    ensures Tracks(r, c, t2, s2)
  {
    forall k | 0 <= k < |t2.slots|
      ensures SlotTracks(t2, s2, c.me, k)
    {
      assert SlotTracks(t, s, c.me, k);
    }
  }

  lemma SolidPut(r: C.Rules, t: Table, i: nat, sl: Slot, t2: Table)
    requires t.Sized() && Solid(r, t) && t2.slots == t.With(i, sl).slots
    requires !r.emptyValues ==> sl.p1 != Some([]) && sl.p2 != Some([]) && [] !in t2.queue
    ensures Solid(r, t2)
  {
  }

  lemma KeptRequests(t: Table, s: C.State, s2: C.State)
    requires (forall ar :: ar in t.accepts ==> Issued(s, ar)) && s.issues <= s2.issues
    ensures forall ar :: ar in t.accepts ==> Issued(s2, ar)
  {
    forall ar | ar in t.accepts
      ensures Issued(s2, ar)
    {
      var from :| C.Issue(ar.iid, ar.ballot, ar.value, from) in s.issues;
      assert C.Issue(ar.iid, ar.ballot, ar.value, from) in s2.issues;
    }
  }

  /** A phase 1 that starts over is one step. */
  lemma RetryIsStep(r: C.Rules, c: Office, t: Table, s: C.State, i: nat, expired: set<nat>) returns (u: C.State)
    requires Runs(r, c) && C.Reachable(r, s) && Tracks(r, c, t, s) && t.Sized() && t.leading
    requires t.At(i).status == P1Pending && i in expired && !Bygone(t, t.At(i))
    ensures C.Reachable(r, u) && Beside(s, u, c.me) && u.promises == s.promises && Tracks(r, c, Visit(c, Retry(expired), t, i), u)
  {
    var k := Index(i, r.ring);
    InUse(t, s, c.me, i);
    u := R.Go(r, s, C.Retry(c.me, k));
    var t2 := Visit(c, Retry(expired), t, i);
    KeptRequests(t, s, u);
    SolidPut(r, t, i, RetryPhase1(t.At(i)), t2);
    PutTracks(r, c, t, s, i, RetryPhase1(t.At(i)), t2, u);
  }

  /** So is going back to phase 1 after a phase 2. */
  lemma RestartIsStep(r: C.Rules, c: Office, t: Table, s: C.State, i: nat, closed: set<nat>, expired: set<nat>) returns (u: C.State)
    requires Runs(r, c) && C.Reachable(r, s) && Tracks(r, c, t, s) && t.Sized() && t.leading
    requires t.At(i).status == P2Pending && i !in closed && i in expired && !Bygone(t, t.At(i))
    ensures C.Reachable(r, u) && Beside(s, u, c.me) && u.promises == s.promises
    ensures Tracks(r, c, Visit(c, Restart(closed, expired), t, i), u)
  {
    var k := Index(i, r.ring);
    InUse(t, s, c.me, i);
    u := R.Go(r, s, C.Restart(c.me, k));
    var t2 := Visit(c, Restart(closed, expired), t, i);
    var next := RestartPhase1(c.repairs, t.At(i));
    KeptRequests(t, s, u);
    SolidPut(r, t, i, next, t2);
    PutTracks(r, c, t, s, i, next, t2, u);
  }

  /** Starting a phase 2 is one step, with the same value. */
  lemma ExecuteIsStep(r: C.Rules, c: Office, t: Table, s: C.State, i: nat, t2: Table) returns (u: C.State)
    requires Runs(r, c) && C.Reachable(r, s) && Tracks(r, c, t, s) && t.Sized() && t.leading
    requires t.At(i).status == P1Ready && (TakesFromQueue(t.At(i)) ==> t.queue != []) && !Bygone(t, t.At(i))
    requires t2.slots == Execute(c, t, i).slots && t2.accepts == Execute(c, t, i).accepts && t2.queue == Execute(c, t, i).queue
    requires t2.leading == t.leading && t2.promoted == t.promoted && t2.highestOpen == t.highestOpen && t2.prepares == t.prepares
    requires t2.current == t.current && t2.nextUnused >= t.nextUnused
    ensures C.Reachable(r, u) && Beside(s, u, c.me) && u.promises == s.promises && Tracks(r, c, t2, u)
  {
    var k := Index(i, r.ring);
    var sl := t.At(i);
    InUse(t, s, c.me, i);
    var next: Value := if TakesFromQueue(sl) then t.queue[0] else [0];
    assert !r.emptyValues && TakesFromQueue(sl) ==> t.queue[0] in t.queue;
    u := R.Go(r, s, C.Propose(c.me, k, next));
    var sent := StartPhase2(sl, next);
    assert sent == StartPhase2(sl, if t.queue != [] then t.queue[0] else []);
    RequestIssued(t, s, u, sent, sl.heard, t2);
    assert Solid(r, t2) by { SolidPut(r, t, i, sent, t2); }
    PutTracks(r, c, t, s, i, sent, t2, u);
  }

  lemma RequestIssued(t: Table, s: C.State, u: C.State, sent: Slot, heard: set<nat>, t2: Table)
    requires forall ar :: ar in t.accepts ==> Issued(s, ar)
    requires sent.p2.Some? && u.issues == s.issues + {C.Issue(sent.iid, sent.ballot, sent.p2.value, heard)}
    requires t2.accepts == t.accepts + [AcceptReq(sent.iid, sent.ballot, sent.p2.value)]
    ensures forall ar :: ar in t2.accepts ==> Issued(u, ar)
  {
    KeptRequests(t, s, u);
    assert C.Issue(sent.iid, sent.ballot, sent.p2.value, heard) in u.issues;
  }

  /** Noticing that an instance is closed is no step at all. */
  lemma CloseIsSilent(r: C.Rules, c: Office, t: Table, s: C.State, i: nat, closed: set<nat>, expired: set<nat>)
    requires Runs(r, c) && Tracks(r, c, t, s) && t.Sized() && t.At(i).status == P2Pending && i in closed
    ensures Tracks(r, c, Visit(c, Restart(closed, expired), t, i), s)
  {
    var t2 := Visit(c, Restart(closed, expired), t, i);
    assert SlotTracks(t, s, c.me, Index(i, |t.slots|));
    forall k | 0 <= k < |t2.slots|
      ensures SlotTracks(t2, s, c.me, k)
    {
      assert SlotTracks(t, s, c.me, k);
    }
  }

  lemma VisitIsRun(r: C.Rules, c: Office, job: Job, t: Table, s: C.State, i: nat) returns (u: C.State)
    requires Runs(r, c) && C.Reachable(r, s) && Tracks(r, c, t, s) && t.Sized() && t.leading && !job.Drop?
    requires !Bygone(t, t.At(i)) && (job.Resend? ==> t.At(i).p2.Some?)
    ensures C.Reachable(r, u) && Beside(s, u, c.me) && u.promises == s.promises && Tracks(r, c, Visit(c, job, t, i), u)
  {
    u := s;
    match job
    case Retry(expired) =>
      if t.At(i).status == P1Pending && i in expired {
        u := RetryIsStep(r, c, t, s, i, expired);
      }
    case Restart(closed, expired) =>
      if t.At(i).status == P2Pending && i in closed {
        CloseIsSilent(r, c, t, s, i, closed, expired);
      } else if t.At(i).status == P2Pending && i in expired {
        u := RestartIsStep(r, c, t, s, i, closed, expired);
      }
    case Resend =>
      if t.At(i).status == P1Ready {
        u := ExecuteIsStep(r, c, t, s, i, Visit(c, Resend, t, i));
      }
  }

  /** The proposer is leader and at table t in state s. */
  ghost predicate StandsAt(r: C.Rules, c: Office, t: Table, s: C.State)
    requires Runs(r, c)
  {
    C.Reachable(r, s) && Tracks(r, c, t, s) && Sane(c, t) && t.leading
  }

  lemma VisitOnTable(r: C.Rules, c: Office, job: Job, t: Table, s: C.State, i: nat) returns (u: C.State)
    requires Runs(r, c) && StandsAt(r, c, t, s) && !job.Drop? && InReach(job, t, i)
    ensures StandsAt(r, c, Visit(c, job, t, i), u) && Beside(s, u, c.me) && u.promises == s.promises
  {
    VisitSane(c, job, t, i);
    u := VisitIsRun(r, c, job, t, s, i);
  }

  lemma BesideBeside(s: C.State, v: C.State, u: C.State, p: nat)
    requires Beside(s, v, p) && Beside(v, u, p)
    ensures Beside(s, u, p)
  {
  }

  lemma {:induction false} EachIsRun(r: C.Rules, c: Office, job: Job, t: Table, s: C.State, from: nat, to: nat, e: Table)
    returns (u: C.State)
    requires Runs(r, c) && StandsAt(r, c, t, s) && !job.Drop? && t.current <= from
    requires to == Stop(job, t) && e == Each(c, job, t, from, to)
    ensures StandsAt(r, c, e, u) && Beside(s, u, c.me) && u.promises == s.promises
    decreases if from < to then to - from else 0
  {
    u := s;
    if from < to {
      var v := VisitOnTable(r, c, job, t, s, from);
      u := EachIsRun(r, c, job, Visit(c, job, t, from), v, from + 1, to, e);
      BesideBeside(s, v, u, c.me);
    }
  }

  // ---- opening instances ----

  lemma OpenIsStep(r: C.Rules, c: Office, t: Table, s: C.State) returns (u: C.State)
    requires Runs(r, c) && C.Reachable(r, s) && Tracks(r, c, t, s) && t.Sized() && t.leading
    requires t.At(t.highestOpen + 1) == CLEARED
    ensures C.Reachable(r, u) && Beside(s, u, c.me) && u.promises == s.promises && Tracks(r, c, OpenOne(c, t), u)
  {
    var i := t.highestOpen + 1;
    var k := Index(i, r.ring);
    assert SlotTracks(t, s, c.me, k);
    u := R.Go(r, s, C.Open(c.me));
    KeptRequests(t, s, u);
    var t2 := OpenOne(c, t);
    SolidPut(r, t, i, Opened(CLEARED, i, c.me), t2);
    forall j | 0 <= j < |t2.slots|
      ensures SlotTracks(t2, u, c.me, j)
    {
      assert SlotTracks(t, s, c.me, j);
    }
  }

  lemma OpenOnTable(r: C.Rules, c: Office, t: Table, s: C.State) returns (u: C.State)
    requires Runs(r, c) && StandsAt(r, c, t, s) && t.At(t.highestOpen + 1).status == Empty
    ensures StandsAt(r, c, OpenOne(c, t), u) && Beside(s, u, c.me) && u.promises == s.promises
  {
    OpenOneSane(c, t);
    u := OpenIsStep(r, c, t, s);
  }

  lemma {:induction false} OpenManyIsRun(r: C.Rules, c: Office, t: Table, s: C.State, k: nat, e: Table) returns (u: C.State)
    requires Runs(r, c) && StandsAt(r, c, t, s) && k <= |t.slots| && OpensEmptySlots(t, k) && e == OpenMany(c, t, k)
    ensures StandsAt(r, c, e, u) && Beside(s, u, c.me) && u.promises == s.promises
    decreases k
  {
    u := s;
    if k > 0 {
      StillEmpty(c, t, k);
      var v := OpenOnTable(r, c, t, s);
      u := OpenManyIsRun(r, c, OpenOne(c, t), v, k - 1, e);
      BesideBeside(s, v, u, c.me);
    }
  }

  // ---- starting phase 2 ----

  lemma ExecuteOnTable(r: C.Rules, c: Office, t: Table, s: C.State) returns (u: C.State)
    requires Runs(r, c) && StandsAt(r, c, t, s) && CanExecute(t)
    ensures StandsAt(r, c, ExecuteNext(c, t), u) && Beside(s, u, c.me) && u.promises == s.promises
  {
    u := ExecuteIsStep(r, c, t, s, t.nextUnused, ExecuteNext(c, t));
    ExecuteNextSane(c, t);
  }

  lemma {:induction false} ExecuteManyIsRun(r: C.Rules, c: Office, t: Table, s: C.State, e: Table) returns (u: C.State)
    requires Runs(r, c) && StandsAt(r, c, t, s) && e == ExecuteMany(c, t)
    ensures StandsAt(r, c, e, u) && Beside(s, u, c.me) && u.promises == s.promises
    decreases PROPOSER_P2_CONCURRENCY + 1 - t.openCount
  {
    u := s;
    if t.openCount <= PROPOSER_P2_CONCURRENCY && CanExecute(t) {
      var v := ExecuteOnTable(r, c, t, s);
      u := ExecuteManyIsRun(r, c, ExecuteNext(c, t), v, e);
      BesideBeside(s, v, u, c.me);
    }
  }

  lemma OpenNewIsRun(r: C.Rules, c: Office, t: Table, s: C.State) returns (u: C.State)
    requires Runs(r, c) && StandsAt(r, c, t, s)
    ensures StandsAt(r, c, OpenNew(c, t), u) && Beside(s, u, c.me) && u.promises == s.promises
  {
    u := s;
    if t.openCount <= THRESHOLD {
      u := ExecuteManyIsRun(r, c, t, s, ExecuteMany(c, t));
    }
  }

  // ---- promises ----

  /** The promises of a batch that are for proposer p: those of a ballot of its own. */
  function Used(p: nat, from: nat, batch: seq<PrepareAck>): multiset<C.Promise> {
    if batch == [] then multiset{}
    else (if Owner(batch[0].ballot) == p then multiset{C.Promise(from, batch[0])} else multiset{}) + Used(p, from, batch[1..])
  }

  /** They are on the network, often enough if it loses what it has delivered. */
  ghost predicate Carried(r: C.Rules, promises: multiset<C.Promise>, used: multiset<C.Promise>) {
    if r.promisesDuplicate then forall x :: x in used ==> x in promises else used <= promises
  }

  /** The promises left once some have been used. */
  function Left(r: C.Rules, promises: multiset<C.Promise>, used: multiset<C.Promise>): multiset<C.Promise> {
    if r.promisesDuplicate then promises else promises - used
  }

  /** A promise of somebody else's ballot changes nothing. */
  lemma NotMine(c: Office, t: Table, from: nat, pa: PrepareAck)
    requires Sane(c, t) && Owner(pa.ballot) != c.me
    ensures HandlePromise(c, t, from, pa) == t
  {
    var k := Index(pa.iid, |t.slots|);
    assert SlotSane(c, t, k);
    assert !Relevant(c.repairs, t.slots[k], pa);
    assert t.slots[k := t.slots[k]] == t.slots;
  }

  /** What the protocol does with a promise, and what the table does with it, is the same. */
  lemma PromisedStep(r: C.Rules, c: Office, t: Table, s: C.State, from: nat, pa: PrepareAck) returns (u: C.State)
    requires Runs(r, c) && C.Reachable(r, s) && Tracks(r, c, t, s) && t.Sized() && t.leading && C.Promise(from, pa) in s.promises
    ensures C.Reachable(r, u) && Beside(s, u, c.me) && u.prepares == s.prepares && u.issues == s.issues
    ensures u.promises == if r.promisesDuplicate then s.promises else s.promises - multiset{C.Promise(from, pa)}
    ensures C.ProposerAt(u, c.me) ==
            if Index(pa.iid, r.ring) !in C.ProposerAt(s, c.me).table then C.ProposerAt(s, c.me)
            else C.ProposerAt(s, c.me).(table := C.ProposerAt(s, c.me).table[Index(pa.iid, r.ring) :=
                                          Proto(HandlePromise(c, t, from, pa).At(pa.iid))])
  {
    assert SlotTracks(t, s, c.me, Index(pa.iid, r.ring));
    u := R.Go(r, s, C.Promised(c.me, C.Promise(from, pa)));
    PromisedDoes(r, s, c.me, C.Promise(from, pa), u);
    ProtoHandles(c, t, from, pa);
  }

  lemma PromisedDoes(r: C.Rules, s: C.State, p: nat, msg: C.Promise, u: C.State)
    requires r.Valid() && C.ProposerAt(s, p).leading && msg in s.promises && u == C.Do(r, s, C.Promised(p, msg))
    ensures Beside(s, u, p) && u.prepares == s.prepares && u.issues == s.issues
    ensures u.promises == if r.promisesDuplicate then s.promises else s.promises - multiset{msg}
    ensures var k := Index(msg.ack.iid, r.ring); var sl := C.SlotAt(s, p, k);
            C.ProposerAt(u, p) ==
            if sl.status == Empty then C.ProposerAt(s, p)
            else C.ProposerAt(s, p).(table := C.ProposerAt(s, p).table[k := SlotSpec.HandleAck(r.repairs, r.n, sl, msg.ack, msg.acceptor)])
  {
  }

  lemma ProtoHandles(c: Office, t: Table, from: nat, pa: PrepareAck)
    requires t.Sized()
    ensures Proto(HandlePromise(c, t, from, pa).At(pa.iid)) == SlotSpec.HandleAck(c.repairs, c.n, Proto(t.At(pa.iid)), pa, from)
  {
    var next := SlotSpec.HandleAck(c.repairs, c.n, t.At(pa.iid), pa, from);
    assert HandlePromise(c, t, from, pa).At(pa.iid) == next;
  }

  lemma PromiseIsStep(r: C.Rules, c: Office, t: Table, s: C.State, from: nat, pa: PrepareAck) returns (u: C.State)
    requires Runs(r, c) && C.Reachable(r, s) && Tracks(r, c, t, s) && t.Sized() && t.leading && C.Promise(from, pa) in s.promises
    ensures C.Reachable(r, u) && Beside(s, u, c.me) && Tracks(r, c, HandlePromise(c, t, from, pa), u)
    ensures u.promises == if r.promisesDuplicate then s.promises else s.promises - multiset{C.Promise(from, pa)}
  {
    u := PromisedStep(r, c, t, s, from, pa);
    KeptRequests(t, s, u);
    PromiseKeepsSolid(r, c, t, from, pa);
    PromisedTracks(r, c, t, s, from, pa, HandlePromise(c, t, from, pa), u);
  }

  lemma PromisedTracks(r: C.Rules, c: Office, t: Table, s: C.State, from: nat, pa: PrepareAck, t2: Table, u: C.State)
    requires Runs(r, c) && Tracks(r, c, t, s) && t.Sized() && t.leading && t2 == HandlePromise(c, t, from, pa) && Solid(r, t2)
    requires u.prepares == s.prepares && forall ar :: ar in t.accepts ==> Issued(u, ar)
    requires C.ProposerAt(u, c.me) ==
             if Index(pa.iid, r.ring) !in C.ProposerAt(s, c.me).table then C.ProposerAt(s, c.me)
             else C.ProposerAt(s, c.me).(table := C.ProposerAt(s, c.me).table[Index(pa.iid, r.ring) := Proto(t2.At(pa.iid))])
    ensures Tracks(r, c, t2, u)
  {
    AckedSlot(c, t, from, pa);
    assert SlotTracks(t, s, c.me, Index(pa.iid, r.ring));
    if Index(pa.iid, r.ring) in C.ProposerAt(s, c.me).table {
      PutTracks(r, c, t, s, pa.iid, t2.At(pa.iid), t2, u);
    } else {
      forall k | 0 <= k < |t2.slots|
        ensures SlotTracks(t2, u, c.me, k)
      {
        assert SlotTracks(t, s, c.me, k);
      }
    }
  }

  lemma PromiseKeepsSolid(r: C.Rules, c: Office, t: Table, from: nat, pa: PrepareAck)
    requires t.Sized() && Solid(r, t)
    ensures Solid(r, HandlePromise(c, t, from, pa))
  {
    var t2 := HandlePromise(c, t, from, pa);
    AckedSlot(c, t, from, pa);
    SolidPut(r, t, pa.iid, t2.At(pa.iid), t2);
  }

  lemma SameTracks(r: C.Rules, c: Office, t: Table, s: C.State, t2: Table, s2: C.State)
    requires Runs(r, c) && Tracks(r, c, t, s) && t2.slots == t.slots && Solid(r, t2)
    requires C.ProposerAt(s2, c.me) == C.ProposerAt(s, c.me)
    requires t2.leading == t.leading && t2.promoted == t.promoted && t2.highestOpen == t.highestOpen
    requires t2.current >= t.current && t2.nextUnused >= t.nextUnused
    requires forall pr :: pr in t2.prepares ==> pr in s2.prepares
    requires forall ar :: ar in t2.accepts ==> Issued(s2, ar)
    ensures Tracks(r, c, t2, s2)
  {
    forall k | 0 <= k < |t2.slots|
      ensures SlotTracks(t2, s2, c.me, k)
    {
      assert SlotTracks(t, s, c.me, k);
    }
  }

  lemma PromiseOnTable(r: C.Rules, c: Office, t: Table, s: C.State, from: nat, batch: seq<PrepareAck>) returns (u: C.State)
    requires Runs(r, c) && StandsAt(r, c, t, s) && batch != []
    requires Carried(r, s.promises, Used(c.me, from, batch))
    ensures var t2 := HandlePromise(c, t, from, batch[0]);
            StandsAt(r, c, t2, u) && Beside(s, u, c.me)
    ensures Carried(r, u.promises, Used(c.me, from, batch[1..]))
    ensures Left(r, u.promises, Used(c.me, from, batch[1..])) == Left(r, s.promises, Used(c.me, from, batch))
  {
    var pa := batch[0];
    u := s;
    var one := if Owner(pa.ballot) == c.me then multiset{C.Promise(from, pa)} else multiset{};
    CarriedOn(r, s.promises, one, Used(c.me, from, batch[1..]));
    if Owner(pa.ballot) == c.me {
      assert C.Promise(from, pa) in one;
      u := PromiseIsStep(r, c, t, s, from, pa);
    } else {
      NotMine(c, t, from, pa);
    }
    HandlePromiseSane(c, t, from, pa);
    assert u.promises == Left(r, s.promises, one);
  }

  lemma CarriedOn(r: C.Rules, promises: multiset<C.Promise>, one: multiset<C.Promise>, rest: multiset<C.Promise>)
    requires Carried(r, promises, one + rest)
    ensures forall x :: x in one ==> x in promises
    ensures Carried(r, Left(r, promises, one), rest)
    ensures Left(r, Left(r, promises, one), rest) == Left(r, promises, one + rest)
  {
    assert forall x :: x in one ==> x in one + rest;
    assert forall x :: x in rest ==> x in one + rest;
  }

  lemma {:induction false} PromisesAreRun(r: C.Rules, c: Office, t: Table, s: C.State, from: nat, batch: seq<PrepareAck>, e: Table)
    returns (u: C.State)
    requires Runs(r, c) && StandsAt(r, c, t, s) && Carried(r, s.promises, Used(c.me, from, batch))
    requires e == HandlePromises(c, t, from, batch)
    ensures StandsAt(r, c, e, u) && Beside(s, u, c.me)
    ensures u.promises == Left(r, s.promises, Used(c.me, from, batch))
    decreases |batch|
  {
    u := s;
    if batch != [] {
      var v := PromiseOnTable(r, c, t, s, from, batch);
      u := PromisesAreRun(r, c, HandlePromise(c, t, from, batch[0]), v, from, batch[1..], e);
      BesideBeside(s, v, u, c.me);
    }
  }

  lemma BatchIsRun(r: C.Rules, c: Office, t: Table, s: C.State, from: nat, batch: seq<PrepareAck>) returns (u: C.State)
    requires Runs(r, c) && StandsAt(r, c, t, s) && Carried(r, s.promises, Used(c.me, from, batch))
    ensures StandsAt(r, c, HandleBatch(c, t, from, batch), u) && Beside(s, u, c.me)
    ensures u.promises == Left(r, s.promises, Used(c.me, from, batch))
  {
    var heard := HandlePromises(c, t, from, batch);
    u := PromisesAreRun(r, c, t, s, from, batch, heard);
    if heard.readyCount > t.readyCount {
      var sent := Each(c, Resend, heard, heard.current, heard.nextUnused);
      var v := u;
      u := EachIsRun(r, c, Resend, heard, v, heard.current, heard.nextUnused, sent);
      BesideBeside(s, v, u, c.me);
      var w := u;
      u := OpenNewIsRun(r, c, sent, w);
      BesideBeside(s, w, u, c.me);
    }
  }

  // ---- delivery ----

  lemma ReleaseIsStep(r: C.Rules, c: Office, t: Table, s: C.State, l: nat, value: Value) returns (u: C.State)
    requires Runs(r, c) && StandsAt(r, c, t, s) && t.At(t.current).iid == t.current && C.Delivered(s, l, t.current)
    ensures C.Reachable(r, u) && Beside(s, u, c.me) && u.promises == s.promises
    ensures Tracks(r, c, Release(c, t, value).(current := t.current + 1), u)
  {
    var k := Index(t.current, r.ring);
    AtPlace(c, t, t.current);
    InUse(t, s, c.me, t.current);
    u := R.Go(r, s, C.Forget(c.me, k, l));
    KeptRequests(t, s, u);
    var t2 := Release(c, t, value).(current := t.current + 1);
    SolidPut(r, t, t.current, CLEARED, t2);
    forall j | 0 <= j < |t2.slots|
      ensures SlotTracks(t2, u, c.me, j)
    {
      assert SlotTracks(t, s, c.me, j);
    }
  }

  lemma DeliverIsRun(r: C.Rules, c: Office, t: Table, s: C.State, l: nat, value: Value) returns (u: C.State)
    requires Runs(r, c) && StandsAt(r, c, t, s) && C.Delivered(s, l, t.current)
    ensures StandsAt(r, c, Deliver(c, t, value), u) && Beside(s, u, c.me) && u.promises == s.promises
  {
    if t.At(t.current).iid == t.current {
      var t2 := Release(c, t, value).(current := t.current + 1);
      var v := ReleaseIsStep(r, c, t, s, l, value);
      ReleaseSane(c, t, value);
      u := OpenNewIsRun(r, c, t2, v);
      BesideBeside(s, v, u, c.me);
    } else {
      u := s;
      SkipSane(c, t);
      SameTracks(r, c, t, s, t.(current := t.current + 1), s);
    }
  }

  // ---- elections ----

  lemma ElectionIsStep(r: C.Rules, c: Office, t: Table, s: C.State) returns (u: C.State)
    requires Runs(r, c) && C.Reachable(r, s) && Tracks(r, c, t, s) && Sane(c, t) && !t.leading
    requires C.ProposerAt(s, c.me).promoted ==> r.reelection
    ensures StandsAt(r, c, Reset(t), u) && Beside(s, u, c.me) && u.promises == s.promises
  {
    u := R.Go(r, s, C.Promote(c.me, t.current - 1));
    KeptRequests(t, s, u);
    ResetSane(c, t);
    var t2 := Reset(t);
    forall k | 0 <= k < |t2.slots|
      ensures SlotTracks(t2, u, c.me, k)
    {
      assert SlotSane(c, t, k);
    }
  }

  lemma PromoteIsRun(r: C.Rules, c: Office, t: Table, s: C.State) returns (u: C.State)
    requires Runs(r, c) && C.Reachable(r, s) && Tracks(r, c, t, s) && Sane(c, t) && !t.leading
    requires C.ProposerAt(s, c.me).promoted ==> r.reelection
    requires |t.slots| > PROPOSER_PREEXEC_WIN_SIZE && Survives(c, t, Elected)
    ensures StandsAt(r, c, Promote(c, t), u) && Beside(s, u, c.me) && u.promises == s.promises
  {
    var v := ElectionIsStep(r, c, t, s);
    u := OpenManyIsRun(r, c, Reset(t), v, ToOpen(Reset(t)), Promote(c, t));
    BesideBeside(s, v, u, c.me);
  }

  lemma {:induction false} DropKeepsSolid(r: C.Rules, c: Office, t: Table, from: nat, to: nat, e: Table)
    requires t.Sized() && Solid(r, t) && e == Each(c, Drop, t, from, to)
    ensures Solid(r, e) && e.prepares == t.prepares && e.accepts == t.accepts && e.promoted == t.promoted
    decreases if from < to then to - from else 0
  {
    if from < to {
      var v := Visit(c, Drop, t, from);
      SolidPut(r, t, from, CLEARED, v);
      DropKeepsSolid(r, c, v, from + 1, to, e);
    }
  }

  lemma ShutdownSolid(r: C.Rules, c: Office, t: Table)
    requires Sane(c, t) && t.leading && Solid(r, t)
    ensures var e := Shutdown(c, t);
            e.promoted == t.promoted && |e.slots| == |t.slots| && Solid(r, e) && e.prepares == t.prepares && e.accepts == t.accepts
  {
    DropKeepsSolid(r, c, t, t.current, t.highestOpen + 1, Each(c, Drop, t, t.current, t.highestOpen + 1));
  }

  lemma ShutdownIsStep(r: C.Rules, c: Office, t: Table, s: C.State) returns (u: C.State)
    requires Runs(r, c) && C.Reachable(r, s) && Tracks(r, c, t, s) && Sane(c, t) && t.leading
    ensures C.Reachable(r, u) && Beside(s, u, c.me) && u.promises == s.promises && Tracks(r, c, Shutdown(c, t), u)
    ensures Sane(c, Shutdown(c, t))
  {
    u := R.Go(r, s, C.Demote(c.me));
    KeptRequests(t, s, u);
    ShutdownSolid(r, c, t);
    ShutdownSane(c, t);
    var t2 := Shutdown(c, t);
    forall k | 0 <= k < |t2.slots|
      ensures SlotTracks(t2, u, c.me, k)
    {
      assert SlotSane(c, t2, k);
    }
  }

  // ---- any event ----

  /** What an event needs of the rest of the system: the promises it brings are on the network,
      the instance delivered has been delivered by learner l with that value, and clients submit
      what they may. */
  ghost predicate Comes(r: C.Rules, c: Office, t: Table, s: C.State, l: nat, ev: Event) {
    match ev
    case Elected => t.promoted ==> r.reelection
    case Promises(from, batch) => t.leading ==> Carried(r, s.promises, Used(c.me, from, batch))
    case Delivered(value) =>
      t.current >= 1 && C.Delivered(s, l, t.current) && C.LearnerAt(s, l).delivered[t.current - 1].value == value
    case Submitted(value) => value == [] ==> r.emptyValues
    case _ => true
  }

  lemma TimersAreRuns(r: C.Rules, c: Office, t: Table, s: C.State, ev: Event) returns (u: C.State)
    requires Runs(r, c) && StandsAt(r, c, t, s) && |t.slots| > PROPOSER_PREEXEC_WIN_SIZE
    requires Survives(c, t, ev) && (ev.P1Timer? || ev.P2Timer?)
    ensures StandsAt(r, c, Handle(c, t, ev), u) && Beside(s, u, c.me) && u.promises == s.promises
  {
    match ev
    case P1Timer(expired) =>
      var checked := Each(c, Retry(expired), t, t.current, t.highestOpen + 1);
      var v := EachIsRun(r, c, Retry(expired), t, s, t.current, t.highestOpen + 1, checked);
      u := OpenManyIsRun(r, c, checked, v, ToOpen(checked), Handle(c, t, ev));
      BesideBeside(s, v, u, c.me);
    case P2Timer(closed, expired) =>
      var checked := Each(c, Restart(closed, expired), t, t.current, t.nextUnused);
      var v := EachIsRun(r, c, Restart(closed, expired), t, s, t.current, t.nextUnused, checked);
      u := OpenNewIsRun(r, c, checked, v);
      BesideBeside(s, v, u, c.me);
  }

  lemma SubmitIsSilent(r: C.Rules, c: Office, t: Table, s: C.State, value: Value)
    requires Runs(r, c) && Tracks(r, c, t, s) && Sane(c, t) && (value == [] ==> r.emptyValues)
    ensures Tracks(r, c, Submit(t, value), s) && Sane(c, Submit(t, value))
  {
    SameTracks(r, c, t, s, Submit(t, value), s);
    SameSane(c, t, Submit(t, value));
  }

  /** Main result: whatever event a proposer handles, the protocol can take steps of its own that
      lead to a state in which the proposer has the resulting table. */
  lemma HandleIsRun(r: C.Rules, c: Office, t: Table, s: C.State, l: nat, ev: Event) returns (u: C.State)
    requires Runs(r, c) && C.Reachable(r, s) && Tracks(r, c, t, s) && Sane(c, t) && |t.slots| > PROPOSER_PREEXEC_WIN_SIZE
    requires Possible(t, ev) && Survives(c, t, ev) && Comes(r, c, t, s, l, ev)
    ensures C.Reachable(r, u) && Beside(s, u, c.me) && Tracks(r, c, Handle(c, t, ev), u)
    ensures u.promises == if ev.Promises? && t.leading then Left(r, s.promises, Used(c.me, ev.from, ev.batch)) else s.promises
    ensures Sane(c, Handle(c, t, ev))
  {
    u := s;
    match ev
    case Elected => u := PromoteIsRun(r, c, t, s);
    case Deposed => u := ShutdownIsStep(r, c, t, s);
    case P1Timer(_) => u := TimersAreRuns(r, c, t, s, ev);
    case P2Timer(_, _) => u := TimersAreRuns(r, c, t, s, ev);
    case Promises(from, batch) =>
      if t.leading {
        u := BatchIsRun(r, c, t, s, from, batch);
      }
    case Delivered(value) =>
      if t.leading {
        u := DeliverIsRun(r, c, t, s, l, value);
      } else {
        SkipSane(c, t);
        SameTracks(r, c, t, s, Handle(c, t, ev), s);
      }
    case Submitted(value) => SubmitIsSilent(r, c, t, s, value);
  }

  // ---- what follows ----

  /** In a sound deployment no two proposers, nor one proposer twice, ever send accept requests
      with different values for one instance and ballot. */
  lemma RequestsNeverClash(r: C.Rules, c: Office, t: Table, d: Office, x: Table, s: C.State, a: AcceptReq, b: AcceptReq)
    requires Runs(r, c) && Runs(r, d) && I.Sound(r) && C.Reachable(r, s) && Tracks(r, c, t, s) && Tracks(r, d, x, s)
    requires a in t.accepts && b in x.accepts && a.iid == b.iid && a.ballot == b.ballot
    ensures a.value == b.value
  {
    assert Issued(s, a) && Issued(s, b);
    var p :| C.Issue(a.iid, a.ballot, a.value, p) in s.issues;
    var q :| C.Issue(b.iid, b.ballot, b.value, q) in s.issues;
    B.OneValuePerBallotAlways(r, s, C.Issue(a.iid, a.ballot, a.value, p), C.Issue(b.iid, b.ballot, b.value, q));
  }

  lemma StartTracks(r: C.Rules, c: Office)
    requires Runs(r, c)
    ensures C.Reachable(r, C.INIT) && Tracks(r, c, LeaderSpec.Start(r.ring), C.INIT)
  {
    R.Start(r);
    var t := LeaderSpec.Start(r.ring);
    forall k | 0 <= k < |t.slots|
      ensures SlotTracks(t, C.INIT, c.me, k)
    {
    }
  }
}
