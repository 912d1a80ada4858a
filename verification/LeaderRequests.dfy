/** Which accept requests the leader sends: for which instances, in which ballot and with which
    value, and when it stops. */
module LeaderRequests {
  import opened PaxosConfig
  import opened Messages
  import opened SlotSpec
  import opened LeaderSpec
  import opened LeaderRuns
  import opened LeaderOverrun
  import opened LeaderEffects
  import P = PhaseOne

  // ---- new instances ----

  /** The slot of an instance in phase 2 with value v. */
  predicate Proposes(sl: Slot, next: Slot, v: Value) {
    next == sl.(status := P2Pending, p2 := Some(v), p1 := None, p1Ballot := if sl.p1.Some? then 0 else sl.p1Ballot)
  }

  /** What the instances of [from, to) are proposed with: the value phase 1 has found, or the next
      one of the pending list. */
  function Values(t: Table, from: nat, to: nat, queue: seq<Value>): seq<Value>
    requires t.Sized()
    decreases if from < to then to - from else 0
  {
    if from >= to then []
    else if t.At(from).p1.Some? then [t.At(from).p1.value] + Values(t, from + 1, to, queue)
    else if queue == [] then []
    else [queue[0]] + Values(t, from + 1, to, queue[1..])
  }

  /** How many values of the pending list that takes. */
  function Taken(t: Table, from: nat, to: nat): nat
    requires t.Sized()
    decreases if from < to then to - from else 0
  {
    if from >= to then 0 else (if t.At(from).p1.Some? then 0 else 1) + Taken(t, from + 1, to)
  }

  lemma {:induction false} ValuesSuffice(t: Table, from: nat, to: nat, queue: seq<Value>)
    requires t.Sized() && Taken(t, from, to) <= |queue|
    ensures |Values(t, from, to, queue)| == if from < to then to - from else 0
    decreases if from < to then to - from else 0
  {
    if from < to {
      ValuesSuffice(t, from + 1, to, if t.At(from).p1.Some? then queue else queue[1..]);
    }
  }

  function Requests(t: Table, from: nat, vs: seq<Value>): seq<AcceptReq>
    requires t.Sized()
    decreases |vs|
  {
    if vs == [] then [] else [AcceptReq(from, t.At(from).ballot, vs[0])] + Requests(t, from + 1, vs[1..])
  }

  ghost predicate AllPropose(w: Table, e: Table, from: nat, vs: seq<Value>)
    requires w.Sized() && e.Sized()
  {
    forall i: nat :: from <= i < from + |vs| ==> Proposes(w.At(i), e.At(i), vs[i - from])
  }

  ghost predicate AllReady(t: Table, from: nat, to: nat)
    requires t.Sized()
  {
    forall i: nat :: from <= i < to ==> t.At(i).status == P1Ready && t.At(i).iid == i
  }

  /** The next instance can be proposed: its phase 1 is done, and there is a value for it. */
  predicate NextCanGo(t: Table)
    requires t.Sized()
  {
    var sl := t.At(t.nextUnused);
    sl.status == P1Ready && sl.iid == t.nextUnused && (sl.p1.Some? || t.queue != [])
  }

  /** From table t the instances of [t.nextUnused, e.nextUnused) were proposed, and nothing else changed. */
  ghost predicate Proposed(t: Table, e: Table, vs: seq<Value>)
    requires t.Sized() && e.Sized()
  {
    var from, to := t.nextUnused, e.nextUnused;
    && from <= to && |vs| == to - from && Taken(t, from, to) <= |t.queue|
    && vs == Values(t, from, to, t.queue) && AllReady(t, from, to) && AllPropose(t, e, from, vs)
    && SameOutside(t, e, from, to)
    && e == t.(slots := e.slots, nextUnused := to, queue := t.queue[Taken(t, from, to)..],
               accepts := t.accepts + Requests(t, from, vs),
               openCount := t.openCount + |vs|, readyCount := t.readyCount - |vs|, taken := e.taken, lost := e.lost)
  }

  lemma ProposesNone(t: Table)
    requires t.Sized()
    ensures Proposed(t, t, [])
  {
    assert t.queue[0..] == t.queue;
  }

  lemma ProposesOne(c: Office, t: Table, r: Table, v: Value)
    requires Sane(c, t) && t.leading && NextCanGo(t) && t.At(t.nextUnused).p2.None? && r == ExecuteNext(c, t)
    requires v == if t.At(t.nextUnused).p1.Some? then t.At(t.nextUnused).p1.value else t.queue[0]
    ensures r.Sized() && Proposes(t.At(t.nextUnused), r.At(t.nextUnused), v) && SameOutside(t, r, t.nextUnused, t.nextUnused + 1)
    ensures r == t.(slots := r.slots, nextUnused := t.nextUnused + 1,
                    queue := if t.At(t.nextUnused).p1.Some? then t.queue else t.queue[1..],
                    accepts := t.accepts + [AcceptReq(t.nextUnused, t.At(t.nextUnused).ballot, v)],
                    openCount := t.openCount + 1, readyCount := t.readyCount - 1, taken := r.taken, lost := r.lost)
    ensures forall j: nat :: r.At(j).iid == t.At(j).iid
  {
    var i := t.nextUnused;
    assert r.slots == t.With(i, r.At(i)).slots;
    forall j: nat | t.At(j).iid == j && j != i
      ensures r.At(j) == t.At(j)
    {
      Apart(t, i, j);
    }
  }

  lemma {:induction false} ValuesSame(t: Table, r: Table, from: nat, to: nat, queue: seq<Value>)
    requires t.Sized() && r.Sized() && SameFrom(t, r, from, to)
    ensures Values(r, from, to, queue) == Values(t, from, to, queue) && Taken(r, from, to) == Taken(t, from, to)
    decreases if from < to then to - from else 0
  {
    if from < to {
      ValuesSame(t, r, from + 1, to, if t.At(from).p1.Some? || queue == [] then queue else queue[1..]);
    }
  }

  lemma {:induction false} RequestsSame(t: Table, r: Table, from: nat, to: nat, vs: seq<Value>)
    requires t.Sized() && r.Sized() && SameFrom(t, r, from, to) && from + |vs| == to
    ensures Requests(r, from, vs) == Requests(t, from, vs)
    decreases |vs|
  {
    if vs != [] {
      RequestsSame(t, r, from + 1, to, vs[1..]);
    }
  }

  /** What the step left for the rest is as it was. */
  lemma RestSame(t: Table, r: Table, to: nat)
    requires t.Sized() && r.Sized() && SameOutside(t, r, t.nextUnused, t.nextUnused + 1)
    requires (forall j: nat :: r.At(j).iid == t.At(j).iid) && AllReady(r, t.nextUnused + 1, to)
    ensures SameFrom(t, r, t.nextUnused + 1, to) && AllReady(t, t.nextUnused + 1, to)
  {
    forall i: nat | t.nextUnused + 1 <= i < to
      ensures r.At(i) == t.At(i)
    {
      assert r.At(i).iid == i;
    }
  }

  lemma JoinSlots(t: Table, r: Table, e: Table, v: Value, ws: seq<Value>)
    requires t.Sized() && r.Sized() && e.Sized() && NextCanGo(t) && Proposes(t.At(t.nextUnused), r.At(t.nextUnused), v)
    requires SameOutside(t, r, t.nextUnused, t.nextUnused + 1) && (forall j: nat :: r.At(j).iid == t.At(j).iid)
    requires |ws| == e.nextUnused - t.nextUnused - 1 && SameFrom(t, r, t.nextUnused + 1, e.nextUnused)
    requires AllReady(t, t.nextUnused + 1, e.nextUnused) && AllPropose(r, e, t.nextUnused + 1, ws)
    requires SameOutside(r, e, t.nextUnused + 1, e.nextUnused)
    ensures AllReady(t, t.nextUnused, e.nextUnused) && AllPropose(t, e, t.nextUnused, [v] + ws)
    ensures SameOutside(t, e, t.nextUnused, e.nextUnused)
  {
    var vs := [v] + ws;
    assert e.At(t.nextUnused) == r.At(t.nextUnused);
    forall i: nat | t.nextUnused <= i < t.nextUnused + |vs|
      ensures Proposes(t.At(i), e.At(i), vs[i - t.nextUnused])
    {
      if i > t.nextUnused {
        assert vs[i - t.nextUnused] == ws[i - t.nextUnused - 1];
        assert Proposes(r.At(i), e.At(i), ws[i - (t.nextUnused + 1)]);
      }
    }
  }

  lemma JoinValues(t: Table, r: Table, to: nat, v: Value, ws: seq<Value>)
    requires t.Sized() && r.Sized() && NextCanGo(t) && t.nextUnused < to && SameFrom(t, r, t.nextUnused + 1, to)
    requires v == if t.At(t.nextUnused).p1.Some? then t.At(t.nextUnused).p1.value else t.queue[0]
    requires r.queue == if t.At(t.nextUnused).p1.Some? then t.queue else t.queue[1..]
    requires ws == Values(r, t.nextUnused + 1, to, r.queue) && Taken(r, t.nextUnused + 1, to) <= |r.queue|
    ensures [v] + ws == Values(t, t.nextUnused, to, t.queue) && Taken(t, t.nextUnused, to) <= |t.queue|
    ensures t.queue[Taken(t, t.nextUnused, to)..] == r.queue[Taken(r, t.nextUnused + 1, to)..]
  {
    ValuesSame(t, r, t.nextUnused + 1, to, r.queue);
  }

  lemma JoinRequests(t: Table, r: Table, to: nat, v: Value, ws: seq<Value>)
    requires t.Sized() && r.Sized() && SameFrom(t, r, t.nextUnused + 1, to) && t.nextUnused + 1 + |ws| == to
    ensures Requests(t, t.nextUnused, [v] + ws)
            == [AcceptReq(t.nextUnused, t.At(t.nextUnused).ballot, v)] + Requests(r, t.nextUnused + 1, ws)
  {
    RequestsSame(t, r, t.nextUnused + 1, to, ws);
    RequestsFirst(t, t.nextUnused, v, ws);
  }

  lemma RequestsFirst(t: Table, from: nat, v: Value, ws: seq<Value>)
    requires t.Sized()
    ensures Requests(t, from, [v] + ws) == [AcceptReq(from, t.At(from).ballot, v)] + Requests(t, from + 1, ws)
  {
    assert ([v] + ws)[1..] == ws;
  }

  lemma {:induction false} ExecutesDo(c: Office, t: Table, e: Table) returns (vs: seq<Value>)
    requires Sane(c, t) && t.leading && NextIsUnassigned(c, t) && e == ExecuteMany(c, t)
    ensures Proposed(t, e, vs) && (e.openCount > 3 || !NextCanGo(e))
    decreases PROPOSER_P2_CONCURRENCY + 1 - t.openCount
  {
    vs := [];
    if t.openCount <= PROPOSER_P2_CONCURRENCY && CanExecute(t) {
      var r := ExecuteNext(c, t);
      var v := if t.At(t.nextUnused).p1.Some? then t.At(t.nextUnused).p1.value else t.queue[0];
      ExecuteNextSane(c, t);
      ProposesOne(c, t, r, v);
      var ws := ExecutesDo(c, r, e);
      vs := [v] + ws;
      Joined(t, r, e, v, ws);
    } else {
      ProposesNone(t);
    }
  }

  lemma Joined(t: Table, r: Table, e: Table, v: Value, ws: seq<Value>)
    requires t.Sized() && r.Sized() && NextCanGo(t) && Proposes(t.At(t.nextUnused), r.At(t.nextUnused), v)
    requires v == if t.At(t.nextUnused).p1.Some? then t.At(t.nextUnused).p1.value else t.queue[0]
    requires SameOutside(t, r, t.nextUnused, t.nextUnused + 1) && (forall j: nat :: r.At(j).iid == t.At(j).iid)
    requires r == t.(slots := r.slots, nextUnused := t.nextUnused + 1,
                     queue := if t.At(t.nextUnused).p1.Some? then t.queue else t.queue[1..],
                     accepts := t.accepts + [AcceptReq(t.nextUnused, t.At(t.nextUnused).ballot, v)],
                     openCount := t.openCount + 1, readyCount := t.readyCount - 1, taken := r.taken, lost := r.lost)
    requires e.Sized() && Proposed(r, e, ws)
    ensures Proposed(t, e, [v] + ws)
  {
    RestSame(t, r, e.nextUnused);
    JoinSlots(t, r, e, v, ws);
    JoinValues(t, r, e.nextUnused, v, ws);
    JoinRequests(t, r, e.nextUnused, v, ws);
    SentInTurn(t.accepts, [AcceptReq(t.nextUnused, t.At(t.nextUnused).ballot, v)], Requests(r, t.nextUnused + 1, ws));
  }

  /** Between tables e and r, with at most two instances in phase 2, the next ones are proposed in
      order, until four are in phase 2, the next one is not ready, or there is no value for it. */
  ghost predicate OpensWhatItCan(e: Table, r: Table, vs: seq<Value>)
    requires e.Sized() && r.Sized()
  {
    Proposed(e, r, vs) && (if e.openCount > 2 then r == e else r.openCount > 3 || !NextCanGo(r))
  }

  /** leader_open_instances_p2_new: each instance goes out with the value phase 1 has found for it or
      the next one of the pending list. */
  lemma OpenNewDoes(c: Office, t: Table) returns (vs: seq<Value>)
    requires Sane(c, t) && t.leading && OpenNewAsserts(c, t)
    ensures OpensWhatItCan(t, OpenNew(c, t), vs)
  {
    if t.openCount > 2 {
      vs := [];
      ProposesNone(t);
    } else {
      vs := ExecutesDo(c, t, ExecuteMany(c, t));
    }
  }

  /** leader_periodic_p2_check: every instance in phase 2 that is closed is completed and leaves the
      count of open ones, every other that has expired goes back to phase 1 in its next ballot with
      a prepare request, and then new instances are proposed. */
  lemma P2CheckDoes(c: Office, t: Table, closed: set<nat>, expired: set<nat>) returns (e: Table, vs: seq<Value>)
    requires Sane(c, t) && t.leading && Survives(c, t, P2Timer(closed, expired))
    ensures e.Sized() && AllRechecked(c, t, e, closed, expired, t.current, t.nextUnused) && SameOutside(t, e, t.current, t.nextUnused)
    ensures var again := RestartRequests(t, closed, expired, t.current, t.nextUnused);
            e == t.(slots := e.slots, prepares := t.prepares + again, pendingCount := t.pendingCount + |again|,
                    openCount := t.openCount - NowClosed(t, closed, t.current, t.nextUnused))
    ensures var r := P2Check(c, t, closed, expired);
            && AllRechecked(c, t, r, closed, expired, t.current, t.nextUnused)
            && OpensWhatItCan(e, r, vs)
  {
    e := Each(c, Restart(closed, expired), t, t.current, t.nextUnused);
    RestartsLeave(c, t, closed, expired, e);
    vs := OpenNewDoes(c, e);
    RecheckedStay(c, t, e, P2Check(c, t, closed, expired), closed, expired, vs);
  }

  lemma RestartsLeave(c: Office, t: Table, closed: set<nat>, expired: set<nat>, e: Table)
    requires Sane(c, t) && t.leading && e == Each(c, Restart(closed, expired), t, t.current, t.nextUnused)
    ensures Sane(c, e) && e.leading && AllRechecked(c, t, e, closed, expired, t.current, t.nextUnused)
    ensures SameOutside(t, e, t.current, t.nextUnused)
    ensures var again := RestartRequests(t, closed, expired, t.current, t.nextUnused);
            e == t.(slots := e.slots, prepares := t.prepares + again, pendingCount := t.pendingCount + |again|,
                    openCount := t.openCount - NowClosed(t, closed, t.current, t.nextUnused))
  {
    RestartsDo(c, t, t, closed, expired, t.current, t.nextUnused, e);
    EachSane(c, Restart(closed, expired), t, t.current, t.nextUnused, e);
  }

  lemma RecheckedStay(c: Office, t: Table, e: Table, r: Table, closed: set<nat>, expired: set<nat>, vs: seq<Value>)
    requires t.Sized() && e.Sized() && r.Sized() && AllRechecked(c, t, e, closed, expired, t.current, t.nextUnused)
    requires e.current == t.current && e.nextUnused == t.nextUnused && WindowSane(e) && OpensWhatItCan(e, r, vs)
    ensures AllRechecked(c, t, r, closed, expired, t.current, t.nextUnused)
  {
    forall i: nat | t.current <= i < t.nextUnused
      ensures Rechecked(c, t.At(i), r.At(i), i in closed, i in expired)
    {
      assert e.At(i).iid == i;
      assert r.At(i) == e.At(i);
    }
  }

  // ---- instances proposed before ----

  /** The value an instance below the frontier is proposed with once its phase 1 is done again. */
  function Own(sl: Slot): Value {
    if sl.p1.Some? then sl.p1.value else if sl.p2.Some? then sl.p2.value else []
  }

  ghost predicate Reproposed(w: Table, e: Table, from: nat, to: nat)
    requires w.Sized() && e.Sized()
  {
    forall i: nat :: from <= i < to ==>
      if w.At(i).status == P1Ready then Proposes(w.At(i), e.At(i), Own(w.At(i))) else e.At(i) == w.At(i)
  }

  function AgainRequests(t: Table, from: nat, to: nat): seq<AcceptReq>
    requires t.Sized()
    decreases if from < to then to - from else 0
  {
    if from >= to then []
    else (if t.At(from).status == P1Ready then [AcceptReq(from, t.At(from).ballot, Own(t.At(from)))] else [])
         + AgainRequests(t, from + 1, to)
  }

  /** The values other ones have been found for, the last instance first. */
  function Overruled(t: Table, from: nat, to: nat): seq<Value>
    requires t.Sized()
    decreases if from < to then to - from else 0
  {
    if from >= to then []
    else
      var sl := t.At(from);
      Overruled(t, from + 1, to)
      + if sl.status == P1Ready && sl.p1.Some? && sl.p2.Some? && sl.p1 != sl.p2 then [sl.p2.value] else []
  }

  lemma ResendOne(c: Office, t: Table, i: nat, r: Table)
    requires Sane(c, t) && t.leading && t.current <= i < t.nextUnused && r == Visit(c, Resend, t, i)
    ensures Reproposed(t, r, i, i + 1)
    ensures var again := AgainRequests(t, i, i + 1);
            r == t.(slots := r.slots, accepts := t.accepts + again, readyCount := t.readyCount - |again|,
                    queue := if c.repairs.pushBack then Overruled(t, i, i + 1) + t.queue else t.queue, taken := r.taken, lost := r.lost)
  {
    VisitSane(c, Resend, t, i);
    assert AgainRequests(t, i + 1, i + 1) == [] && Overruled(t, i + 1, i + 1) == [];
  }

  lemma ResendsJoin(w: Table, t: Table, r: Table, e: Table, from: nat, to: nat)
    requires w.Sized() && t.Sized() && r.Sized() && e.Sized() && from < to && SameFrom(w, t, from, to) && t.At(from).iid == from
    requires Reproposed(t, r, from, from + 1) && SameOutside(t, r, from, from + 1) && (forall j: nat :: r.At(j).iid == t.At(j).iid)
    requires Reproposed(w, e, from + 1, to) && SameOutside(r, e, from + 1, to)
    ensures Reproposed(w, e, from, to) && SameOutside(t, e, from, to)
    ensures AgainRequests(w, from, to) == AgainRequests(t, from, from + 1) + AgainRequests(w, from + 1, to)
    ensures Overruled(w, from, to) == Overruled(w, from + 1, to) + Overruled(t, from, from + 1)
  {
    assert e.At(from) == r.At(from);
    assert AgainRequests(t, from + 1, from + 1) == [] && Overruled(t, from + 1, from + 1) == [];
  }

  lemma {:induction false} ResendsDo(c: Office, w: Table, t: Table, from: nat, to: nat, e: Table)
    requires Sane(c, t) && t.leading && t.current <= from && to == t.nextUnused && w.Sized() && SameFrom(w, t, from, to)
    requires e == Each(c, Resend, t, from, to)
    ensures Reproposed(w, e, from, to) && SameOutside(t, e, from, to)
    ensures var again := AgainRequests(w, from, to);
            e == t.(slots := e.slots, accepts := t.accepts + again, readyCount := t.readyCount - |again|,
                    queue := if c.repairs.pushBack then Overruled(w, from, to) + t.queue else t.queue, taken := e.taken, lost := e.lost)
    decreases if from < to then to - from else 0
  {
    if from < to {
      var r := Visit(c, Resend, t, from);
      VisitMovesOne(c, Resend, t, from, to);
      VisitSane(c, Resend, t, from);
      ResendOne(c, t, from, r);
      ResendsDo(c, w, r, from + 1, to, e);
      ResendsJoin(w, t, r, e, from, to);
      SentInTurn(t.accepts, AgainRequests(t, from, from + 1), AgainRequests(w, from + 1, to));
      SentInTurn(Overruled(w, from + 1, to), Overruled(t, from, from + 1), t.queue);
    }
  }

  /** From table t every ready instance below the frontier was proposed again, and nothing else changed. */
  ghost predicate ProposedAgain(c: Office, t: Table, e: Table)
    requires t.Sized() && e.Sized()
  {
    var again := AgainRequests(t, t.current, t.nextUnused);
    && Reproposed(t, e, t.current, t.nextUnused) && SameOutside(t, e, t.current, t.nextUnused)
    && e == t.(slots := e.slots, accepts := t.accepts + again, readyCount := t.readyCount - |again|,
               queue := if c.repairs.pushBack then Overruled(t, t.current, t.nextUnused) + t.queue else t.queue,
               taken := e.taken, lost := e.lost)
  }

  lemma ReadyGoOut(c: Office, t: Table, e: Table) returns (vs: seq<Value>)
    requires Sane(c, t) && t.leading && e == Each(c, Resend, t, t.current, t.nextUnused) && OpenNewAsserts(c, e)
    ensures ProposedAgain(c, t, e)
    ensures OpensWhatItCan(e, OpenNew(c, e), vs)
  {
    ResendsDo(c, t, t, t.current, t.nextUnused, e);
    EachSane(c, Resend, t, t.current, t.nextUnused, e);
    vs := OpenNewDoes(c, e);
  }

  /** handle_prepare_ack_batch: when the promises have made some instance ready, every ready instance
      below the frontier is proposed again, with the value phase 1 has found for it or its own, and
      then new ones are. */
  lemma BatchDoes(c: Office, t: Table, from: nat, batch: seq<PrepareAck>) returns (e: Table, vs: seq<Value>)
    requires Sane(c, t) && t.leading && Survives(c, t, Promises(from, batch))
    ensures var heard := HandlePromises(c, t, from, batch); var r := HandleBatch(c, t, from, batch);
            if heard.readyCount == t.readyCount then r == heard
            else e.Sized() && ProposedAgain(c, heard, e) && OpensWhatItCan(e, r, vs)
  {
    var heard := HandlePromises(c, t, from, batch);
    HandlePromisesSane(c, t, from, batch, heard);
    e, vs := Each(c, Resend, heard, heard.current, heard.nextUnused), [];
    if heard.readyCount != t.readyCount {
      vs := ReadyGoOut(c, heard, e);
    }
  }

  /** The promises of a batch whose instance has its slot at k. */
  function ArrivalsAt(size: nat, k: nat, from: nat, batch: seq<PrepareAck>): seq<P.Arrival>
    requires size > 0
  {
    if batch == [] then []
    else (if Index(batch[0].iid, size) == k then [P.Arrival(from, batch[0])] else []) + ArrivalsAt(size, k, from, batch[1..])
  }

  lemma {:induction false} CollectFirst(repairs: Repairs, n: nat, sl: Slot, p: P.Arrival, ps: seq<P.Arrival>)
    ensures P.Collect(repairs, n, sl, [p] + ps) == P.Collect(repairs, n, SlotSpec.HandleAck(repairs, n, sl, p.ack, p.from), ps)
    decreases |ps|
  {
    var all := [p] + ps;
    if ps == [] {
      assert all[..0] == [] && all == [p];
      assert P.Collect(repairs, n, sl, []) == sl;
    } else {
      assert all[..|all| - 1] == [p] + ps[..|ps| - 1];
      CollectFirst(repairs, n, sl, p, ps[..|ps| - 1]);
    }
  }

  /** Every slot records the promises of the batch that are for it, one after the other, and nothing
      but slots and the two counters of phase 1 changes. */
  lemma {:induction false} PromisesCollect(c: Office, t: Table, from: nat, batch: seq<PrepareAck>, k: nat, e: Table)
    requires t.Sized() && k < |t.slots| && e == HandlePromises(c, t, from, batch)
    ensures e.slots[k] == P.Collect(c.repairs, c.n, t.slots[k], ArrivalsAt(|t.slots|, k, from, batch))
    ensures e == t.(slots := e.slots, pendingCount := e.pendingCount, readyCount := e.readyCount)
    decreases |batch|
  {
    if batch != [] {
      var r := HandlePromise(c, t, from, batch[0]);
      PromisesCollect(c, r, from, batch[1..], k, e);
      var rest := ArrivalsAt(|t.slots|, k, from, batch[1..]);
      if Index(batch[0].iid, |t.slots|) == k {
        CollectFirst(c.repairs, c.n, t.slots[k], P.Arrival(from, batch[0]), rest);
      } else {
        assert [] + rest == rest;
      }
    }
  }
}
