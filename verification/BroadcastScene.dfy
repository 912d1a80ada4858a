/** Runs of the whole deployment, for any number of acceptors and any proposer, on which a value comes
    all the way, and comes back after a restart: what is proved of all runs does not hold for want
    of anything happening. */
module BroadcastScene {
  import opened PaxosConfig
  import opened Messages
  import opened Wire
  import opened SlotSpec
  import opened Deployment
  import C = Consensus
  import L = LearnerSpec
  import M = LearnerHistory
  import T = LeaderSpec
  import TI = LeaderInvariant
  import TR = LeaderRuns
  import TE = LeaderEffects
  import TO = LeaderOverrun
  import TP = LeaderRefines
  import Z = LeaderScenes
  import N = LeaderReports
  import W = WriteAhead
  import WP = AcceptorRefines
  import Q = AcceptorAnswers
  import D = DeploymentReports
  import B = AtomicBroadcast

  // ---- one event after another ----

  /** Some run from the start leads to world w. */
  ghost predicate Reached(r: C.Rules, w: World)
    requires r.Valid()
  {
    exists events :: Run(r, NEW_WORLD, events) && After(r, NEW_WORLD, events) == w
  }

  lemma {:induction false} RunGoesOn(r: C.Rules, w: World, events: seq<Event>, e: Event)
    requires r.Valid() && Run(r, w, events) && AllSized(After(r, w, events)) && Happens(r, After(r, w, events), e)
    ensures Run(r, w, events + [e]) && After(r, w, events + [e]) == Do(r, After(r, w, events), e)
    decreases |events|
  {
    if events == [] {
      assert [e][1..] == [];
      assert Run(r, Do(r, w, e), []);
    } else {
      RunGoesOn(r, Do(r, w, events[0]), events[1..], e);
      assert (events + [e])[1..] == events[1..] + [e];
    }
  }

  lemma Go(r: C.Rules, w: World, e: Event)
    requires r.Valid() && Reached(r, w) && AllSized(w) && Happens(r, w, e)
    ensures Reached(r, Do(r, w, e))
  {
    var events :| Run(r, NEW_WORLD, events) && After(r, NEW_WORLD, events) == w;
    RunGoesOn(r, NEW_WORLD, events, e);
  }

  // ---- the leader ----

  /** The slot of instance 1 when acceptors 0 to k-1 have promised. */
  ghost predicate Heard(c: T.Office, sl: Slot, k: nat) {
    && sl == Opened(CLEARED, 1, c.me).(bits := sl.bits, count := k, heard := sl.heard, status := sl.status)
    && sl.status == (if k < Quorum(c.n) then P1Pending else P1Ready)
    && forall a :: a in sl.bits ==> c.repairs.countDistinct && a < k
  }

  lemma HearsOneMore(c: T.Office, sl: Slot, k: nat)
    requires Heard(c, sl, k) && k < Quorum(c.n)
    ensures Heard(c, SlotSpec.HandleAck(c.repairs, c.n, sl, Z.Bare(c, 1), k), k + 1)
  {
  }

  /** The leader with value v to send, in order and waiting for promises. */
  ghost predicate Waiting(c: T.Office, t: T.Table, k: nat, v: Value) {
    && TI.LeaderOk(c, t) && t.leading && |t.slots| > PROPOSER_PREEXEC_WIN_SIZE && t.highestOpen == PROPOSER_PREEXEC_WIN_SIZE
    && t.current == 1 && t.nextUnused == 1 && t.openCount == 0 && t.queue == [v] && t.notified == []
    && Heard(c, t.At(1), k) && t.At(2).status == P1Pending
  }

  /** The leader that has proposed v for instance 1. */
  ghost predicate Proposing(c: T.Office, t: T.Table, v: Value) {
    && TI.LeaderOk(c, t) && t.leading && |t.slots| > PROPOSER_PREEXEC_WIN_SIZE && t.highestOpen == PROPOSER_PREEXEC_WIN_SIZE
    && t.current == 1 && t.notified == [] && t.At(1).iid == 1 && t.At(1).p2 == Some(v)
    && AcceptReq(1, FirstBallot(c.me), v) in t.accepts
  }

  /** The leader that has just been elected. */
  ghost predicate Fresh(c: T.Office, t: T.Table) {
    && TI.LeaderOk(c, t) && t.leading && |t.slots| > PROPOSER_PREEXEC_WIN_SIZE && t.highestOpen == PROPOSER_PREEXEC_WIN_SIZE
    && t.notified == [] && Z.Waits(c, t, 1) && PrepareReq(1, FirstBallot(c.me)) in t.prepares
  }

  lemma FirstLeader(c: T.Office, size: nat, t: T.Table)
    requires size > PROPOSER_PREEXEC_WIN_SIZE && c.me < MAX_N_OF_PROPOSERS && t == T.Promote(c, T.Start(size))
    ensures TR.Survives(c, T.Start(size), T.Elected) && Fresh(c, t) && |t.slots| == size
  {
    Z.FirstElection(c, size);
    Z.FirstWindow(c, size, t);
    TO.StartSane(c, size);
    TE.ElectionDoes(c, T.Start(size));
    FirstRequest(c, T.Start(size), t);
  }

  lemma FirstRequest(c: T.Office, s: T.Table, t: T.Table)
    requires s.Sized() && |t.slots| == |s.slots| && TE.Leads(c, s, t) && s.current == 1 && s.notified == []
    ensures t.notified == [] && PrepareReq(1, FirstBallot(c.me)) in t.prepares
  {
    var k := PROPOSER_PREEXEC_WIN_SIZE;
    assert TE.OpeningRequests(c.me, 1, k)[0] == PrepareReq(1, FirstBallot(c.me));
    assert (s.prepares + TE.OpeningRequests(c.me, 1, k))[|s.prepares|] == PrepareReq(1, FirstBallot(c.me));
  }

  lemma FirstValue(c: T.Office, t: T.Table, v: Value)
    requires Fresh(c, t) && c.n > 0
    ensures Waiting(c, T.Submit(t, v), 0, v)
  {
    TR.SubmitKeeps(c, t, v);
    assert t.At(2) == Opened(CLEARED, 2, c.me);
  }

  lemma WaitsOn(c: T.Office, t: T.Table, k: nat, v: Value)
    requires Waiting(c, t, k, v) && k < Quorum(c.n)
    ensures var ev := T.Promises(k, [Z.Bare(c, 1)]); var r := T.Handle(c, t, ev);
            && TR.Survives(c, t, ev)
            && (if k + 1 < Quorum(c.n) then Waiting(c, r, k + 1, v) else Proposing(c, r, v))
  {
    var ev := T.Promises(k, [Z.Bare(c, 1)]);
    TR.SurvivesPhase2(c, t, ev);
    TR.HandleKeeps(c, t, ev);
    Z.BatchOfOne(c, t, k, Z.Bare(c, 1));
    HearsOneMore(c, t.At(1), k);
    N.HandleTells(c, t, ev);
    N.HandleMoves(c, t, ev);
    TR.BatchStays(c, t, k, [Z.Bare(c, 1)]);
    if k + 1 == Quorum(c.n) {
      Proposes(c, t, T.HandlePromise(c, t, k, Z.Bare(c, 1)), v);
    }
  }

  lemma Proposes(c: T.Office, t: T.Table, heard: T.Table, v: Value)
    requires t.Sized() && |t.slots| > PROPOSER_PREEXEC_WIN_SIZE
    requires heard.Sized() && Heard(c, heard.At(1), Quorum(c.n)) && t.At(2).status == P1Pending
    requires t.nextUnused == 1 && t.openCount == 0 && t.queue == [v]
    requires heard == t.With(1, heard.At(1)).(pendingCount := heard.pendingCount, readyCount := heard.readyCount)
    ensures var r := T.OpenNew(c, heard);
            && r.At(1).iid == 1 && r.At(1).p2 == Some(v) && AcceptReq(1, FirstBallot(c.me), v) in r.accepts
  {
    var one := T.ExecuteNext(c, heard);
    assert one.At(2) == t.At(2);
    assert T.ExecuteMany(c, one) == one;
  }

  // ---- the learner ----

  /** The learner that has the acks of acceptors 0 to k-1, which are all alike. */
  ghost predicate Voted(c: L.Setup, l: L.Learner, k: nat, rec: Record) {
    && c.Valid() && L.LearnerOk(c, l) && l.current == 1
    && (forall i: nat :: L.Outcome(l, i).None?)
    && |M.AcksAt(c, l, 1)| == c.n
    && forall a: nat :: a < c.n ==> M.AcksAt(c, l, 1)[a] == if a < k then Some(rec) else None
  }

  lemma NoneVoted(c: L.Setup, rec: Record)
    requires c.Valid()
    ensures Voted(c, L.NEW_LEARNER, 0, rec)
  {
  }

  lemma AlikeCount(c: L.Setup, acks: seq<Option<Record>>, k: nat, rec: Record)
    requires |acks| == c.n && k <= c.n && forall a: nat :: a < c.n ==> acks[a] == if a < k then Some(rec) else None
    ensures M.Alike(c, acks, rec) == k
  {
    assert L.AgreeingFrom(c, acks, if c.groupByVote then rec.valueBallot else rec.ballot, 0) == Acceptors(k);
  }

  lemma VotesOneMore(c: L.Setup, l: L.Learner, k: nat, rec: Record)
    requires Voted(c, l, k, rec) && k < Quorum(c.n) && rec.iid == 1 && !rec.isFinal
    ensures k < c.n && forall i :: i in l.open ==> |l.open[i].acks| == c.n
    ensures var r := L.HandleAck(c, l, k, rec);
            if k + 1 < Quorum(c.n) then Voted(c, r, k + 1, rec) else r.delivered == [rec]
  {
    Roomy(c, l);
    FewerThanAll(c.n, k);
    var was := M.AcksAt(c, l, 1);
    var acks := M.Kept(was, k, rec);
    assert was[k] == None && acks == was[k := Some(rec)];
    AlikeCount(c, acks, k + 1, rec);
    M.AckIsKept(c, l, k, rec);
    L.HandleAckKeepsOrder(c, l, k, rec);
    L.HandleAckSettles(c, l, k, rec);
    var r := L.HandleAck(c, l, k, rec);
    assert L.Outcome(r, 2).None? && L.Outcome(r, 1).Some? == (k + 1 >= Quorum(c.n));
    if k + 1 == Quorum(c.n) {
      assert L.Outcome(r, 1) in acks;
      assert r.current == 2;
    }
  }

  // ---- the deployment ----

  /** Acceptor a has exactly this in its store, and told of nothing else. */
  ghost predicate Stored(w: World, a: nat, store: map<nat, Record>) {
    W.WrittenAhead(AcceptorAt(w, a)) && W.StoreOf(AcceptorAt(w, a)) == store
  }

  lemma NothingStored()
    ensures W.WrittenAhead(W.NEW_ACCEPTOR) && W.StoreOf(W.NEW_ACCEPTOR) == map[]
  {
    assert W.NEW_ACCEPTOR.disk.log + W.NEW_ACCEPTOR.disk.open == [];
  }

  lemma AskHappens(r: C.Rules, w: World, a: nat, k: Kind, req: W.Req)
    requires r.Valid() && Reached(r, w) && AllSized(w) && a < r.n && Arrives(w, W.StoreOf(AcceptorAt(w, a)), req)
    ensures Reached(r, Do(r, w, Requests(a, k, [req])))
  {
    assert [req][1..] == [];
    assert AllArrive(r.repairs, w, W.StoreOf(AcceptorAt(w, a)), [req]);
    Go(r, w, Requests(a, k, [req]));
  }

  lemma AskStores(repairs: Repairs, x: W.Acceptor, k: Kind, a: nat, req: W.Req)
    requires W.WrittenAhead(x)
    ensures var y := W.HandleBatch(repairs, x, k, a, [req]);
            W.WrittenAhead(y) && W.StoreOf(y) == Q.Next(repairs, W.StoreOf(x), req)
  {
    Q.OneReply(repairs, W.StoreOf(x), req);
    Q.HandlerReplies(repairs, x, k, a, [req]);
    W.HandleBatchWritesAhead(repairs, x, k, a, [req]);
  }

  /** One request arrives at an acceptor alone. */
  lemma AsksOne(r: C.Rules, w: World, a: nat, k: Kind, store: map<nat, Record>, req: W.Req, v: World)
    requires r.Valid() && Reached(r, w) && AllSized(w) && a < r.n && Stored(w, a, store) && Arrives(w, store, req)
    requires v == Do(r, w, Requests(a, k, [req]))
    ensures Reached(r, v) && AllSized(v) && v.tables == w.tables && v.learners == w.learners
    ensures Stored(v, a, Q.Next(r.repairs, store, req)) && forall b: nat :: b != a ==> AcceptorAt(v, b) == AcceptorAt(w, b)
    ensures var es := Q.Reply(r.repairs, store, req);
            v.net == w.net.(promises := w.net.promises + WP.PromisesOf(a, es), acks := w.net.acks + WP.AcksOf(a, es))
  {
    AskHappens(r, w, a, k, req);
    D.HandlerPosts(r, w, a, k, [req]);
    Q.OneReply(r.repairs, store, req);
    AskStores(r.repairs, AcceptorAt(w, a), k, a, req);
  }

  lemma TellSends(r: C.Rules, w: World, p: nat, ev: T.Event, v: World)
    requires r.Valid() && AllSized(w) && v == Do(r, w, Proposer(p, ev))
    requires T.Handle(OfficeOf(r, p), TableAt(r, w, p), ev).Sized()
    ensures AllSized(v) && v.acceptors == w.acceptors && v.learners == w.learners
    ensures var t := T.Handle(OfficeOf(r, p), TableAt(r, w, p), ev);
            && TableAt(r, v, p) == t
            && (forall pr :: pr in w.net.prepares || pr in t.prepares ==> pr in v.net.prepares)
            && (forall ar :: ar in w.net.requests || ar in t.accepts ==> ar in v.net.requests)
  {
  }

  /** One event of a proposer. */
  lemma TellsOne(r: C.Rules, w: World, p: nat, ev: T.Event, v: World)
    requires r.Valid() && Reached(r, w) && AllSized(w) && Happens(r, w, Proposer(p, ev)) && v == Do(r, w, Proposer(p, ev))
    requires T.Handle(OfficeOf(r, p), TableAt(r, w, p), ev).Sized()
    ensures Reached(r, v) && AllSized(v) && v.acceptors == w.acceptors && v.learners == w.learners
    ensures var t := T.Handle(OfficeOf(r, p), TableAt(r, w, p), ev);
            && TableAt(r, v, p) == t
            && (forall pr :: pr in w.net.prepares || pr in t.prepares ==> pr in v.net.prepares)
            && (forall ar :: ar in w.net.requests || ar in t.accepts ==> ar in v.net.requests)
  {
    TellSends(r, w, p, ev, v);
    Go(r, w, Proposer(p, ev));
  }

  /** What an acceptor stores once it has promised proposer p's first ballot for instance 1. */
  function Promised(p: nat): map<nat, Record> {
    map[1 := Record(1, FirstBallot(p), 0, false, [])]
  }

  /** What acceptor a stores when those before k have promised. */
  function StoreAt(p: nat, a: nat, k: nat): map<nat, Record> {
    if a < k then Promised(p) else map[]
  }

  ghost predicate Stores(r: C.Rules, p: nat, w: World, k: nat) {
    forall a: nat :: a < r.n ==> Stored(w, a, StoreAt(p, a, k))
  }

  /** Acceptors 0 to k-1 have promised, and the leader has their promises. */
  ghost predicate Gathering(r: C.Rules, p: nat, v: Value, w: World, k: nat) {
    && Configured(r) && Reached(r, w) && AllSized(w) && p < MAX_N_OF_PROPOSERS && v != []
    && Waiting(OfficeOf(r, p), TableAt(r, w, p), k, v)
    && PrepareReq(1, FirstBallot(p)) in w.net.prepares && w.learners == map[] && Stores(r, p, w, k)
  }

  lemma Elects(r: C.Rules, p: nat) returns (w: World)
    requires Configured(r) && p < MAX_N_OF_PROPOSERS
    ensures Reached(r, w) && AllSized(w) && Fresh(OfficeOf(r, p), TableAt(r, w, p))
    ensures PrepareReq(1, FirstBallot(p)) in w.net.prepares && w.learners == map[] && w.acceptors == map[]
  {
    var c := OfficeOf(r, p);
    assert Run(r, NEW_WORLD, []) && After(r, NEW_WORLD, []) == NEW_WORLD;
    FirstLeader(c, r.ring, T.Promote(c, T.Start(r.ring)));
    w := Do(r, NEW_WORLD, Proposer(p, T.Elected));
    TellsOne(r, NEW_WORLD, p, T.Elected, w);
  }

  lemma Starts(r: C.Rules, p: nat, v: Value) returns (w: World)
    requires Configured(r) && p < MAX_N_OF_PROPOSERS && v != []
    ensures Gathering(r, p, v, w, 0)
  {
    var u := Elects(r, p);
    FirstValue(OfficeOf(r, p), TableAt(r, u, p), v);
    w := Do(r, u, Proposer(p, T.Submitted(v)));
    TellsOne(r, u, p, T.Submitted(v), w);
    NothingStored();
  }

  /** One more acceptor promises. */
  lemma PromisesOne(r: C.Rules, p: nat, w: World, k: nat) returns (u: World)
    requires r.Valid() && Reached(r, w) && AllSized(w) && k < Quorum(r.n)
    requires PrepareReq(1, FirstBallot(p)) in w.net.prepares && w.learners == map[] && Stores(r, p, w, k)
    ensures Reached(r, u) && AllSized(u) && TableAt(r, u, p) == TableAt(r, w, p) && u.learners == map[]
    ensures PrepareReq(1, FirstBallot(p)) in u.net.prepares && Stores(r, p, u, k + 1)
    ensures C.Promise(k, Z.Bare(OfficeOf(r, p), 1)) in u.net.promises
  {
    FewerThanAll(r.n, k);
    assert Stored(w, k, StoreAt(p, k, k));
    u := PromisesFirst(r, p, w, k);
    StoresOneMore(r, p, w, u, k, k + 1);
  }

  /** An acceptor with nothing stored promises. */
  lemma PromisesFirst(r: C.Rules, p: nat, w: World, a: nat) returns (u: World)
    requires r.Valid() && Reached(r, w) && AllSized(w) && a < r.n && Stored(w, a, map[])
    requires PrepareReq(1, FirstBallot(p)) in w.net.prepares
    ensures Reached(r, u) && AllSized(u) && u.tables == w.tables && u.learners == w.learners && u.net.prepares == w.net.prepares
    ensures Stored(u, a, Promised(p)) && forall b: nat :: b != a ==> AcceptorAt(u, b) == AcceptorAt(w, b)
    ensures C.Promise(a, PrepareAck(1, FirstBallot(p), 0, [])) in u.net.promises
  {
    var pr := PrepareReq(1, FirstBallot(p));
    u := Do(r, w, Requests(a, PrepareAcks, [W.Prepares(pr)]));
    AsksOne(r, w, a, PrepareAcks, map[], W.Prepares(pr), u);
    IsNext(r.repairs, p, pr);
    PromiseIs(a, PrepareAck(1, FirstBallot(p), 0, []));
  }

  lemma StoresOneMore(r: C.Rules, p: nat, w: World, u: World, k: nat, next: nat)
    requires next == k + 1 && Stores(r, p, w, k) && Stored(u, k, Promised(p))
    requires forall b: nat :: b != k ==> AcceptorAt(u, b) == AcceptorAt(w, b)
    ensures Stores(r, p, u, next)
  {
    forall a: nat | a < r.n
      ensures Stored(u, a, StoreAt(p, a, next))
    {
      assert Stored(w, a, StoreAt(p, a, k));
    }
  }

  lemma IsNext(repairs: Repairs, p: nat, pr: PrepareReq)
    requires pr == PrepareReq(1, FirstBallot(p))
    ensures Q.Next(repairs, map[], W.Prepares(pr)) == Promised(p)
    ensures Q.Reply(repairs, map[], W.Prepares(pr)) == [Promise(PrepareAck(1, FirstBallot(p), 0, []))]
  {
  }

  lemma PromiseIs(a: nat, pa: PrepareAck)
    ensures WP.PromisesOf(a, [Promise(pa)]) == multiset{C.Promise(a, pa)}
  {
    assert [Promise(pa)][1..] == [];
    assert WP.PromisesOf(a, []) == multiset{};
  }

  lemma UsedIs(p: nat, a: nat, pa: PrepareAck)
    requires Owner(pa.ballot) == p
    ensures TP.Used(p, a, [pa]) == multiset{C.Promise(a, pa)}
  {
    assert [pa][1..] == [];
    assert TP.Used(p, a, []) == multiset{};
  }

  /** And the leader hears it. */
  lemma GathersOne(r: C.Rules, p: nat, v: Value, w: World, k: nat) returns (u: World)
    requires Gathering(r, p, v, w, k) && k < Quorum(r.n)
    ensures u.learners == map[]
    ensures if k + 1 < Quorum(r.n) then Gathering(r, p, v, u, k + 1)
            else Proposing(OfficeOf(r, p), TableAt(r, u, p), v) && Collecting(r, p, u, Proposal(p, v), 0)
  {
    var x := PromisesOne(r, p, w, k);
    u := HearsOne(r, p, v, x, k);
    if k + 1 == Quorum(r.n) {
      RequestIsOut(r, p, v, u);
    }
  }

  lemma RequestIsOut(r: C.Rules, p: nat, v: Value, w: World)
    requires r.Valid() && Reached(r, w) && AllSized(w) && w.learners == map[] && v != []
    requires AcceptReq(1, FirstBallot(p), v) in w.net.requests && Stores(r, p, w, Quorum(r.n))
    ensures Collecting(r, p, w, Proposal(p, v), 0)
  {
    var all := Quorum(r.n);
    forall a: nat | a < all
      ensures Stored(w, a, AskedAt(Proposal(p, v), a, 0))
    {
      assert Stored(w, a, StoreAt(p, a, all));
    }
    NoneVoted(r.Setup(), Chosen(p, v));
  }

  lemma HearsOne(r: C.Rules, p: nat, v: Value, w: World, k: nat) returns (u: World)
    requires Configured(r) && Reached(r, w) && AllSized(w) && p < MAX_N_OF_PROPOSERS && v != []
    requires Waiting(OfficeOf(r, p), TableAt(r, w, p), k, v) && k < Quorum(r.n)
    requires PrepareReq(1, FirstBallot(p)) in w.net.prepares && w.learners == map[] && Stores(r, p, w, k + 1)
    requires C.Promise(k, Z.Bare(OfficeOf(r, p), 1)) in w.net.promises
    ensures Reached(r, u) && AllSized(u) && u.learners == map[] && PrepareReq(1, FirstBallot(p)) in u.net.prepares
    ensures Stores(r, p, u, k + 1)
    ensures if k + 1 < Quorum(r.n) then Waiting(OfficeOf(r, p), TableAt(r, u, p), k + 1, v)
            else Proposing(OfficeOf(r, p), TableAt(r, u, p), v) && AcceptReq(1, FirstBallot(p), v) in u.net.requests
  {
    var c := OfficeOf(r, p);
    var ev := T.Promises(k, [Z.Bare(c, 1)]);
    WaitsOn(c, TableAt(r, w, p), k, v);
    OwnBallot(p);
    HearHappens(r, p, w, k, Z.Bare(c, 1));
    u := Do(r, w, Proposer(p, ev));
    TellsOne(r, w, p, ev, u);
    StoresStay(r, p, w, u, k + 1);
  }

  lemma FewerThanAll(n: nat, k: nat)
    requires k < Quorum(n) && n > 0
    ensures k < n
  {
  }

  lemma OwnBallot(p: nat)
    requires p < MAX_N_OF_PROPOSERS
    ensures Owner(FirstBallot(p)) == p
  {
  }

  lemma HearHappens(r: C.Rules, p: nat, w: World, a: nat, pa: PrepareAck)
    requires r.Valid() && AllSized(w) && p < MAX_N_OF_PROPOSERS && Owner(pa.ballot) == p && C.Promise(a, pa) in w.net.promises
    requires TR.Survives(OfficeOf(r, p), TableAt(r, w, p), T.Promises(a, [pa]))
    ensures Happens(r, w, Proposer(p, T.Promises(a, [pa])))
  {
    UsedIs(p, a, pa);
  }

  lemma StoresStay(r: C.Rules, p: nat, w: World, u: World, k: nat)
    requires Stores(r, p, w, k) && u.acceptors == w.acceptors
    ensures Stores(r, p, u, k)
  {
    forall a: nat | a < r.n
      ensures Stored(u, a, StoreAt(p, a, k))
    {
      assert Stored(w, a, StoreAt(p, a, k));
    }
  }

  function Chosen(p: nat, v: Value): Record {
    Record(1, FirstBallot(p), FirstBallot(p), false, v)
  }

  /** Something acceptors are asked that they all answer with one record, and what they store before
      and after. */
  datatype Question = Question(req: W.Req, before: map<nat, Record>, after: map<nat, Record>, answer: Record)

  /** The accept request for value v. */
  function Proposal(p: nat, v: Value): Question {
    Question(W.Accepts(AcceptReq(1, FirstBallot(p), v)), Promised(p), map[1 := Chosen(p, v)], Chosen(p, v))
  }

  ghost predicate Asked(repairs: Repairs, w: World, q: Question) {
    && Arrives(w, q.before, q.req) && Q.Reply(repairs, q.before, q.req) == [Accepted(q.answer)]
    && Q.Next(repairs, q.before, q.req) == q.after && q.answer.iid == 1 && !q.answer.isFinal
  }

  /** What acceptor a stores when those before k have been asked. */
  function AskedAt(q: Question, a: nat, k: nat): map<nat, Record> {
    if a < k then q.after else q.before
  }

  ghost predicate Answering(r: C.Rules, w: World, q: Question, k: nat) {
    forall a: nat :: a < Quorum(r.n) ==> Stored(w, a, AskedAt(q, a, k))
  }

  /** Acceptors 0 to k-1 have been asked and learner l has their answers. */
  ghost predicate Collecting(r: C.Rules, l: nat, w: World, q: Question, k: nat) {
    && r.Valid() && Reached(r, w) && AllSized(w) && Asked(r.repairs, w, q)
    && Voted(r.Setup(), LearnerAt(w, l), k, q.answer) && Answering(r, w, q, k)
  }

  lemma AnswersOneMore(r: C.Rules, w: World, u: World, q: Question, k: nat, next: nat)
    requires next == k + 1 && Answering(r, w, q, k) && Stored(u, k, q.after)
    requires forall b: nat :: b != k ==> AcceptorAt(u, b) == AcceptorAt(w, b)
    ensures Answering(r, u, q, next)
  {
    forall a: nat | a < Quorum(r.n)
      ensures Stored(u, a, AskedAt(q, a, next))
    {
      assert Stored(w, a, AskedAt(q, a, k));
    }
  }

  /** An acceptor that has not been asked answers. */
  lemma AnswersFirst(r: C.Rules, w: World, q: Question, a: nat) returns (u: World)
    requires r.Valid() && Reached(r, w) && AllSized(w) && Asked(r.repairs, w, q) && a < r.n && Stored(w, a, q.before)
    ensures Reached(r, u) && AllSized(u) && u.tables == w.tables && u.learners == w.learners && Asked(r.repairs, u, q)
    ensures Stored(u, a, q.after) && forall b: nat :: b != a ==> AcceptorAt(u, b) == AcceptorAt(w, b)
    ensures C.Ack(a, q.answer) in u.net.acks
  {
    u := Do(r, w, Requests(a, AcceptAcks, [q.req]));
    AsksOne(r, w, a, AcceptAcks, q.before, q.req, u);
    D.AcksAre(a, [Accepted(q.answer)], q.answer);
  }

  /** One more acceptor answers. */
  lemma AnswersOne(r: C.Rules, w: World, q: Question, k: nat) returns (u: World)
    requires r.Valid() && Reached(r, w) && AllSized(w) && Asked(r.repairs, w, q) && Answering(r, w, q, k) && k < Quorum(r.n)
    ensures Reached(r, u) && AllSized(u) && u.tables == w.tables && u.learners == w.learners && Asked(r.repairs, u, q)
    ensures Answering(r, u, q, k + 1) && C.Ack(k, q.answer) in u.net.acks
  {
    NextToAsk(r, w, q, k);
    u := AnswersFirst(r, w, q, k);
    AnswersOneMore(r, w, u, q, k, k + 1);
  }

  lemma NextToAsk(r: C.Rules, w: World, q: Question, k: nat)
    requires r.n > 0 && Answering(r, w, q, k) && k < Quorum(r.n)
    ensures Stored(w, k, q.before) && k < r.n
  {
    assert Stored(w, k, AskedAt(q, k, k));
  }

  lemma Roomy(c: L.Setup, l: L.Learner)
    requires L.LearnerOk(c, l)
    ensures forall i :: i in l.open ==> |l.open[i].acks| == c.n
  {
    forall i | i in l.open
      ensures |l.open[i].acks| == c.n
    {
      assert L.SlotOk(c, l.open[i], i);
    }
  }

  lemma LearnsOne(r: C.Rules, w: World, l: nat, ack: C.Ack) returns (u: World)
    requires r.Valid() && Reached(r, w) && AllSized(w) && ack in w.net.acks && ack.acceptor < r.n
    requires L.LearnerOk(r.Setup(), LearnerAt(w, l))
    ensures forall i :: i in LearnerAt(w, l).open ==> |LearnerAt(w, l).open[i].acks| == r.n
    ensures Reached(r, u) && AllSized(u) && u == w.(learners := u.learners)
    ensures LearnerAt(u, l) == L.HandleAck(r.Setup(), LearnerAt(w, l), ack.acceptor, ack.rec)
    ensures forall m: nat :: m != l ==> LearnerAt(u, m) == LearnerAt(w, m)
  {
    Roomy(r.Setup(), LearnerAt(w, l));
    Go(r, w, Ack(l, ack));
    u := Do(r, w, Ack(l, ack));
  }

  lemma AnswersStay(r: C.Rules, w: World, u: World, q: Question, k: nat)
    requires Answering(r, w, q, k) && u.acceptors == w.acceptors
    ensures Answering(r, u, q, k)
  {
    forall a: nat | a < Quorum(r.n)
      ensures Stored(u, a, AskedAt(q, a, k))
    {
      assert Stored(w, a, AskedAt(q, a, k));
    }
  }

  /** And the learner has its ack. */
  lemma CollectsOne(r: C.Rules, l: nat, past: nat, w: World, q: Question, k: nat) returns (u: World)
    requires Collecting(r, l, w, q, k) && k < Quorum(r.n) && l != past
    ensures Reached(r, u) && AllSized(u) && u.tables == w.tables && Answering(r, u, q, k + 1) && Asked(r.repairs, u, q)
    ensures LearnerAt(u, past) == LearnerAt(w, past)
    ensures LearnerAt(u, l) == L.HandleAck(r.Setup(), LearnerAt(w, l), k, q.answer)
  {
    NextToAsk(r, w, q, k);
    var x := AnswersOne(r, w, q, k);
    u := LearnsOne(r, x, l, C.Ack(k, q.answer));
    AnswersStay(r, x, u, q, k + 1);
  }

  lemma {:induction false} GathersAll(r: C.Rules, p: nat, v: Value, w: World, k: nat) returns (u: World)
    requires Gathering(r, p, v, w, k) && k < Quorum(r.n)
    ensures Proposing(OfficeOf(r, p), TableAt(r, u, p), v) && Collecting(r, p, u, Proposal(p, v), 0) && u.learners == map[]
    decreases Quorum(r.n) - k
  {
    u := GathersOne(r, p, v, w, k);
    if k + 1 < Quorum(r.n) {
      u := GathersAll(r, p, v, u, k + 1);
    }
  }

  lemma {:induction false} CollectsAll(r: C.Rules, l: nat, past: nat, w: World, q: Question, k: nat, all: nat) returns (u: World)
    requires Collecting(r, l, w, q, k) && k < all == Quorum(r.n) && l != past
    ensures Reached(r, u) && AllSized(u) && u.tables == w.tables && Answering(r, u, q, all)
    ensures LearnerAt(u, past) == LearnerAt(w, past) && LearnerAt(u, l).delivered == [q.answer]
    decreases all - k
  {
    u := CollectsOne(r, l, past, w, q, k);
    VotesOneMore(r.Setup(), LearnerAt(w, l), k, q.answer);
    if k + 1 < all {
      u := CollectsAll(r, l, past, u, q, k + 1, all);
    }
  }

  /** The value has come all the way at proposer p, and a quorum of acceptors has it. */
  ghost predicate Done(r: C.Rules, p: nat, v: Value, w: World) {
    && Configured(r) && p < MAX_N_OF_PROPOSERS && v != [] && Reached(r, w) && AllSized(w)
    && LearnerAt(w, p).delivered == [Chosen(p, v)] && TableAt(r, w, p).notified == [v]
    && Answering(r, w, Proposal(p, v), Quorum(r.n))
    && LearnerAt(w, MAX_N_OF_PROPOSERS) == L.NEW_LEARNER
  }

  lemma Reports(r: C.Rules, p: nat, v: Value, w: World) returns (u: World)
    requires Configured(r) && p < MAX_N_OF_PROPOSERS && Reached(r, w) && AllSized(w)
    requires Proposing(OfficeOf(r, p), TableAt(r, w, p), v) && LearnerAt(w, p).delivered == [Chosen(p, v)]
    ensures Reached(r, u) && AllSized(u) && TableAt(r, u, p).notified == [v]
    ensures u.learners == w.learners && u.acceptors == w.acceptors
  {
    var c := OfficeOf(r, p);
    var t := TableAt(r, w, p);
    TR.SurvivesPhase2(c, t, T.Delivered(v));
    TR.HandleKeeps(c, t, T.Delivered(v));
    N.HandleTells(c, t, T.Delivered(v));
    u := Do(r, w, Proposer(p, T.Delivered(v)));
    TellsOne(r, w, p, T.Delivered(v), u);
  }

  lemma ComesToBeProposed(r: C.Rules, p: nat, v: Value) returns (w: World)
    requires Configured(r) && p < MAX_N_OF_PROPOSERS && v != []
    ensures Proposing(OfficeOf(r, p), TableAt(r, w, p), v) && Collecting(r, p, w, Proposal(p, v), 0) && w.learners == map[]
  {
    w := Starts(r, p, v);
    w := GathersAll(r, p, v, w, 0);
  }

  lemma ComesToBeDelivered(r: C.Rules, p: nat, w: World, q: Question) returns (u: World)
    requires Collecting(r, p, w, q, 0) && w.learners == map[] && p < MAX_N_OF_PROPOSERS
    ensures Reached(r, u) && AllSized(u) && TableAt(r, u, p) == TableAt(r, w, p) && Answering(r, u, q, Quorum(r.n))
    ensures LearnerAt(u, p).delivered == [q.answer] && LearnerAt(u, MAX_N_OF_PROPOSERS) == L.NEW_LEARNER
  {
    u := CollectsAll(r, p, MAX_N_OF_PROPOSERS, w, q, 0, Quorum(r.n));
  }

  lemma ComesToBeDone(r: C.Rules, p: nat, v: Value) returns (w: World)
    requires Configured(r) && p < MAX_N_OF_PROPOSERS && v != []
    ensures Done(r, p, v, w)
  {
    var x := ComesToBeProposed(r, p, v);
    var y := ComesToBeDelivered(r, p, x, Proposal(p, v));
    w := Reports(r, p, v, y);
    AnswersStay(r, y, w, Proposal(p, v), Quorum(r.n));
  }

  lemma RunTo(r: C.Rules, w: World) returns (events: seq<Event>)
    requires r.Valid() && Reached(r, w)
    ensures Run(r, NEW_WORLD, events) && After(r, NEW_WORLD, events) == w
  {
    events :| Run(r, NEW_WORLD, events) && After(r, NEW_WORLD, events) == w;
  }

  /** Main result: whatever the number of acceptors and whoever is elected, there is a run from the
      start of the programs on which the value a client submits is delivered and the client told. */
  lemma ValueComesAllTheWay(r: C.Rules, p: nat, v: Value) returns (events: seq<Event>)
    requires Configured(r) && p < MAX_N_OF_PROPOSERS && v != []
    ensures Run(r, NEW_WORLD, events)
    ensures var w := After(r, NEW_WORLD, events);
            B.ValuesOf(LearnerAt(w, p).delivered) == [v] && TableAt(r, w, p).notified == [v]
  {
    var w := ComesToBeDone(r, p, v);
    events := RunTo(r, w);
  }

  // ---- a restart ----

  /** The request for a repeat of instance 1, of acceptors that have accepted value v for it. */
  function Repeat(p: nat, v: Value): Question {
    Question(W.Repeats(1), map[1 := Chosen(p, v)], map[1 := Chosen(p, v)], Chosen(p, v))
  }

  /** The process of proposer p and its learner starts again from nothing. */
  lemma StartsAfresh(r: C.Rules, p: nat, w: World) returns (u: World)
    requires r.Valid() && Reached(r, w) && AllSized(w) && p < MAX_N_OF_PROPOSERS
    requires LearnerAt(w, MAX_N_OF_PROPOSERS) == L.NEW_LEARNER
    ensures Reached(r, u) && AllSized(u) && u.acceptors == w.acceptors
    ensures LearnerAt(u, p) == L.NEW_LEARNER && LearnerAt(u, MAX_N_OF_PROPOSERS) == LearnerAt(w, p)
    ensures TableAt(r, u, p).notified == [] && !TableAt(r, u, p).leading
  {
    Go(r, w, Reboot(p, MAX_N_OF_PROPOSERS));
    u := Do(r, w, Reboot(p, MAX_N_OF_PROPOSERS));
  }

  lemma AsksAgain(r: C.Rules, p: nat, v: Value, w: World, u: World)
    requires Done(r, p, v, w) && Reached(r, u) && AllSized(u) && u.acceptors == w.acceptors && LearnerAt(u, p) == L.NEW_LEARNER
    ensures Collecting(r, p, u, Repeat(p, v), 0)
  {
    var q, again, all := Proposal(p, v), Repeat(p, v), Quorum(r.n);
    NoneVoted(r.Setup(), Chosen(p, v));
    forall a: nat | a < Quorum(r.n)
      ensures Stored(u, a, AskedAt(again, a, 0))
    {
      assert Stored(w, a, AskedAt(q, a, all));
    }
  }

  /** A learner that has lost everything gets the value back from what the acceptors have stored. */
  lemma LearnerCatchesUp(r: C.Rules, p: nat, v: Value) returns (before: seq<Event>, events: seq<Event>)
    requires Configured(r) && p < MAX_N_OF_PROPOSERS && v != []
    ensures Run(r, NEW_WORLD, before) && LearnerAt(After(r, NEW_WORLD, before), p) == L.NEW_LEARNER
    ensures LearnerAt(After(r, NEW_WORLD, before), MAX_N_OF_PROPOSERS).delivered == [Chosen(p, v)]
    ensures Run(r, NEW_WORLD, events) && B.ValuesOf(LearnerAt(After(r, NEW_WORLD, events), p).delivered) == [v]
  {
    var w := ComesToBeDone(r, p, v);
    var u := StartsAfresh(r, p, w);
    before := RunTo(r, u);
    AsksAgain(r, p, v, w, u);
    var x := CollectsAll(r, p, MAX_N_OF_PROPOSERS, u, Repeat(p, v), 0, Quorum(r.n));
    events := RunTo(r, x);
  }

  // ---- stored values ----

  lemma StoresDelivered(r: C.Rules, p: nat, v: Value, w: World) returns (u: World)
    requires Done(r, p, v, w) && r.updateOnDeliver
    ensures Reached(r, u) && AllSized(u) && forall m: nat :: LearnerAt(u, m) == LearnerAt(w, m)
    ensures Stored(u, 0, map[1 := Final(p, v)])
  {
    assert Stored(w, 0, AskedAt(Proposal(p, v), 0, Quorum(r.n)));
    Go(r, w, Store(0, p, 1));
    u := Do(r, w, Store(0, p, 1));
    StoredFinal(r.repairs, AcceptorAt(w, 0), 1, FirstBallot(p), v);
  }

  function Final(p: nat, v: Value): Record {
    Record(1, FirstBallot(p), FirstBallot(p), true, v)
  }

  lemma StoredFinal(repairs: Repairs, x: W.Acceptor, iid: nat, ballot: nat, v: Value)
    requires W.WrittenAhead(x)
    ensures var y := W.SaveFinal(x, iid, ballot, v);
            W.WrittenAhead(y) && W.StoreOf(y) == W.StoreOf(x)[iid := Record(iid, ballot, ballot, true, v)]
  {
    Q.DeliveredIsStored(repairs, x, iid, ballot, v);
    W.WritesKeep(x, [Record(iid, ballot, ballot, true, v)]);
    W.CommitKeeps(W.Written(x, [Record(iid, ballot, ballot, true, v)]));
  }

  /** A new learner closes instance 1 with one ack that carries a final record. */
  lemma OneFinalAck(c: L.Setup, a: nat, rec: Record)
    requires c.Valid() && a < c.n && rec.iid == 1 && rec.isFinal
    ensures L.HandleAck(c, L.NEW_LEARNER, a, rec).delivered == [rec]
  {
    var l := L.NEW_LEARNER;
    var acks := M.Kept(M.AcksAt(c, l, 1), a, rec);
    assert acks[a] == Some(rec);
    M.AckIsKept(c, l, a, rec);
    L.HandleAckKeepsOrder(c, l, a, rec);
    L.HandleAckSettles(c, l, a, rec);
    var r := L.HandleAck(c, l, a, rec);
    assert L.Outcome(r, 2).None? && L.Outcome(r, 1).Some?;
    assert r.current == 2;
  }

  lemma AsksForFinal(r: C.Rules, w: World, rec: Record) returns (u: World)
    requires r.Valid() && Reached(r, w) && AllSized(w) && Stored(w, 0, map[1 := rec]) && rec.value != []
    ensures Reached(r, u) && AllSized(u) && u.learners == w.learners && C.Ack(0, rec) in u.net.acks
  {
    u := Do(r, w, Requests(0, AcceptAcks, [W.Repeats(1)]));
    AsksOne(r, w, 0, AcceptAcks, map[1 := rec], W.Repeats(1), u);
    D.AcksAre(0, [Accepted(rec)], rec);
  }

  /** Where acceptors store delivered values, one of them is enough for a learner that has lost
      everything. */
  lemma OneAcceptorIsEnough(r: C.Rules, p: nat, v: Value) returns (events: seq<Event>)
    requires Configured(r) && p < MAX_N_OF_PROPOSERS && v != [] && r.updateOnDeliver
    ensures Run(r, NEW_WORLD, events)
    ensures var w := After(r, NEW_WORLD, events);
            && LearnerAt(w, p).delivered == [Final(p, v)] && LearnerAt(w, MAX_N_OF_PROPOSERS).delivered == [Chosen(p, v)]
  {
    var w := ComesToBeDone(r, p, v);
    var x := StoresDelivered(r, p, v, w);
    var y := StartsAfresh(r, p, x);
    var z := LearnsFinal(r, y, p, Final(p, v));
    events := RunTo(r, z);
  }

  lemma LearnsFinal(r: C.Rules, w: World, l: nat, rec: Record) returns (u: World)
    requires r.Valid() && Reached(r, w) && AllSized(w) && Stored(w, 0, map[1 := rec])
    requires rec.iid == 1 && rec.isFinal && rec.value != [] && LearnerAt(w, l) == L.NEW_LEARNER
    ensures Reached(r, u) && AllSized(u) && LearnerAt(u, l).delivered == [rec]
    ensures forall m: nat :: m != l ==> LearnerAt(u, m) == LearnerAt(w, m)
  {
    var x := AsksForFinal(r, w, rec);
    u := LearnsOne(r, x, l, C.Ack(0, rec));
    OneFinalAck(r.Setup(), 0, rec);
  }
}
