/** A whole deployment of the programs: proposers with their instance tables, acceptors with their
    logs and messages, learners with their windows, and a network between them. Handlers, elections
    and crashes come in any order, and every run of it is a run of the protocol. */
module Deployment {
  import opened PaxosConfig
  import opened Messages
  import opened Wire
  import C = Consensus
  import I = ConsensusInvariant
  import L = LearnerSpec
  import T = LeaderSpec
  import TI = LeaderInvariant
  import TR = LeaderRuns
  import TO = LeaderOverrun
  import TP = LeaderRefines
  import W = WriteAhead
  import WP = AcceptorRefines
  import X = Interruption
  import R = Runs
  import S = Safety
  import B = AtomicBroadcast
  import A = AcceptorSpec

  /** What is on the network. Requests and acks may arrive any number of times or never. */
  datatype Network = Network(prepares: set<PrepareReq>, requests: set<AcceptReq>,
                             promises: multiset<C.Promise>, acks: set<C.Ack>)

  datatype World = World(tables: map<nat, T.Table>, acceptors: map<nat, W.Acceptor>, learners: map<nat, L.Learner>, net: Network)

  const NEW_WORLD: World := World(map[], map[], map[], Network({}, {}, multiset{}, {}))

  datatype Event =
    | Proposer(p: nat, ev: T.Event)
    | Requests(a: nat, k: Kind, reqs: seq<W.Req>)
    | Crash(a: nat)                                             // between two handlers
    | Cut(a: nat, k: Kind, reqs: seq<W.Req>, pt: X.Point)       // inside one
    | Store(a: nat, l: nat, iid: nat)     // acc_deliver_callback
    | Ack(l: nat, ack: C.Ack)
    | Reboot(p: nat, past: nat)           // the process of learner p, and of proposer p, starts again

  function TableAt(r: C.Rules, w: World, p: nat): T.Table {
    if p in w.tables then w.tables[p] else T.Start(r.ring)
  }

  function AcceptorAt(w: World, a: nat): W.Acceptor {
    if a in w.acceptors then w.acceptors[a] else W.NEW_ACCEPTOR
  }

  function LearnerAt(w: World, l: nat): L.Learner {
    if l in w.learners then w.learners[l] else L.NEW_LEARNER
  }

  function OfficeOf(r: C.Rules, p: nat): T.Office {
    T.Office(r.n, p, r.repairs)
  }

  predicate Delivered(w: World, l: nat, iid: nat) {
    1 <= iid <= |LearnerAt(w, l).delivered|
  }

  /** A request has arrived over the network. */
  predicate Arrives(w: World, store: map<nat, Record>, req: W.Req) {
    match req
    case Prepares(pr) => pr in w.net.prepares
    case Accepts(ar) => ar in w.net.requests
    case Repeats(_) => true
    case Latest(iid) => iid in store && store[iid].value != []
  }

  predicate AllArrive(repairs: Repairs, w: World, store: map<nat, Record>, reqs: seq<W.Req>)
    decreases |reqs|
  {
    reqs == []
    || (Arrives(w, store, reqs[0])
        && AllArrive(repairs, w, W.WriteAll(store, W.EffectOf(repairs, store, reqs[0]).writes), reqs[1..]))
  }

  /** What may come: messages arrive only if they were sent, and a proposer is told of an instance
      when its own learner delivers it. */
  ghost predicate Comes(r: C.Rules, w: World, e: Event)
    requires r.Valid() && (forall p :: p in w.tables ==> w.tables[p].Sized())
  {
    match e
    case Proposer(p, ev) =>
      var t := TableAt(r, w, p);
      && p < MAX_N_OF_PROPOSERS && TR.Possible(t, ev)
      && (match ev
          case Elected => t.promoted ==> r.reelection
          case Promises(from, batch) => t.leading ==> TP.Carried(r, w.net.promises, TP.Used(p, from, batch))
          case Delivered(value) =>
            Delivered(w, p, t.current) && LearnerAt(w, p).delivered[t.current - 1].value == value
          case Submitted(value) => value == [] ==> r.emptyValues
          case _ => true)
    case Requests(a, _, reqs) => a < r.n && AllArrive(r.repairs, w, W.StoreOf(AcceptorAt(w, a)), reqs)
    case Crash(a) => a < r.n
    case Cut(a, _, reqs, pt) => a < r.n && X.Inside(reqs, pt) && AllArrive(r.repairs, w, W.StoreOf(AcceptorAt(w, a)), reqs)
    case Store(a, l, iid) => r.updateOnDeliver && a < r.n && Delivered(w, l, iid)
    case Ack(l, ack) =>
      && ack in w.net.acks && ack.acceptor < r.n
      && forall i :: i in LearnerAt(w, l).open ==> |LearnerAt(w, l).open[i].acks| == r.n
    case Reboot(p, past) => p != past && past >= MAX_N_OF_PROPOSERS && LearnerAt(w, past) == L.NEW_LEARNER
  }

  /** And what happens: no assert of a leader fails, which would end its process. */
  ghost predicate Happens(r: C.Rules, w: World, e: Event)
    requires r.Valid() && (forall p :: p in w.tables ==> w.tables[p].Sized())
  {
    Comes(r, w, e) && (e.Proposer? ==> TR.Survives(OfficeOf(r, e.p), TableAt(r, w, e.p), e.ev))
  }

  /** The table of a proposer that has just been started; whether it has ever led is history. */
  function NewTable(r: C.Rules, t: T.Table): T.Table {
    T.Start(r.ring).(promoted := t.promoted)
  }

  function Do(r: C.Rules, w: World, e: Event): World
    requires r.Valid() && (forall p :: p in w.tables ==> w.tables[p].Sized())
    requires e.Ack? ==> e.ack.acceptor < r.n && forall i :: i in LearnerAt(w, e.l).open ==> |LearnerAt(w, e.l).open[i].acks| == r.n
    requires e.Store? ==> Delivered(w, e.l, e.iid)
    requires e.Cut? ==> X.Inside(e.reqs, e.pt)
  {
    match e
    case Proposer(p, ev) =>
      var t := TableAt(r, w, p);
      var u := T.Handle(OfficeOf(r, p), t, ev);
      w.(tables := w.tables[p := u],
         net := w.net.(prepares := w.net.prepares + (set pr | pr in u.prepares),
                       requests := w.net.requests + (set ar | ar in u.accepts),
                       promises := if ev.Promises? && t.leading then TP.Left(r, w.net.promises, TP.Used(p, ev.from, ev.batch))
                                   else w.net.promises))
    case Requests(a, k, reqs) =>
      var x := AcceptorAt(w, a);
      var answers := W.Answers(r.repairs, W.StoreOf(x), reqs);
      w.(acceptors := w.acceptors[a := W.HandleBatch(r.repairs, x, k, a, reqs)],
         net := w.net.(promises := w.net.promises + WP.PromisesOf(a, answers), acks := w.net.acks + WP.AcksOf(a, answers)))
    case Crash(a) => w.(acceptors := w.acceptors[a := W.Crash(AcceptorAt(w, a))])
    case Cut(a, k, reqs, pt) =>
      var x := AcceptorAt(w, a);
      var y := X.At(r.repairs, x, k, a, reqs, pt);
      w.(acceptors := w.acceptors[a := W.Crash(y)],
         net := w.net.(promises := w.net.promises + WP.PromisesOf(a, X.SentBy(x, y)),
                       acks := w.net.acks + WP.AcksOf(a, X.SentBy(x, y))))
    case Store(a, l, iid) =>
      var f := LearnerAt(w, l).delivered[iid - 1];
      w.(acceptors := w.acceptors[a := W.SaveFinal(AcceptorAt(w, a), iid, f.ballot, f.value)])
    case Ack(l, ack) =>
      w.(learners := w.learners[l := L.HandleAck(r.Setup(), LearnerAt(w, l), ack.acceptor, ack.rec)])
    // what the learner had delivered before stays on record under another number
    case Reboot(p, past) =>
      w.(tables := if p < MAX_N_OF_PROPOSERS then w.tables[p := NewTable(r, TableAt(r, w, p))] else w.tables,
         learners := w.learners[past := LearnerAt(w, p)][p := L.NEW_LEARNER])
  }

  // ---- the relation ----

  ghost predicate TablesOk(r: C.Rules, w: World, s: C.State) {
    && (forall p :: p in w.tables ==> p < MAX_N_OF_PROPOSERS && w.tables[p].Sized())
    && forall p: nat :: p < MAX_N_OF_PROPOSERS ==> TableOk(r, w, s, p)
  }

  /** Proposer p is sane, and the proposer of the protocol is at its table. */
  ghost predicate TableOk(r: C.Rules, w: World, s: C.State, p: nat) {
    && TP.Tracks(r, OfficeOf(r, p), TableAt(r, w, p), s)
    && TO.Sane(OfficeOf(r, p), TableAt(r, w, p))
  }

  ghost predicate AcceptorsOk(r: C.Rules, w: World, s: C.State) {
    forall a: nat :: a < r.n ==> AcceptorOk(w, s, a)
  }

  ghost predicate AcceptorOk(w: World, s: C.State, a: nat) {
    && W.WrittenAhead(AcceptorAt(w, a)) && AcceptorAt(w, a).disk.open == []
    && WP.Stores(s, a, W.StoreOf(AcceptorAt(w, a)))
  }

  ghost predicate LearnersOk(w: World, s: C.State) {
    forall l: nat :: C.LearnerAt(s, l) == LearnerAt(w, l)
  }

  ghost predicate NetworkOk(w: World, s: C.State) {
    && w.net.prepares <= s.prepares
    && (forall ar :: ar in w.net.requests ==> TP.Issued(s, ar))
    && w.net.promises <= s.promises && w.net.acks <= s.acks
  }

  /** The deployment is what the protocol has in state s. */
  ghost predicate Shows(r: C.Rules, w: World, s: C.State) {
    TablesOk(r, w, s) && AcceptorsOk(r, w, s) && LearnersOk(w, s) && NetworkOk(w, s)
  }

  // ---- proposers ----

  /** What another participant does is nothing to a proposer's table. */
  lemma TableStays(r: C.Rules, w: World, s: C.State, u: C.State, v: World, p: nat)
    requires TableOk(r, w, s, p) && C.ProposerAt(u, p) == C.ProposerAt(s, p) && TableAt(r, v, p) == TableAt(r, w, p)
    requires s.prepares <= u.prepares && s.issues <= u.issues
    ensures TableOk(r, v, u, p)
  {
    var t := TableAt(r, w, p);
    TP.KeptRequests(t, s, u);
    forall k | 0 <= k < |t.slots|
      ensures TP.SlotTracks(t, u, p, k)
    {
      assert TP.SlotTracks(t, s, p, k);
    }
  }

  lemma TablesStay(r: C.Rules, w: World, s: C.State, u: C.State, v: World)
    requires TablesOk(r, w, s) && u.proposers == s.proposers && v.tables == w.tables
    requires s.prepares <= u.prepares && s.issues <= u.issues
    ensures TablesOk(r, v, u)
  {
    forall p: nat | p < MAX_N_OF_PROPOSERS
      ensures TableOk(r, v, u, p)
    {
      TableStays(r, w, s, u, v, p);
    }
  }

  lemma ProposerTables(r: C.Rules, w: World, s: C.State, p: nat, t: T.Table, u: C.State, v: World)
    requires TablesOk(r, w, s) && p < MAX_N_OF_PROPOSERS && TP.Beside(s, u, p)
    requires v.tables == w.tables[p := t] && t.Sized() && TableOk(r, v, u, p)
    ensures TablesOk(r, v, u)
  {
    forall q: nat | q < MAX_N_OF_PROPOSERS
      ensures TableOk(r, v, u, q)
    {
      if q != p {
        OtherProposer(s, u, p, q);
        TableStays(r, w, s, u, v, q);
      }
    }
  }

  lemma OtherProposer(s: C.State, u: C.State, p: nat, q: nat)
    requires TP.Beside(s, u, p) && q != p
    ensures C.ProposerAt(u, q) == C.ProposerAt(s, q)
  {
    assert q in s.proposers <==> q in s.proposers - {p};
    assert q in u.proposers <==> q in u.proposers - {p};
    if q in s.proposers {
      assert (s.proposers - {p})[q] == (u.proposers - {p})[q];
    }
  }

  lemma LeftIsLess(r: C.Rules, few: multiset<C.Promise>, many: multiset<C.Promise>, used: multiset<C.Promise>)
    requires few <= many
    ensures TP.Left(r, few, used) <= TP.Left(r, many, used)
    ensures TP.Carried(r, few, used) ==> TP.Carried(r, many, used)
  {
  }

  lemma ProposerNetwork(r: C.Rules, w: World, s: C.State, c: T.Office, t: T.Table, used: multiset<C.Promise>, u: C.State, v: World)
    requires NetworkOk(w, s) && TP.Beside(s, u, c.me) && TP.Tracks(r, c, t, u)
    requires v.net.prepares == w.net.prepares + (set pr | pr in t.prepares)
    requires v.net.requests == w.net.requests + (set ar | ar in t.accepts)
    requires (v.net.promises == TP.Left(r, w.net.promises, used) && u.promises == TP.Left(r, s.promises, used))
             || (v.net.promises == w.net.promises && u.promises == s.promises)
    requires v.net.acks == w.net.acks
    ensures NetworkOk(v, u)
  {
    LeftIsLess(r, w.net.promises, s.promises, used);
    forall ar | ar in v.net.requests
      ensures TP.Issued(u, ar)
    {
      if ar in w.net.requests {
        assert TP.Issued(s, ar);
        var from :| C.Issue(ar.iid, ar.ballot, ar.value, from) in s.issues;
        assert C.Issue(ar.iid, ar.ballot, ar.value, from) in u.issues;
      }
    }
  }

  lemma AcceptorsStay(r: C.Rules, w: World, s: C.State, u: C.State, v: World)
    requires AcceptorsOk(r, w, s) && u.records == s.records && v.acceptors == w.acceptors
    ensures AcceptorsOk(r, v, u)
  {
    forall a: nat | a < r.n
      ensures AcceptorOk(v, u, a)
    {
      assert AcceptorOk(w, s, a);
      forall iid: nat
        ensures C.RecordAt(u, a, iid) == W.Find(W.StoreOf(AcceptorAt(w, a)), iid)
      {
        assert C.RecordAt(s, a, iid) == W.Find(W.StoreOf(AcceptorAt(w, a)), iid);
      }
    }
  }

  lemma LearnersStay(w: World, s: C.State, u: C.State, v: World)
    requires LearnersOk(w, s) && u.learners == s.learners && v.learners == w.learners
    ensures LearnersOk(v, u)
  {
    forall l: nat
      ensures C.LearnerAt(u, l) == LearnerAt(v, l)
    {
      assert C.LearnerAt(s, l) == LearnerAt(w, l);
    }
  }

  /** The ring is as large as init_pro_structs asks for. */
  predicate Configured(r: C.Rules) {
    r.Valid() && r.ring > PROPOSER_PREEXEC_WIN_SIZE
  }

  lemma ProposerComes(r: C.Rules, w: World, s: C.State, p: nat, ev: T.Event)
    requires Configured(r) && Shows(r, w, s) && Happens(r, w, Proposer(p, ev))
    ensures TP.Comes(r, OfficeOf(r, p), TableAt(r, w, p), s, p, ev)
  {
    assert TableOk(r, w, s, p);
    assert C.LearnerAt(s, p) == LearnerAt(w, p);
    if ev.Promises? {
      LeftIsLess(r, w.net.promises, s.promises, TP.Used(p, ev.from, ev.batch));
    }
  }

  lemma ProposerShows(r: C.Rules, w: World, s: C.State, p: nat, ev: T.Event) returns (u: C.State)
    requires Configured(r) && C.Reachable(r, s) && Shows(r, w, s) && Happens(r, w, Proposer(p, ev))
    ensures C.Reachable(r, u) && Shows(r, Do(r, w, Proposer(p, ev)), u)
  {
    var c := OfficeOf(r, p);
    var t := TableAt(r, w, p);
    var v := Do(r, w, Proposer(p, ev));
    assert TableOk(r, w, s, p);
    ProposerComes(r, w, s, p, ev);
    u := TP.HandleIsRun(r, c, t, s, p, ev);
    var t2 := T.Handle(c, t, ev);
    ProposerTables(r, w, s, p, t2, u, v);
    ProposerNetwork(r, w, s, c, t2, if ev.Promises? then TP.Used(p, ev.from, ev.batch) else multiset{}, u, v);
    AcceptorsStay(r, w, s, u, v);
    LearnersStay(w, s, u, v);
  }

  // ---- acceptors ----

  lemma {:induction false} RequestsArrive(r: C.Rules, w: World, s: C.State, store: map<nat, Record>, reqs: seq<W.Req>)
    requires NetworkOk(w, s) && AllArrive(r.repairs, w, store, reqs)
    ensures WP.AllArrive(r.repairs, s, store, reqs)
    decreases |reqs|
  {
    if reqs != [] {
      if reqs[0].Accepts? {
        assert TP.Issued(s, reqs[0].ar);
      }
      RequestsArrive(r, w, s, W.WriteAll(store, W.EffectOf(r.repairs, store, reqs[0]).writes), reqs[1..]);
    }
  }

  lemma OtherAcceptors(r: C.Rules, w: World, s: C.State, a: nat, u: C.State, v: World)
    requires AcceptorsOk(r, w, s) && AcceptorOk(v, u, a)
    requires forall b: nat, iid: nat :: b != a ==> C.RecordAt(u, b, iid) == C.RecordAt(s, b, iid)
    requires forall b :: b != a ==> AcceptorAt(v, b) == AcceptorAt(w, b)
    ensures AcceptorsOk(r, v, u)
  {
    forall b: nat | b < r.n
      ensures AcceptorOk(v, u, b)
    {
      if b != a {
        assert AcceptorOk(w, s, b);
        forall iid: nat
          ensures C.RecordAt(u, b, iid) == W.Find(W.StoreOf(AcceptorAt(w, b)), iid)
        {
          assert C.RecordAt(s, b, iid) == W.Find(W.StoreOf(AcceptorAt(w, b)), iid);
        }
      }
    }
  }

  lemma RequestsShow(r: C.Rules, w: World, s: C.State, a: nat, k: Kind, reqs: seq<W.Req>) returns (u: C.State)
    requires Configured(r) && C.Reachable(r, s) && Shows(r, w, s) && Happens(r, w, Requests(a, k, reqs))
    ensures C.Reachable(r, u) && Shows(r, Do(r, w, Requests(a, k, reqs)), u)
  {
    var x := AcceptorAt(w, a);
    var v := Do(r, w, Requests(a, k, reqs));
    assert AcceptorOk(w, s, a);
    RequestsArrive(r, w, s, W.StoreOf(x), reqs);
    u := WP.HandlerIsRun(r, s, x, k, a, reqs);
    W.HandleBatchWritesAhead(r.repairs, x, k, a, reqs);
    var y := W.HandleBatch(r.repairs, x, k, a, reqs);
    assert y.disk.log + y.disk.open == y.disk.log;
    assert AcceptorOk(v, u, a);
    OtherAcceptors(r, w, s, a, u, v);
    TablesStay(r, w, s, u, v);
    LearnersStay(w, s, u, v);
    SomeAnswersSent(r, w, s, a, W.Answers(r.repairs, W.StoreOf(x), reqs), W.Answers(r.repairs, W.StoreOf(x), reqs), u, v);
  }

  /** A crash between handlers is nothing to the protocol. */
  lemma CrashShows(r: C.Rules, w: World, s: C.State, a: nat)
    requires Configured(r) && Shows(r, w, s) && a < r.n
    ensures Shows(r, Do(r, w, Crash(a)), s)
  {
    var v := Do(r, w, Crash(a));
    var x := AcceptorAt(w, a);
    assert AcceptorOk(w, s, a);
    assert x.disk.log + [] == x.disk.log;
    assert AcceptorOk(v, s, a);
    OtherAcceptors(r, w, s, a, s, v);
    TablesStay(r, w, s, s, v);
    LearnersStay(w, s, s, v);
  }

  lemma {:induction false} FirstArrive(repairs: Repairs, s: C.State, store: map<nat, Record>, reqs: seq<W.Req>, i: nat)
    requires WP.AllArrive(repairs, s, store, reqs) && i <= |reqs|
    ensures WP.AllArrive(repairs, s, store, reqs[..i])
    decreases |reqs|
  {
    if i > 0 {
      assert reqs[..i][1..] == reqs[1..][..i - 1];
      FirstArrive(repairs, s, W.WriteAll(store, W.EffectOf(repairs, store, reqs[0]).writes), reqs[1..], i - 1);
    }
  }

  lemma {:induction false} FirstAnswers(a: nat, some: seq<Entry>, all: seq<Entry>)
    requires some <= all
    ensures WP.PromisesOf(a, some) <= WP.PromisesOf(a, all) && WP.AcksOf(a, some) <= WP.AcksOf(a, all)
    decreases |all|
  {
    if some != [] {
      FirstAnswers(a, some[1..], all[1..]);
    }
  }

  lemma SomeAnswersSent(r: C.Rules, w: World, s: C.State, a: nat, some: seq<Entry>, all: seq<Entry>, u: C.State, v: World)
    requires NetworkOk(w, s) && some <= all && WP.Sends(s, u, a, all) && u.prepares == s.prepares && u.issues == s.issues
    requires v.net == w.net.(promises := w.net.promises + WP.PromisesOf(a, some), acks := w.net.acks + WP.AcksOf(a, some))
    ensures NetworkOk(v, u)
  {
    FirstAnswers(a, some, all);
    forall ar | ar in v.net.requests
      ensures TP.Issued(u, ar)
    {
      assert TP.Issued(s, ar);
    }
  }

  lemma CutAcceptor(w: World, a: nat, y: W.Acceptor, u: C.State, v: World)
    requires W.WrittenAhead(y) && y.disk.open == [] && WP.Stores(u, a, W.StoreOf(y)) && v.acceptors == w.acceptors[a := y]
    ensures AcceptorOk(v, u, a)
  {
  }

  /** A crash inside a handler is to the protocol the first part of its batch. */
  lemma CutShows(r: C.Rules, w: World, s: C.State, a: nat, k: Kind, reqs: seq<W.Req>, pt: X.Point) returns (u: C.State)
    requires Configured(r) && C.Reachable(r, s) && Shows(r, w, s) && Happens(r, w, Cut(a, k, reqs, pt))
    ensures C.Reachable(r, u) && Shows(r, Do(r, w, Cut(a, k, reqs, pt)), u)
  {
    var x := AcceptorAt(w, a);
    var v := Do(r, w, Cut(a, k, reqs, pt));
    assert AcceptorOk(w, s, a);
    RequestsArrive(r, w, s, W.StoreOf(x), reqs);
    var i := X.CrashAnywhere(r.repairs, x, k, a, reqs, pt);
    FirstArrive(r.repairs, s, W.StoreOf(x), reqs, i);
    u := WP.BatchIsRun(r, s, a, W.StoreOf(x), reqs[..i]);
    CutAcceptor(w, a, W.Crash(X.At(r.repairs, x, k, a, reqs, pt)), u, v);
    OtherAcceptors(r, w, s, a, u, v);
    TablesStay(r, w, s, u, v);
    LearnersStay(w, s, u, v);
    SomeAnswersSent(r, w, s, a, X.SentBy(x, X.At(r.repairs, x, k, a, reqs, pt)),
                    W.Answers(r.repairs, W.StoreOf(x), reqs[..i]), u, v);
  }

  lemma StoreAcceptor(r: C.Rules, w: World, s: C.State, a: nat, f: Record, iid: nat, u: C.State, v: World)
    requires AcceptorOk(w, s, a) && AcceptorAt(v, a) == W.SaveFinal(AcceptorAt(w, a), iid, f.ballot, f.value)
    requires u.records == s.records[C.Key(a, iid) := A.FinalRecord(iid, f.ballot, f.value)]
    ensures AcceptorOk(v, u, a)
  {
    var x := AcceptorAt(w, a);
    var rec := A.FinalRecord(iid, f.ballot, f.value);
    W.StepWritesAhead(r.repairs, 0, x, W.Learnt(iid, f.ballot, f.value));
    W.WritesKeep(x, [rec]);
    W.CommitKeeps(W.Written(x, [rec]));
    WP.WrittenRecord(s, a, W.StoreOf(x), rec, u);
  }

  lemma StoreIsStep(r: C.Rules, s: C.State, a: nat, l: nat, iid: nat) returns (u: C.State)
    requires r.Valid() && C.Reachable(r, s) && r.updateOnDeliver && a < r.n && C.Delivered(s, l, iid)
    ensures var f := C.LearnerAt(s, l).delivered[iid - 1];
            C.Reachable(r, u) && u == s.(records := s.records[C.Key(a, iid) := A.FinalRecord(iid, f.ballot, f.value)])
  {
    u := R.Go(r, s, C.SaveFinal(a, l, iid));
  }

  lemma StoreShows(r: C.Rules, w: World, s: C.State, a: nat, l: nat, iid: nat) returns (u: C.State)
    requires Configured(r) && C.Reachable(r, s) && Shows(r, w, s) && Happens(r, w, Store(a, l, iid))
    ensures C.Reachable(r, u) && Shows(r, Do(r, w, Store(a, l, iid)), u)
  {
    var v := Do(r, w, Store(a, l, iid));
    assert C.LearnerAt(s, l) == LearnerAt(w, l);
    assert AcceptorOk(w, s, a);
    u := StoreIsStep(r, s, a, l, iid);
    StoreAcceptor(r, w, s, a, LearnerAt(w, l).delivered[iid - 1], iid, u, v);
    OtherAcceptors(r, w, s, a, u, v);
    TablesStay(r, w, s, u, v);
    LearnersStay(w, s, u, v);
    SameNetwork(w, s, u, v);
  }

  lemma SameNetwork(w: World, s: C.State, u: C.State, v: World)
    requires NetworkOk(w, s) && v.net == w.net
    requires u.prepares == s.prepares && u.issues == s.issues && u.promises == s.promises && u.acks == s.acks
    ensures NetworkOk(v, u)
  {
    forall ar | ar in v.net.requests
      ensures TP.Issued(u, ar)
    {
      assert TP.Issued(s, ar);
    }
  }

  // ---- learners ----

  lemma AckShows(r: C.Rules, w: World, s: C.State, l: nat, ack: C.Ack) returns (u: C.State)
    requires Configured(r) && C.Reachable(r, s) && Shows(r, w, s) && Happens(r, w, Ack(l, ack))
    ensures C.Reachable(r, u) && Shows(r, Do(r, w, Ack(l, ack)), u)
  {
    var v := Do(r, w, Ack(l, ack));
    assert C.LearnerAt(s, l) == LearnerAt(w, l);
    u := R.Go(r, s, C.Learn(l, ack));
    forall m: nat
      ensures C.LearnerAt(u, m) == LearnerAt(v, m)
    {
      assert C.LearnerAt(s, m) == LearnerAt(w, m);
    }
    AcceptorsStay(r, w, s, u, v);
    TablesStay(r, w, s, u, v);
    SameNetwork(w, s, u, v);
  }

  // ---- processes that start again ----

  lemma NewTableTracks(r: C.Rules, w: World, s: C.State, p: nat) returns (u: C.State)
    requires Configured(r) && C.Reachable(r, s) && p < MAX_N_OF_PROPOSERS && TableOk(r, w, s, p)
    ensures C.Reachable(r, u) && TP.Beside(s, u, p) && u.promises == s.promises
    ensures TP.Tracks(r, OfficeOf(r, p), NewTable(r, TableAt(r, w, p)), u)
  {
    var t := TableAt(r, w, p);
    u := s;
    if t.leading {
      u := R.Go(r, s, C.Demote(p));
    }
    var n := NewTable(r, t);
    forall k | 0 <= k < |n.slots|
      ensures TP.SlotTracks(n, u, p, k)
    {
      assert TP.SlotTracks(t, s, p, k);
    }
  }

  lemma NewTableInOrder(r: C.Rules, t: T.Table, p: nat)
    requires Configured(r) && p < MAX_N_OF_PROPOSERS
    ensures TI.LeaderOk(OfficeOf(r, p), NewTable(r, t)) && TO.Sane(OfficeOf(r, p), NewTable(r, t))
  {
    TO.StartSane(OfficeOf(r, p), r.ring);
    TO.SameSane(OfficeOf(r, p), T.Start(r.ring), NewTable(r, t));
    TR.StartIsInOrder(OfficeOf(r, p), r.ring);
    TI.SameLedger(T.Start(r.ring), NewTable(r, t));
  }

  /** To the protocol a proposer that starts again has stepped down, if it was leader. */
  lemma TableGone(r: C.Rules, w: World, s: C.State, p: nat) returns (u: C.State)
    requires Configured(r) && C.Reachable(r, s) && Shows(r, w, s) && p < MAX_N_OF_PROPOSERS
    ensures C.Reachable(r, u) && Shows(r, w.(tables := w.tables[p := NewTable(r, TableAt(r, w, p))]), u)
  {
    var t := NewTable(r, TableAt(r, w, p));
    var v := w.(tables := w.tables[p := t]);
    assert TableOk(r, w, s, p);
    u := NewTableTracks(r, w, s, p);
    NewTableInOrder(r, TableAt(r, w, p), p);
    ProposerTables(r, w, s, p, t, u, v);
    AcceptorsStay(r, w, s, u, v);
    LearnersStay(w, s, u, v);
    ProposerNetwork(r, w, s, OfficeOf(r, p), t, multiset{}, u, v);
  }

  lemma LearnerGone(r: C.Rules, w: World, s: C.State, p: nat, past: nat) returns (u: C.State)
    requires Configured(r) && C.Reachable(r, s) && Shows(r, w, s) && p != past && LearnerAt(w, past) == L.NEW_LEARNER
    ensures C.Reachable(r, u)
    ensures Shows(r, w.(learners := w.learners[past := LearnerAt(w, p)][p := L.NEW_LEARNER]), u)
  {
    var v := w.(learners := w.learners[past := LearnerAt(w, p)][p := L.NEW_LEARNER]);
    assert C.LearnerAt(s, past) == LearnerAt(w, past) && C.LearnerAt(s, p) == LearnerAt(w, p);
    u := R.Go(r, s, C.Reboot(p, past));
    forall m: nat
      ensures C.LearnerAt(u, m) == LearnerAt(v, m)
    {
      assert C.LearnerAt(s, m) == LearnerAt(w, m);
    }
    AcceptorsStay(r, w, s, u, v);
    TablesStay(r, w, s, u, v);
    SameNetwork(w, s, u, v);
  }

  lemma RebootShows(r: C.Rules, w: World, s: C.State, p: nat, past: nat) returns (u: C.State)
    requires Configured(r) && C.Reachable(r, s) && Shows(r, w, s) && Happens(r, w, Reboot(p, past))
    ensures C.Reachable(r, u) && Shows(r, Do(r, w, Reboot(p, past)), u)
  {
    var m := s;
    var x := w;
    if p < MAX_N_OF_PROPOSERS {
      x := w.(tables := w.tables[p := NewTable(r, TableAt(r, w, p))]);
      m := TableGone(r, w, s, p);
    }
    u := LearnerGone(r, x, m, p, past);
  }

  // ---- runs ----

  lemma EventShows(r: C.Rules, w: World, s: C.State, e: Event) returns (u: C.State)
    requires Configured(r) && C.Reachable(r, s) && Shows(r, w, s) && Happens(r, w, e)
    ensures C.Reachable(r, u) && Shows(r, Do(r, w, e), u)
  {
    match e
    case Proposer(p, ev) => u := ProposerShows(r, w, s, p, ev);
    case Requests(a, k, reqs) => u := RequestsShow(r, w, s, a, k, reqs);
    case Crash(a) =>
      CrashShows(r, w, s, a);
      u := s;
    case Cut(a, k, reqs, pt) => u := CutShows(r, w, s, a, k, reqs, pt);
    case Store(a, l, iid) => u := StoreShows(r, w, s, a, l, iid);
    case Ack(l, ack) => u := AckShows(r, w, s, l, ack);
    case Reboot(p, past) => u := RebootShows(r, w, s, p, past);
  }

  ghost predicate AllSized(w: World) {
    forall p :: p in w.tables ==> w.tables[p].Sized()
  }

  /** A run of the deployment from w. */
  ghost predicate Run(r: C.Rules, w: World, events: seq<Event>)
    requires r.Valid()
    decreases |events|
  {
    events == [] || (AllSized(w) && Happens(r, w, events[0]) && Run(r, Do(r, w, events[0]), events[1..]))
  }

  ghost function After(r: C.Rules, w: World, events: seq<Event>): World
    requires r.Valid() && Run(r, w, events)
    decreases |events|
  {
    if events == [] then w else After(r, Do(r, w, events[0]), events[1..])
  }

  lemma {:induction false} RunShows(r: C.Rules, w: World, s: C.State, events: seq<Event>) returns (u: C.State)
    requires Configured(r) && C.Reachable(r, s) && Shows(r, w, s) && Run(r, w, events)
    ensures C.Reachable(r, u) && Shows(r, After(r, w, events), u)
    decreases |events|
  {
    u := s;
    if events != [] {
      var v := EventShows(r, w, s, events[0]);
      u := RunShows(r, Do(r, w, events[0]), v, events[1..]);
    }
  }

  /** What comes, while leaders are told only of instances they have opened and the backlog of
      closed but undelivered instances leaves the ring of each room for the two windows. */
  ghost predicate Within(r: C.Rules, w: World, events: seq<Event>)
    requires r.Valid()
    decreases |events|
  {
    || events == []
    || (&& AllSized(w) && Comes(r, w, events[0]) && Bounded(r, w, events[0])
        && Within(r, Do(r, w, events[0]), events[1..]))
  }

  ghost predicate Bounded(r: C.Rules, w: World, e: Event) {
    e.Proposer? ==> TR.Expected(TableAt(r, w, e.p), e.ev) && TR.HasRoom(TableAt(r, w, e.p))
  }

  /** Every proposer's table is in order, counters and ledger included. */
  ghost predicate AllInOrder(r: C.Rules, w: World) {
    forall p: nat :: p < MAX_N_OF_PROPOSERS ==> |TableAt(r, w, p).slots| == r.ring && TI.LeaderOk(OfficeOf(r, p), TableAt(r, w, p))
  }

  lemma BoundedHappens(r: C.Rules, w: World, e: Event)
    requires Configured(r) && AllSized(w) && AllInOrder(r, w) && Comes(r, w, e) && Bounded(r, w, e)
    ensures Happens(r, w, e)
  {
    if e.Proposer? {
      TR.SurvivesWithRoom(OfficeOf(r, e.p), TableAt(r, w, e.p), e.ev);
    }
  }

  lemma BoundedKeepsOrder(r: C.Rules, w: World, e: Event)
    requires Configured(r) && AllSized(w) && AllInOrder(r, w) && Happens(r, w, e) && Bounded(r, w, e)
    ensures AllInOrder(r, Do(r, w, e))
  {
    var v := Do(r, w, e);
    forall p: nat | p < MAX_N_OF_PROPOSERS
      ensures |TableAt(r, v, p).slots| == r.ring && TI.LeaderOk(OfficeOf(r, p), TableAt(r, v, p))
    {
      if e.Proposer? && e.p == p {
        TR.HandleKeeps(OfficeOf(r, p), TableAt(r, w, p), e.ev);
      } else if e.Reboot? && e.p == p {
        NewTableInOrder(r, TableAt(r, w, p), p);
      } else {
        assert TableAt(r, v, p) == TableAt(r, w, p);
      }
    }
  }

  /** Within that bound no assert of a leader ever fails and every table stays in order, so
      everything below holds of such runs. */
  lemma {:induction false} WithinIsRun(r: C.Rules, w: World, events: seq<Event>)
    requires Configured(r) && AllInOrder(r, w) && Within(r, w, events)
    ensures Run(r, w, events) && AllInOrder(r, After(r, w, events))
    decreases |events|
  {
    if events != [] {
      BoundedHappens(r, w, events[0]);
      BoundedKeepsOrder(r, w, events[0]);
      WithinIsRun(r, Do(r, w, events[0]), events[1..]);
    }
  }

  lemma StartInOrder(r: C.Rules)
    requires Configured(r)
    ensures AllInOrder(r, NEW_WORLD)
  {
    forall p: nat | p < MAX_N_OF_PROPOSERS
      ensures TI.LeaderOk(OfficeOf(r, p), TableAt(r, NEW_WORLD, p))
    {
      TR.StartIsInOrder(OfficeOf(r, p), r.ring);
    }
  }

  lemma WithinFromStart(r: C.Rules, events: seq<Event>)
    requires Configured(r) && Within(r, NEW_WORLD, events)
    ensures Run(r, NEW_WORLD, events) && AllInOrder(r, After(r, NEW_WORLD, events))
  {
    StartInOrder(r);
    WithinIsRun(r, NEW_WORLD, events);
  }

  /** An ack on the network may always arrive: the slots of a learner are never short of room. */
  lemma AcksMayArrive(r: C.Rules, events: seq<Event>, l: nat, ack: C.Ack)
    requires Configured(r) && Run(r, NEW_WORLD, events)
    requires ack in After(r, NEW_WORLD, events).net.acks && ack.acceptor < r.n && AllSized(After(r, NEW_WORLD, events))
    ensures Happens(r, After(r, NEW_WORLD, events), Ack(l, ack))
  {
    StartShows(r);
    var s := RunShows(r, NEW_WORLD, C.INIT, events);
    var steps :| C.Legal(r, C.INIT, steps) && C.After(r, C.INIT, steps) == s;
    B.LearnersInOrder(r, C.INIT, steps);
    assert L.LearnerOk(r.Setup(), C.LearnerAt(s, l));
    assert C.LearnerAt(s, l) == LearnerAt(After(r, NEW_WORLD, events), l);
    forall i | i in LearnerAt(After(r, NEW_WORLD, events), l).open
      ensures |LearnerAt(After(r, NEW_WORLD, events), l).open[i].acks| == r.n
    {
      assert L.SlotOk(r.Setup(), C.LearnerAt(s, l).open[i], i);
    }
  }

  lemma StartShows(r: C.Rules)
    requires Configured(r)
    ensures C.Reachable(r, C.INIT) && Shows(r, NEW_WORLD, C.INIT)
  {
    R.Start(r);
    forall p: nat | p < MAX_N_OF_PROPOSERS
      ensures TableOk(r, NEW_WORLD, C.INIT, p)
    {
      TP.StartTracks(r, OfficeOf(r, p));
      TO.StartSane(OfficeOf(r, p), r.ring);
    }
    assert W.NEW_ACCEPTOR.disk.log + W.NEW_ACCEPTOR.disk.open == [];
    forall a: nat
      ensures AcceptorOk(NEW_WORLD, C.INIT, a)
    {
    }
  }

  /** Main result: in a sound deployment of the programs, whatever they are sent and in whatever
      order, through elections, timeouts and crashes of any process, no two learners, nor one before
      and after it was started again, settle on different values for an instance. */
  lemma ProgramsAgree(r: C.Rules, events: seq<Event>, l: nat, m: nat, i: nat)
    requires Configured(r) && I.Sound(r) && Run(r, NEW_WORLD, events)
    ensures var x := LearnerAt(After(r, NEW_WORLD, events), l); var y := LearnerAt(After(r, NEW_WORLD, events), m);
            && |x.delivered| == x.current - 1 && |y.delivered| == y.current - 1
            && (L.Outcome(x, i).Some? && L.Outcome(y, i).Some? ==> L.Outcome(x, i).value.value == L.Outcome(y, i).value.value)
  {
    StartShows(r);
    var s := RunShows(r, NEW_WORLD, C.INIT, events);
    S.SoundAgreement(r, s);
    B.DeliversWithoutGaps(r, s, l);
    B.DeliversWithoutGaps(r, s, m);
    var w := After(r, NEW_WORLD, events);
    assert C.LearnerAt(s, l) == LearnerAt(w, l) && C.LearnerAt(s, m) == LearnerAt(w, m);
    assert C.Settled(s, l, i) == L.Outcome(LearnerAt(w, l), i) && C.Settled(s, m, i) == L.Outcome(LearnerAt(w, m), i);
  }

  /** And they deliver in one order: of any two delivered sequences of values one is a prefix of
      the other, each without gaps. */
  lemma ProgramsDeliverInOrder(r: C.Rules, events: seq<Event>, l: nat, m: nat)
    requires Configured(r) && I.Sound(r) && Run(r, NEW_WORLD, events)
    ensures var x := LearnerAt(After(r, NEW_WORLD, events), l).delivered;
            var y := LearnerAt(After(r, NEW_WORLD, events), m).delivered;
            && (forall k :: 0 <= k < |x| ==> x[k].iid == k + 1)
            && (B.ValuesOf(x) <= B.ValuesOf(y) || B.ValuesOf(y) <= B.ValuesOf(x))
  {
    StartShows(r);
    var s := RunShows(r, NEW_WORLD, C.INIT, events);
    B.DeliversWithoutGaps(r, s, l);
    B.DeliveriesAreOrdered(r, s, l, m);
    var w := After(r, NEW_WORLD, events);
    assert C.LearnerAt(s, l) == LearnerAt(w, l) && C.LearnerAt(s, m) == LearnerAt(w, m);
  }
}
