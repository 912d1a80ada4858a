/** What the clients of a whole deployment are told, and what gets onto its network: a success report
    is for one instance the proposer's own learner has delivered, and everything a program sends
    may arrive. */
module DeploymentReports {
  import opened PaxosConfig
  import opened Messages
  import opened Wire
  import opened Deployment
  import C = Consensus
  import L = LearnerSpec
  import T = LeaderSpec
  import TR = LeaderRuns
  import N = LeaderReports
  import W = WriteAhead
  import WP = AcceptorRefines
  import B = AtomicBroadcast
  import S = SendBuffer
  import X = Interruption
  import Q = AcceptorAnswers

  // ---- learners ----

  ghost predicate LearnersInOrder(r: C.Rules, w: World)
    requires r.Valid()
  {
    forall l: nat :: L.LearnerOk(r.Setup(), LearnerAt(w, l))
  }

  /** An ack only ever adds to what a learner has delivered. */
  lemma AckDelivers(c: L.Setup, l: L.Learner, a: nat, ack: Record)
    requires c.Valid() && L.LearnerOk(c, l) && a < c.n
    ensures l.delivered <= L.HandleAck(c, l, a, ack).delivered
  {
    if L.InWindow(c, l, ack.iid) {
      L.StoredKeepsWindow(c, l, a, ack);
      L.DeliveryIsMaximal(L.Stored(c, l, a, ack));
    }
  }

  lemma EventKeepsLearners(r: C.Rules, w: World, e: Event)
    requires r.Valid() && AllSized(w) && LearnersInOrder(r, w) && Happens(r, w, e)
    ensures LearnersInOrder(r, Do(r, w, e))
  {
    var v := Do(r, w, e);
    forall l: nat
      ensures L.LearnerOk(r.Setup(), LearnerAt(v, l))
    {
      assert L.LearnerOk(r.Setup(), LearnerAt(w, l));
      if e.Ack? && e.l == l {
        L.HandleAckKeepsOrder(r.Setup(), LearnerAt(w, l), e.ack.acceptor, e.ack.rec);
      } else if e.Reboot? {
        assert L.LearnerOk(r.Setup(), LearnerAt(w, e.p));
      }
    }
  }

  // ---- clients ----

  /** The clients told of success and the values delivered before the table's current instance. */
  ghost predicate Told(t: T.Table, l: L.Learner) {
    && 1 <= t.current <= |l.delivered| + 1
    && multiset(t.notified) <= multiset(B.ValuesOf(l.delivered[..t.current - 1]))
  }

  lemma ToldMore(t: T.Table, l: L.Learner, u: T.Table)
    requires Told(t, l) && t.current <= |l.delivered| && u.current == t.current + 1
    requires u.notified == t.notified || u.notified == t.notified + [l.delivered[t.current - 1].value]
    ensures Told(u, l)
  {
    var was, now := l.delivered[..t.current - 1], l.delivered[..t.current];
    assert B.ValuesOf(now) == B.ValuesOf(was) + [l.delivered[t.current - 1].value];
  }

  lemma ToldStill(t: T.Table, l: L.Learner, u: T.Table, m: L.Learner)
    requires Told(t, l) && u.current == t.current && u.notified == t.notified && l.delivered <= m.delivered
    ensures Told(u, m)
  {
    assert m.delivered[..t.current - 1] == l.delivered[..t.current - 1];
  }

  lemma ToldInAll(t: T.Table, l: L.Learner)
    requires Told(t, l)
    ensures multiset(t.notified) <= multiset(B.ValuesOf(l.delivered))
  {
    var d, k := l.delivered, t.current - 1;
    assert B.ValuesOf(d) == B.ValuesOf(d[..k]) + B.ValuesOf(d[k..]);
  }

  ghost predicate AllTold(r: C.Rules, w: World)
    requires r.Valid()
  {
    forall p: nat :: p < MAX_N_OF_PROPOSERS ==> Told(TableAt(r, w, p), LearnerAt(w, p))
  }

  lemma TableTells(c: T.Office, t: T.Table, l: L.Learner, ev: T.Event)
    requires t.Sized() && Told(t, l)
    requires ev.Delivered? ==> t.current <= |l.delivered| && l.delivered[t.current - 1].value == ev.value
    ensures Told(T.Handle(c, t, ev), l)
  {
    N.HandleTells(c, t, ev);
    N.HandleMoves(c, t, ev);
    if ev.Delivered? {
      ToldMore(t, l, T.Handle(c, t, ev));
    } else {
      ToldStill(t, l, T.Handle(c, t, ev), l);
    }
  }

  lemma ProposerTells(r: C.Rules, w: World, p: nat, ev: T.Event)
    requires r.Valid() && AllSized(w) && AllTold(r, w) && Happens(r, w, Proposer(p, ev))
    ensures AllTold(r, Do(r, w, Proposer(p, ev)))
  {
    var v := Do(r, w, Proposer(p, ev));
    assert Told(TableAt(r, w, p), LearnerAt(w, p));
    TableTells(OfficeOf(r, p), TableAt(r, w, p), LearnerAt(w, p), ev);
    OneTable(r, w, p, ev, v);
    OneTold(r, w, p, v);
  }

  lemma OneTable(r: C.Rules, w: World, p: nat, ev: T.Event, v: World)
    requires r.Valid() && AllSized(w) && v == Do(r, w, Proposer(p, ev))
    ensures v.learners == w.learners && TableAt(r, v, p) == T.Handle(OfficeOf(r, p), TableAt(r, w, p), ev)
    ensures forall q: nat :: q != p ==> TableAt(r, v, q) == TableAt(r, w, q)
  {
  }

  lemma OneTold(r: C.Rules, w: World, p: nat, v: World)
    requires r.Valid() && AllTold(r, w) && v.learners == w.learners && Told(TableAt(r, v, p), LearnerAt(w, p))
    requires forall q: nat :: q != p ==> TableAt(r, v, q) == TableAt(r, w, q)
    ensures AllTold(r, v)
  {
    forall q: nat | q < MAX_N_OF_PROPOSERS
      ensures Told(TableAt(r, v, q), LearnerAt(v, q))
    {
      assert Told(TableAt(r, w, q), LearnerAt(w, q));
    }
  }

  lemma AckTells(r: C.Rules, w: World, l: nat, ack: C.Ack)
    requires r.Valid() && AllSized(w) && LearnersInOrder(r, w) && AllTold(r, w) && Happens(r, w, Ack(l, ack))
    ensures AllTold(r, Do(r, w, Ack(l, ack)))
  {
    var v := Do(r, w, Ack(l, ack));
    assert L.LearnerOk(r.Setup(), LearnerAt(w, l));
    AckDelivers(r.Setup(), LearnerAt(w, l), ack.acceptor, ack.rec);
    forall p: nat | p < MAX_N_OF_PROPOSERS
      ensures Told(TableAt(r, v, p), LearnerAt(v, p))
    {
      ToldStill(TableAt(r, w, p), LearnerAt(w, p), TableAt(r, v, p), LearnerAt(v, p));
    }
  }

  lemma OthersTell(r: C.Rules, w: World, e: Event)
    requires r.Valid() && AllSized(w) && AllTold(r, w) && Happens(r, w, e) && !e.Proposer? && !e.Ack?
    ensures AllTold(r, Do(r, w, e))
  {
    var v := Do(r, w, e);
    forall p: nat | p < MAX_N_OF_PROPOSERS
      ensures Told(TableAt(r, v, p), LearnerAt(v, p))
    {
      assert Told(TableAt(r, w, p), LearnerAt(w, p));
      if e.Reboot? && e.p == p {
        assert TableAt(r, v, p).notified == [] && TableAt(r, v, p).current == 1;
      } else {
        assert TableAt(r, v, p) == TableAt(r, w, p) && LearnerAt(v, p) == LearnerAt(w, p);
      }
    }
  }

  lemma EventTells(r: C.Rules, w: World, e: Event)
    requires r.Valid() && AllSized(w) && LearnersInOrder(r, w) && AllTold(r, w) && Happens(r, w, e)
    ensures AllTold(r, Do(r, w, e))
  {
    match e
    case Proposer(p, ev) => ProposerTells(r, w, p, ev);
    case Ack(l, ack) => AckTells(r, w, l, ack);
    case _ => OthersTell(r, w, e);
  }

  lemma {:induction false} RunTells(r: C.Rules, w: World, events: seq<Event>)
    requires r.Valid() && Run(r, w, events) && LearnersInOrder(r, w) && AllTold(r, w)
    ensures LearnersInOrder(r, After(r, w, events)) && AllTold(r, After(r, w, events))
    decreases |events|
  {
    if events != [] {
      EventKeepsLearners(r, w, events[0]);
      EventTells(r, w, events[0]);
      RunTells(r, Do(r, w, events[0]), events[1..]);
    }
  }

  /** Main result: on every run, through elections, crashes and restarts, the clients a proposer has
      told of success are at most as many, for each value, as the instances its own learner has
      delivered with that value: no report without a delivery, and none twice for one. */
  lemma SuccessIsDelivery(r: C.Rules, events: seq<Event>, p: nat)
    requires r.Valid() && Run(r, NEW_WORLD, events) && p < MAX_N_OF_PROPOSERS
    ensures var w := After(r, NEW_WORLD, events);
            multiset(TableAt(r, w, p).notified) <= multiset(B.ValuesOf(LearnerAt(w, p).delivered))
  {
    RunTells(r, NEW_WORLD, events);
    var w := After(r, NEW_WORLD, events);
    ToldInAll(TableAt(r, w, p), LearnerAt(w, p));
  }

  /** And on every run a value that loses its instance to another one is pending again, or out for a
      later instance. */
  lemma LosersWait(r: C.Rules, events: seq<Event>, p: nat, value: Value)
    requires Configured(r) && Run(r, NEW_WORLD, events) && AllSized(After(r, NEW_WORLD, events)) && p < MAX_N_OF_PROPOSERS
    requires var t := TableAt(r, After(r, NEW_WORLD, events), p);
             t.leading && t.At(t.current).iid == t.current && TR.Survives(OfficeOf(r, p), t, T.Delivered(value))
    ensures var t := TableAt(r, After(r, NEW_WORLD, events), p); var sl := t.At(t.current);
            var u := T.Handle(OfficeOf(r, p), t, T.Delivered(value));
            sl.p2.Some? && sl.p2.value != value ==> u.Sized() && (sl.p2.value in u.queue || N.HeldFrom(u, t.nextUnused, sl.p2.value))
  {
    StartShows(r);
    var s := RunShows(r, NEW_WORLD, C.INIT, events);
    assert TableOk(r, After(r, NEW_WORLD, events), s, p);
    N.DisplacedWaits(OfficeOf(r, p), TableAt(r, After(r, NEW_WORLD, events), p), value);
  }

  // ---- the network ----

  /** What the programs have sent is on the network: promises are there until they arrive. */
  ghost predicate Posted(r: C.Rules, w: World) {
    && (forall p: nat, pr :: pr in TableAt(r, w, p).prepares ==> pr in w.net.prepares)
    && (forall p: nat, ar :: ar in TableAt(r, w, p).accepts ==> ar in w.net.requests)
    && (forall a: nat, rec :: Accepted(rec) in S.Entries(AcceptorAt(w, a).out.sent) ==> C.Ack(a, rec) in w.net.acks)
  }

  lemma {:induction false} AcksAre(a: nat, es: seq<Entry>, rec: Record)
    ensures C.Ack(a, rec) in WP.AcksOf(a, es) <==> Accepted(rec) in es
  {
    if es != [] {
      AcksAre(a, es[1..], rec);
    }
  }

  lemma RequestsDo(r: C.Rules, w: World, a: nat, k: Kind, reqs: seq<W.Req>)
    requires r.Valid() && AllSized(w)
    ensures var x := AcceptorAt(w, a); var v := Do(r, w, Requests(a, k, reqs)); var es := W.Answers(r.repairs, W.StoreOf(x), reqs);
            && AcceptorAt(v, a) == W.HandleBatch(r.repairs, x, k, a, reqs)
            && v.net == w.net.(promises := w.net.promises + WP.PromisesOf(a, es), acks := w.net.acks + WP.AcksOf(a, es))
  {
  }

  lemma SentIsRest(x: W.Acceptor, y: W.Acceptor)
    requires S.Entries(x.out.sent) <= S.Entries(y.out.sent)
    ensures S.Entries(y.out.sent) == S.Entries(x.out.sent) + X.SentBy(x, y)
  {
  }

  lemma AnswersAreSent(repairs: Repairs, x: W.Acceptor, k: Kind, a: nat, reqs: seq<W.Req>, y: W.Acceptor)
    requires W.WrittenAhead(x) && y == W.HandleBatch(repairs, x, k, a, reqs)
    ensures S.Entries(y.out.sent) == S.Entries(x.out.sent) + X.SentBy(x, y)
    ensures X.SentBy(x, y) == Q.Replies(repairs, W.StoreOf(x), reqs)
  {
    Q.HandlerReplies(repairs, x, k, a, reqs);
    SentIsRest(x, y);
  }

  lemma RepliesAre(repairs: Repairs, x: W.Acceptor, reqs: seq<W.Req>)
    ensures W.Answers(repairs, W.StoreOf(x), reqs) == Q.Replies(repairs, W.StoreOf(x), reqs)
  {
    Q.StoreIsKeyed(x);
    Q.RequestsReply(repairs, W.StoreOf(x), reqs);
  }

  /** Acceptor x has become y and what it has sent meanwhile is on the network. */
  ghost predicate Posts(a: nat, x: W.Acceptor, y: W.Acceptor, was: Network, now: Network) {
    var es := X.SentBy(x, y);
    && S.Entries(y.out.sent) == S.Entries(x.out.sent) + es
    && now == was.(promises := was.promises + WP.PromisesOf(a, es), acks := was.acks + WP.AcksOf(a, es))
  }

  lemma PostsAll(repairs: Repairs, a: nat, x: W.Acceptor, k: Kind, reqs: seq<W.Req>, y: W.Acceptor, was: Network, now: Network)
    requires W.WrittenAhead(x) && y == W.HandleBatch(repairs, x, k, a, reqs)
    requires var es := W.Answers(repairs, W.StoreOf(x), reqs);
             now == was.(promises := was.promises + WP.PromisesOf(a, es), acks := was.acks + WP.AcksOf(a, es))
    ensures Posts(a, x, y, was, now) && X.SentBy(x, y) == Q.Replies(repairs, W.StoreOf(x), reqs)
  {
    RepliesAre(repairs, x, reqs);
    AnswersAreSent(repairs, x, k, a, reqs, y);
  }

  /** A handler puts on the network exactly the records of the messages it sends, which are the replies
      to its requests. */
  lemma HandlerPosts(r: C.Rules, w: World, a: nat, k: Kind, reqs: seq<W.Req>)
    requires r.Valid() && AllSized(w) && W.WrittenAhead(AcceptorAt(w, a))
    ensures var x := AcceptorAt(w, a); var v := Do(r, w, Requests(a, k, reqs));
            && Posts(a, x, AcceptorAt(v, a), w.net, v.net)
            && X.SentBy(x, AcceptorAt(v, a)) == Q.Replies(r.repairs, W.StoreOf(x), reqs)
  {
    var v := Do(r, w, Requests(a, k, reqs));
    RequestsDo(r, w, a, k, reqs);
    PostsAll(r.repairs, a, AcceptorAt(w, a), k, reqs, AcceptorAt(v, a), w.net, v.net);
  }

  lemma CutSends(repairs: Repairs, x: W.Acceptor, k: Kind, me: int, reqs: seq<W.Req>, pt: X.Point)
    requires W.WrittenAhead(x) && X.Inside(reqs, pt)
    ensures S.Entries(x.out.sent) <= S.Entries(X.At(repairs, x, k, me, reqs, pt).out.sent)
  {
    var c := x.(out := S.Cleared(x.out, k, me));
    var some := match pt case Before(j) => reqs[..j] case Within(j) => reqs[..j] case Ending => reqs;
    W.AnswerAllKeeps(repairs, c, some, W.AnswerAll(repairs, c, some));
    Q.AddAllKeeps(c.out, W.Answers(repairs, W.StoreOf(x), some));
  }

  lemma CutDoes(r: C.Rules, w: World, a: nat, k: Kind, reqs: seq<W.Req>, pt: X.Point)
    requires r.Valid() && AllSized(w) && X.Inside(reqs, pt)
    ensures var x := AcceptorAt(w, a); var v := Do(r, w, Cut(a, k, reqs, pt)); var y := X.At(r.repairs, x, k, a, reqs, pt);
            && AcceptorAt(v, a) == W.Crash(y)
            && v.net == w.net.(promises := w.net.promises + WP.PromisesOf(a, X.SentBy(x, y)),
                               acks := w.net.acks + WP.AcksOf(a, X.SentBy(x, y)))
  {
  }

  lemma CrashSends(x: W.Acceptor, y: W.Acceptor)
    requires S.Entries(x.out.sent) <= S.Entries(y.out.sent)
    ensures X.SentBy(x, W.Crash(y)) == X.SentBy(x, y) && S.Entries(W.Crash(y).out.sent) == S.Entries(x.out.sent) + X.SentBy(x, y)
  {
  }

  /** And so does one that a crash cuts short. */
  lemma CutPosts(r: C.Rules, w: World, a: nat, k: Kind, reqs: seq<W.Req>, pt: X.Point)
    requires r.Valid() && AllSized(w) && W.WrittenAhead(AcceptorAt(w, a)) && X.Inside(reqs, pt)
    ensures var v := Do(r, w, Cut(a, k, reqs, pt)); Posts(a, AcceptorAt(w, a), AcceptorAt(v, a), w.net, v.net)
  {
    CutDoes(r, w, a, k, reqs, pt);
    CutSends(r.repairs, AcceptorAt(w, a), k, a, reqs, pt);
    CrashSends(AcceptorAt(w, a), X.At(r.repairs, AcceptorAt(w, a), k, a, reqs, pt));
  }

  lemma AcksPosted(r: C.Rules, w: World, a: nat, v: World)
    requires Posted(r, w) && v.tables == w.tables && (forall b: nat :: b != a ==> AcceptorAt(v, b) == AcceptorAt(w, b))
    requires Posts(a, AcceptorAt(w, a), AcceptorAt(v, a), w.net, v.net)
    ensures Posted(r, v)
  {
    assert forall p: nat :: TableAt(r, v, p) == TableAt(r, w, p);
    forall b: nat, rec | Accepted(rec) in S.Entries(AcceptorAt(v, b).out.sent)
      ensures C.Ack(b, rec) in v.net.acks
    {
      AcksAre(a, X.SentBy(AcceptorAt(w, a), AcceptorAt(v, a)), rec);
    }
  }

  lemma RequestsPosted(r: C.Rules, w: World, p: nat, ev: T.Event)
    requires r.Valid() && AllSized(w) && Posted(r, w) && Happens(r, w, Proposer(p, ev))
    ensures Posted(r, Do(r, w, Proposer(p, ev)))
  {
    var v := Do(r, w, Proposer(p, ev));
    assert forall q: nat :: q != p ==> TableAt(r, v, q) == TableAt(r, w, q);
    assert forall a: nat :: AcceptorAt(v, a) == AcceptorAt(w, a);
  }

  lemma OthersPosted(r: C.Rules, w: World, e: Event)
    requires r.Valid() && AllSized(w) && Posted(r, w) && Happens(r, w, e) && !e.Proposer? && !e.Requests? && !e.Cut?
    ensures Posted(r, Do(r, w, e))
  {
    OthersSend(r, w, e);
    PostedStill(r, w, Do(r, w, e));
  }

  lemma OthersSend(r: C.Rules, w: World, e: Event)
    requires r.Valid() && AllSized(w) && Happens(r, w, e) && !e.Proposer? && !e.Requests? && !e.Cut?
    ensures Do(r, w, e).net == w.net && SendsNothing(r, w, Do(r, w, e))
  {
  }

  ghost predicate SendsNothing(r: C.Rules, w: World, v: World) {
    && (forall p: nat :: TableAt(r, v, p).prepares <= TableAt(r, w, p).prepares)
    && (forall p: nat :: TableAt(r, v, p).accepts <= TableAt(r, w, p).accepts)
    && (forall a: nat :: AcceptorAt(v, a).out.sent == AcceptorAt(w, a).out.sent)
  }

  lemma PostedStill(r: C.Rules, w: World, v: World)
    requires Posted(r, w) && v.net == w.net && SendsNothing(r, w, v)
    ensures Posted(r, v)
  {
  }

  lemma EventPosts(r: C.Rules, w: World, e: Event)
    requires r.Valid() && AllSized(w) && Posted(r, w) && Happens(r, w, e)
    requires forall a: nat :: a < r.n ==> W.WrittenAhead(AcceptorAt(w, a))
    ensures Posted(r, Do(r, w, e))
  {
    var v := Do(r, w, e);
    match e
    case Requests(a, k, reqs) =>
      HandlerPosts(r, w, a, k, reqs);
      AcksPosted(r, w, a, v);
    case Cut(a, k, reqs, pt) =>
      CutPosts(r, w, a, k, reqs, pt);
      AcksPosted(r, w, a, v);
    case Proposer(p, ev) => RequestsPosted(r, w, p, ev);
    case _ => OthersPosted(r, w, e);
  }

  lemma {:induction false} RunPosts(r: C.Rules, w: World, s: C.State, events: seq<Event>)
    requires Configured(r) && C.Reachable(r, s) && Shows(r, w, s) && Run(r, w, events) && Posted(r, w)
    ensures Posted(r, After(r, w, events))
    decreases |events|
  {
    if events != [] {
      forall a: nat | a < r.n
        ensures W.WrittenAhead(AcceptorAt(w, a))
      {
        assert AcceptorOk(w, s, a);
      }
      EventPosts(r, w, events[0]);
      var u := EventShows(r, w, s, events[0]);
      RunPosts(r, Do(r, w, events[0]), u, events[1..]);
    }
  }

  /** On every run every request of a proposer that has not been started again since, and every ack of
      an acceptor, whether it has been through crashes or not, is on the network. */
  lemma EverythingIsPosted(r: C.Rules, events: seq<Event>)
    requires Configured(r) && Run(r, NEW_WORLD, events)
    ensures Posted(r, After(r, NEW_WORLD, events))
  {
    StartShows(r);
    RunPosts(r, NEW_WORLD, C.INIT, events);
  }
}
