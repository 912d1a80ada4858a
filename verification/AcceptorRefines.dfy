/** The acceptor's store is the acceptor of the protocol: what a batch of requests makes it write
    and answer is a sequence of steps of Consensus. */
module AcceptorRefines {
  import opened Messages
  import opened Wire
  import opened WriteAhead
  import C = Consensus
  import R = Runs
  import A = AcceptorSpec

  /** The records of acceptor a in state s are those of the store. */
  ghost predicate Stores(s: C.State, a: nat, store: map<nat, Record>) {
    forall iid: nat :: C.RecordAt(s, a, iid) == Find(store, iid)
  }

  /** The request has been sent by some proposer; a record is repeated only if it has a value. */
  ghost predicate Arrives(s: C.State, store: map<nat, Record>, req: Req) {
    match req
    case Prepares(pr) => pr in s.prepares
    case Accepts(ar) => exists from :: C.Issue(ar.iid, ar.ballot, ar.value, from) in s.issues
    case Repeats(iid) => true
    case Latest(iid) => iid in store && store[iid].value != []
  }

  ghost predicate AllArrive(repairs: Repairs, s: C.State, store: map<nat, Record>, reqs: seq<Req>)
    decreases |reqs|
  {
    reqs == []
    || (Arrives(s, store, reqs[0])
        && AllArrive(repairs, s, WriteAll(store, EffectOf(repairs, store, reqs[0]).writes), reqs[1..]))
  }

  /** The promises among the answers, and the acks. */
  function PromisesOf(a: nat, es: seq<Entry>): multiset<C.Promise> {
    if es == [] then multiset{}
    else (if es[0].Promise? then multiset{C.Promise(a, es[0].pa)} else multiset{}) + PromisesOf(a, es[1..])
  }

  function AcksOf(a: nat, es: seq<Entry>): set<C.Ack> {
    if es == [] then {} else (if es[0].Accepted? then {C.Ack(a, es[0].rec)} else {}) + AcksOf(a, es[1..])
  }

  /** What an acceptor's own steps leave alone. */
  ghost predicate Beside(s: C.State, u: C.State, a: nat) {
    && u.proposers == s.proposers && u.learners == s.learners && u.prepares == s.prepares && u.issues == s.issues
    && forall b: nat, iid: nat :: b != a ==> C.RecordAt(u, b, iid) == C.RecordAt(s, b, iid)
  }

  /** The network has got the answers, and nothing else. */
  ghost predicate Sends(s: C.State, u: C.State, a: nat, es: seq<Entry>) {
    u.promises == s.promises + PromisesOf(a, es) && u.acks == s.acks + AcksOf(a, es)
  }

  lemma SendsNothing(s: C.State, a: nat)
    ensures Sends(s, s, a, [])
  {
  }

  lemma SendsOne(s: C.State, u: C.State, a: nat, e: Entry)
    requires u.promises == s.promises + if e.Promise? then multiset{C.Promise(a, e.pa)} else multiset{}
    requires u.acks == s.acks + if e.Accepted? then {C.Ack(a, e.rec)} else {}
    ensures Sends(s, u, a, [e])
  {
    assert [e][1..] == [];
    assert PromisesOf(a, []) == multiset{} && AcksOf(a, []) == {};
  }

  lemma SendsFirst(s: C.State, v: C.State, u: C.State, a: nat, es: seq<Entry>, rest: seq<Entry>)
    requires |es| <= 1 && Sends(s, v, a, es) && Sends(v, u, a, rest)
    ensures Sends(s, u, a, es + rest)
  {
    if es == [] {
      assert es + rest == rest;
    } else {
      var one := if es[0].Promise? then multiset{C.Promise(a, es[0].pa)} else multiset{};
      var ack := if es[0].Accepted? then {C.Ack(a, es[0].rec)} else {};
      assert es[1..] == [];
      assert PromisesOf(a, es) == one && AcksOf(a, es) == ack;
      assert (es + rest)[1..] == rest && (es + rest)[0] == es[0];
      assert PromisesOf(a, es + rest) == one + PromisesOf(a, rest);
      assert AcksOf(a, es + rest) == ack + AcksOf(a, rest);
    }
  }

  lemma StillArrives(repairs: Repairs, s: C.State, u: C.State, store: map<nat, Record>, reqs: seq<Req>)
    requires AllArrive(repairs, s, store, reqs) && u.prepares == s.prepares && u.issues == s.issues
    ensures AllArrive(repairs, u, store, reqs)
    decreases |reqs|
  {
    if reqs != [] {
      StillArrives(repairs, s, u, WriteAll(store, EffectOf(repairs, store, reqs[0]).writes), reqs[1..]);
    }
  }

  lemma WrittenRecord(s: C.State, a: nat, store: map<nat, Record>, rec: Record, u: C.State)
    requires Stores(s, a, store) && u.records == s.records[C.Key(a, rec.iid) := rec]
    ensures Stores(u, a, WriteAll(store, [rec]))
  {
    assert [rec][..0] == [];
    assert WriteAll(store, [rec]) == store[rec.iid := rec];
    forall iid: nat
      ensures C.RecordAt(u, a, iid) == Find(store[rec.iid := rec], iid)
    {
      assert C.RecordAt(s, a, iid) == Find(store, iid);
    }
  }

  lemma NothingWritten(s: C.State, a: nat, store: map<nat, Record>, u: C.State)
    requires Stores(s, a, store) && u.records == s.records
    ensures Stores(u, a, WriteAll(store, []))
  {
    forall iid: nat
      ensures C.RecordAt(u, a, iid) == Find(store, iid)
    {
      assert C.RecordAt(s, a, iid) == Find(store, iid);
    }
  }

  lemma PrepareIsStep(r: C.Rules, s: C.State, a: nat, store: map<nat, Record>, pr: PrepareReq) returns (u: C.State)
    requires r.Valid() && C.Reachable(r, s) && a < r.n && Stores(s, a, store) && pr in s.prepares
    requires A.ApplyPrepare(pr, Find(store, pr.iid)).Some?
    ensures var rec := A.ApplyPrepare(pr, Find(store, pr.iid)).value;
            && C.Reachable(r, u) && Beside(s, u, a)
            && Stores(u, a, WriteAll(store, [rec])) && Sends(s, u, a, [Promise(A.PromiseOf(rec))])
  {
    assert C.RecordAt(s, a, pr.iid) == Find(store, pr.iid);
    var rec := A.ApplyPrepare(pr, Find(store, pr.iid)).value;
    u := R.Go(r, s, C.Prepare(a, pr));
    WrittenRecord(s, a, store, rec, u);
    SendsOne(s, u, a, Promise(A.PromiseOf(rec)));
  }

  lemma AcceptIsStep(r: C.Rules, s: C.State, a: nat, store: map<nat, Record>, ar: AcceptReq) returns (u: C.State)
    requires r.Valid() && C.Reachable(r, s) && a < r.n && Stores(s, a, store) && Arrives(s, store, Accepts(ar))
    requires A.ApplyAccept(r.repairs, ar, Find(store, ar.iid)).Some?
    ensures var rec := A.ApplyAccept(r.repairs, ar, Find(store, ar.iid)).value;
            && C.Reachable(r, u) && Beside(s, u, a)
            && Stores(u, a, WriteAll(store, [rec])) && Sends(s, u, a, [Accepted(rec)])
  {
    assert C.RecordAt(s, a, ar.iid) == Find(store, ar.iid);
    var from :| C.Issue(ar.iid, ar.ballot, ar.value, from) in s.issues;
    u := R.Go(r, s, C.Accept(a, C.Issue(ar.iid, ar.ballot, ar.value, from)));
    WrittenRecord(s, a, store, A.AcceptedRecord(ar), u);
    SendsOne(s, u, a, Accepted(A.AcceptedRecord(ar)));
  }

  lemma RepeatIsStep(r: C.Rules, s: C.State, a: nat, store: map<nat, Record>, iid: nat) returns (u: C.State)
    requires r.Valid() && C.Reachable(r, s) && a < r.n && Stores(s, a, store) && iid in store && store[iid].value != []
    ensures C.Reachable(r, u) && Beside(s, u, a) && Stores(u, a, WriteAll(store, [])) && Sends(s, u, a, [Accepted(store[iid])])
  {
    assert C.RecordAt(s, a, iid) == Find(store, iid);
    u := R.Go(r, s, C.Repeat(a, iid));
    NothingWritten(s, a, store, u);
    SendsOne(s, u, a, Accepted(store[iid]));
  }

  /** One request is one step, or none. */
  lemma RequestIsRun(r: C.Rules, s: C.State, a: nat, store: map<nat, Record>, req: Req) returns (u: C.State)
    requires r.Valid() && C.Reachable(r, s) && a < r.n && Stores(s, a, store) && Arrives(s, store, req)
    ensures var effect := EffectOf(r.repairs, store, req);
            && C.Reachable(r, u) && Beside(s, u, a) && Stores(u, a, WriteAll(store, effect.writes))
            && Sends(s, u, a, effect.answers)
  {
    u := s;
    SendsNothing(s, a);
    NothingWritten(s, a, store, s);
    match req
    case Prepares(pr) =>
      if A.ApplyPrepare(pr, Find(store, pr.iid)).Some? {
        u := PrepareIsStep(r, s, a, store, pr);
      }
    case Accepts(ar) =>
      if A.ApplyAccept(r.repairs, ar, Find(store, ar.iid)).Some? {
        u := AcceptIsStep(r, s, a, store, ar);
      }
    case Repeats(iid) =>
      if iid in store && store[iid].value != [] {
        u := RepeatIsStep(r, s, a, store, iid);
      }
    case Latest(iid) =>
      u := RepeatIsStep(r, s, a, store, iid);
  }

  /** Main result: a batch of requests is a run of the protocol that ends with the store of the
      acceptor and sends exactly its answers. */
  lemma {:induction false} BatchIsRun(r: C.Rules, s: C.State, a: nat, store: map<nat, Record>, reqs: seq<Req>) returns (u: C.State)
    requires r.Valid() && C.Reachable(r, s) && a < r.n && Stores(s, a, store) && AllArrive(r.repairs, s, store, reqs)
    ensures C.Reachable(r, u) && Beside(s, u, a) && Stores(u, a, StoreAfter(r.repairs, store, reqs))
    ensures Sends(s, u, a, Answers(r.repairs, store, reqs))
    decreases |reqs|
  {
    u := s;
    SendsNothing(s, a);
    if reqs != [] {
      var effect := EffectOf(r.repairs, store, reqs[0]);
      var v := RequestIsRun(r, s, a, store, reqs[0]);
      var next := WriteAll(store, effect.writes);
      StillArrives(r.repairs, s, v, next, reqs[1..]);
      u := BatchIsRun(r, v, a, next, reqs[1..]);
      SendsFirst(s, v, u, a, effect.answers, Answers(r.repairs, next, reqs[1..]));
    }
  }

  /** The class of lib/acceptor.c handles its batches this way, messages and transactions
      included: after a handler the committed store is that of a state the protocol reaches. */
  lemma HandlerIsRun(r: C.Rules, s: C.State, x: Acceptor, k: Kind, a: nat, reqs: seq<Req>) returns (u: C.State)
    requires r.Valid() && C.Reachable(r, s) && a < r.n && WrittenAhead(x)
    requires Stores(s, a, StoreOf(x)) && AllArrive(r.repairs, s, StoreOf(x), reqs)
    ensures C.Reachable(r, u) && Beside(s, u, a) && Sends(s, u, a, Answers(r.repairs, StoreOf(x), reqs))
    ensures Stores(u, a, Replay(HandleBatch(r.repairs, x, k, a, reqs).disk.log))
  {
    HandleBatchWritesAhead(r.repairs, x, k, a, reqs);
    u := BatchIsRun(r, s, a, StoreOf(x), reqs);
  }
}
