/** The ballots a leader uses: for one instance, each phase 1 of a leadership has a higher one. */
module LeaderBallots {
  import opened PaxosConfig
  import opened Messages
  import opened SlotSpec
  import opened LeaderSpec
  import opened LeaderSteps
  import opened LeaderRuns
  import opened LeaderOverrun

  /** Of two prepare requests for one instance the later one has the higher ballot. */
  ghost predicate Rising(prs: seq<PrepareReq>) {
    forall j, k :: 0 <= j < k < |prs| && prs[j].iid == prs[k].iid ==> prs[j].ballot < prs[k].ballot
  }

  /** The requests are for instances already opened, and no slot is behind what was sent for it. */
  ghost predicate Covered(t: Table, prs: seq<PrepareReq>)
    requires t.Sized()
  {
    forall pr :: pr in prs ==>
      1 <= pr.iid <= t.highestOpen && (t.At(pr.iid).iid == pr.iid ==> pr.ballot <= t.At(pr.iid).ballot)
  }

  /** The requests sent from number `base` on. */
  ghost predicate RisesFrom(t: Table, base: nat)
    requires t.Sized()
  {
    base <= |t.prepares| && Rising(t.prepares[base..]) && Covered(t, t.prepares[base..])
  }

  /** No slot has changed its instance or its ballot, though it may have been cleared. */
  ghost predicate SameBallots(t: Table, r: Table)
    requires t.Sized() && r.Sized()
  {
    forall j: nat :: j >= 1 && r.At(j).iid == j ==> t.At(j).iid == j && r.At(j).ballot == t.At(j).ballot
  }

  lemma RisesStill(t: Table, r: Table, base: nat)
    requires t.Sized() && r.Sized() && RisesFrom(t, base) && r.prepares == t.prepares
    requires SameBallots(t, r) && t.highestOpen <= r.highestOpen
    ensures RisesFrom(r, base)
  {
  }

  /** One request more, for an instance whose slot had a lower ballot, or for one not opened before. */
  lemma RisesOn(t: Table, r: Table, base: nat, pr: PrepareReq)
    requires t.Sized() && r.Sized() && RisesFrom(t, base) && r.prepares == t.prepares + [pr] && t.highestOpen <= r.highestOpen
    requires 1 <= pr.iid <= r.highestOpen && r.At(pr.iid).iid == pr.iid && r.At(pr.iid).ballot == pr.ballot
    requires pr.iid > t.highestOpen || (t.At(pr.iid).iid == pr.iid && t.At(pr.iid).ballot < pr.ballot)
    requires forall j: nat :: j >= 1 && j != pr.iid && r.At(j).iid == j ==> t.At(j).iid == j && r.At(j).ballot == t.At(j).ballot
    ensures RisesFrom(r, base)
  {
    var was, now := t.prepares[base..], r.prepares[base..];
    assert now == was + [pr];
    forall p | p in now
      ensures 1 <= p.iid <= r.highestOpen && (r.At(p.iid).iid == p.iid ==> p.ballot <= r.At(p.iid).ballot)
    {
      if p != pr {
        assert p in was;
      }
    }
    forall j, k | 0 <= j < k < |now| && now[j].iid == now[k].iid
      ensures now[j].ballot < now[k].ballot
    {
      assert now[j] == was[j] && was[j] in was;
      if k < |was| {
        assert now[k] == was[k];
      }
    }
  }

  // ---- the handlers ----

  lemma VisitRises(c: Office, job: Job, t: Table, i: nat, base: nat)
    requires Sane(c, t) && t.leading && !job.Drop? && InReach(job, t, i) && RisesFrom(t, base)
    ensures RisesFrom(Visit(c, job, t, i), base)
  {
    VisitSane(c, job, t, i);
    AtPlace(c, t, i);
    var r := Visit(c, job, t, i);
    forall j: nat | j >= 1 && j != i && r.At(j).iid == j
      ensures r.At(j) == t.At(j)
    {
      assert r.At(i).iid == i;
    }
    if r.prepares == t.prepares {
      RisesStill(t, r, base);
    } else {
      RisesOn(t, r, base, PrepareReq(i, t.At(i).ballot + MAX_N_OF_PROPOSERS));
    }
  }

  lemma {:induction false} EachRises(c: Office, job: Job, t: Table, from: nat, to: nat, e: Table, base: nat)
    requires Sane(c, t) && t.leading && !job.Drop? && t.current <= from && to == Stop(job, t) && RisesFrom(t, base)
    requires e == Each(c, job, t, from, to)
    ensures RisesFrom(e, base)
    decreases if from < to then to - from else 0
  {
    if from < to {
      VisitRises(c, job, t, from, base);
      VisitSane(c, job, t, from);
      EachRises(c, job, Visit(c, job, t, from), from + 1, to, e, base);
    }
  }

  lemma OpenOneRises(c: Office, t: Table, base: nat)
    requires Sane(c, t) && t.leading && t.At(t.highestOpen + 1).status == Empty && RisesFrom(t, base)
    ensures RisesFrom(OpenOne(c, t), base)
  {
    OpenOneSane(c, t);
    RisesOn(t, OpenOne(c, t), base, PrepareReq(t.highestOpen + 1, MAX_N_OF_PROPOSERS + c.me));
  }

  lemma {:induction false} OpenManyRises(c: Office, t: Table, k: nat, e: Table, base: nat)
    requires Sane(c, t) && t.leading && k <= |t.slots| && OpensEmptySlots(t, k) && e == OpenMany(c, t, k) && RisesFrom(t, base)
    ensures RisesFrom(e, base)
    decreases k
  {
    if k > 0 {
      StillEmpty(c, t, k);
      OpenOneSane(c, t);
      OpenOneRises(c, t, base);
      OpenManyRises(c, OpenOne(c, t), k - 1, e, base);
    }
  }

  lemma {:induction false} ExecuteManyRises(c: Office, t: Table, e: Table, base: nat)
    requires Sane(c, t) && t.leading && e == ExecuteMany(c, t) && RisesFrom(t, base)
    ensures RisesFrom(e, base)
    decreases PROPOSER_P2_CONCURRENCY + 1 - t.openCount
  {
    if t.openCount <= PROPOSER_P2_CONCURRENCY && CanExecute(t) {
      ExecuteNextSane(c, t);
      RisesStill(t, ExecuteNext(c, t), base);
      ExecuteManyRises(c, ExecuteNext(c, t), e, base);
    }
  }

  lemma OpenNewRises(c: Office, t: Table, base: nat)
    requires Sane(c, t) && t.leading && RisesFrom(t, base)
    ensures RisesFrom(OpenNew(c, t), base)
  {
    ExecuteManyRises(c, t, ExecuteMany(c, t), base);
  }

  lemma {:induction false} HandlePromisesRise(c: Office, t: Table, from: nat, batch: seq<PrepareAck>, base: nat)
    requires Sane(c, t) && t.leading && RisesFrom(t, base)
    ensures RisesFrom(HandlePromises(c, t, from, batch), base)
    decreases |batch|
  {
    if batch != [] {
      HandlePromiseSane(c, t, from, batch[0]);
      RisesStill(t, HandlePromise(c, t, from, batch[0]), base);
      HandlePromisesRise(c, HandlePromise(c, t, from, batch[0]), from, batch[1..], base);
    }
  }

  lemma BatchRises(c: Office, t: Table, from: nat, batch: seq<PrepareAck>, base: nat)
    requires Sane(c, t) && t.leading && RisesFrom(t, base)
    ensures RisesFrom(HandleBatch(c, t, from, batch), base)
  {
    var heard := HandlePromises(c, t, from, batch);
    HandlePromisesSane(c, t, from, batch, heard);
    HandlePromisesRise(c, t, from, batch, base);
    var sent := Each(c, Resend, heard, heard.current, heard.nextUnused);
    EachSane(c, Resend, heard, heard.current, heard.nextUnused, sent);
    EachRises(c, Resend, heard, heard.current, heard.nextUnused, sent, base);
    OpenNewRises(c, sent, base);
  }

  lemma P1CheckRises(c: Office, t: Table, expired: set<nat>, base: nat)
    requires Sane(c, t) && t.leading && |t.slots| > PROPOSER_PREEXEC_WIN_SIZE && Survives(c, t, P1Timer(expired)) && RisesFrom(t, base)
    ensures RisesFrom(P1Check(c, t, expired), base)
  {
    var e := Each(c, Retry(expired), t, t.current, t.highestOpen + 1);
    EachSane(c, Retry(expired), t, t.current, t.highestOpen + 1, e);
    EachRises(c, Retry(expired), t, t.current, t.highestOpen + 1, e, base);
    OpenManyRises(c, e, ToOpen(e), OpenP1(c, e), base);
  }

  lemma P2CheckRises(c: Office, t: Table, closed: set<nat>, expired: set<nat>, base: nat)
    requires Sane(c, t) && t.leading && RisesFrom(t, base)
    ensures RisesFrom(P2Check(c, t, closed, expired), base)
  {
    var e := Each(c, Restart(closed, expired), t, t.current, t.nextUnused);
    EachSane(c, Restart(closed, expired), t, t.current, t.nextUnused, e);
    EachRises(c, Restart(closed, expired), t, t.current, t.nextUnused, e, base);
    OpenNewRises(c, e, base);
  }

  lemma DeliverRises(c: Office, t: Table, value: Value, base: nat)
    requires Sane(c, t) && RisesFrom(t, base)
    ensures RisesFrom(Deliver(c, t, value), base)
  {
    if t.leading && t.At(t.current).iid == t.current {
      var r := Release(c, t, value).(current := t.current + 1);
      ReleaseSane(c, t, value);
      RisesStill(t, r, base);
      OpenNewRises(c, r, base);
    } else {
      RisesStill(t, t.(current := t.current + 1), base);
    }
  }

  lemma ShutdownRises(c: Office, t: Table, base: nat)
    requires Sane(c, t) && RisesFrom(t, base)
    ensures RisesFrom(Shutdown(c, t), base)
  {
    var e := Each(c, Drop, t, t.current, t.highestOpen + 1);
    DropClears(c, t, t.current, t.highestOpen + 1, e);
    RisesStill(t, Shutdown(c, t), base);
  }

  lemma HandleRises(c: Office, t: Table, ev: Event, base: nat)
    requires Sane(c, t) && |t.slots| > PROPOSER_PREEXEC_WIN_SIZE && Possible(t, ev) && Survives(c, t, ev) && !ev.Elected?
    requires RisesFrom(t, base)
    ensures RisesFrom(Handle(c, t, ev), base)
  {
    match ev
    case Deposed => ShutdownRises(c, t, base);
    case P1Timer(expired) => P1CheckRises(c, t, expired, base);
    case P2Timer(closed, expired) => P2CheckRises(c, t, closed, expired, base);
    case Promises(from, batch) =>
      if t.leading {
        BatchRises(c, t, from, batch, base);
      }
    case Delivered(value) => DeliverRises(c, t, value, base);
    case Submitted(value) => RisesStill(t, Submit(t, value), base);
  }

  // ---- runs ----

  lemma {:induction false} RunRises(c: Office, t: Table, events: seq<Event>, base: nat)
    requires Sane(c, t) && |t.slots| > PROPOSER_PREEXEC_WIN_SIZE && Run(c, t, events) && Elected !in events && RisesFrom(t, base)
    ensures RisesFrom(After(c, t, events), base)
    decreases |events|
  {
    if events != [] {
      HandleRises(c, t, events[0], base);
      HandleSane(c, t, events[0]);
      RunRises(c, Handle(c, t, events[0]), events[1..], base);
    }
  }

  /** On every run from an election to the next one, of the prepare requests sent for an instance each
      has a higher ballot than the one before. */
  lemma LeadershipRises(c: Office, t: Table, events: seq<Event>)
    requires Sane(c, t) && |t.slots| > PROPOSER_PREEXEC_WIN_SIZE && events != [] && events[0] == Elected && Elected !in events[1..]
    requires Run(c, t, events)
    ensures |t.prepares| <= |After(c, t, events).prepares| && Rising(After(c, t, events).prepares[|t.prepares|..])
  {
    var base := |t.prepares|;
    ResetSane(c, t);
    OpenManyRises(c, Reset(t), ToOpen(Reset(t)), Promote(c, t), base);
    HandleSane(c, t, Elected);
    RunRises(c, Promote(c, t), events[1..], base);
  }
}
