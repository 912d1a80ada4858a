/** Crashes in the middle of a batch handler: what is committed then is what some first part of
    the batch leaves, and the messages that are out tell of nothing beyond it. */
module Interruption {
  import opened Messages
  import opened Wire
  import opened SendBuffer
  import opened WriteAhead

  /** Where a handler may be when the process dies. */
  datatype Point =
    | Before(j: nat)    // request j is about to be read
    | Within(j: nat)    // request j has been applied, and the transaction ended to make room for its answer
    | Ending            // the last commit is done, nothing has been flushed since

  predicate Inside(reqs: seq<Req>, pt: Point) {
    match pt
    case Before(j) => j <= |reqs|
    case Within(j) => j < |reqs|
    case Ending => true
  }

  /** The acceptor at that point of handling a batch. */
  function At(repairs: Repairs, x: Acceptor, k: Kind, me: int, reqs: seq<Req>, pt: Point): Acceptor
    requires Inside(reqs, pt)
  {
    var c := x.(out := Cleared(x.out, k, me));
    match pt
    case Before(j) => AnswerAll(repairs, c, reqs[..j])
    case Within(j) =>
      var y := AnswerAll(repairs, c, reqs[..j]);
      Commit(Written(y, EffectOf(repairs, StoreOf(y), reqs[j]).writes))
    case Ending => Commit(AnswerAll(repairs, c, reqs))
  }

  // ---- one more request at the end of a batch ----

  lemma {:induction false} AnswerOneMore(repairs: Repairs, x: Acceptor, reqs: seq<Req>, req: Req)
    ensures AnswerAll(repairs, x, reqs + [req]) == AnswerOne(repairs, AnswerAll(repairs, x, reqs), req)
    decreases |reqs|
  {
    var all := reqs + [req];
    if reqs == [] {
      assert all[1..] == [];
      assert AnswerAll(repairs, x, all) == AnswerAll(repairs, AnswerOne(repairs, x, req), []);
    } else {
      assert all[1..] == reqs[1..] + [req];
      AnswerOneMore(repairs, AnswerOne(repairs, x, reqs[0]), reqs[1..], req);
    }
  }

  lemma {:induction false} StoreOneMore(repairs: Repairs, store: map<nat, Record>, reqs: seq<Req>, req: Req)
    ensures var last := StoreAfter(repairs, store, reqs);
            && StoreAfter(repairs, store, reqs + [req]) == WriteAll(last, EffectOf(repairs, last, req).writes)
            && Answers(repairs, store, reqs + [req]) == Answers(repairs, store, reqs) + EffectOf(repairs, last, req).answers
    decreases |reqs|
  {
    var all := reqs + [req];
    if reqs == [] {
      assert all[1..] == [];
      var next := WriteAll(store, EffectOf(repairs, store, req).writes);
      assert StoreAfter(repairs, next, []) == next && Answers(repairs, next, []) == [];
    } else {
      assert all[1..] == reqs[1..] + [req];
      var effect := EffectOf(repairs, store, reqs[0]);
      var next := WriteAll(store, effect.writes);
      StoreOneMore(repairs, next, reqs[1..], req);
      Regrouped(effect.answers, Answers(repairs, next, reqs[1..]),
                EffectOf(repairs, StoreAfter(repairs, next, reqs[1..]), req).answers);
    }
  }

  lemma Regrouped(a: seq<Entry>, b: seq<Entry>, c: seq<Entry>)
    ensures a + (b + c) == (a + b) + c
  {
  }

  // ---- what is sent and what is committed ----

  /** Something is in the message exactly when it is dirty. */
  predicate Honest(o: Out) {
    o.dirty <==> o.current != []
  }

  lemma AddSends(o: Out, e: Entry)
    requires Honest(o)
    ensures var r := Add(o, e);
            && Honest(r) && Entries(r.sent) + r.current == Entries(o.sent) + o.current + [e]
            && Entries(r.sent) == if Splits(o, e) then Entries(o.sent) + o.current else Entries(o.sent)
  {
    if Splits(o, e) && o.dirty {
      EntriesOneMore(o.sent, Batch(o.kind, o.sender, o.current));
    } else if Splits(o, e) {
      assert Entries(o.sent) + o.current == Entries(o.sent);
    }
  }

  /** Acceptor y stands j requests into the batch: the first i are committed, and what has been
      sent since the start is a first part of their answers. */
  ghost predicate Stands(repairs: Repairs, x: Acceptor, reqs: seq<Req>, j: nat, i: nat, y: Acceptor)
    requires i <= j <= |reqs|
  {
    var store := StoreOf(x);
    && WrittenAhead(y) && Honest(y.out)
    && StoreOf(y) == StoreAfter(repairs, store, reqs[..j])
    && Replay(y.disk.log) == StoreAfter(repairs, store, reqs[..i])
    && Entries(y.out.sent) + y.out.current == Entries(x.out.sent) + Answers(repairs, store, reqs[..j])
    && |Entries(y.out.sent)| <= |Entries(x.out.sent)| + |Answers(repairs, store, reqs[..i])|
  }

  lemma NextStands(repairs: Repairs, x: Acceptor, reqs: seq<Req>, j: nat, i: nat, y: Acceptor) returns (i': nat)
    requires i <= j < |reqs| && Stands(repairs, x, reqs, j, i, y)
    ensures i' <= j + 1 && Stands(repairs, x, reqs, j + 1, i', AnswerOne(repairs, y, reqs[j]))
  {
    var req := reqs[j];
    var effect := EffectOf(repairs, StoreOf(y), req);
    var z := Written(y, effect.writes);
    var r := AnswerOne(repairs, y, req);
    assert reqs[..j + 1] == reqs[..j] + [req];
    StoreOneMore(repairs, StoreOf(x), reqs[..j], req);
    AnswerOneKeeps(repairs, y, req);
    AnswerIsBacked(repairs, y.disk.log + y.disk.open, req);
    i' := i;
    if effect.answers == [] {
      assert Answers(repairs, StoreOf(x), reqs[..j + 1]) == Answers(repairs, StoreOf(x), reqs[..j]);
    } else {
      var e := effect.answers[0];
      assert effect.answers == [e];
      AddSends(y.out, e);
      Regrouped(Entries(x.out.sent), Answers(repairs, StoreOf(x), reqs[..j]), [e]);
      if Splits(y.out, e) {
        i' := j + 1;
        assert Replay(r.disk.log) == StoreOf(z) by {
          assert r.disk.log == z.disk.log + z.disk.open;
        }
        WritesKeep(y, effect.writes);
      }
    }
  }

  /** Before every request the acceptor stands as the last commit has left it. */
  lemma {:induction false} HandlerStands(repairs: Repairs, x: Acceptor, k: Kind, me: int, reqs: seq<Req>, j: nat) returns (i: nat)
    requires WrittenAhead(x) && x.disk.open == [] && j <= |reqs|
    ensures i <= j && Stands(repairs, x, reqs, j, i, AnswerAll(repairs, x.(out := Cleared(x.out, k, me)), reqs[..j]))
  {
    var c := x.(out := Cleared(x.out, k, me));
    if j == 0 {
      i := 0;
      assert reqs[..0] == [];
      assert x.disk.log + x.disk.open == x.disk.log;
      assert Entries(x.out.sent) + [] == Entries(x.out.sent);
    } else {
      var before := HandlerStands(repairs, x, k, me, reqs, j - 1);
      assert reqs[..j] == reqs[..j - 1] + [reqs[j - 1]];
      AnswerOneMore(repairs, c, reqs[..j - 1], reqs[j - 1]);
      i := NextStands(repairs, x, reqs, j - 1, before, AnswerAll(repairs, c, reqs[..j - 1]));
    }
  }

  /** What has been sent since x. */
  function SentBy(x: Acceptor, y: Acceptor): seq<Entry> {
    var before := |Entries(x.out.sent)|;
    if before <= |Entries(y.out.sent)| then Entries(y.out.sent)[before..] else []
  }

  /** What a crash leaves: committed is what the first i requests of the batch leave, and the
      messages sent carry a first part of their answers. */
  ghost predicate Leaves(repairs: Repairs, x: Acceptor, reqs: seq<Req>, i: nat, y: Acceptor)
    requires i <= |reqs|
  {
    && WrittenAhead(Crash(y))
    && StoreOf(Crash(y)) == StoreAfter(repairs, StoreOf(x), reqs[..i])
    && SentBy(x, y) <= Answers(repairs, StoreOf(x), reqs[..i])
  }

  lemma StandsLeaves(repairs: Repairs, x: Acceptor, reqs: seq<Req>, j: nat, i: nat, y: Acceptor)
    requires i <= j <= |reqs| && Stands(repairs, x, reqs, j, i, y)
    ensures Leaves(repairs, x, reqs, i, y)
  {
    assert y.disk.log + [] == y.disk.log;
    StepWritesAheadFromAnywhere(y);
    AnswersAreFirst(repairs, StoreOf(x), reqs, i, j);
    var a := Entries(x.out.sent);
    var all := a + Answers(repairs, StoreOf(x), reqs[..j]);
    assert Entries(y.out.sent) <= all && a <= all;
    if |a| <= |Entries(y.out.sent)| {
      assert SentBy(x, y) == all[|a|..|Entries(y.out.sent)|];
    }
  }

  /** A crash is safe wherever the acceptor stands. */
  lemma StepWritesAheadFromAnywhere(y: Acceptor)
    requires WrittenAhead(y)
    ensures WrittenAhead(Crash(y))
  {
    assert y.disk.log + [] == y.disk.log;
  }

  lemma {:induction false} AnswersAreFirst(repairs: Repairs, store: map<nat, Record>, reqs: seq<Req>, i: nat, j: nat)
    requires i <= j <= |reqs|
    ensures Answers(repairs, store, reqs[..i]) <= Answers(repairs, store, reqs[..j])
    decreases j
  {
    if i < j {
      AnswersAreFirst(repairs, store, reqs, i, j - 1);
      assert reqs[..j] == reqs[..j - 1] + [reqs[j - 1]];
      StoreOneMore(repairs, store, reqs[..j - 1], reqs[j - 1]);
    }
  }

  /** After a commit every request so far is committed; nothing more has been sent. */
  lemma CommitLeaves(repairs: Repairs, x: Acceptor, reqs: seq<Req>, j: nat, i: nat, y: Acceptor)
    requires i <= j <= |reqs| && Stands(repairs, x, reqs, j, i, y)
    ensures Leaves(repairs, x, reqs, j, Commit(y))
  {
    CommitKeeps(y);
    var z := Commit(y);
    assert z.disk.log + z.disk.open == z.disk.log;
    AnswersAreFirst(repairs, StoreOf(x), reqs, i, j);
    StandsLeaves(repairs, x, reqs, j, j, z);
  }

  /** Main result: wherever a crash strikes inside a handler, the acceptor comes back as if it had
      handled exactly some first part of the batch, and no message that is out tells of more. */
  lemma CrashAnywhere(repairs: Repairs, x: Acceptor, k: Kind, me: int, reqs: seq<Req>, pt: Point) returns (i: nat)
    requires WrittenAhead(x) && x.disk.open == [] && Inside(reqs, pt)
    ensures i <= |reqs| && Leaves(repairs, x, reqs, i, At(repairs, x, k, me, reqs, pt))
  {
    var c := x.(out := Cleared(x.out, k, me));
    match pt
    case Before(j) =>
      i := HandlerStands(repairs, x, k, me, reqs, j);
      StandsLeaves(repairs, x, reqs, j, i, AnswerAll(repairs, c, reqs[..j]));
    case Within(j) =>
      var before := HandlerStands(repairs, x, k, me, reqs, j);
      i := j + 1;
      WithinLeaves(repairs, x, reqs, j, before, AnswerAll(repairs, c, reqs[..j]));
    case Ending =>
      var before := HandlerStands(repairs, x, k, me, reqs, |reqs|);
      assert reqs[..|reqs|] == reqs;
      i := |reqs|;
      CommitLeaves(repairs, x, reqs, |reqs|, before, AnswerAll(repairs, c, reqs));
  }

  lemma WithinLeaves(repairs: Repairs, x: Acceptor, reqs: seq<Req>, j: nat, i: nat, y: Acceptor)
    requires i <= j < |reqs| && Stands(repairs, x, reqs, j, i, y)
    ensures Leaves(repairs, x, reqs, j + 1, Commit(Written(y, EffectOf(repairs, StoreOf(y), reqs[j]).writes)))
  {
    var ws := EffectOf(repairs, StoreOf(y), reqs[j]).writes;
    var z := Commit(Written(y, ws));
    assert reqs[..j + 1] == reqs[..j] + [reqs[j]];
    StoreOneMore(repairs, StoreOf(x), reqs[..j], reqs[j]);
    WritesKeep(y, ws);
    CommitKeeps(Written(y, ws));
    StepWritesAheadFromAnywhere(z);
    assert Crash(z).disk.log + Crash(z).disk.open == z.disk.log + z.disk.open;
    StandsLeaves(repairs, x, reqs, j, i, y);
    AnswersAreFirst(repairs, StoreOf(x), reqs, i, j + 1);
  }
}
