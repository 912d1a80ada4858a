/** The protocol constants of paxos_config.h, the quorum rule, and the arithmetic
    of quorums and ring buffers that every other module rests on. */
module PaxosConfig {
  const MAX_N_OF_PROPOSERS: nat := 10
  const N_OF_ACCEPTORS: nat := 3
  const PROPOSER_PREEXEC_WIN_SIZE: nat := 300
  const PROPOSER_P2_CONCURRENCY: nat := 3
  const LEADER_MAX_QUEUE_LENGTH: nat := 50
  const MAX_UDP_MSG_SIZE: nat := 7500

  datatype Option<+T> = None | Some(value: T)

  newtype byte = x: int | 0 <= x < 256

  /** What a client submits: an uninterpreted string of bytes. */
  type Value = seq<byte>

  function Max(a: nat, b: nat): nat {
    if a < b then b else a
  }

  /** QUORUM for n acceptors. */
  function Quorum(n: nat): nat {
    n / 2 + 1
  }

  /** The acceptors, numbered from 0. */
  function Acceptors(n: nat): (r: set<nat>)
    ensures |r| == n
    ensures forall a: nat :: a in r <==> a < n
  {
    if n == 0 then {} else Acceptors(n - 1) + {n - 1}
  }

  ghost predicate IsQuorum(n: nat, q: set<nat>) {
    q <= Acceptors(n) && |q| >= Quorum(n)
  }

  lemma SubsetCount<T>(small: set<T>, large: set<T>)
    requires small <= large
    ensures |small| <= |large|
  {
    assert large == small + (large - small);
  }

  /** Any two quorums share an acceptor, whatever the number of acceptors. */
  lemma QuorumsIntersect(n: nat, p: set<nat>, q: set<nat>) returns (a: nat)
    requires IsQuorum(n, p) && IsQuorum(n, q)
    ensures a in p && a in q
  {
    SubsetCount(p + q, Acceptors(n));
    assert |p + q| == |p| + |q| - |p * q|;
    assert p * q != {};
    a :| a in p * q;
  }

  // ---- ballots ----

  /** FIRST_BALLOT of a proposer. */
  function FirstBallot(proposer: nat): nat {
    MAX_N_OF_PROPOSERS + proposer
  }

  function NextBallot(ballot: nat): nat {
    ballot + MAX_N_OF_PROPOSERS
  }

  /** The proposer a ballot belongs to. */
  function Owner(ballot: nat): nat {
    ballot % MAX_N_OF_PROPOSERS
  }

  // ---- ring buffers ----

  /** The slot an instance is kept in. The source masks with size-1, which is the
      remainder because both arrays have a power of two of slots. */
  function Index(iid: nat, size: nat): (k: nat)
    requires size > 0
    ensures k < size
  {
    iid % size
  }

  lemma MaskIsRemainder(iid: bv64)
    ensures iid & 2047 == iid % 2048
  {
  }

  /** Instances of one window never collide in the ring. */
  lemma SameIndex(a: nat, b: nat, size: nat)
    requires size > 0 && a <= b < a + size && Index(a, size) == Index(b, size)
    ensures a == b
  {
    var qa, qb := a / size, b / size;
    assert (qb - qa) * size == b - a by {
      assert qb * size == b - b % size && qa * size == a - a % size;
    }
    NoRoom(qb - qa, size);
  }

  lemma IndexApart(a: nat, b: nat, size: nat)
    requires size > 0 && a < b < a + size
    ensures Index(a, size) != Index(b, size)
  {
    if Index(a, size) == Index(b, size) {
      SameIndex(a, b, size);
      assert false;
    }
  }

  lemma RemainderIs(x: nat, size: nat, q: nat, rest: nat)
    requires size > 0 && x == q * size + rest && rest < size
    ensures x % size == rest
  {
    var p := x / size;
    assert x == p * size + x % size;
    assert (p - q) * size == rest - x % size;
    if rest >= x % size {
      NoRoom(p - q, size);
    } else {
      assert (q - p) * size == x % size - rest;
      NoRoom(q - p, size);
    }
  }

  lemma NoRoom(k: int, size: nat)
    requires size > 0 && 0 <= k * size < size
    ensures k == 0
  {
  }
}
