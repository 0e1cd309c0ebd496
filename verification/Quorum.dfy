/** Swarm arithmetic: how many faulty peers a swarm of n tolerates, the two vote
    thresholds, and when two vote sets must share a correct peer. */
module Quorum {

  /** (n - 1) / 3; the peer list is never empty. */
  function FaultBound(n: nat): (f: nat)
    requires n > 0
    ensures 3 * f < n <= 3 * f + 3
  {
    (n - 1) / 3
  }

  /** f + 1: one of so many peers is correct. */
  function HonestMember(n: nat): nat
    requires n > 0
  {
    FaultBound(n) + 1
  }

  /** 2f + 1: the vote threshold. */
  function HonestMajority(n: nat): nat
    requires n > 0
  {
    2 * FaultBound(n) + 1
  }

  predicate Below(u: nat, n: nat) { u < n }

  /** The peers 0, ..., n - 1 of a swarm of n, in uuid order. */
  function Peers(n: nat): set<nat>
  {
    set u: nat | u < n && Below(u, n)
  }

  lemma {:induction false} PeersSize(n: nat)
    ensures |Peers(n)| == n
  {
    if n > 0 {
      PeersSize(n - 1);
      assert Peers(n) == Peers(n - 1) + {n - 1};
    }
  }

  lemma SubsetSize<T>(a: set<T>, b: set<T>)
    requires a <= b
    ensures |a| <= |b|
  {
    assert b == a + (b - a);
  }

  /** Inclusion-exclusion inside a set of known size. */
  lemma OverlapSize<T>(a: set<T>, b: set<T>, all: set<T>)
    requires a <= all && b <= all
    ensures |a * b| >= |a| + |b| - |all|
  {
    SubsetSize(a + b, all);
    assert |a + b| == |a| + |b| - |a * b|;
  }

  /** Every pair of vote sets shares a peer that is not faulty, whoever the at most f faulty are. */
  ghost predicate QuorumsShareCorrectPeer(n: nat)
    requires n > 0
  {
    forall a: set<nat>, b: set<nat>, faulty: set<nat> ::
      (&& a <= Peers(n) && b <= Peers(n) && |faulty| <= FaultBound(n)
       && |a| >= HonestMajority(n) && |b| >= HonestMajority(n)) ==> a * b - faulty != {}
  }

  /** A shared correct peer for two vote sets when n = 3f + 1. */
  lemma SharedCorrectPeer(n: nat, a: set<nat>, b: set<nat>, faulty: set<nat>) returns (u: nat)
    requires n > 0 && n == 3 * FaultBound(n) + 1
    requires a <= Peers(n) && b <= Peers(n) && |faulty| <= FaultBound(n)
    requires |a| >= HonestMajority(n) && |b| >= HonestMajority(n)
    ensures u in a && u in b && u !in faulty
  {
    PeersSize(n);
    OverlapSize(a, b, Peers(n));
    if a * b <= faulty { SubsetSize(a * b, faulty); }
    assert exists w :: w in a * b && w !in faulty;
    u :| u in a * b && u !in faulty;
  }

  lemma {:induction false} Slice(lo: nat, hi: nat) returns (s: set<nat>)
    requires lo <= hi
    ensures |s| == hi - lo && forall u: nat :: u in s <==> lo <= u < hi
    decreases hi - lo
  {
    if lo == hi {
      s := {};
    } else {
      s := Slice(lo + 1, hi);
      s := s + {lo};
    }
  }

  /** Past 3f + 1 peers, two quorums can meet only in f peers, all of them faulty. */
  lemma QuorumsThatMissEachOther(n: nat, f: nat) returns (a: set<nat>, b: set<nat>, faulty: set<nat>)
    requires n >= 3 * f + 2
    ensures a <= Peers(n) && b <= Peers(n) && |faulty| == f
    ensures |a| == |b| == 2 * f + 1 && a * b <= faulty
  {
    a := Slice(0, 2 * f + 1);
    b := Slice(f + 1, 3 * f + 2);
    faulty := Slice(f + 1, 2 * f + 1);
  }

  /** The 2f+1 threshold is sound exactly for the swarm sizes 1, 4, 7, ... */
  lemma QuorumsShareCorrectPeerIff(n: nat)
    requires n > 0
    ensures QuorumsShareCorrectPeer(n) <==> n % 3 == 1
  {
    var f := FaultBound(n);
    if n % 3 == 1 {
      forall a: set<nat>, b: set<nat>, faulty: set<nat>
        | a <= Peers(n) && b <= Peers(n) && |faulty| <= f && |a| >= HonestMajority(n) && |b| >= HonestMajority(n)
        ensures a * b - faulty != {}
      {
        var u := SharedCorrectPeer(n, a, b, faulty);
        assert u in a * b - faulty;
      }
    } else {
      var a, b, faulty := QuorumsThatMissEachOther(n, f);
      assert a * b - faulty == {};
    }
  }

  /** Any f + 1 peers include a correct one. */
  lemma CorrectMember(n: nat, a: set<nat>, faulty: set<nat>) returns (u: nat)
    requires n > 0 && |faulty| <= FaultBound(n) && |a| >= HonestMember(n)
    ensures u in a && u !in faulty
  {
    if a <= faulty { SubsetSize(a, faulty); }
    assert exists w :: w in a && w !in faulty;
    u :| u in a && u !in faulty;
  }

  /** Removing the faulty from two vote sets still leaves a common peer. */
  lemma CorrectVotersMeet(n: nat, a: set<nat>, b: set<nat>, faulty: set<nat>) returns (u: nat)
    requires n > 0 && n == 3 * FaultBound(n) + 1 && faulty <= Peers(n) && |faulty| <= FaultBound(n)
    requires a <= Peers(n) - faulty && b <= Peers(n) - faulty
    requires |a| >= HonestMajority(n) - |faulty| && |b| >= HonestMajority(n) - |faulty|
    ensures u in a && u in b
  {
    PeersSize(n);
    var all := Peers(n) - faulty;
    assert |all| == n - |faulty|;
    OverlapSize(a, b, all);
    u :| u in a * b;
  }

  /** A vote set without its faulty members. */
  lemma CorrectPart(n: nat, a: set<nat>, faulty: set<nat>)
    requires n > 0
    ensures |a - faulty| >= |a| - |faulty|
  {
    SubsetSize(a * faulty, faulty);
    assert |a - faulty| == |a| - |a * faulty| by { assert a == (a - faulty) + (a * faulty); }
  }

  ghost predicate IsLeast(s: set<nat>, k: nat) { k in s && forall x | x in s :: k <= x }

  ghost predicate IsGreatest(s: set<nat>, k: nat) { k in s && forall x | x in s :: x <= k }

  lemma {:induction false} LeastExists(s: set<nat>) returns (k: nat)
    requires s != {}
    ensures IsLeast(s, k)
    decreases |s|
  {
    k :| k in s;
    if s != {k} {
      var y := LeastExists(s - {k});
      assert forall x | x in s :: x == k || x in s - {k};
      k := if y < k then y else k;
    }
  }

  lemma {:induction false} GreatestExists(s: set<nat>) returns (k: nat)
    requires s != {}
    ensures IsGreatest(s, k)
    decreases |s|
  {
    k :| k in s;
    if s != {k} {
      var y := GreatestExists(s - {k});
      assert forall x | x in s :: x == k || x in s - {k};
      k := if y > k then y else k;
    }
  }

  /** The smallest member. */
  function MinOf(s: set<nat>): (k: nat)
    requires s != {}
    ensures k in s && forall x | x in s :: k <= x
  {
    assert exists k :: IsLeast(s, k) by { var k := LeastExists(s); }
    var k :| k in s && forall x | x in s :: k <= x;
    k
  }

  /** The largest member, or 0. */
  function MaxOf(s: set<nat>): (k: nat)
    ensures forall x | x in s :: x <= k
    ensures s != {} ==> k in s
    ensures s == {} ==> k == 0
  {
    if s == {} then 0
    else
      assert exists k :: IsGreatest(s, k) by { var k := GreatestExists(s); }
      var k :| k in s && forall x | x in s :: x <= k;
      k
  }
}
