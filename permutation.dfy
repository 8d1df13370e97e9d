/** The permutation table of a simplex-noise generator and its construction
    from a stream of random draws (`New` in simplex.go). */
module Permutation {

  /** An entry of the table: Go's `uint8`. */
  newtype uint8 = x: int | 0 <= x < 256

  /** Number of slots in the table. */
  const TableSize: nat := 256

  /** Number of shuffle iterations, hence of random draws consumed. */
  const Rounds: nat := 255

  /** A generator: it owns one table and nothing else. */
  datatype Simplex = Simplex(mix: seq<uint8>)
  {
    /** The shape Go's `[256]uint8` guarantees. */
    predicate Valid() { |mix| == TableSize }
  }

  /** Every value 0..255 occurs exactly once in `s`, which has 256 slots. */
  ghost predicate IsPermutation(s: seq<uint8>)
  {
    |s| == TableSize && forall v: uint8 :: multiset(s)[v] == 1
  }

  /** The table before shuffling: slot `i` holds `i`. */
  function Identity(): seq<uint8>
  {
    seq(TableSize, i requires 0 <= i < TableSize => i as uint8)
  }

  /** The slot a draw selects: `r.Int31() & 0xFF`, which on a two's-complement
      integer is its Euclidean remainder modulo 256. */
  function Draw(r: int): (j: int)
    ensures 0 <= j < TableSize
    ensures (j - r) % TableSize == 0
  {
    r % TableSize
  }

  /** One iteration of the shuffle loop: slots `i` and `j` are swapped when
      `j > i`; otherwise nothing changes. */
  function Step(s: seq<uint8>, i: int, j: int): (r: seq<uint8>)
    requires 0 <= i < |s| && 0 <= j < |s|
    ensures |r| == |s|
    ensures forall t :: 0 <= t < |s| && t != i && t != j ==> r[t] == s[t]
    ensures j > i ==> r[i] == s[j] && r[j] == s[i]
    ensures j <= i ==> r == s
  {
    if j > i then s[i := s[j]][j := s[i]] else s
  }

  /** The table after the first `n` iterations of the shuffle loop. */
  function ShuffleUpTo(draws: seq<int>, n: nat): (s: seq<uint8>)
    requires n <= Rounds && n <= |draws|
    ensures |s| == TableSize
  {
    if n == 0 then Identity()
    else Step(ShuffleUpTo(draws, n - 1), n - 1, Draw(draws[n - 1]))
  }

  /** The finished table for a full stream of draws. */
  function Shuffled(draws: seq<int>): seq<uint8>
    requires |draws| == Rounds
  {
    ShuffleUpTo(draws, Rounds)
  }

  /** Builds a generator from 255 random draws, one per iteration: the table
      starts as the identity and slot `i` is swapped with slot
      `j = draw & 0xFF` only when `j > i`. */
  method New(draws: seq<int>) returns (s: Simplex)
    requires |draws| == Rounds
    ensures s.Valid()
    ensures s.mix == Shuffled(draws)
    ensures IsPermutation(s.mix)
  {
    var mix := new uint8[TableSize];
    for i := 0 to TableSize
      invariant forall t :: 0 <= t < i ==> mix[t] as int == t
    {
      mix[i] := i as uint8;
    }
    assert mix[..] == Identity();
    for i := 0 to Rounds
      invariant mix[..] == ShuffleUpTo(draws, i)
    {
      ghost var before := mix[..];
      var j := Draw(draws[i]);
      if j > i {
        mix[i], mix[j] := mix[j], mix[i];
        assert mix[..] == before[i := before[j]][j := before[i]];
      }
      assert mix[..] == Step(before, i, j);
    }
    s := Simplex(mix[..]);
    ShuffledIsPermutation(draws, Rounds);
  }

  /** In a sequence without repeated entries every value occurs at most once. */
  lemma {:induction false} DistinctCounts(s: seq<uint8>, v: uint8)
    requires forall a, b :: 0 <= a < b < |s| ==> s[a] != s[b]
    ensures multiset(s)[v] == if v in s then 1 else 0
  {
    if s != [] {
      var tail := s[1..];
      assert forall a, b :: 0 <= a < b < |tail| ==> tail[a] != tail[b] by {
        forall a, b | 0 <= a < b < |tail| ensures tail[a] != tail[b] {
          assert tail[a] == s[a + 1] && tail[b] == s[b + 1];
        }
      }
      DistinctCounts(tail, v);
      assert s == [s[0]] + tail;
      assert multiset(s) == multiset{s[0]} + multiset(tail);
      assert s[0] !in tail by {
        forall b | 0 <= b < |tail| ensures tail[b] != s[0] {
          assert tail[b] == s[b + 1];
        }
      }
      assert v in s <==> v == s[0] || v in tail;
    }
  }

  /** The unshuffled table is a permutation of 0..255. */
  lemma IdentityIsPermutation()
    ensures IsPermutation(Identity())
  {
    var s := Identity();
    forall v: uint8 ensures multiset(s)[v] == 1 {
      assert s[v as int] == v;
      DistinctCounts(s, v);
    }
  }

  /** A swap keeps a permutation a permutation. */
  lemma StepIsPermutation(s: seq<uint8>, i: int, j: int)
    requires IsPermutation(s) && 0 <= i < |s| && 0 <= j < |s|
    ensures IsPermutation(Step(s, i, j))
  {
    assert multiset(Step(s, i, j)) == multiset(s);
  }

  /** Swap-only updates keep the table a permutation at every step. */
  lemma {:induction false} ShuffledIsPermutation(draws: seq<int>, n: nat)
    requires n <= Rounds && n <= |draws|
    ensures IsPermutation(ShuffleUpTo(draws, n))
  {
    if n == 0 {
      IdentityIsPermutation();
    } else {
      ShuffledIsPermutation(draws, n - 1);
      StepIsPermutation(ShuffleUpTo(draws, n - 1), n - 1, Draw(draws[n - 1]));
    }
  }

  /** Once iteration `i` is over, slot `i` never changes again: every later
      iteration `m > i` only touches slots `m` and `j > m`. */
  lemma {:induction false} SlotSettled(draws: seq<int>, i: nat, n: nat, m: nat)
    requires i < n <= m <= Rounds && m <= |draws|
    ensures ShuffleUpTo(draws, m)[i] == ShuffleUpTo(draws, n)[i]
  {
    if m > n {
      SlotSettled(draws, i, n, m - 1);
      var prev := ShuffleUpTo(draws, m - 1);
      var j := Draw(draws[m - 1]);
      assert ShuffleUpTo(draws, m) == Step(prev, m - 1, j);
      assert i != m - 1 && (j > m - 1 ==> i != j);
    }
  }

  /** A permutation has no repeated entry. */
  lemma PermutationIsInjective(s: seq<uint8>)
    requires IsPermutation(s)
    ensures forall a, b :: 0 <= a < |s| && 0 <= b < |s| && s[a] == s[b] ==> a == b
  {
    forall a, b | 0 <= a < b < |s| ensures s[a] != s[b] {
      var v := s[a];
      assert s == s[..b] + s[b..];
      assert s[..b][a] == v;
      assert s[b..][0] == s[b];
      assert multiset(s) == multiset(s[..b]) + multiset(s[b..]);
      assert multiset(s[..b])[v] >= 1;
      assert multiset(s[b..])[v] >= if s[b] == v then 1 else 0;
      assert multiset(s)[v] == 1;
    }
  }

  /** A permutation holds every value 0..255. */
  lemma PermutationIsSurjective(s: seq<uint8>)
    requires IsPermutation(s)
    ensures forall v: uint8 :: v in s
  {
    forall v: uint8 ensures v in s {
      assert multiset(s)[v] == 1;
    }
  }
}
