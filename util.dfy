/** Randomised helpers of the game server (server/util.ts). Every
    `Math.random()` draw is an input: a real number in [0, 1). */
module Util {
  import opened Wrappers

  /** Base 58 uppercase: the Latin alphabet without I and O. */
  const ALPHABET: string := "ABCDEFGHJKLMNPQRSTUVWXYZ"

  /** A valid sequence of `Math.random()` results. */
  predicate ValidDraws(rs: seq<real>)
  {
    forall k :: 0 <= k < |rs| ==> 0.0 <= rs[k] < 1.0
  }

  /** `Math.floor(r * n)`: the index a draw `r` picks among `n` slots. */
  function DrawIndex(r: real, n: nat): int
  {
    (r * n as real).Floor
  }

  /** A draw in [0, 1) picks one of the `n` slots. */
  lemma DrawIndexInRange(r: real, n: nat)
    requires 0.0 <= r < 1.0 && n > 0
    ensures 0 <= DrawIndex(r, n) < n
  {
    assert 0.0 <= r * n as real;
    assert r * n as real < n as real by {
      assert (1.0 - r) * n as real > 0.0;
    }
  }

  /** The sequence with the elements at `i` and `j` exchanged. */
  function Swap<T>(s: seq<T>, i: nat, j: nat): (r: seq<T>)
    requires i < |s| && j < |s|
    ensures |r| == |s| && r[i] == s[j] && r[j] == s[i]
    ensures forall k :: 0 <= k < |s| && k != i && k != j ==> r[k] == s[k]
  {
    s[i := s[j]][j := s[i]]
  }

  /** The Fisher-Yates passes for indices `i`, `i - 1`, ..., `1`, in that
      order; the pass at index `i` swaps it with `floor(rs[i] * (i + 1))`. */
  function ShuffleDown<T>(s: seq<T>, rs: seq<real>, i: int): (r: seq<T>)
    requires i < |s| && |rs| == |s| && ValidDraws(rs)
    ensures |r| == |s|
    decreases i
  {
    if i <= 0 then s
    else
      DrawIndexInRange(rs[i], i + 1);
      ShuffleDown(Swap(s, i, DrawIndex(rs[i], i + 1)), rs, i - 1)
  }

  /** What `shuffle` leaves in its array: draw `rs[i]` is the one taken when
      the loop is at index `i` (`rs[0]` is never consulted). */
  function Shuffled<T>(s: seq<T>, rs: seq<real>): (r: seq<T>)
    requires |rs| == |s| && ValidDraws(rs)
    ensures |r| == |s|
  {
    ShuffleDown(s, rs, |s| - 1)
  }

  /** Exchanging two elements keeps the multiset of elements. */
  lemma SwapPermutes<T>(s: seq<T>, i: nat, j: nat)
    requires i < |s| && j < |s|
    ensures multiset(Swap(s, i, j)) == multiset(s)
  {
    var t := s[i := s[j]];
    assert multiset(t) == multiset(s) - multiset{s[i]} + multiset{s[j]};
    assert multiset(t[j := s[i]]) == multiset(t) - multiset{t[j]} + multiset{s[i]};
  }

  /** Every pass is a swap, so the passes permute the sequence. */
  lemma {:induction false} ShuffleDownPermutes<T>(s: seq<T>, rs: seq<real>, i: int)
    requires i < |s| && |rs| == |s| && ValidDraws(rs)
    ensures |ShuffleDown(s, rs, i)| == |s|
    ensures multiset(ShuffleDown(s, rs, i)) == multiset(s)
    decreases i
  {
    if i > 0 {
      DrawIndexInRange(rs[i], i + 1);
      var j := DrawIndex(rs[i], i + 1);
      var t := Swap(s, i, j);
      SwapPermutes(s, i, j);
      ShuffleDownPermutes(t, rs, i - 1);
    }
  }

  /** `shuffle` returns a permutation of its input of the same length. */
  lemma ShuffledIsPermutation<T>(s: seq<T>, rs: seq<real>)
    requires |rs| == |s| && ValidDraws(rs)
    ensures |Shuffled(s, rs)| == |s|
    ensures multiset(Shuffled(s, rs)) == multiset(s)
  {
    ShuffleDownPermutes(s, rs, |s| - 1);
  }

  /** In-place Fisher-Yates shuffle; returns the very array it was given. */
  method Shuffle<T>(a: array<T>, rs: seq<real>) returns (r: array<T>)
    requires |rs| == a.Length && ValidDraws(rs)
    modifies a
    ensures r == a
    ensures a[..] == Shuffled(old(a[..]), rs)
    ensures multiset(a[..]) == multiset(old(a[..]))
  {
    var i := a.Length - 1;
    while i > 0
      invariant -1 <= i < a.Length
      invariant ShuffleDown(a[..], rs, i) == Shuffled(old(a[..]), rs)
    {
      DrawIndexInRange(rs[i], i + 1);
      var j := DrawIndex(rs[i], i + 1);
      ghost var before := a[..];
      a[i], a[j] := a[j], a[i];
      assert a[..] == Swap(before, i, j);
      i := i - 1;
    }
    ShuffledIsPermutation(old(a[..]), rs);
    r := a;
  }

  /** A permutation has the same members. */
  lemma PermutationKeepsMembers<T>(a: seq<T>, b: seq<T>)
    requires multiset(a) == multiset(b)
    ensures forall x :: x in a <==> x in b
  {
    forall x ensures x in a <==> x in b {
      assert x in a <==> x in multiset(a);
      assert x in b <==> x in multiset(b);
    }
  }

  /** `shuffle` run on an array holding `s`; the array's final contents. */
  method ShuffleSeq<T>(s: seq<T>, rs: seq<real>) returns (r: seq<T>)
    requires |rs| == |s| && ValidDraws(rs)
    ensures r == Shuffled(s, rs) && multiset(r) == multiset(s)
  {
    var a := new T[|s|](k requires 0 <= k < |s| => s[k]);
    assert a[..] == s;
    var _ := Shuffle(a, rs);
    r := a[..];
  }

  /** The letters shuffled by `generateRoomCode`: the alphabet three times. */
  function CodePool(): string
  {
    ALPHABET + ALPHABET + ALPHABET
  }

  /** `generateRoomCode`: shuffle three copies of the alphabet and keep the
      first four letters. */
  method GenerateRoomCode(rs: seq<real>) returns (code: string)
    requires |rs| == |CodePool()| && ValidDraws(rs)
    ensures |code| == 4
    ensures forall k :: 0 <= k < |code| ==> code[k] in ALPHABET
    ensures code == Shuffled(CodePool(), rs)[..4]
  {
    var pool := CodePool();
    var letters := new char[|pool|](k requires 0 <= k < |pool| => pool[k]);
    assert letters[..] == pool;
    var shuffled := Shuffle(letters, rs);
    code := shuffled[..4];
    forall k | 0 <= k < |code|
      ensures code[k] in ALPHABET
    {
      assert code[k] in multiset(shuffled[..]);
      assert code[k] in pool;
    }
  }

  /** `sample`: the element at `floor(r * length)`; `undefined` (None) for an
      empty array. */
  function Sample<T>(s: seq<T>, r: real): (x: Option<T>)
    requires 0.0 <= r < 1.0
    ensures x.None? <==> s == []
    ensures x.Some? ==> x.value in s
  {
    if s == [] then None
    else
      DrawIndexInRange(r, |s|);
      Some(s[DrawIndex(r, |s|)])
  }
}
