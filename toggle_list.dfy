/** The bounded toggle list behind the remote's Rank and Select screens
    (remote/src/Components/Rank/Rank.tsx, remote/src/Components/Select/Select.tsx):
    tapping an option adds it at the end while there is room and removes it
    when it is already chosen; submitting is allowed only with exactly the
    required number chosen. */
module ToggleList {
  import Lookup

  /** No option id is chosen twice. */
  predicate Distinct(s: seq<string>)
  {
    forall i, j :: 0 <= i < j < |s| ==> s[i] != s[j]
  }

  /** The add action: a no-op once `cap` ids are chosen, else a push. */
  function Added(s: seq<string>, cap: nat, item: string): (r: seq<string>)
    ensures |s| >= cap ==> r == s
    ensures |s| < cap ==> r == s + [item]
    ensures |s| <= cap ==> |r| <= cap
  {
    if |s| >= cap then s else s + [item]
  }

  /** The remove action: `filter(x => x !== item)`, keeping the order of the
      rest. */
  function Removed(s: seq<string>, item: string): (r: seq<string>)
    ensures |r| <= |s|
    ensures item !in r
    ensures forall x :: x in r <==> x in s && x != item
    ensures Distinct(s) ==> Distinct(r)
  {
    if s == [] then []
    else
      var front := s[..|s| - 1];
      var last := s[|s| - 1];
      assert s == front + [last];
      assert forall x :: x in s <==> x in front || x == last;
      var rest := Removed(front, item);
      if last == item then rest
      else
        assert Distinct(s) ==> last !in front;
        rest + [last]
  }

  /** The tap action: remove a chosen id, otherwise try to add it. */
  function Tapped(s: seq<string>, cap: nat, item: string): (r: seq<string>)
    ensures item in s ==> r == Removed(s, item)
    ensures item !in s ==> r == Added(s, cap, item)
  {
    if item in s then Removed(s, item) else Added(s, cap, item)
  }

  /** A tap never takes the list beyond its cap. */
  lemma TapBounded(s: seq<string>, cap: nat, item: string)
    requires |s| <= cap
    ensures |Tapped(s, cap, item)| <= cap
  {
  }

  /** A tap never creates a duplicate. */
  lemma TapDistinct(s: seq<string>, cap: nat, item: string)
    requires Distinct(s)
    ensures Distinct(Tapped(s, cap, item))
  {
  }

  /** The list after a series of taps. */
  function Taps(s: seq<string>, cap: nat, items: seq<string>): seq<string>
    decreases |items|
  {
    if items == [] then s else Taps(Tapped(s, cap, items[0]), cap, items[1..])
  }

  /** Starting from the empty list, any series of taps leaves at most `cap`
      ids, none of them twice. */
  lemma {:induction false} TapsKeepInvariant(s: seq<string>, cap: nat, items: seq<string>)
    requires |s| <= cap && Distinct(s)
    ensures |Taps(s, cap, items)| <= cap
    ensures Distinct(Taps(s, cap, items))
    decreases |items|
  {
    if items != [] {
      TapBounded(s, cap, items[0]);
      TapDistinct(s, cap, items[0]);
      TapsKeepInvariant(Tapped(s, cap, items[0]), cap, items[1..]);
    }
  }

  /** Removing an id that is not chosen changes nothing. */
  lemma {:induction false} RemovedAbsent(s: seq<string>, item: string)
    requires item !in s
    ensures Removed(s, item) == s
  {
    if s != [] {
      var front := s[..|s| - 1];
      assert s == front + [s[|s| - 1]];
      RemovedAbsent(front, item);
    }
  }

  /** Removing the id at position `i` of a duplicate-free list closes the
      gap: the ids after it move up one place, and the rest keep theirs. */
  lemma {:induction false} RemovedAt(s: seq<string>, i: nat)
    requires Distinct(s) && i < |s|
    ensures Removed(s, s[i]) == s[..i] + s[i + 1..]
  {
    var front := s[..|s| - 1];
    var last := s[|s| - 1];
    assert s == front + [last];
    if i == |s| - 1 {
      RemovedAbsent(front, last);
    } else {
      assert front[i] == s[i];
      RemovedAt(front, i);
      assert s[i + 1..] == front[i + 1..] + [last];
    }
  }

  /** The rank shown next to an option: `findIndex` of its id plus one,
      0 (shown as blank) when it is not chosen. */
  function RankShown(s: seq<string>, id: string): (r: nat)
    ensures r == 0 <==> id !in s
    ensures r > 0 ==> r <= |s| && s[r - 1] == id && id !in s[..r - 1]
  {
    Lookup.FindIndex(s, x => x == id) + 1
  }

  /** Untapping the option ranked `i + 1` moves every later option up one
      rank and leaves the earlier ones where they were. */
  lemma UntapShiftsRanks(s: seq<string>, cap: nat, i: nat, j: nat)
    requires Distinct(s) && i < |s| && j < |s| && j != i
    ensures RankShown(Tapped(s, cap, s[i]), s[j]) == (if j < i then j + 1 else j)
  {
    RemovedAt(s, i);
    var r := Tapped(s, cap, s[i]);
    var k := if j < i then j else j - 1;
    assert r[k] == s[j];
    assert Distinct(r);
    assert RankShown(r, s[j]) - 1 == k;
  }

  /** Tapping an unchosen id while there is room and then tapping it again
      restores the list. */
  lemma TapTwiceRestores(s: seq<string>, cap: nat, item: string)
    requires item !in s && |s| < cap
    ensures Tapped(Tapped(s, cap, item), cap, item) == s
  {
    var t := s + [item];
    assert t[..|t| - 1] == s;
    RemovedAbsent(s, item);
  }
}
