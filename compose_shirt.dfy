/** The remote's shirt composer (remote/src/Components/ComposeShirt/ComposeShirt.tsx):
    two cyclic pickers, one over the offered designs and one over the
    offered slogans, and a submit that sends the pair shown. */
module ComposeShirt {

  datatype DesignOption = DesignOption(id: string, base64: string)
  datatype SloganOption = SloganOption(id: string, text: string)

  /** One step forward: `(index + 1) % length`. */
  function NextIndex(i: nat, n: nat): (r: nat)
    requires n > 0
    ensures r < n
    ensures i + 1 < n ==> r == i + 1
    ensures i + 1 == n ==> r == 0
  {
    (i + 1) % n
  }

  /** One step back: decrement, and wrap from below 0 to `length - 1`. */
  function PreviousIndex(i: nat, n: nat): (r: int)
    ensures i > 0 ==> r == i - 1
    ensures i == 0 ==> r == n - 1
  {
    if i - 1 < 0 then n - 1 else i - 1
  }

  /** For an in-range index, previous undoes next. */
  lemma PreviousUndoesNext(i: nat, n: nat)
    requires i < n
    ensures PreviousIndex(NextIndex(i, n), n) == i
  {
  }

  /** For an in-range index, next undoes previous. */
  lemma NextUndoesPrevious(i: nat, n: nat)
    requires i < n
    ensures PreviousIndex(i, n) >= 0
    ensures NextIndex(PreviousIndex(i, n), n) == i
  {
  }

  /** The index after `k` taps on next. */
  function NextTimes(i: nat, n: nat, k: nat): (r: nat)
    requires n > 0
  {
    if k == 0 then i else NextIndex(NextTimes(i, n, k - 1), n)
  }

  /** Below the end of the list, `k` taps on next move `k` places. */
  lemma {:induction false} NextTimesBelow(i: nat, n: nat, k: nat)
    requires i + k < n
    ensures NextTimes(i, n, k) == i + k
  {
    if k > 0 {
      NextTimesBelow(i, n, k - 1);
    }
  }

  /** `a + b` taps are `a` taps followed by `b` taps. */
  lemma {:induction false} NextTimesSplit(i: nat, n: nat, a: nat, b: nat)
    requires n > 0
    ensures NextTimes(i, n, a + b) == NextTimes(NextTimes(i, n, a), n, b)
  {
    if b > 0 {
      NextTimesSplit(i, n, a, b - 1);
    }
  }

  /** `n` taps on next from an in-range index go all the way round. */
  lemma FullCircle(i: nat, n: nat)
    requires i < n
    ensures NextTimes(i, n, n) == i
  {
    NextTimesBelow(i, n, n - 1 - i);
    NextTimesSplit(i, n, n - 1 - i, 1);
    NextTimesSplit(i, n, n - i, i);
    NextTimesBelow(0, n, i);
  }

  class ComposeShirt {
    const designs: seq<DesignOption>
    const slogans: seq<SloganOption>
    var designIndex: int
    var sloganIndex: int

    /** Both pickers point into their non-empty lists. */
    predicate Valid()
      reads this
    {
      0 <= designIndex < |designs| && 0 <= sloganIndex < |slogans|
    }

    /** A fresh composer shows the first design and the first slogan; the
        first render reads both, so both lists are non-empty. */
    constructor(designs: seq<DesignOption>, slogans: seq<SloganOption>)
      requires |designs| > 0 && |slogans| > 0
      ensures this.designs == designs && this.slogans == slogans
      ensures designIndex == 0 && sloganIndex == 0
      ensures Valid()
    {
      this.designs := designs;
      this.slogans := slogans;
      designIndex := 0;
      sloganIndex := 0;
    }

    /** `nextDesign`. */
    method NextDesign()
      requires Valid()
      modifies this
      ensures designIndex == NextIndex(old(designIndex), |designs|)
      ensures sloganIndex == old(sloganIndex)
      ensures Valid()
    {
      designIndex := (designIndex + 1) % |designs|;
    }

    /** `nextSlogan`. */
    method NextSlogan()
      requires Valid()
      modifies this
      ensures sloganIndex == NextIndex(old(sloganIndex), |slogans|)
      ensures designIndex == old(designIndex)
      ensures Valid()
    {
      sloganIndex := (sloganIndex + 1) % |slogans|;
    }

    /** `previousDesign`. */
    method PreviousDesign()
      requires Valid()
      modifies this
      ensures designIndex == PreviousIndex(old(designIndex), |designs|)
      ensures sloganIndex == old(sloganIndex)
      ensures Valid()
    {
      designIndex := designIndex - 1;
      if designIndex < 0 {
        designIndex := |designs| - 1;
      }
    }

    /** `previousSlogan`. */
    method PreviousSlogan()
      requires Valid()
      modifies this
      ensures sloganIndex == PreviousIndex(old(sloganIndex), |slogans|)
      ensures designIndex == old(designIndex)
      ensures Valid()
    {
      sloganIndex := sloganIndex - 1;
      if sloganIndex < 0 {
        sloganIndex := |slogans| - 1;
      }
    }

    /** `submit`: the ids of the design and the slogan currently shown. */
    method Submit() returns (designId: string, sloganId: string)
      requires Valid()
      ensures designId == designs[designIndex].id
      ensures sloganId == slogans[sloganIndex].id
    {
      designId := designs[designIndex].id;
      sloganId := slogans[sloganIndex].id;
    }
  }
}
