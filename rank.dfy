/** The remote's ranking screen (remote/src/Components/Rank/Rank.tsx): the
    player taps options to rank them 1, 2, ... up to `numberToRank`. */
module Rank {
  import opened Wrappers
  import opened ToggleList

  class Rank {
    const numberToRank: nat
    /** The option ids chosen so far; position `k` holds rank `k + 1`. */
    var rankArray: seq<string>

    /** A fresh screen: nothing ranked yet. */
    constructor(numberToRank: nat)
      ensures this.numberToRank == numberToRank && rankArray == []
    {
      this.numberToRank := numberToRank;
      rankArray := [];
    }

    /** The ranks are within the cap and never repeat an option. */
    predicate Valid()
      reads this
    {
      |rankArray| <= numberToRank && Distinct(rankArray)
    }

    /** `addToRankArray`: append unless `numberToRank` are already ranked. */
    method AddToRankArray(item: string)
      modifies this
      ensures rankArray == Added(old(rankArray), numberToRank, item)
    {
      if |rankArray| >= numberToRank {
        return;
      }
      rankArray := rankArray + [item];
    }

    /** `removeFromRankArray`: drop the option, keep the others' order. */
    method RemoveFromRankArray(item: string)
      modifies this
      ensures rankArray == Removed(old(rankArray), item)
    {
      rankArray := Removed(rankArray, item);
    }

    /** `tapItem`: untap a ranked option, rank an unranked one. */
    method TapItem(item: string)
      requires Valid()
      modifies this
      ensures rankArray == Tapped(old(rankArray), numberToRank, item)
      ensures Valid()
    {
      TapBounded(rankArray, numberToRank, item);
      TapDistinct(rankArray, numberToRank, item);
      if item in rankArray {
        RemoveFromRankArray(item);
      } else {
        AddToRankArray(item);
      }
    }

    /** `submit`: the ranked ids, best first, passed to `onSubmit` only when
        exactly `numberToRank` are ranked; otherwise nothing is sent. */
    method Submit() returns (sent: Option<seq<string>>)
      ensures sent.Some? <==> |rankArray| == numberToRank
      ensures sent.Some? ==> sent.value == rankArray
    {
      if |rankArray| != numberToRank {
        return None;
      }
      sent := Some(rankArray);
    }
  }
}
