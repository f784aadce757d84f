/** The remote's selection screen (remote/src/Components/Select/Select.tsx): the
    player taps up to `numberToSelect` options to mark them. */
module Select {
  import opened Wrappers
  import opened ToggleList

  class Select {
    const numberToSelect: nat
    /** The option ids chosen so far, in tap order. */
    var selectArray: seq<string>

    /** A fresh screen: nothing selected yet. */
    constructor(numberToSelect: nat)
      ensures this.numberToSelect == numberToSelect && selectArray == []
    {
      this.numberToSelect := numberToSelect;
      selectArray := [];
    }

    /** The selection is within the cap and never repeats an option. */
    predicate Valid()
      reads this
    {
      |selectArray| <= numberToSelect && Distinct(selectArray)
    }

    /** `addToSelectArray`: append unless `numberToSelect` are already selected. */
    method AddToSelectArray(item: string)
      modifies this
      ensures selectArray == Added(old(selectArray), numberToSelect, item)
    {
      if |selectArray| >= numberToSelect {
        return;
      }
      selectArray := selectArray + [item];
    }

    /** `removeFromSelectArray`: drop the option, keep the others' order. */
    method RemoveFromSelectArray(item: string)
      modifies this
      ensures selectArray == Removed(old(selectArray), item)
    {
      selectArray := Removed(selectArray, item);
    }

    /** `tapItem`: unselect a selected option, select an unselected one. */
    method TapItem(item: string)
      requires Valid()
      modifies this
      ensures selectArray == Tapped(old(selectArray), numberToSelect, item)
      ensures Valid()
    {
      TapBounded(selectArray, numberToSelect, item);
      TapDistinct(selectArray, numberToSelect, item);
      if item in selectArray {
        RemoveFromSelectArray(item);
      } else {
        AddToSelectArray(item);
      }
    }

    /** `submit`: the selected ids in tap order, passed to `onSubmit` only when
        exactly `numberToSelect` are selected; otherwise nothing is sent. */
    method Submit() returns (sent: Option<seq<string>>)
      ensures sent.Some? <==> |selectArray| == numberToSelect
      ensures sent.Some? ==> sent.value == selectArray
    {
      if |selectArray| != numberToSelect {
        return None;
      }
      sent := Some(selectArray);
    }
  }
}
