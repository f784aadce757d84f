/** The `interlace` helper of the remote's drawing screen
    (remote/src/Components/Draw/Draw.tsx): the list's items with a separator
    between each neighbouring pair. */
module Draw {

  /** An element of the result: an item of the list, the separator, or the
      `undefined` that reading `list[-1]` yields. */
  datatype Element<T, U> = Item(item: T) | Separator(el: U) | Undefined

  /** `interlace(list, el)`: push each item but the last followed by `el`,
      then push the last item. */
  method Interlace<T, U>(list: seq<T>, el: U) returns (result: seq<Element<T, U>>)
    ensures |list| == 0 ==> result == [Undefined]
    ensures |list| > 0 ==> |result| == 2 * |list| - 1
    ensures |list| > 0 ==> forall k :: 0 <= k < |result| && k % 2 == 0 ==> result[k] == Item(list[k / 2])
    ensures |list| > 0 ==> forall k :: 0 <= k < |result| && k % 2 == 1 ==> result[k] == Separator(el)
    ensures |list| > 0 ==> result[|result| - 1] == Item(list[|list| - 1])
  {
    result := [];
    var i := 0;
    while i < |list| - 1
      invariant |list| > 0 ==> 0 <= i <= |list| - 1
      invariant |list| == 0 ==> i == 0
      invariant |result| == 2 * i
      invariant forall k :: 0 <= k < |result| && k % 2 == 0 ==> result[k] == Item(list[k / 2])
      invariant forall k :: 0 <= k < |result| && k % 2 == 1 ==> result[k] == Separator(el)
    {
      result := result + [Item(list[i])];
      result := result + [Separator(el)];
      i := i + 1;
    }
    if |list| == 0 {
      result := result + [Undefined];
    } else {
      result := result + [Item(list[|list| - 1])];
    }
  }
}
