/**
 * `array_swap_last` from the state header: the one-slot overwrite that
 * swap-with-last removal is built from.
 */
module StateUtil {

  /** The sequence after `s[index]` has been overwritten by the last element. */
  function SwapLast<T>(s: seq<T>, index: int): (r: seq<T>)
    requires 0 <= index < |s|
    ensures |r| == |s| && r[index] == s[|s| - 1]
    ensures forall j :: 0 <= j < |s| && j != index ==> r[j] == s[j]
    ensures index == |s| - 1 ==> r == s
  {
    s[index := s[|s| - 1]]
  }

  /**
   * Removal of slot `index` as the callers perform it: overwrite the slot with
   * the last element, then drop the last slot.
   */
  function RemoveAt<T>(s: seq<T>, index: int): (r: seq<T>)
    requires 0 <= index < |s|
    ensures |r| == |s| - 1
    ensures forall j :: 0 <= j < |r| ==> r[j] == if j == index then s[|s| - 1] else s[j]
    ensures index == |s| - 1 ==> r == s[..index]
  {
    SwapLast(s, index)[..|s| - 1]
  }

  /** Removal by swap-with-last takes away exactly the element at `index`. */
  lemma {:induction false} RemoveAtMultiset<T>(s: seq<T>, index: int)
    requires 0 <= index < |s|
    ensures |RemoveAt(s, index)| == |s| - 1
    ensures multiset(RemoveAt(s, index)) == multiset(s) - multiset{s[index]}
  {
    var last := |s| - 1;
    var p := s[..last];
    assert s == p + [s[last]];
    if index == last {
      assert RemoveAt(s, index) == p;
    } else {
      assert RemoveAt(s, index) == p[index := s[last]];
      assert p[index] == s[index];
    }
  }

  /**
   * `array_swap_last(arr, count, index)`: `arr[index]` receives the old
   * `arr[count - 1]`; no other slot changes and the count is left to the
   * caller.
   */
  method ArraySwapLast<T>(arr: array<T>, count: int, index: int)
    requires 0 <= index < count <= arr.Length
    modifies arr
    ensures arr[index] == old(arr[count - 1])
    ensures forall j :: 0 <= j < arr.Length && j != index ==> arr[j] == old(arr[j])
    ensures arr[..count] == SwapLast(old(arr[..count]), index)
    ensures index == count - 1 ==> arr[..] == old(arr[..])
  {
    arr[index] := arr[count - 1];
  }
}
