/**
 * Removal by position, shared by the store's `removeItem` (a filter on the
 * index) and the item editor's field-array `remove`.
 */
module Lists {

  /** The elements of `s` whose position differs from `index`, in their
      original order.  Written as the left-to-right scan a filter on the
      position performs, so that any integer index is accepted. */
  function WithoutIndex<T>(s: seq<T>, index: int): (r: seq<T>)
    ensures 0 <= index < |s| ==> r == s[..index] + s[index + 1..]
    ensures !(0 <= index < |s|) ==> r == s
    decreases |s|
  {
    if s == [] then []
    else
      var rest := WithoutIndex(s[1..], index - 1);
      assert 0 < index < |s| ==> s[..index] + s[index + 1..] == [s[0]] + (s[1..][..index - 1] + s[1..][index..]);
      (if index == 0 then [] else [s[0]]) + rest
  }

  /** Removing position `index` shifts every later element down by one. */
  lemma WithoutIndexAt<T>(s: seq<T>, index: int, k: int)
    requires 0 <= index < |s| && 0 <= k < |s| - 1
    ensures |WithoutIndex(s, index)| == |s| - 1
    ensures WithoutIndex(s, index)[k] == if k < index then s[k] else s[k + 1]
  {
  }
}
