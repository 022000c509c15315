/** List updates shared by the form components. */
module ListOps {

  /**
   * `list.filter((_, i) => i !== index)`: every entry whose position is not
   * `index`, in order. An index outside the list removes nothing.
   */
  function RemoveAt<T>(s: seq<T>, index: int): (r: seq<T>)
    ensures 0 <= index < |s| ==> |r| == |s| - 1
    ensures 0 <= index < |s| ==> forall k :: 0 <= k < index ==> r[k] == s[k]
    ensures 0 <= index < |s| ==> forall k :: index <= k < |r| ==> r[k] == s[k + 1]
    ensures !(0 <= index < |s|) ==> r == s
  {
    if s == [] then []
    else
      var prefix := s[..|s| - 1];
      assert s == prefix + [s[|s| - 1]];
      RemoveAt(prefix, index) + (if |s| - 1 == index then [] else [s[|s| - 1]])
  }

  /** Removing at a valid index is cutting the list around it. */
  lemma RemoveAtIsSplice<T>(s: seq<T>, index: int)
    requires 0 <= index < |s|
    ensures RemoveAt(s, index) == s[..index] + s[index + 1..]
  {
  }
}
