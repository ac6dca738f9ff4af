/** Multicast delegates as the .NET runtime implements them. A delegate is
    modelled by its invocation list; the empty list is the `null` delegate.
    `a += b` (Delegate.Combine) is list concatenation `a + b`, and `a -= b`
    (Delegate.Remove) is `Remove(a, b)` below. */
module Delegates {
  import opened Base

  /** The block of `source` starting at index `i` equals `value`. */
  predicate OccursAt<T(==)>(source: seq<T>, value: seq<T>, i: int)
  {
    0 <= i && i + |value| <= |source| && source[i..i + |value|] == value
  }

  /** Searches downwards from index `i` for a block of `source` equal to
      `value`, as the runtime does when removing one delegate from another:
      the first block found is the last one in `source`. */
  function LastOccurrenceFrom<T(==)>(source: seq<T>, value: seq<T>, i: int): (r: Option<nat>)
    requires i + |value| <= |source|
    decreases if i < 0 then 0 else i + 1
    ensures r.Some? ==> r.value <= i && OccursAt(source, value, r.value)
    ensures r.Some? ==> forall j :: r.value < j <= i ==> !OccursAt(source, value, j)
    ensures r.None? ==> forall j :: j <= i ==> !OccursAt(source, value, j)
  {
    if i < 0 then None
    else if OccursAt(source, value, i) then Some(i)
    else LastOccurrenceFrom(source, value, i - 1)
  }

  /** Delegate.Remove(source, value): the last block of `source` equal to
      `value` is taken out, and the entries before and after it keep their
      order. A `null` value, or one whose invocation list does
      not occur in `source`, leaves `source` as it is. */
  function Remove<T(==)>(source: seq<T>, value: seq<T>): (r: seq<T>)
    ensures value == [] ==> r == source
    ensures (forall j :: !OccursAt(source, value, j)) ==> r == source
    ensures value != [] && (exists j :: OccursAt(source, value, j)) ==>
              |r| == |source| - |value| && multiset(r) + multiset(value) == multiset(source)
    ensures value != [] && (exists j :: OccursAt(source, value, j)) ==>
              exists i :: OccursAt(source, value, i) && (forall j :: i < j ==> !OccursAt(source, value, j)) &&
                          r == source[..i] + source[i + |value|..]
  {
    if value == [] then source
    else
      match LastOccurrenceFrom(source, value, |source| - |value|)
      case None => source
      case Some(i) =>
        assert source == source[..i] + source[i..i + |value|] + source[i + |value|..];
        source[..i] + source[i + |value|..]
  }

  /** Removing what was just added restores the delegate: `(a + v) - v == a`. */
  lemma {:induction false} RemoveCombined<T>(a: seq<T>, value: seq<T>)
    ensures Remove(a + value, value) == a
  {
    var s := a + value;
    if value == [] {
      assert s == a;
    } else {
      assert s[|a|..|a| + |value|] == value;
      assert OccursAt(s, value, |a|);
      var found := LastOccurrenceFrom(s, value, |s| - |value|);
      assert found == Some(|a|);
      assert s[..|a|] == a;
    }
  }

  /** An entry of `source` that is not part of `value` survives the removal. */
  lemma {:induction false} RemoveKeeps<T>(source: seq<T>, value: seq<T>, x: T)
    requires x in source && x !in value
    ensures x in Remove(source, value)
  {
    if value != [] {
      var found := LastOccurrenceFrom(source, value, |source| - |value|);
      if found.Some? {
        var i := found.value;
        var k :| 0 <= k < |source| && source[k] == x;
        if k < i {
          assert (source[..i] + source[i + |value|..])[k] == x;
        } else {
          assert (source[..i] + source[i + |value|..])[k - |value|] == x;
        }
      }
    }
  }
}
