/**
 * The two list operations the registry relies on, with the meaning they have
 * on a Python list: membership (`x in s`) and `s.remove(x)`, which deletes the
 * FIRST element equal to `x` and keeps the order of everything else.
 */
module ListOps {

  /** Position of the first occurrence of `x` in `s`. */
  function IndexOf<T(==)>(s: seq<T>, x: T): (i: nat)
    requires x in s
    ensures i < |s| && s[i] == x
    ensures x !in s[..i]
  {
    if s[0] == x then 0
    else
      var j := IndexOf(s[1..], x);
      assert s[..j + 1] == [s[0]] + s[1..][..j];
      j + 1
  }

  /**
   * `s.remove(x)` on a list that contains `x`: the first occurrence goes, the
   * elements before it and after it stay, in their order.
   */
  function RemoveFirst<T(==)>(s: seq<T>, x: T): (r: seq<T>)
    requires x in s
    ensures |r| == |s| - 1
    ensures exists i :: 0 <= i < |s| && s[i] == x && x !in s[..i] && r == s[..i] + s[i + 1..]
    ensures multiset(r) == multiset(s) - multiset{x}
  {
    var i := IndexOf(s, x);
    assert s == s[..i] + [x] + s[i + 1..];
    s[..i] + s[i + 1..]
  }

  /** Removing an element just appended to a list that did not hold it gives the list back. */
  lemma RemoveFirstOfAppended<T>(s: seq<T>, x: T)
    requires x !in s
    ensures x in s + [x]
    ensures RemoveFirst(s + [x], x) == s
  {
  }

  /**
   * Only one copy goes: `x` is still in the list afterwards exactly when the
   * list held it twice or more, and every other element keeps its count.
   */
  lemma RemoveFirstKeepsDuplicates<T>(s: seq<T>, x: T)
    requires x in s
    ensures x in RemoveFirst(s, x) <==> multiset(s)[x] >= 2
    ensures forall y :: y != x ==> multiset(RemoveFirst(s, x))[y] == multiset(s)[y]
  {
  }
}
