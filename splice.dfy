/**
 * The two uses of `Array.prototype.splice` the board makes, on sequences:
 * removing the element at an index and inserting one at an index. A start
 * index beyond the end inserts at the end, as `splice` does.
 */
module Splice {

  /** `list.splice(i, 1)` on a copy: the list without its element at `i`. */
  function RemoveAt<T>(s: seq<T>, i: nat): (r: seq<T>)
    requires i < |s|
    ensures |r| == |s| - 1
    ensures forall k :: 0 <= k < i ==> r[k] == s[k]
    ensures forall k :: i <= k < |r| ==> r[k] == s[k + 1]
  {
    s[..i] + s[i + 1..]
  }

  /** Where `splice(i, 0, x)` puts `x`: `i`, or the end when `i` is past it. */
  function InsertionPoint(len: nat, i: nat): (j: nat)
    ensures j <= len
    ensures i <= len ==> j == i
    ensures len < i ==> j == len
  {
    if i <= len then i else len
  }

  /** `list.splice(i, 0, x)` on a copy. */
  function InsertAt<T>(s: seq<T>, i: nat, x: T): (r: seq<T>)
    ensures |r| == |s| + 1
    ensures r[InsertionPoint(|s|, i)] == x
    ensures forall k :: 0 <= k < InsertionPoint(|s|, i) ==> r[k] == s[k]
    ensures forall k :: InsertionPoint(|s|, i) < k < |r| ==> r[k] == s[k - 1]
  {
    var j := InsertionPoint(|s|, i);
    s[..j] + [x] + s[j..]
  }

  /** Removing an element takes exactly one copy of it out of the multiset. */
  lemma MultisetRemoveAt<T>(s: seq<T>, i: nat)
    requires i < |s|
    ensures multiset(RemoveAt(s, i)) + multiset{s[i]} == multiset(s)
  {
    assert s == s[..i] + [s[i]] + s[i + 1..];
  }

  /** Inserting an element adds exactly one copy of it to the multiset. */
  lemma MultisetInsertAt<T>(s: seq<T>, i: nat, x: T)
    ensures multiset(InsertAt(s, i, x)) == multiset(s) + multiset{x}
  {
    var j := InsertionPoint(|s|, i);
    assert s == s[..j] + s[j..];
  }

  /** `r` is `s` with some elements dropped and the rest kept in order. */
  ghost predicate Subsequence<T>(r: seq<T>, s: seq<T>)
    decreases |s|
  {
    if r == [] then true
    else if s == [] then false
    else if r[0] == s[0] then Subsequence(r[1..], s[1..])
    else Subsequence(r, s[1..])
  }
}
