/** Concatenation of a sequence of lists, the shape of an iterator `chain`
    followed by `collect`. */
module Sequences {

  function Flatten<T>(lists: seq<seq<T>>): seq<T>
  {
    if lists == [] then [] else lists[0] + Flatten(lists[1..])
  }

  function TotalLength<T>(lists: seq<seq<T>>): nat
  {
    if lists == [] then 0 else |lists[0]| + TotalLength(lists[1..])
  }

  function MultisetUnion<T>(lists: seq<seq<T>>): multiset<T>
  {
    if lists == [] then multiset{} else multiset(lists[0]) + MultisetUnion(lists[1..])
  }

  /** The concatenation is as long as all lists together. */
  lemma {:induction false} FlattenLength<T>(lists: seq<seq<T>>)
    ensures |Flatten(lists)| == TotalLength(lists)
  {
    if lists != [] {
      FlattenLength(lists[1..]);
    }
  }

  /** Element `i` of list `k` sits right after the elements of the lists
      before it: order is kept within and across lists. */
  lemma {:induction false} FlattenAt<T>(lists: seq<seq<T>>, k: nat, i: nat)
    requires k < |lists| && i < |lists[k]|
    ensures TotalLength(lists[..k]) + i < |Flatten(lists)|
    ensures Flatten(lists)[TotalLength(lists[..k]) + i] == lists[k][i]
  {
    FlattenLength(lists);
    if k == 0 {
      assert lists[..0] == [];
    } else {
      FlattenAt(lists[1..], k - 1, i);
      assert lists[..k][1..] == lists[1..][..k - 1];
      assert TotalLength(lists[..k]) == |lists[0]| + TotalLength(lists[1..][..k - 1]);
    }
  }

  /** Every element of every list occurs in the concatenation exactly as
      often as in the lists together: nothing is dropped or duplicated. */
  lemma {:induction false} FlattenMultiset<T>(lists: seq<seq<T>>)
    ensures multiset(Flatten(lists)) == MultisetUnion(lists)
  {
    if lists != [] {
      FlattenMultiset(lists[1..]);
    }
  }

  /** An element is in the concatenation exactly when it is in one of the lists. */
  lemma {:induction false} FlattenMembership<T>(lists: seq<seq<T>>, x: T)
    ensures x in Flatten(lists) <==> exists k :: 0 <= k < |lists| && x in lists[k]
  {
    if lists != [] {
      FlattenMembership(lists[1..], x);
      if x in Flatten(lists[1..]) {
        var k :| 0 <= k < |lists[1..]| && x in lists[1..][k];
        assert x in lists[k + 1];
      }
      if exists k :: 0 <= k < |lists| && x in lists[k] {
        var k :| 0 <= k < |lists| && x in lists[k];
        if k > 0 {
          assert x in lists[1..][k - 1];
        }
      }
    }
  }
}
