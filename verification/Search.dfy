/** Binary search over keys in strictly ascending order, as `std::lower_bound` does it. */
module Search {

  predicate Ascending(keys: seq<int>) {
    forall i, j :: 0 <= i < j < |keys| ==> keys[i] < keys[j]
  }

  /** The position at which a key is, or belongs. */
  predicate IsLowerBound(keys: seq<int>, key: int, n: nat) {
    n <= |keys| && (forall i :: 0 <= i < n ==> keys[i] < key) && (forall i :: n <= i < |keys| ==> key <= keys[i])
  }

  method LowerBound(keys: seq<int>, key: int) returns (n: nat)
    requires Ascending(keys)
    ensures IsLowerBound(keys, key, n)
    ensures key in keys <==> n < |keys| && keys[n] == key
  {
    var lo, hi := 0, |keys|;
    while lo < hi
      invariant 0 <= lo <= hi <= |keys|
      invariant forall i :: 0 <= i < lo ==> keys[i] < key
      invariant forall i :: hi <= i < |keys| ==> key <= keys[i]
    {
      var mid := (lo + hi) / 2;
      if keys[mid] < key {
        lo := mid + 1;
      } else {
        hi := mid;
      }
    }
    n := lo;
  }

  lemma BoundsAreEqual(keys: seq<int>, key: int, m: nat, n: nat)
    requires IsLowerBound(keys, key, m) && IsLowerBound(keys, key, n)
    ensures m == n
  {
    if m < |keys| {
      assert m < n <==> keys[m] < key;
    }
    if n < |keys| {
      assert n < m <==> keys[n] < key;
    }
  }
}
