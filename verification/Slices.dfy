module Slices {
  lemma SliceSplits<T>(a: seq<T>, lo: nat, mid: nat, hi: nat)
    requires lo <= mid <= hi <= |a|
    ensures a[lo..hi] == a[lo..mid] + a[mid..hi]
  {}
}
