/**
 * Randomness as an oracle. Where the program calls `randint(lo, hi)`, the model
 * takes an arbitrary integer `v` from its caller and maps it into the range.
 * The map is the identity on `[lo, hi]`, so every outcome of `randint` is the
 * image of some draw and nothing outside the range ever is.
 */
module Random {

  function RandInt(lo: int, hi: int, v: int): (r: int)
    requires lo <= hi
    ensures lo <= r <= hi
    ensures lo <= v <= hi ==> r == v
  {
    lo + (v - lo) % (hi - lo + 1)
  }
}
