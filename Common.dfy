/** Fixed-width unsigned integers of the Rust source and an Option type. */
module Common {

  type u8 = x: int | 0 <= x < 0x100
  type u16 = x: int | 0 <= x < 0x1_0000
  type u32 = x: int | 0 <= x < 0x1_0000_0000
  type u64 = x: int | 0 <= x < 0x1_0000_0000_0000_0000
  /** `usize` on a 64-bit target. */
  type usize = u64

  datatype Option<+T> = None | Some(value: T)

  /** The set {lo, lo + 1, ..., hi - 1}, which has hi - lo elements. */
  ghost function Between(lo: int, hi: int): (r: set<int>)
    requires lo <= hi
    ensures forall x :: x in r <==> lo <= x < hi
    ensures |r| == hi - lo
    decreases hi - lo
  {
    if lo == hi then {} else Between(lo, hi - 1) + {hi - 1}
  }

  /** A set of integers that all lie in [lo, hi) has at most hi - lo elements. */
  lemma RangeSubsetSize(s: set<int>, lo: int, hi: int)
    requires lo <= hi
    requires forall x :: x in s ==> lo <= x < hi
    ensures |s| <= hi - lo
  {
    var range := Between(lo, hi);
    assert s <= range;
    assert range == (range - s) + s;
  }

  /** The set of exactly the integers in [lo, hi) has hi - lo elements. */
  lemma RangeSize(s: set<int>, lo: int, hi: int)
    requires lo <= hi
    requires forall x :: x in s <==> lo <= x < hi
    ensures |s| == hi - lo
  {
    assert s == Between(lo, hi);
  }
}
