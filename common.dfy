/** Machine integer widths and the Option/Result wrappers shared by every module. */
module Common {

  /** Rust's `Option<T>`. */
  datatype Option<T> = None | Some(value: T)

  /** `anyhow::Result<T>`: a value, or an error carrying its message. */
  datatype Result<T> = Ok(value: T) | Err(message: string)

  type u8 = x: int | 0 <= x < 0x100
  type u16 = x: int | 0 <= x < 0x1_0000
  type u32 = x: int | 0 <= x < 0x1_0000_0000

  /** The inclusive run `lo..=hi` of integers, ascending (empty when lo > hi). */
  function Range(lo: int, hi: int): (r: seq<int>)
    ensures |r| == if lo <= hi then hi - lo + 1 else 0
    ensures forall k :: 0 <= k < |r| ==> r[k] == lo + k
    decreases hi - lo
  {
    if lo > hi then [] else [lo] + Range(lo + 1, hi)
  }

  /** A non-empty range ends in its upper bound. */
  lemma RangeSnoc(lo: int, hi: int)
    requires lo <= hi
    ensures Range(lo, hi) == Range(lo, hi - 1) + [hi]
  {
  }

  /** Every element of `Range(lo, hi)` lies between its bounds, and every integer between them is in it. */
  lemma RangeMembership(lo: int, hi: int, x: int)
    ensures x in Range(lo, hi) <==> lo <= x <= hi
  {
    if lo <= x <= hi {
      assert Range(lo, hi)[x - lo] == x;
    }
  }
}
