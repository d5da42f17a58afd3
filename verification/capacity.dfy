/**
 * How both lists size their backing array: a new list starts with ten slots,
 * and a list that is too short for `minCapacity` elements grows to
 * `Math.max(length * 2, minCapacity)`, where `length * 2` is Java `int`
 * arithmetic and wraps around past 2^31 - 1.
 */
module Capacity {

  import opened Common

  /** Length of the array a new list starts with. */
  const DEFAULT_CAPACITY: int32 := 10

  /** The capacity `ensureCapacity` asks for when the array is shorter than `minCapacity`. */
  function Grown(length: int32, minCapacity: int32): (r: int32)
    ensures r >= minCapacity
  {
    Max(Wrap(2 * length as int), minCapacity)
  }

  /** Growing is never to a negative length: the guard against a negative capacity can never fire. */
  lemma GrownIsLonger(length: int32, minCapacity: int32)
    requires 0 <= length < minCapacity
    ensures Grown(length, minCapacity) > length
    ensures Grown(length, minCapacity) >= 0
  {
  }

  /** Without overflow the array at least doubles: the new length is exactly `max(2 * length, minCapacity)`. */
  lemma GrownDoubles(length: int32, minCapacity: int32)
    requires 0 <= 2 * length as int <= MAX_INT
    ensures Grown(length, minCapacity) as int == if 2 * length as int >= minCapacity as int then 2 * length as int else minCapacity as int
  {
  }

  /**
   * When `length * 2` overflows, it wraps to a negative number and the array
   * grows to exactly `minCapacity`: no larger, but never negative either.
   */
  lemma GrownOnOverflow(length: int32, minCapacity: int32)
    requires 2 * length as int > MAX_INT && minCapacity >= 0
    ensures Wrap(2 * length as int) < 0
    ensures Grown(length, minCapacity) == minCapacity
  {
    WrapAbove(2 * length as int);
  }

  /**
   * From 2^30 slots on the doubling always overflows, so a full array of
   * `length` slots grows by exactly one slot: from then on every `add`
   * copies the whole array.
   */
  lemma GrownByOne(length: int32)
    requires 2 * length as int > MAX_INT && length as int < MAX_INT
    ensures Grown(length, length + 1) == length + 1
  {
    GrownOnOverflow(length, length + 1);
  }

  /**
   * The array length of a new list after `n` successful `add` calls: each
   * call first ensures room for `size + 1` elements.
   */
  function CapacityAfter(n: nat): (c: int32)
    requires n < MAX_INT
    ensures c as int >= n && c >= DEFAULT_CAPACITY
  {
    if n == 0 then DEFAULT_CAPACITY
    else
      var c := CapacityAfter(n - 1);
      if c as int >= n then c else Grown(c, n as int32)
  }

  /**
   * Growth never more than doubles what is needed: past the default ten
   * slots, the array of a list of `n` elements is shorter than `2 * n`.
   */
  lemma {:induction false} CapacityWithinDouble(n: nat)
    requires 0 < n < MAX_INT
    ensures CapacityAfter(n) as int <= if n <= DEFAULT_CAPACITY as int then DEFAULT_CAPACITY as int else 2 * (n - 1)
  {
    if n > 1 {
      CapacityWithinDouble(n - 1);
      var c := CapacityAfter(n - 1);
      if c as int < n {
        if 2 * c as int <= MAX_INT {
          GrownDoubles(c, n as int32);
        } else {
          GrownOnOverflow(c, n as int32);
        }
      }
    }
  }

  /** Eleven elements take one doubling of the default array: twenty slots. */
  lemma CapacityAfterEleven()
    ensures CapacityAfter(10) == 10 && CapacityAfter(11) == 20
  {
    assert CapacityAfter(1) == 10;
    assert CapacityAfter(5) == 10;
    assert CapacityAfter(10) == 10;
    GrownDoubles(10, 11);
  }
}
