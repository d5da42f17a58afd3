/**
 * The list class the generator emits for one primitive kind, as its six
 * method bodies behave on the JVM: a primitive array `data` that starts with
 * ten slots, and an `int` `size`.
 *
 * `P` stands for the primitive kind's values and `zero` for its default value
 * (0, `false`, `'\u0000'`, ...), which fills a new array and the padding of
 * `Arrays.copyOf`. Boxing by `valueOf` and unboxing by `intValue()` and its
 * siblings are the identity on values: the boxed element handed to `add` is
 * `Obj(v)`, or `Null` for a null reference.
 */
module GeneratedList {

  import opened Common
  import opened Capacity

  class GeneratedCompactList<P> {

    /** The default value of the primitive kind. */
    const zero: P

    /** The backing primitive array; the slots from `size` on hold `zero`. */
    var data: array<P>

    /** The `size` field. */
    var size: int32

    /** The values the list holds, in order. */
    ghost var Elements: seq<P>

    /**
     * The list invariant: `size` is within the array, the first `size` slots
     * are the elements, and the rest hold the default value.
     */
    ghost predicate Valid()
      reads this, data
      ensures Valid() ==> 0 <= size as int <= data.Length && data[..size] == Elements
    {
      0 <= size as int <= data.Length <= MAX_INT &&
      |Elements| == size as int &&
      (forall i :: 0 <= i < size as int ==> data[i] == Elements[i]) &&
      (forall i :: size as int <= i < data.Length ==> data[i] == zero)
    }

    /** `<init>`: calls `Object.<init>`, stores a new array of ten default values; `size` keeps its default 0. */
    constructor (zero: P)
      ensures this.zero == zero
      ensures Valid() && fresh(data)
      ensures size == 0 && Elements == []
      ensures data.Length == DEFAULT_CAPACITY as int
    {
      this.zero := zero;
      data := new P[DEFAULT_CAPACITY as int](_ => zero);
      size := 0;
      Elements := [];
    }

    /** `size()`: the `size` field. */
    function Size(): (r: int32)
      reads this, data
      requires Valid()
      ensures r as int == |Elements|
    {
      size
    }

    /**
     * `checkRange(index)`: `iflt` jumps to the throw when `index < 0`;
     * `if_icmplt` jumps past it when `index < size`; otherwise control falls
     * into the throw.
     */
    function CheckRange(index: int32): (r: Option<JavaError>)
      reads this, data
      requires Valid()
      ensures r.None? <==> 0 <= index as int < |Elements|
      ensures r.Some? ==> r.value == IndexOutOfBounds
    {
      if index < 0 then Some(IndexOutOfBounds)
      else if index < size then None
      else Some(IndexOutOfBounds)
    }

    /** `get(index)`: `checkRange`, then the array element, boxed by `valueOf`. */
    function Get(index: int32): (r: Result<P>)
      reads this, data
      requires Valid()
      ensures 0 <= index as int < |Elements| ==> r == Ok(Elements[index])
      ensures !(0 <= index as int < |Elements|) ==> r == Thrown(IndexOutOfBounds)
    {
      match CheckRange(index)
      case Some(e) => Thrown(e)
      case None => Ok(data[index])
    }

    /**
     * `ensureCapacity(minCapacity)`: `if_icmpge` skips to the return when the
     * array has `minCapacity` slots. Otherwise `data` becomes
     * `Arrays.copyOf(data, Math.max(data.length * 2, minCapacity))`, with no
     * check of the product for overflow; `copyOf` would throw
     * `NegativeArraySizeException` for a negative length.
     */
    method EnsureCapacity(minCapacity: int32) returns (thrown: Option<JavaError>)
      requires Valid()
      modifies this
      ensures Valid() && size == old(size) && Elements == old(Elements)
      ensures data == old(data) || fresh(data)
      ensures thrown == Some(NegativeArraySize) <==>
        old(data.Length) < minCapacity as int && Grown(old(data.Length) as int32, minCapacity) < 0
      ensures thrown.None? || thrown == Some(NegativeArraySize)
      ensures old(data.Length) >= minCapacity as int ==> data == old(data)
      ensures old(data.Length) < minCapacity as int && thrown.None? ==>
        data.Length == Grown(old(data.Length) as int32, minCapacity) as int &&
        data[..old(data.Length)] == old(data[..])
    {
      thrown := None;
      if (data.Length as int32) < minCapacity {
        var newCapacity := Grown(data.Length as int32, minCapacity);
        if newCapacity < 0 {
          thrown := Some(NegativeArraySize);
        } else {
          var prefix := data[..];
          data := new P[newCapacity as int](i => if 0 <= i < |prefix| then prefix[i] else zero);
        }
      }
    }

    /**
     * `add(element)` as emitted: `ensureCapacity(size + 1)`; push `data`; push
     * `size` and, by `dup_x1`, keep a copy of it below `data`'s index slot
     * while `size + 1` is written back; only then unbox the element and store
     * it at the old `size`.
     *
     * So a null element throws `NullPointerException` after `size` has grown:
     * the list then holds one more element, the default value left in the
     * slot.
     */
    method Add(element: Ref<P>) returns (thrown: Option<JavaError>)
      requires Valid()
      modifies this, data
      ensures data == old(data) || fresh(data)
      ensures data.Length >= old(data.Length)
      ensures old(size) as int < MAX_INT ==>
        data.Length == if old(data.Length) > old(size) as int then old(data.Length) else Grown(old(data.Length) as int32, old(size) + 1) as int
      ensures old(size) as int < MAX_INT ==>
        Valid() && size as int == old(size) as int + 1 &&
        match element
        case Obj(v) => thrown.None? && Elements == old(Elements) + [v]
        case Null => thrown == Some(NullPointer) && Elements == old(Elements) + [zero]
      ensures old(size) as int == MAX_INT ==>
        size as int == MIN_INT && Elements == old(Elements) && data == old(data) && data[..] == old(data[..]) &&
        thrown == Some(if element.Null? then NullPointer else ArrayIndexOutOfBounds)
    {
      thrown := EnsureCapacity(Wrap(size as int + 1));
      if thrown.Some? {
        return;
      }
      var target := data;
      var index := size;
      size := Wrap(index as int + 1);
      match element {
        case Null =>
          thrown := Some(NullPointer);
          if index as int < MAX_INT {
            Elements := Elements + [zero];
          }
        case Obj(v) =>
          if index < 0 || index as int >= target.Length {
            thrown := Some(ArrayIndexOutOfBounds);
          } else {
            target[index] := v;
            Elements := Elements + [v];
          }
      }
    }

    /**
     * `add(element)` with the store moved before the `size` update: `data`,
     * `size`, the unboxed element, the array store, and then `size + 1`
     * written back. A null element now throws before `size` changes, so the
     * list holds the same elements as before, as the reference-array list
     * guarantees.
     */
    method AddCorrected(element: Ref<P>) returns (thrown: Option<JavaError>)
      requires Valid()
      modifies this, data
      ensures data == old(data) || fresh(data)
      ensures data.Length >= old(data.Length)
      ensures old(size) as int < MAX_INT ==>
        data.Length == if old(data.Length) > old(size) as int then old(data.Length) else Grown(old(data.Length) as int32, old(size) + 1) as int
      ensures old(size) as int < MAX_INT ==>
        Valid() &&
        match element
        case Obj(v) => thrown.None? && Elements == old(Elements) + [v] && size as int == old(size) as int + 1
        case Null => thrown == Some(NullPointer) && Elements == old(Elements) && size == old(size)
      ensures old(size) as int == MAX_INT ==>
        size == old(size) && Elements == old(Elements) && data == old(data) && data[..] == old(data[..]) &&
        thrown == Some(if element.Null? then NullPointer else ArrayIndexOutOfBounds)
    {
      thrown := EnsureCapacity(Wrap(size as int + 1));
      if thrown.Some? {
        return;
      }
      var target := data;
      var index := size;
      match element {
        case Null =>
          thrown := Some(NullPointer);
        case Obj(v) =>
          if index < 0 || index as int >= target.Length {
            thrown := Some(ArrayIndexOutOfBounds);
          } else {
            target[index] := v;
            size := Wrap(size as int + 1);
            Elements := Elements + [v];
          }
      }
    }
  }
}
