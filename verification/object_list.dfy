/**
 * The reference-array list: an `Object[]` that starts with ten slots and a
 * `size` counting the elements in use. `add` rejects null, grows the array
 * when it is full and stores the element at index `size`; `get` checks the
 * index against `size` first.
 *
 * Java `null` is `Null` and a non-null reference to a `T` is `Obj(t)`.
 */
module ObjectList {

  import opened Common
  import opened Capacity

  class ObjectCompactList<T> {

    /** The backing array; the slots from `size` on hold null. */
    var data: array<Ref<T>>

    /** The number of elements in the list. */
    var size: int32

    /** The elements added so far, in order. */
    ghost var Elements: seq<T>

    /**
     * The list invariant: `size` is within the array, the first `size` slots
     * hold the elements, and null marks exactly the unused slots.
     */
    ghost predicate Valid()
      reads this, data
      ensures Valid() ==> forall i :: 0 <= i < data.Length ==> (data[i].Null? <==> size as int <= i)
    {
      0 <= size as int <= data.Length <= MAX_INT &&
      |Elements| == size as int &&
      (forall i :: 0 <= i < size as int ==> data[i] == Obj(Elements[i])) &&
      (forall i :: size as int <= i < data.Length ==> data[i] == Null)
    }

    /** A new list is empty, with an array of `DEFAULT_CAPACITY` null slots. */
    constructor ()
      ensures Valid() && fresh(data)
      ensures size == 0 && Elements == []
      ensures data.Length == DEFAULT_CAPACITY as int
    {
      data := new Ref<T>[DEFAULT_CAPACITY as int](_ => Null);
      size := 0;
      Elements := [];
    }

    /** `size()`: the number of elements added. */
    function Size(): (r: int32)
      reads this, data
      requires Valid()
      ensures r as int == |Elements|
    {
      size
    }

    /** `checkRange`: no exception exactly when `0 <= index < size`. */
    function CheckRange(index: int32): (r: Option<JavaError>)
      reads this, data
      requires Valid()
      ensures r.None? <==> 0 <= index as int < |Elements|
      ensures r.Some? ==> r.value == IndexOutOfBounds
    {
      if index < 0 || index >= size then Some(IndexOutOfBounds) else None
    }

    /** `get(index)`: the element added at position `index`, or `IndexOutOfBoundsException`. */
    function Get(index: int32): (r: Result<T>)
      reads this, data
      requires Valid()
      ensures 0 <= index as int < |Elements| ==> r == Ok(Elements[index])
      ensures !(0 <= index as int < |Elements|) ==> r == Thrown(IndexOutOfBounds)
    {
      match CheckRange(index)
      case Some(e) => Thrown(e)
      case None => Ok(data[index].value)
    }

    /**
     * `ensureCapacity(minCapacity)`: nothing happens when the array already
     * has `minCapacity` slots. Otherwise the array is replaced by a copy of
     * length `Grown(length, minCapacity)`, padded with null, unless that
     * length is negative, in which case `OutOfMemoryError` is thrown.
     */
    method EnsureCapacity(minCapacity: int32) returns (thrown: Option<JavaError>)
      requires Valid()
      modifies this
      ensures Valid() && size == old(size) && Elements == old(Elements)
      ensures data == old(data) || fresh(data)
      ensures thrown == Some(OutOfMemory) <==>
        old(data.Length) < minCapacity as int && Grown(old(data.Length) as int32, minCapacity) < 0
      ensures thrown.None? || thrown == Some(OutOfMemory)
      ensures old(data.Length) >= minCapacity as int ==> data == old(data)
      ensures old(data.Length) < minCapacity as int && thrown.None? ==>
        data.Length == Grown(old(data.Length) as int32, minCapacity) as int &&
        data[..old(data.Length)] == old(data[..])
    {
      thrown := None;
      if (data.Length as int32) < minCapacity {
        var newCapacity := Grown(data.Length as int32, minCapacity);
        if newCapacity < 0 {
          thrown := Some(OutOfMemory);
        } else {
          // Arrays.copyOf: the old slots, then null
          var prefix := data[..];
          data := new Ref<T>[newCapacity as int](i => if 0 <= i < |prefix| then prefix[i] else Null);
        }
      }
    }

    /**
     * `add(element)`: null is rejected before anything changes; otherwise the
     * array grows if full, `size` goes up by one, and the element is stored at
     * the old `size`. A list already holding 2^31 - 1 elements cannot grow:
     * `size++` wraps `size` to -2^31 and the store at index 2^31 - 1 throws
     * `ArrayIndexOutOfBoundsException`.
     */
    method Add(element: Ref<T>) returns (thrown: Option<JavaError>)
      requires Valid()
      modifies this, data
      ensures data == old(data) || fresh(data)
      ensures data.Length >= old(data.Length)
      ensures element.Obj? && old(size) as int < MAX_INT ==>
        data.Length == if old(data.Length) > old(size) as int then old(data.Length) else Grown(old(data.Length) as int32, old(size) + 1) as int
      ensures element.Null? ==>
        thrown == Some(NullPointer) && size == old(size) && Elements == old(Elements) &&
        data == old(data) && data[..] == old(data[..])
      ensures element.Obj? && old(size) as int < MAX_INT ==>
        thrown.None? && Valid() && Elements == old(Elements) + [element.value] && size as int == old(size) as int + 1
      ensures element.Obj? && old(size) as int == MAX_INT ==>
        thrown == Some(ArrayIndexOutOfBounds) && size as int == MIN_INT && Elements == old(Elements) &&
        data == old(data) && data[..] == old(data[..])
    {
      if element.Null? {
        return Some(NullPointer);
      }
      thrown := EnsureCapacity(Wrap(size as int + 1));
      if thrown.Some? {
        return;
      }
      // data[size++] = element: the index is read, then size is incremented, then the store is bounds-checked
      var index := size;
      size := Wrap(size as int + 1);
      if index < 0 || index as int >= data.Length {
        thrown := Some(ArrayIndexOutOfBounds);
      } else {
        data[index] := element;
        Elements := Elements + [element.value];
      }
    }
  }
}
