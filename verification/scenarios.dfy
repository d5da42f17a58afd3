/**
 * The behaviour the list tests rely on, for both lists: adding elements one
 * by one to a new list and reading them back, crossing the first resize at
 * the eleventh element; `get` on a new list; and `add(null)` on a new list,
 * where the two lists differ.
 */
module Scenarios {

  import opened Common
  import opened Capacity
  import opened ObjectList
  import opened GeneratedList

  /**
   * Adds every element of `s` to a new reference-array list, then reads the
   * list back by index: the size is `|s|`, `get(i)` returns `s[i]`, and the
   * array has the length that `CapacityAfter` predicts.
   */
  method ObjectAddAllThenGet<T>(s: seq<T>) returns (size: int32, capacity: int, got: seq<Result<T>>)
    requires |s| < MAX_INT
    ensures size as int == |s|
    ensures capacity == CapacityAfter(|s|) as int
    ensures |got| == |s| && forall i :: 0 <= i < |s| ==> got[i] == Ok(s[i])
  {
    var list := new ObjectCompactList<T>();
    for i := 0 to |s|
      invariant fresh(list) && fresh(list.data) && list.Valid()
      invariant list.Elements == s[..i]
      invariant list.data.Length == CapacityAfter(i) as int
    {
      var thrown := list.Add(Obj(s[i]));
    }
    assert s[..|s|] == s;
    size, capacity := list.Size(), list.data.Length;
    got := [];
    for i := 0 to |s|
      invariant |got| == i && forall j :: 0 <= j < i ==> got[j] == Ok(s[j])
    {
      got := got + [list.Get(i as int32)];
    }
  }

  /** The same for the generated list of a primitive kind whose default value is `zero`. */
  method GeneratedAddAllThenGet<P>(zero: P, s: seq<P>) returns (size: int32, capacity: int, got: seq<Result<P>>)
    requires |s| < MAX_INT
    ensures size as int == |s|
    ensures capacity == CapacityAfter(|s|) as int
    ensures |got| == |s| && forall i :: 0 <= i < |s| ==> got[i] == Ok(s[i])
  {
    var list := new GeneratedCompactList<P>(zero);
    for i := 0 to |s|
      invariant fresh(list) && fresh(list.data) && list.Valid()
      invariant list.Elements == s[..i]
      invariant list.data.Length == CapacityAfter(i) as int
    {
      var thrown := list.Add(Obj(s[i]));
    }
    assert s[..|s|] == s;
    size, capacity := list.Size(), list.data.Length;
    got := [];
    for i := 0 to |s|
      invariant |got| == i && forall j :: 0 <= j < i ==> got[j] == Ok(s[j])
    {
      got := got + [list.Get(i as int32)];
    }
  }

  /** `get` on a new list throws `IndexOutOfBoundsException` for every index, 0 and -1 included. */
  method GetOnNewLists<T, P>(zero: P, index: int32) returns (fromObjects: Result<T>, fromGenerated: Result<P>)
    ensures fromObjects == Thrown(IndexOutOfBounds)
    ensures fromGenerated == Thrown(IndexOutOfBounds)
  {
    var objects := new ObjectCompactList<T>();
    var generated := new GeneratedCompactList<P>(zero);
    fromObjects := objects.Get(index);
    fromGenerated := generated.Get(index);
  }

  /**
   * `add(null)` on a new reference-array list throws `NullPointerException`
   * and leaves the list empty: `get(0)` still throws.
   */
  method ObjectAddNull<T>() returns (thrown: Option<JavaError>, size: int32, first: Result<T>)
    ensures thrown == Some(NullPointer)
    ensures size == 0 && first == Thrown(IndexOutOfBounds)
  {
    var list := new ObjectCompactList<T>();
    thrown := list.Add(Null);
    size, first := list.Size(), list.Get(0);
  }

  /**
   * `add(null)` on a new generated list also throws `NullPointerException`,
   * but only after `size` was written back: the list now has one element,
   * and `get(0)` returns the kind's default value.
   */
  method GeneratedAddNull<P>(zero: P) returns (thrown: Option<JavaError>, size: int32, first: Result<P>)
    ensures thrown == Some(NullPointer)
    ensures size == 1 && first == Ok(zero)
  {
    var list := new GeneratedCompactList<P>(zero);
    thrown := list.Add(Null);
    size, first := list.Size(), list.Get(0);
  }

  /** With the store moved before the `size` update, `add(null)` leaves the generated list empty, as for references. */
  method GeneratedAddNullCorrected<P>(zero: P) returns (thrown: Option<JavaError>, size: int32, first: Result<P>)
    ensures thrown == Some(NullPointer)
    ensures size == 0 && first == Thrown(IndexOutOfBounds)
  {
    var list := new GeneratedCompactList<P>(zero);
    thrown := list.AddCorrected(Null);
    size, first := list.Size(), list.Get(0);
  }
}
