/**
 * The six bodies the generator emits pass the operand-stack check with the
 * `visitMaxs` values it declares, for every primitive kind: 2/1 for the
 * constructor, 1/1 for `size`, 5/2 for `add`, 2/2 for `get`, 2/2 for
 * `checkRange` and 3/3 for `ensureCapacity` (max stack / max locals).
 *
 * Each lemma walks the checker forwards over up to three instructions, giving
 * the depth before and after each one; `long` and `double` values count two slots.
 */
module EmittedStacks {

  import opened Common
  import opened Bytecode
  import opened Generator
  import opened StackCheck


  /** Stack depth on fall-through into each instruction of the constructor; None after a return or throw. */
  function ConstructorDepths(): seq<Depth>
  {
    [ Some(0), Some(1), Some(0), Some(1), Some(2), Some(2), Some(0), None ]
  }

  lemma ConstructorStepsFrom0(cls: string, k: PrimKind)
    ensures var b, D := ConstructorBody(cls, k), ConstructorDepths();
      forall i :: 0 <= i < 3 ==> After(b, i, D[i]) == Some(D[i + 1])
  {
    var b, D := ConstructorBody(cls, k), ConstructorDepths();
    forall i | 0 <= i < 3 ensures After(b, i, D[i]) == Some(D[i + 1]) {
      if i == 0 {} else if i == 1 {}
    }
  }

  lemma ConstructorStepsFrom3(cls: string, k: PrimKind)
    ensures var b, D := ConstructorBody(cls, k), ConstructorDepths();
      forall i :: 3 <= i < 6 ==> After(b, i, D[i]) == Some(D[i + 1])
  {
    var b, D := ConstructorBody(cls, k), ConstructorDepths();
    forall i | 3 <= i < 6 ensures After(b, i, D[i]) == Some(D[i + 1]) {
      if i == 3 {} else if i == 4 {}
    }
  }

  lemma ConstructorStepsFrom6(cls: string, k: PrimKind)
    ensures var b, D := ConstructorBody(cls, k), ConstructorDepths();
      forall i :: 6 <= i < 7 ==> After(b, i, D[i]) == Some(D[i + 1])
  {
    var b, D := ConstructorBody(cls, k), ConstructorDepths();
    forall i | 6 <= i < 7 ensures After(b, i, D[i]) == Some(D[i + 1]) {
    }
  }

  lemma ConstructorAccepted(cls: string, k: PrimKind)
    ensures Trace(ConstructorBody(cls, k)) == Some(ConstructorDepths())
  {
    var b, D := ConstructorBody(cls, k), ConstructorDepths();
    forall i | 0 <= i < |b.code| ensures After(b, i, D[i]) == Some(D[i + 1]) {
      if i < 3 { ConstructorStepsFrom0(cls, k); } else if i < 6 { ConstructorStepsFrom3(cls, k); } else { ConstructorStepsFrom6(cls, k); }
    }
    CertifiedTrace(b, 0, D);
  }

  /** Stack depth on fall-through into each instruction of `size`; None after a return or throw. */
  function SizeDepths(): seq<Depth>
  {
    [ Some(0), Some(1), Some(1), None ]
  }

  lemma SizeStepsFrom0(cls: string)
    ensures var b, D := SizeBody(cls), SizeDepths();
      forall i :: 0 <= i < 3 ==> After(b, i, D[i]) == Some(D[i + 1])
  {
    var b, D := SizeBody(cls), SizeDepths();
    forall i | 0 <= i < 3 ensures After(b, i, D[i]) == Some(D[i + 1]) {
      if i == 0 {} else if i == 1 {}
    }
  }

  lemma SizeAccepted(cls: string)
    ensures Trace(SizeBody(cls)) == Some(SizeDepths())
  {
    var b, D := SizeBody(cls), SizeDepths();
    forall i | 0 <= i < |b.code| ensures After(b, i, D[i]) == Some(D[i + 1]) {
      { SizeStepsFrom0(cls); }
    }
    CertifiedTrace(b, 0, D);
  }

  /** Stack depth on fall-through into each instruction of `add`; None after a return or throw. */
  function AddDepths(k: PrimKind): seq<Depth>
  {
    [ Some(0), Some(1), Some(2), Some(2), Some(3), Some(2), Some(0), Some(1), Some(1), Some(2), Some(3), Some(3), Some(4), Some(5), Some(4), Some(2), Some(3), Some(3), Some(2 + Slots(k)), Some(0), None ]
  }

  lemma AddStepsFrom0(cls: string, k: PrimKind)
    ensures var b, D := AddBody(cls, k), AddDepths(k);
      forall i :: 0 <= i < 3 ==> After(b, i, D[i]) == Some(D[i + 1])
  {
    var b, D := AddBody(cls, k), AddDepths(k);
    forall i | 0 <= i < 3 ensures After(b, i, D[i]) == Some(D[i + 1]) {
      if i == 0 {} else if i == 1 {}
    }
  }

  lemma AddStepsFrom3(cls: string, k: PrimKind)
    ensures var b, D := AddBody(cls, k), AddDepths(k);
      forall i :: 3 <= i < 6 ==> After(b, i, D[i]) == Some(D[i + 1])
  {
    var b, D := AddBody(cls, k), AddDepths(k);
    forall i | 3 <= i < 6 ensures After(b, i, D[i]) == Some(D[i + 1]) {
      if i == 3 {} else if i == 4 {}
    }
  }

  lemma AddStepsFrom6(cls: string, k: PrimKind)
    ensures var b, D := AddBody(cls, k), AddDepths(k);
      forall i :: 6 <= i < 9 ==> After(b, i, D[i]) == Some(D[i + 1])
  {
    var b, D := AddBody(cls, k), AddDepths(k);
    forall i | 6 <= i < 9 ensures After(b, i, D[i]) == Some(D[i + 1]) {
      if i == 6 {} else if i == 7 {}
    }
  }

  lemma AddStepsFrom9(cls: string, k: PrimKind)
    ensures var b, D := AddBody(cls, k), AddDepths(k);
      forall i :: 9 <= i < 12 ==> After(b, i, D[i]) == Some(D[i + 1])
  {
    var b, D := AddBody(cls, k), AddDepths(k);
    forall i | 9 <= i < 12 ensures After(b, i, D[i]) == Some(D[i + 1]) {
      if i == 9 {} else if i == 10 {}
    }
  }

  lemma AddStepsFrom12(cls: string, k: PrimKind)
    ensures var b, D := AddBody(cls, k), AddDepths(k);
      forall i :: 12 <= i < 15 ==> After(b, i, D[i]) == Some(D[i + 1])
  {
    var b, D := AddBody(cls, k), AddDepths(k);
    forall i | 12 <= i < 15 ensures After(b, i, D[i]) == Some(D[i + 1]) {
      if i == 12 {} else if i == 13 {}
    }
  }

  lemma AddStepsFrom15(cls: string, k: PrimKind)
    ensures var b, D := AddBody(cls, k), AddDepths(k);
      forall i :: 15 <= i < 18 ==> After(b, i, D[i]) == Some(D[i + 1])
  {
    var b, D := AddBody(cls, k), AddDepths(k);
    forall i | 15 <= i < 18 ensures After(b, i, D[i]) == Some(D[i + 1]) {
      if i == 15 {} else if i == 16 {}
    }
  }

  lemma AddStepsFrom18(cls: string, k: PrimKind)
    ensures var b, D := AddBody(cls, k), AddDepths(k);
      forall i :: 18 <= i < 20 ==> After(b, i, D[i]) == Some(D[i + 1])
  {
    var b, D := AddBody(cls, k), AddDepths(k);
    forall i | 18 <= i < 20 ensures After(b, i, D[i]) == Some(D[i + 1]) {
      if i == 18 {}
    }
  }

  lemma AddAccepted(cls: string, k: PrimKind)
    ensures Trace(AddBody(cls, k)) == Some(AddDepths(k))
  {
    var b, D := AddBody(cls, k), AddDepths(k);
    forall i | 0 <= i < |b.code| ensures After(b, i, D[i]) == Some(D[i + 1]) {
      if i < 3 { AddStepsFrom0(cls, k); } else if i < 6 { AddStepsFrom3(cls, k); } else if i < 9 { AddStepsFrom6(cls, k); } else if i < 12 { AddStepsFrom9(cls, k); } else if i < 15 { AddStepsFrom12(cls, k); } else if i < 18 { AddStepsFrom15(cls, k); } else { AddStepsFrom18(cls, k); }
    }
    CertifiedTrace(b, 0, D);
  }

  /** Stack depth on fall-through into each instruction of `get`; None after a return or throw. */
  function GetDepths(k: PrimKind): seq<Depth>
  {
    [ Some(0), Some(1), Some(2), Some(0), Some(1), Some(1), Some(2), Some(Slots(k)), Some(1), None ]
  }

  lemma GetStepsFrom0(cls: string, k: PrimKind)
    ensures var b, D := GetBody(cls, k), GetDepths(k);
      forall i :: 0 <= i < 3 ==> After(b, i, D[i]) == Some(D[i + 1])
  {
    var b, D := GetBody(cls, k), GetDepths(k);
    forall i | 0 <= i < 3 ensures After(b, i, D[i]) == Some(D[i + 1]) {
      if i == 0 {} else if i == 1 {}
    }
  }

  lemma GetStepsFrom3(cls: string, k: PrimKind)
    ensures var b, D := GetBody(cls, k), GetDepths(k);
      forall i :: 3 <= i < 6 ==> After(b, i, D[i]) == Some(D[i + 1])
  {
    var b, D := GetBody(cls, k), GetDepths(k);
    forall i | 3 <= i < 6 ensures After(b, i, D[i]) == Some(D[i + 1]) {
      if i == 3 {} else if i == 4 {}
    }
  }

  lemma GetStepsFrom6(cls: string, k: PrimKind)
    ensures var b, D := GetBody(cls, k), GetDepths(k);
      forall i :: 6 <= i < 9 ==> After(b, i, D[i]) == Some(D[i + 1])
  {
    var b, D := GetBody(cls, k), GetDepths(k);
    forall i | 6 <= i < 9 ensures After(b, i, D[i]) == Some(D[i + 1]) {
      if i == 6 {} else if i == 7 {}
    }
  }

  lemma GetAccepted(cls: string, k: PrimKind)
    ensures Trace(GetBody(cls, k)) == Some(GetDepths(k))
  {
    var b, D := GetBody(cls, k), GetDepths(k);
    forall i | 0 <= i < |b.code| ensures After(b, i, D[i]) == Some(D[i + 1]) {
      if i < 3 { GetStepsFrom0(cls, k); } else if i < 6 { GetStepsFrom3(cls, k); } else { GetStepsFrom6(cls, k); }
    }
    CertifiedTrace(b, 0, D);
  }

  /** Stack depth on fall-through into each instruction of `checkRange`; None after a return or throw. */
  function CheckRangeDepths(): seq<Depth>
  {
    [ Some(0), Some(1), Some(0), Some(1), Some(2), Some(2), Some(0), Some(0), Some(1), Some(2), Some(1), None, Some(0), None ]
  }

  lemma CheckRangeStepsFrom0(cls: string)
    ensures var b, D := CheckRangeBody(cls), CheckRangeDepths();
      forall i :: 0 <= i < 3 ==> After(b, i, D[i]) == Some(D[i + 1])
  {
    var b, D := CheckRangeBody(cls), CheckRangeDepths();
    forall i | 0 <= i < 3 ensures After(b, i, D[i]) == Some(D[i + 1]) {
      if i == 0 {} else if i == 1 {}
    }
  }

  lemma CheckRangeStepsFrom3(cls: string)
    ensures var b, D := CheckRangeBody(cls), CheckRangeDepths();
      forall i :: 3 <= i < 6 ==> After(b, i, D[i]) == Some(D[i + 1])
  {
    var b, D := CheckRangeBody(cls), CheckRangeDepths();
    forall i | 3 <= i < 6 ensures After(b, i, D[i]) == Some(D[i + 1]) {
      if i == 3 {} else if i == 4 {}
    }
  }

  lemma CheckRangeStepsFrom6(cls: string)
    ensures var b, D := CheckRangeBody(cls), CheckRangeDepths();
      forall i :: 6 <= i < 9 ==> After(b, i, D[i]) == Some(D[i + 1])
  {
    var b, D := CheckRangeBody(cls), CheckRangeDepths();
    forall i | 6 <= i < 9 ensures After(b, i, D[i]) == Some(D[i + 1]) {
      if i == 6 {} else if i == 7 {}
    }
  }

  lemma CheckRangeStepsFrom9(cls: string)
    ensures var b, D := CheckRangeBody(cls), CheckRangeDepths();
      forall i :: 9 <= i < 12 ==> After(b, i, D[i]) == Some(D[i + 1])
  {
    var b, D := CheckRangeBody(cls), CheckRangeDepths();
    forall i | 9 <= i < 12 ensures After(b, i, D[i]) == Some(D[i + 1]) {
      if i == 9 {} else if i == 10 {}
    }
  }

  lemma CheckRangeStepsFrom12(cls: string)
    ensures var b, D := CheckRangeBody(cls), CheckRangeDepths();
      forall i :: 12 <= i < 13 ==> After(b, i, D[i]) == Some(D[i + 1])
  {
    var b, D := CheckRangeBody(cls), CheckRangeDepths();
    forall i | 12 <= i < 13 ensures After(b, i, D[i]) == Some(D[i + 1]) {
    }
  }

  lemma CheckRangeAccepted(cls: string)
    ensures Trace(CheckRangeBody(cls)) == Some(CheckRangeDepths())
  {
    var b, D := CheckRangeBody(cls), CheckRangeDepths();
    forall i | 0 <= i < |b.code| ensures After(b, i, D[i]) == Some(D[i + 1]) {
      if i < 3 { CheckRangeStepsFrom0(cls); } else if i < 6 { CheckRangeStepsFrom3(cls); } else if i < 9 { CheckRangeStepsFrom6(cls); } else if i < 12 { CheckRangeStepsFrom9(cls); } else { CheckRangeStepsFrom12(cls); }
    }
    CertifiedTrace(b, 0, D);
  }

  /** Stack depth on fall-through into each instruction of the corrected `add`; None after a return or throw. */
  function AddCorrectedDepths(k: PrimKind): seq<Depth>
  {
    [ Some(0), Some(1), Some(2), Some(2), Some(3), Some(2), Some(0), Some(1), Some(1), Some(2), Some(2), Some(3), Some(3), Some(2 + Slots(k)), Some(0), Some(1), Some(2), Some(2), Some(3), Some(2), Some(0), None ]
  }

  lemma AddCorrectedStepsFrom0(cls: string, k: PrimKind)
    ensures var b, D := AddBodyCorrected(cls, k), AddCorrectedDepths(k);
      forall i :: 0 <= i < 3 ==> After(b, i, D[i]) == Some(D[i + 1])
  {
    var b, D := AddBodyCorrected(cls, k), AddCorrectedDepths(k);
    forall i | 0 <= i < 3 ensures After(b, i, D[i]) == Some(D[i + 1]) {
      if i == 0 {} else if i == 1 {}
    }
  }

  lemma AddCorrectedStepsFrom3(cls: string, k: PrimKind)
    ensures var b, D := AddBodyCorrected(cls, k), AddCorrectedDepths(k);
      forall i :: 3 <= i < 6 ==> After(b, i, D[i]) == Some(D[i + 1])
  {
    var b, D := AddBodyCorrected(cls, k), AddCorrectedDepths(k);
    forall i | 3 <= i < 6 ensures After(b, i, D[i]) == Some(D[i + 1]) {
      if i == 3 {} else if i == 4 {}
    }
  }

  lemma AddCorrectedStepsFrom6(cls: string, k: PrimKind)
    ensures var b, D := AddBodyCorrected(cls, k), AddCorrectedDepths(k);
      forall i :: 6 <= i < 9 ==> After(b, i, D[i]) == Some(D[i + 1])
  {
    var b, D := AddBodyCorrected(cls, k), AddCorrectedDepths(k);
    forall i | 6 <= i < 9 ensures After(b, i, D[i]) == Some(D[i + 1]) {
      if i == 6 {} else if i == 7 {}
    }
  }

  lemma AddCorrectedStepsFrom9(cls: string, k: PrimKind)
    ensures var b, D := AddBodyCorrected(cls, k), AddCorrectedDepths(k);
      forall i :: 9 <= i < 12 ==> After(b, i, D[i]) == Some(D[i + 1])
  {
    var b, D := AddBodyCorrected(cls, k), AddCorrectedDepths(k);
    forall i | 9 <= i < 12 ensures After(b, i, D[i]) == Some(D[i + 1]) {
      if i == 9 {} else if i == 10 {}
    }
  }

  lemma AddCorrectedStepsFrom12(cls: string, k: PrimKind)
    ensures var b, D := AddBodyCorrected(cls, k), AddCorrectedDepths(k);
      forall i :: 12 <= i < 15 ==> After(b, i, D[i]) == Some(D[i + 1])
  {
    var b, D := AddBodyCorrected(cls, k), AddCorrectedDepths(k);
    forall i | 12 <= i < 15 ensures After(b, i, D[i]) == Some(D[i + 1]) {
      if i == 12 {} else if i == 13 {}
    }
  }

  lemma AddCorrectedStepsFrom15(cls: string, k: PrimKind)
    ensures var b, D := AddBodyCorrected(cls, k), AddCorrectedDepths(k);
      forall i :: 15 <= i < 18 ==> After(b, i, D[i]) == Some(D[i + 1])
  {
    var b, D := AddBodyCorrected(cls, k), AddCorrectedDepths(k);
    forall i | 15 <= i < 18 ensures After(b, i, D[i]) == Some(D[i + 1]) {
      if i == 15 {} else if i == 16 {}
    }
  }

  lemma AddCorrectedStepsFrom18(cls: string, k: PrimKind)
    ensures var b, D := AddBodyCorrected(cls, k), AddCorrectedDepths(k);
      forall i :: 18 <= i < 21 ==> After(b, i, D[i]) == Some(D[i + 1])
  {
    var b, D := AddBodyCorrected(cls, k), AddCorrectedDepths(k);
    forall i | 18 <= i < 21 ensures After(b, i, D[i]) == Some(D[i + 1]) {
      if i == 18 {} else if i == 19 {}
    }
  }

  lemma AddCorrectedAccepted(cls: string, k: PrimKind)
    ensures Trace(AddBodyCorrected(cls, k)) == Some(AddCorrectedDepths(k))
  {
    var b, D := AddBodyCorrected(cls, k), AddCorrectedDepths(k);
    forall i | 0 <= i < |b.code| ensures After(b, i, D[i]) == Some(D[i + 1]) {
      if i < 3 { AddCorrectedStepsFrom0(cls, k); } else if i < 6 { AddCorrectedStepsFrom3(cls, k); } else if i < 9 { AddCorrectedStepsFrom6(cls, k); } else if i < 12 { AddCorrectedStepsFrom9(cls, k); } else if i < 15 { AddCorrectedStepsFrom12(cls, k); } else if i < 18 { AddCorrectedStepsFrom15(cls, k); } else { AddCorrectedStepsFrom18(cls, k); }
    }
    CertifiedTrace(b, 0, D);
  }

  /** Stack depth on fall-through into each instruction of `ensureCapacity`; None after a return or throw. */
  function EnsureCapacityDepths(): seq<Depth>
  {
    [ Some(0), Some(1), Some(1), Some(1), Some(2), Some(0), Some(1), Some(1), Some(1), Some(2), Some(1), Some(2), Some(1), Some(0), Some(1), Some(2), Some(2), Some(3), Some(2), Some(0), Some(0), None ]
  }

  lemma EnsureCapacityStepsFrom0(cls: string, k: PrimKind)
    ensures var b, D := EnsureCapacityBody(cls, k), EnsureCapacityDepths();
      forall i :: 0 <= i < 3 ==> After(b, i, D[i]) == Some(D[i + 1])
  {
    var b, D := EnsureCapacityBody(cls, k), EnsureCapacityDepths();
    forall i | 0 <= i < 3 ensures After(b, i, D[i]) == Some(D[i + 1]) {
      if i == 0 {} else if i == 1 {}
    }
  }

  lemma EnsureCapacityStepsFrom3(cls: string, k: PrimKind)
    ensures var b, D := EnsureCapacityBody(cls, k), EnsureCapacityDepths();
      forall i :: 3 <= i < 6 ==> After(b, i, D[i]) == Some(D[i + 1])
  {
    var b, D := EnsureCapacityBody(cls, k), EnsureCapacityDepths();
    forall i | 3 <= i < 6 ensures After(b, i, D[i]) == Some(D[i + 1]) {
      if i == 3 {} else if i == 4 {}
    }
  }

  lemma EnsureCapacityStepsFrom6(cls: string, k: PrimKind)
    ensures var b, D := EnsureCapacityBody(cls, k), EnsureCapacityDepths();
      forall i :: 6 <= i < 9 ==> After(b, i, D[i]) == Some(D[i + 1])
  {
    var b, D := EnsureCapacityBody(cls, k), EnsureCapacityDepths();
    forall i | 6 <= i < 9 ensures After(b, i, D[i]) == Some(D[i + 1]) {
      if i == 6 {} else if i == 7 {}
    }
  }

  lemma EnsureCapacityStepsFrom9(cls: string, k: PrimKind)
    ensures var b, D := EnsureCapacityBody(cls, k), EnsureCapacityDepths();
      forall i :: 9 <= i < 12 ==> After(b, i, D[i]) == Some(D[i + 1])
  {
    var b, D := EnsureCapacityBody(cls, k), EnsureCapacityDepths();
    forall i | 9 <= i < 12 ensures After(b, i, D[i]) == Some(D[i + 1]) {
      if i == 9 {} else if i == 10 {}
    }
  }

  lemma EnsureCapacityStepsFrom12(cls: string, k: PrimKind)
    ensures var b, D := EnsureCapacityBody(cls, k), EnsureCapacityDepths();
      forall i :: 12 <= i < 15 ==> After(b, i, D[i]) == Some(D[i + 1])
  {
    var b, D := EnsureCapacityBody(cls, k), EnsureCapacityDepths();
    forall i | 12 <= i < 15 ensures After(b, i, D[i]) == Some(D[i + 1]) {
      if i == 12 {} else if i == 13 {}
    }
  }

  lemma EnsureCapacityStepsFrom15(cls: string, k: PrimKind)
    ensures var b, D := EnsureCapacityBody(cls, k), EnsureCapacityDepths();
      forall i :: 15 <= i < 18 ==> After(b, i, D[i]) == Some(D[i + 1])
  {
    var b, D := EnsureCapacityBody(cls, k), EnsureCapacityDepths();
    forall i | 15 <= i < 18 ensures After(b, i, D[i]) == Some(D[i + 1]) {
      if i == 15 {} else if i == 16 {}
    }
  }

  lemma EnsureCapacityStepsFrom18(cls: string, k: PrimKind)
    ensures var b, D := EnsureCapacityBody(cls, k), EnsureCapacityDepths();
      forall i :: 18 <= i < 21 ==> After(b, i, D[i]) == Some(D[i + 1])
  {
    var b, D := EnsureCapacityBody(cls, k), EnsureCapacityDepths();
    forall i | 18 <= i < 21 ensures After(b, i, D[i]) == Some(D[i + 1]) {
      if i == 18 {} else if i == 19 {}
    }
  }

  lemma EnsureCapacityAccepted(cls: string, k: PrimKind)
    ensures Trace(EnsureCapacityBody(cls, k)) == Some(EnsureCapacityDepths())
  {
    var b, D := EnsureCapacityBody(cls, k), EnsureCapacityDepths();
    forall i | 0 <= i < |b.code| ensures After(b, i, D[i]) == Some(D[i + 1]) {
      if i < 3 { EnsureCapacityStepsFrom0(cls, k); } else if i < 6 { EnsureCapacityStepsFrom3(cls, k); } else if i < 9 { EnsureCapacityStepsFrom6(cls, k); } else if i < 12 { EnsureCapacityStepsFrom9(cls, k); } else if i < 15 { EnsureCapacityStepsFrom12(cls, k); } else if i < 18 { EnsureCapacityStepsFrom15(cls, k); } else { EnsureCapacityStepsFrom18(cls, k); }
    }
    CertifiedTrace(b, 0, D);
  }


  /** True of the six bodies emitted for kind `k`. */
  predicate IsEmitted(cls: string, k: PrimKind, b: Body)
  {
    b == ConstructorBody(cls, k) || b == SizeBody(cls) || b == AddBody(cls, k) ||
    b == GetBody(cls, k) || b == CheckRangeBody(cls) || b == EnsureCapacityBody(cls, k)
  }

  /**
   * For every kind and every emitted body, along every control-flow path:
   * the stack depth is never negative, stays within the declared max stack,
   * every local slot used is below the declared max locals, and the stack is
   * empty on every edge into an F_SAME label.
   */
  lemma EmittedBodiesKeepStackDiscipline(cls: string, k: PrimKind, b: Body, p: seq<nat>)
    requires IsEmitted(cls, k, b)
    requires IsPath(b, p)
    ensures var last := p[|p| - 1];
      last < |b.code| &&
      var ins, d := b.code[last], DepthAlong(b.code, p);
      0 <= Pops(ins) <= d &&
      d <= b.maxStack &&
      d - Pops(ins) + Pushes(ins) <= b.maxStack &&
      LocalsFit(ins, b.maxLocals) &&
      (ins.PlaceSame? ==> d == 0) &&
      (IsJump(ins) ==> d - Pops(ins) == 0)
  {
    if b == ConstructorBody(cls, k) {
      ConstructorAccepted(cls, k);
    } else if b == SizeBody(cls) {
      SizeAccepted(cls);
    } else if b == AddBody(cls, k) {
      AddAccepted(cls, k);
    } else if b == GetBody(cls, k) {
      GetAccepted(cls, k);
    } else if b == CheckRangeBody(cls) {
      CheckRangeAccepted(cls);
    } else {
      EnsureCapacityAccepted(cls, k);
    }
    StackDisciplineOnPaths(b, p);
  }
}
