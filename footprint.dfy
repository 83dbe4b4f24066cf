/** Classification of an array class by element width, and the heap footprint
    computed from it by the (foreign) footprint services. */
module Footprint {
  import opened Wrappers
  import opened JavaTypes

  /** The byte width of one element of an array of the given family. */
  function Width(f: Family): (w: int)
    ensures w == 1 || w == 2 || w == 4 || w == 8
  {
    match f
    case ByteFamily => 1
    case CharFamily => 2
    case DoubleFamily => 8
    case FloatFamily => 4
    case IntFamily => 4
    case LongFamily => 8
    case ShortFamily => 2
    case ReferenceFamily => 8
  }

  /** The order in which the families are tested. */
  const FamilyOrder: seq<Family> :=
    [ByteFamily, CharFamily, DoubleFamily, FloatFamily, IntFamily, LongFamily, ShortFamily, ReferenceFamily]

  /** The first family of `FamilyOrder`, from position `from` on, that is in `families`, if any. */
  function FirstMatch(families: set<Family>, from: nat): (r: Option<Family>)
    ensures r.Some? ==> r.value in families
    ensures r.Some? ==>
      exists i :: from <= i < |FamilyOrder| && FamilyOrder[i] == r.value &&
                  forall j :: from <= j < i ==> FamilyOrder[j] !in families
    ensures r.None? ==> forall i :: from <= i < |FamilyOrder| ==> FamilyOrder[i] !in families
    decreases |FamilyOrder| - from
  {
    if from >= |FamilyOrder| then None
    else if FamilyOrder[from] in families then Some(FamilyOrder[from])
    else FirstMatch(families, from + 1)
  }

  /** The element-size selection of the footprint calculation: the first family test
      that succeeds decides the width; a class in no family is rejected. */
  function ElementSize(c: ArrayClass): (r: Result<int, Error>)
    ensures r.Failure? <==> forall f :: f in FamilyOrder ==> f !in c.families
    ensures r.Failure? ==> r.error == IllegalArgument(UnrecognizedArrayClass)
    ensures r.Success? ==> exists f :: f in c.families && r.value == Width(f)
  {
    if ByteFamily in c.families then Success(1)
    else if CharFamily in c.families then Success(2)
    else if DoubleFamily in c.families then Success(8)
    else if FloatFamily in c.families then Success(4)
    else if IntFamily in c.families then Success(4)
    else if LongFamily in c.families then Success(8)
    else if ShortFamily in c.families then Success(2)
    else if ReferenceFamily in c.families then Success(8)
    else Failure(IllegalArgument(UnrecognizedArrayClass))
  }

  /** The foreign footprint services, left uninterpreted: each maps
      (array class, element size, length) to a byte count. */
  datatype FootprintServices = FootprintServices(
    whenContained: (ArrayClass, int, int) -> int,  // Unsafes.getContainingObjectFootprintWhenContained
    standalone: (ArrayClass, int, int) -> int)     // Unsafes.getContainingObjectFootprint

  /** The heap footprint of an array of class `c` holding `length` elements, either
      embedded in a containing object or standing alone. Both services are handed the
      class, the width of the first family in the fixed order that the class belongs
      to, and the length; the flag alone chooses the service. */
  function PrimitiveArrayFootprint(svc: FootprintServices, c: ArrayClass, length: int, contained: bool): (r: Result<int, Error>)
    ensures r ==
      match FirstMatch(c.families, 0)
      case None => Failure(IllegalArgument(UnrecognizedArrayClass))
      case Some(f) =>
        Success(if contained then svc.whenContained(c, Width(f), length) else svc.standalone(c, Width(f), length))
  {
    ElementSizeIsFirstMatch(c);
    match ElementSize(c)
    case Failure(e) => Failure(e)
    case Success(size) =>
      Success(if contained then svc.whenContained(c, size, length) else svc.standalone(c, size, length))
  }

  /** The if/else chain is exactly "width of the first family, in the fixed order, that the class belongs to". */
  lemma ElementSizeIsFirstMatch(c: ArrayClass)
    ensures ElementSize(c) ==
      match FirstMatch(c.families, 0)
      case Some(f) => Success(Width(f))
      case None => Failure(IllegalArgument(UnrecognizedArrayClass))
  {
  }

  /** A class that belongs to exactly one family gets that family's width. */
  lemma ElementSizeOfFamily(c: ArrayClass, f: Family)
    requires c.families == {f}
    ensures ElementSize(c) == Success(Width(f))
  {
  }
}
