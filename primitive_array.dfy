/** The construction protocol of PrimitiveArray: the factory operations, the
    per-thread side channel that carries the requested length into the
    constructor, and the constructor's guard against direct instantiation.
    One thread is modelled; the channel is that thread's ThreadLocal slot. */
module PrimitiveArrays {
  import opened Wrappers
  import opened JavaTypes
  import opened Footprint

  /** The side channel (ConstructorMagic): whether a factory call is constructing
      right now, and the length it asked for. */
  class ConstructorMagic {
    var active: bool
    var length: int32

    constructor ()
      ensures !active && length == 0
    {
      active := false;
      length := 0;
    }

    function IsActive(): (b: bool)
      reads this
      ensures b <==> active
    {
      active
    }

    method SetActive(b: bool)
      modifies this
      ensures active == b && length == old(length)
    {
      active := b;
    }

    method SetArrayConstructorArgs(n: int32)
      modifies this
      ensures length == n && active == old(active)
    {
      length := n;
    }

    function GetLength(): (n: int32)
      reads this
      ensures n == length
    {
      length
    }
  }

  /** This thread's value of the thread-local slot holding its side channel
      (null until first used). */
  class ThreadLocalMagic {
    var value: ConstructorMagic?

    constructor ()
      ensures value == null
    {
      value := null;
    }
  }

  /** Between factory calls the channel is absent or inactive. */
  ghost predicate Quiescent(tl: ThreadLocalMagic)
    reads tl, tl.value
  {
    tl.value == null || !tl.value.active
  }

  /** An initialised array: its class and its length, fixed at construction. */
  class PrimitiveArray {
    const arrayClass: ArrayClass
    const length: int32

    /** The transition from uninitialised to initialised; only ConstructBase performs it. */
    constructor Initialised(c: ArrayClass, n: int32)
      ensures arrayClass == c && length == n
    {
      arrayClass := c;
      length := n;
    }

    /** The length fixed at construction; it is a constant, so every call returns the same value. */
    function GetLength(): (n: int32)
      ensures n == length
    {
      length
    }
  }

  /** The thread's channel, created inactive with length 0 on first use and the same object afterwards. */
  method GetConstructorMagic(tl: ThreadLocalMagic) returns (m: ConstructorMagic)
    modifies tl
    ensures tl.value == m
    ensures old(tl.value) != null ==> m == old(tl.value)
    ensures old(tl.value) == null ==> fresh(m) && !m.active && m.length == 0
  {
    var current := tl.value;
    if current == null {
      m := new ConstructorMagic();
      tl.value := m;
    } else {
      m := current;
    }
  }

  /** The guard of the base constructor: passes exactly when this thread's channel exists and is active. */
  method CheckConstructorMagic(tl: ThreadLocalMagic) returns (r: Outcome<Error>)
    ensures r.Pass? <==> tl.value != null && tl.value.active
    ensures r.Fail? ==> r.error == IllegalArgument(DirectInstantiation)
  {
    var m := tl.value;
    if m == null || !m.IsActive() {
      return Fail(IllegalArgument(DirectInstantiation));
    }
    return Pass;
  }

  /** The body of PrimitiveArray() (which PrimitiveArray(source) delegates to), run for an
      instance of class `c`: rejects unless the channel is active; otherwise takes the
      pending length and deactivates the channel. */
  method ConstructBase(tl: ThreadLocalMagic, c: ArrayClass) returns (r: Result<PrimitiveArray, Error>)
    modifies tl, tl.value
    ensures tl.value == old(tl.value)
    ensures old(tl.value == null || !tl.value.active) ==>
      r == Failure(IllegalArgument(DirectInstantiation)) && (tl.value != null ==> unchanged(tl.value))
    ensures old(tl.value != null && tl.value.active) ==>
      r.Success? && fresh(r.value) && r.value.arrayClass == c &&
      r.value.length == old(tl.value.length) &&
      !tl.value.active && tl.value.length == old(tl.value.length)
  {
    var ok := CheckConstructorMagic(tl);
    if ok.Fail? {
      return Failure(ok.error);
    }
    var m := GetConstructorMagic(tl);
    var n := m.GetLength();
    m.SetActive(false);
    var a := new PrimitiveArray.Initialised(c, n);
    return Success(a);
  }

  /** The reflective invocation of `ctor`: it may refuse outright, or fail before the
      PrimitiveArray constructor body is reached; otherwise that body runs first and the
      subclass's own statements afterwards. */
  method Invoke(tl: ThreadLocalMagic, ctor: Constructor) returns (r: Result<PrimitiveArray, Error>)
    modifies tl, tl.value
    ensures tl.value == old(tl.value)
    ensures ctor.behaviour.NotInstantiable? ==>
      r == Failure(Instantiation) && (tl.value != null ==> unchanged(tl.value))
    ensures ctor.behaviour.Inaccessible? ==>
      r == Failure(IllegalAccess) && (tl.value != null ==> unchanged(tl.value))
    ensures ctor.behaviour.FailsBeforeBase? ==>
      r == Failure(InvocationTarget(BodyFailure)) && (tl.value != null ==> unchanged(tl.value))
    ensures ctor.behaviour.Runs? && old(tl.value == null || !tl.value.active) ==>
      r == Failure(InvocationTarget(IllegalArgument(DirectInstantiation))) && (tl.value != null ==> unchanged(tl.value))
    ensures ctor.behaviour.Runs? && old(tl.value != null && tl.value.active) ==>
      !tl.value.active && tl.value.length == old(tl.value.length) &&
      (old(tl.value.length) in ctor.behaviour.failsFor ==> r == Failure(InvocationTarget(BodyFailure))) &&
      (old(tl.value.length) !in ctor.behaviour.failsFor ==>
        r.Success? && fresh(r.value) && r.value.arrayClass == ctor.declaringClass &&
        r.value.length == old(tl.value.length))
  {
    match ctor.behaviour
    case NotInstantiable =>
      return Failure(Instantiation);
    case Inaccessible =>
      return Failure(IllegalAccess);
    case FailsBeforeBase =>
      return Failure(InvocationTarget(BodyFailure));
    case Runs(failsFor) =>
      var base := ConstructBase(tl, ctor.declaringClass);
      if base.Failure? {
        return Failure(InvocationTarget(base.error));
      }
      if base.value.GetLength() in failsFor {
        return Failure(InvocationTarget(BodyFailure));
      }
      return base;
  }

  /** The checked exceptions of the reflective call, rethrown as RuntimeException. */
  function WrapReflective(e: Error): (w: Error)
    ensures e.Instantiation? || e.IllegalAccess? || e.InvocationTarget? ==> w == Runtime(e)
    ensures !(e.Instantiation? || e.IllegalAccess? || e.InvocationTarget?) ==> w == e
  {
    match e
    case Instantiation => Runtime(e)
    case IllegalAccess => Runtime(e)
    case InvocationTarget(_) => Runtime(e)
    case _ => e
  }

  /** The private factory: records the requested length in the channel, classifies the
      class (failing before the channel is activated), then activates the channel, invokes
      the constructor, and deactivates the channel however the invocation ends. */
  method Instantiate(tl: ThreadLocalMagic, svc: FootprintServices, length: int32, ctor: Constructor)
    returns (r: Result<PrimitiveArray, Error>)
    modifies tl, tl.value
    ensures tl.value != null && tl.value.length == length
    ensures old(tl.value) != null ==> tl.value == old(tl.value)
    ensures old(tl.value) == null ==> fresh(tl.value)
    // classification failure: thrown before the try, so `active` is left as it was
    ensures ElementSize(ctor.declaringClass).Failure? ==>
      r == Failure(IllegalArgument(UnrecognizedArrayClass)) &&
      tl.value.active == old(tl.value != null && tl.value.active)
    // otherwise the finally block leaves the channel inactive on every exit
    ensures ElementSize(ctor.declaringClass).Success? ==> !tl.value.active
    ensures old(Quiescent(tl)) ==> Quiescent(tl)
    ensures r.Success? <==> ElementSize(ctor.declaringClass).Success? && Succeeds(ctor.behaviour, length)
    ensures r.Success? ==>
      fresh(r.value) && r.value.arrayClass == ctor.declaringClass && r.value.length == length
    ensures ElementSize(ctor.declaringClass).Success? ==>
      match ctor.behaviour
      case NotInstantiable => r == Failure(Runtime(Instantiation))
      case Inaccessible => r == Failure(Runtime(IllegalAccess))
      case FailsBeforeBase => r == Failure(Runtime(InvocationTarget(BodyFailure)))
      case Runs(failsFor) =>
        if length in failsFor then r == Failure(Runtime(InvocationTarget(BodyFailure))) else r.Success?
  {
    var m := GetConstructorMagic(tl);
    m.SetArrayConstructorArgs(length);
    // the footprint is computed but not yet used for allocation
    var size := PrimitiveArrayFootprint(svc, ctor.declaringClass, length as int, false);
    if size.Failure? {
      return Failure(size.error);
    }
    m.SetActive(true);
    var invoked := Invoke(tl, ctor);
    m.SetActive(false);
    match invoked
    case Success(a) => r := Success(a);
    case Failure(e) => r := Failure(WrapReflective(e));
  }

  /** newInstance(arrayClass, length): looks up the no-argument constructor (a missing one
      is rethrown as RuntimeException before the channel is touched) and instantiates. */
  method NewInstance(tl: ThreadLocalMagic, svc: FootprintServices, c: ArrayClass, length: int32)
    returns (r: Result<PrimitiveArray, Error>)
    modifies tl, tl.value
    ensures c.defaultConstructor.None? ==>
      r == Failure(Runtime(NoSuchMethod)) && tl.value == old(tl.value) &&
      (tl.value != null ==> unchanged(tl.value))
    ensures old(tl.value) != null ==> tl.value == old(tl.value)
    ensures c.defaultConstructor.Some? ==> tl.value != null && tl.value.length == length
    ensures c.defaultConstructor.Some? && old(tl.value) == null ==> fresh(tl.value)
    ensures c.defaultConstructor.Some? && ElementSize(c).Failure? ==>
      r == Failure(IllegalArgument(UnrecognizedArrayClass)) &&
      tl.value.active == old(tl.value != null && tl.value.active)
    ensures c.defaultConstructor.Some? && ElementSize(c).Success? ==> !tl.value.active
    ensures old(Quiescent(tl)) ==> Quiescent(tl)
    ensures r.Success? <==>
      c.defaultConstructor.Some? && Succeeds(c.defaultConstructor.value, length) && ElementSize(c).Success?
    ensures r.Success? ==> fresh(r.value) && r.value.arrayClass == c && r.value.GetLength() == length
  {
    match c.defaultConstructor
    case None =>
      return Failure(Runtime(NoSuchMethod));
    case Some(behaviour) =>
      r := Instantiate(tl, svc, length, Constructor(c, behaviour));
  }

  /** newInstance(length, arrayConstructor, args...): instantiates with the given constructor;
      the arguments are folded into the constructor's behaviour. */
  method NewInstanceWith(tl: ThreadLocalMagic, svc: FootprintServices, length: int32, ctor: Constructor)
    returns (r: Result<PrimitiveArray, Error>)
    modifies tl, tl.value
    ensures tl.value != null && tl.value.length == length
    ensures old(tl.value) != null ==> tl.value == old(tl.value)
    ensures old(tl.value) == null ==> fresh(tl.value)
    ensures ElementSize(ctor.declaringClass).Failure? ==>
      r == Failure(IllegalArgument(UnrecognizedArrayClass)) &&
      tl.value.active == old(tl.value != null && tl.value.active)
    ensures ElementSize(ctor.declaringClass).Success? ==> !tl.value.active
    ensures old(Quiescent(tl)) ==> Quiescent(tl)
    ensures r.Success? <==> Succeeds(ctor.behaviour, length) && ElementSize(ctor.declaringClass).Success?
    ensures r.Success? ==>
      fresh(r.value) && r.value.arrayClass == ctor.declaringClass && r.value.GetLength() == length
  {
    r := Instantiate(tl, svc, length, ctor);
  }

  /** copyInstance(source): looks up the class's same-type constructor (a missing one is
      thrown as NoSuchMethodException, unwrapped) and instantiates it with the source's
      own length; copying the elements is the subclass constructor's business. */
  method CopyInstance(tl: ThreadLocalMagic, svc: FootprintServices, source: PrimitiveArray)
    returns (r: Result<PrimitiveArray, Error>)
    modifies tl, tl.value
    ensures source.arrayClass.copyConstructor.None? ==>
      r == Failure(NoSuchMethod) && tl.value == old(tl.value) &&
      (tl.value != null ==> unchanged(tl.value))
    ensures old(tl.value) != null ==> tl.value == old(tl.value)
    ensures source.arrayClass.copyConstructor.Some? ==>
      tl.value != null && tl.value.length == source.GetLength()
    ensures source.arrayClass.copyConstructor.Some? && old(tl.value) == null ==> fresh(tl.value)
    ensures source.arrayClass.copyConstructor.Some? && ElementSize(source.arrayClass).Failure? ==>
      r == Failure(IllegalArgument(UnrecognizedArrayClass)) &&
      tl.value.active == old(tl.value != null && tl.value.active)
    ensures source.arrayClass.copyConstructor.Some? && ElementSize(source.arrayClass).Success? ==>
      !tl.value.active
    ensures old(Quiescent(tl)) ==> Quiescent(tl)
    ensures r.Success? <==>
      source.arrayClass.copyConstructor.Some? &&
      Succeeds(source.arrayClass.copyConstructor.value, source.GetLength()) &&
      ElementSize(source.arrayClass).Success?
    ensures r.Success? ==>
      fresh(r.value) && r.value != source &&
      r.value.arrayClass == source.arrayClass && r.value.GetLength() == source.GetLength()
  {
    match source.arrayClass.copyConstructor
    case None =>
      return Failure(NoSuchMethod);
    case Some(behaviour) =>
      r := Instantiate(tl, svc, source.GetLength(), Constructor(source.arrayClass, behaviour));
  }

  /** Within one activation only the first base constructor gets the length: it
      deactivates the channel, so a second one is rejected. */
  method SecondConstructionRejected(tl: ThreadLocalMagic, c: ArrayClass, d: ArrayClass)
    returns (first: Result<PrimitiveArray, Error>, second: Result<PrimitiveArray, Error>)
    requires tl.value != null && tl.value.active
    modifies tl, tl.value
    ensures first.Success? && first.value.arrayClass == c && first.value.GetLength() == old(tl.value.length)
    ensures second == Failure(IllegalArgument(DirectInstantiation))
    ensures Quiescent(tl)
  {
    first := ConstructBase(tl, c);
    second := ConstructBase(tl, d);
  }
}
