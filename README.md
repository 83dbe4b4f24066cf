# PrimitiveArray construction protocol and footprint classification

A Dafny model of `PrimitiveArray`, the abstract base of the ObjectLayout library's
subclassable primitive and reference arrays. Two pieces of its logic are modelled:

- **The construction protocol.** An array can only be built through the factories
  `newInstance` (two overloads) and `copyInstance`. These pass the requested length
  to the constructor through a per-thread side channel, `ConstructorMagic`, which
  holds `active` and `length`. The private `instantiate` records the length, computes
  the array's footprint, activates the channel, invokes the constructor reflectively,
  and deactivates the channel in a `finally` block. The base constructor
  `PrimitiveArray()` rejects construction unless the channel is active. When it runs,
  it copies the pending length into its `final` field and deactivates the channel.
- **The element-size table of `primitiveArrayFootprint`.** An ordered if/else chain
  tests the class against the eight abstract array families (byte, char, double,
  float, int, long, short, reference) and takes the element width of the first
  family that matches. It then asks one of two foreign footprint services, chosen by
  the `contained` flag.

Files:
- `wrappers.dfy`: `Option`, `Result` and `Outcome`, used in place of exceptions.
- `java_types.dfy`: `int32`, the exceptions, array families, array classes and
  constructor behaviours.
- `footprint.dfy`: the pure classification and footprint functions, plus lemmas about them.
- `primitive_array.dfy`: the imperative protocol, as classes and methods over the
  channel of one thread.

How the model represents the Java code:
- **Array class.** An array class is a value. It carries the set of families it is
  assignable to, and the behaviour of its no-argument and copy constructors when it
  declares them.
- **Reflective invocation.** A reflective constructor call is one of four abstract
  steps:
  - it refuses (`InstantiationException`);
  - it is denied (`IllegalAccessException`);
  - it is entered, but code that runs before the `PrimitiveArray` constructor body throws
    (a `super(...)` argument or a superclass constructor). The channel is then still
    active, and only the factory's `finally` block clears it;
  - the `PrimitiveArray` constructor body runs. The subclass's own statements follow,
    and they throw for a given set of lengths, so whether they fail may depend on the
    length they read.
- **Thread-local slot.** The `ThreadLocal` slot is the object `ThreadLocalMagic`,
  which is one thread's view of that slot.
- **Footprint services.** `Unsafes.getContainingObjectFootprint` and
  `Unsafes.getContainingObjectFootprintWhenContained` are function-valued parameters.
  They are left uninterpreted.
- **Uninitialised instances.** A `PrimitiveArray` object is allocated only when the
  base constructor succeeds. Its `length` is a `const`, so a failed construction
  leaves no initialised instance, and the length never changes once it is set.

The model follows the code as written, including where a reader might expect otherwise:
- There is no check for a negative length. A negative `int` is passed through unchanged.
- There is no guard against activating a channel that is already active.
- Classification happens before the `try`. If it fails, the channel is not deactivated:
  `active` keeps the value it had on entry. The channel is therefore inactive on every
  exit only when it was inactive on entry. `Quiescent` states this invariant.
- The exceptions are Java's own. An unrecognised class, or a construction outside the
  factory, raises `IllegalArgumentException`. Reflective failures are wrapped in
  `RuntimeException`. A missing copy constructor raises `NoSuchMethodException`
  without wrapping.

## Model

| member | source | states |
|---|---|---|
| `Footprint.Width` | src/main/java/org/ObjectLayout/intrinsifiable/PrimitiveArray.java:74-89 | the width table of the eight branches, as a function of the family; its contract states that every width is 1, 2, 4 or 8 bytes |
| `Footprint.FirstMatch` | src/main/java/org/ObjectLayout/intrinsifiable/PrimitiveArray.java:74-90 | the result is a family the class belongs to, and no family tested before it matches; `None` exactly when no tested family matches |
| `Footprint.ElementSize` | src/main/java/org/ObjectLayout/intrinsifiable/PrimitiveArray.java:72-92 | classification fails, with IllegalArgumentException, exactly when the class is in none of the eight families; otherwise the size is the width of a family the class is in |
| `Footprint.ElementSizeIsFirstMatch` | src/main/java/org/ObjectLayout/intrinsifiable/PrimitiveArray.java:74-91 | the if/else chain equals "width of the first family in the fixed order byte, char, double, float, int, long, short, reference", and "unrecognised" when there is none |
| `Footprint.ElementSizeOfFamily` | src/main/java/org/ObjectLayout/intrinsifiable/PrimitiveArray.java:74-89 | a class in exactly one family gets that family's width |
| `Footprint.PrimitiveArrayFootprint` | src/main/java/org/ObjectLayout/intrinsifiable/PrimitiveArray.java:68-106 | stated against the reference definition. It fails with IllegalArgumentException exactly when no family in the fixed order matches. Otherwise it is the contained service's answer when `contained` holds and the standalone service's otherwise. Either service is given the class, the first matching family's width and the length |
| `PrimitiveArrays.ConstructorMagic.constructor` | src/main/java/org/ObjectLayout/intrinsifiable/PrimitiveArray.java:142-143 | a new channel starts inactive with pending length 0 |
| `PrimitiveArrays.ConstructorMagic.IsActive` | src/main/java/org/ObjectLayout/intrinsifiable/PrimitiveArray.java:126-128 | reports whether the channel is active |
| `PrimitiveArrays.ConstructorMagic.GetLength` | src/main/java/org/ObjectLayout/intrinsifiable/PrimitiveArray.java:138-140 | reports the pending length |
| `PrimitiveArrays.ConstructorMagic.SetActive` | src/main/java/org/ObjectLayout/intrinsifiable/PrimitiveArray.java:130-132 | sets `active` and leaves the pending length alone |
| `PrimitiveArrays.ConstructorMagic.SetArrayConstructorArgs` | src/main/java/org/ObjectLayout/intrinsifiable/PrimitiveArray.java:134-136 | sets the pending length and leaves `active` alone |
| `PrimitiveArrays.ThreadLocalMagic.constructor` | src/main/java/org/ObjectLayout/intrinsifiable/PrimitiveArray.java:146 | a thread's slot starts empty |
| `PrimitiveArrays.PrimitiveArray.Initialised` | src/main/java/org/ObjectLayout/intrinsifiable/PrimitiveArray.java:17 | an initialised array holds the class and the length it was built with; `length` is a constant, so `GetLength` returns that value for the array's whole life |
| `PrimitiveArrays.PrimitiveArray.GetLength` | src/main/java/org/ObjectLayout/intrinsifiable/PrimitiveArray.java:119-121 | returns the length fixed at construction |
| `PrimitiveArrays.GetConstructorMagic` | src/main/java/org/ObjectLayout/intrinsifiable/PrimitiveArray.java:148-155 | on first use, installs a fresh channel that is inactive with length 0; later calls return the same object |
| `PrimitiveArrays.CheckConstructorMagic` | src/main/java/org/ObjectLayout/intrinsifiable/PrimitiveArray.java:157-162 | passes exactly when the thread's channel exists and is active; otherwise fails with IllegalArgumentException (direct instantiation) |
| `PrimitiveArrays.ConstructBase` | src/main/java/org/ObjectLayout/intrinsifiable/PrimitiveArray.java:108-117 | with the channel absent or inactive: rejects, creates no instance and changes nothing. With it active: a fresh instance gets the pending length, and the channel is left inactive |
| `PrimitiveArrays.Invoke` | src/main/java/org/ObjectLayout/intrinsifiable/PrimitiveArray.java:56 | a refused or denied invocation leaves the channel untouched, and so does a failure before the base constructor body. When the base body runs, it is either rejected by the guard, or it deactivates the channel. In the second case the result is an instance with the pending length, unless the subclass's statements throw for that length |
| `PrimitiveArrays.WrapReflective` | src/main/java/org/ObjectLayout/intrinsifiable/PrimitiveArray.java:57-62 | the three checked reflective exceptions are rethrown inside a RuntimeException; any other exception passes through unchanged |
| `PrimitiveArrays.Instantiate` | src/main/java/org/ObjectLayout/intrinsifiable/PrimitiveArray.java:43-66 | the pending length is always written. A classification failure throws before activation and leaves `active` as it was. Otherwise the channel is inactive on every exit. Success happens exactly when the class is classified and its constructor runs without throwing for the requested length, and then gives a fresh instance whose length is the requested one. Each reflective failure is wrapped in RuntimeException. A quiescent channel stays quiescent |
| `PrimitiveArrays.NewInstance` | src/main/java/org/ObjectLayout/intrinsifiable/PrimitiveArray.java:19-27 | a missing no-argument constructor fails with RuntimeException(NoSuchMethodException) before the channel is touched. Otherwise it behaves as Instantiate, and the channel object is kept. `active` is left as it was when classification fails, and is false on every other exit. A successful result has the requested class and length |
| `PrimitiveArrays.NewInstanceWith` | src/main/java/org/ObjectLayout/intrinsifiable/PrimitiveArray.java:29-34 | the channel object is kept, and the pending length is the requested one. `active` is left as it was when classification fails, and is false on every other exit. It succeeds exactly when the class is classified and the constructor runs cleanly for that length. A successful result has the constructor's class and the requested length |
| `PrimitiveArrays.CopyInstance` | src/main/java/org/ObjectLayout/intrinsifiable/PrimitiveArray.java:36-41 | a missing copy constructor fails with NoSuchMethodException and leaves the channel untouched. Otherwise the channel object is kept. `active` is left as it was when classification fails, and is false on every other exit. A successful copy is a new object of the source's class, and its `GetLength()` equals the source's |
| `PrimitiveArrays.SecondConstructionRejected` | src/main/java/org/ObjectLayout/intrinsifiable/PrimitiveArray.java:108-113 | within one activation, the first base constructor takes the pending length. A second one is rejected, because the first deactivated the channel |

## Left out

- Reflection (`getDeclaredConstructor`, `setAccessible`, `Constructor.newInstance`) is reduced to the optional constructor behaviours of an array class. The arguments passed to `newInstance(length, constructor, args...)` are folded into the constructor's behaviour. Three things are not modelled: reflective argument-mismatch errors, `SecurityException`, and a failing class initialisation. A failing class initialisation raises `ExceptionInInitializerError` on a class's first instantiation. Lines 57-62 do not catch it, so in Java it leaves unwrapped, after the `finally`. For such a class the model gives success or a wrapped failure instead.
- Subclass constructor code is abstract. It may throw before the `PrimitiveArray` constructor body, or after it for a set of lengths. It cannot use the channel. In a copy, whether it throws cannot depend on the source's elements. A factory call nested inside a constructor, such as one made while evaluating a `super(...)` argument, is not modelled.
- `ThreadLocal` isolation between threads: one thread's slot is modelled, and cross-thread behaviour is not.
- The `Unsafes` footprint services are foreign code. Their header and alignment arithmetic is not part of this model, so no monotonicity or standalone-versus-contained relation is stated.
- The footprint that `instantiate` computes is used only for its classification failure. The planned in-place allocation that would consume it is unimplemented in the source.
- The superclass `AbstractArray` and the concrete `AbstractPrimitive*Array` / `AbstractReferenceArray` classes are not part of this model. They appear only as family tags.
- Element storage and element copying belong to the subclasses and are not modelled.
- Null arguments are excluded by Dafny's non-null types and datatypes, and the NullPointerException each would raise is not modelled. There are three cases:
  - a null `source` for `copyInstance`;
  - a null `arrayClass` for `newInstance`, which would throw before the channel is touched;
  - a null `arrayConstructor` for `newInstance`, which would throw after the pending length is written and before the `try`, so the channel would not be activated.
- NewInstance, NewInstanceWith, CopyInstance: these do not restate which reflective failure produced an error. They delegate to Instantiate, whose contract does.
