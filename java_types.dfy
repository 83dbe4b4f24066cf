/** The Java values the array factory works with: fixed-width integers,
    the exceptions it throws, and array classes as seen through reflection. */
module JavaTypes {
  import opened Wrappers

  /** Java's `int`. */
  newtype int32 = x: int | -0x8000_0000 <= x < 0x8000_0000

  /** Why an IllegalArgumentException was thrown. */
  datatype IllegalReason =
    | UnrecognizedArrayClass   // the class is in none of the eight array families
    | DirectInstantiation      // a PrimitiveArray constructor ran outside newInstance/copyInstance

  /** The exceptions that can leave the factory. */
  datatype Error =
    | IllegalArgument(reason: IllegalReason)   // java.lang.IllegalArgumentException
    | NoSuchMethod                             // java.lang.NoSuchMethodException
    | Instantiation                            // java.lang.InstantiationException
    | IllegalAccess                            // java.lang.IllegalAccessException
    | InvocationTarget(thrown: Error)          // a reflectively invoked constructor threw `thrown`
    | Runtime(cause: Error)                    // a RuntimeException wrapping a checked `cause`
    | BodyFailure                              // whatever a subclass's own constructor code throws

  /** The abstract array classes whose subclasses the footprint calculation recognises. */
  datatype Family =
    | ByteFamily       // AbstractPrimitiveByteArray
    | CharFamily       // AbstractPrimitiveCharArray
    | DoubleFamily     // AbstractPrimitiveDoubleArray
    | FloatFamily      // AbstractPrimitiveFloatArray
    | IntFamily        // AbstractPrimitiveIntArray
    | LongFamily       // AbstractPrimitiveLongArray
    | ShortFamily      // AbstractPrimitiveShortArray
    | ReferenceFamily  // AbstractReferenceArray

  /** What happens when a declared constructor is invoked reflectively. */
  datatype ConstructorBehaviour =
    | NotInstantiable           // the reflective call throws InstantiationException (an abstract class)
    | Inaccessible              // the reflective call throws IllegalAccessException
    | FailsBeforeBase           // the constructor is entered, but code that runs before the PrimitiveArray
                                // constructor body (a super(...) argument, a superclass constructor) throws
    | Runs(failsFor: set<int32>) // the PrimitiveArray constructor body runs first; the subclass's own
                                 // statements then throw when the length it read is in `failsFor`

  /** Whether invoking a constructor with this behaviour, for pending length `n`, yields an instance. */
  predicate Succeeds(b: ConstructorBehaviour, n: int32)
  {
    b.Runs? && n !in b.failsFor
  }

  /** A concrete subclass of PrimitiveArray: its name, the families it is assignable to,
      and its no-argument and same-type (copy) constructors, when it declares them. */
  datatype ArrayClass = ArrayClass(
    name: string,
    families: set<Family>,
    defaultConstructor: Option<ConstructorBehaviour>,
    copyConstructor: Option<ConstructorBehaviour>)

  /** A declared constructor: the class declaring it and what invoking it does. */
  datatype Constructor = Constructor(declaringClass: ArrayClass, behaviour: ConstructorBehaviour)
}
