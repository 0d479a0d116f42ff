/** Abstract stand-ins for the parts of the Java platform that the XNIO
    provider locator reaches through reflection.

    A loaded class is not inspected; it is described by a `ClassDesc` that
    records, field by field, what each reflective call made on it by
    `Xnio.create()` answers. The set of classes a class loader can find is a
    `Registry` from fully qualified class names to descriptors. */
module JavaReflection {

  datatype Option<T> = None | Some(value: T)

  /** The two bits of java.lang.reflect.Modifier that the locator tests.
      `getModifiers()` returns a 32-bit Java int. */
  const PUBLIC: bv32 := 0x0000_0001
  const STATIC: bv32 := 0x0000_0008

  /** The disjoint families of java.lang.Throwable that the locator's
      catch clauses, the JVM's class initialisation and Java's
      checked-exception rule tell apart: java.io.IOException and its
      subclasses, java.lang.RuntimeException and its subclasses, every other
      (checked) Exception or direct Throwable subclass,
      java.lang.ExceptionInInitializerError, and every other
      java.lang.Error. */
  datatype ThrowableKind =
    | IOExceptionKind
    | RuntimeExceptionKind
    | CheckedExceptionKind
    | InInitializerErrorKind
    | ErrorKind

  /** A thrown object. `id` is its identity, so that "the same throwable"
      and "a new throwable wrapping it" can be told apart. */
  datatype Throwable = Throwable(kind: ThrowableKind, id: nat)

  /** Java does not force callers to declare these. */
  predicate IsUnchecked(t: Throwable) {
    t.kind == RuntimeExceptionKind || t.kind == InInitializerErrorKind || t.kind == ErrorKind
  }

  /** A reference returned by a reflective invocation: null, or an object
      whose run-time class is or is not a subtype of org.jboss.xnio.Xnio. */
  datatype Obj = Null | Instance(id: nat, isXnio: bool)

  /** What invoking a method does: it returns a reference or throws. */
  datatype Invocation = Returns(result: Obj) | Throws(thrown: Throwable)

  /** A method declared by a class. `accessible` is false when
      `Method.invoke` from org.jboss.xnio would raise
      IllegalAccessException (for instance a public method of a
      package-private class). */
  datatype MethodDesc = MethodDesc(modifiers: bv32, accessible: bool, invocation: Invocation)

  /** A class the loader can find.
      - `initFailure`: what its static initialiser throws, if anything; running
        it is part of `Class.forName(String)`.
      - `isXnioSubtype`: whether `asSubclass(Xnio.class)` succeeds.
      - `declaredCreate`: the method `getDeclaredMethod("create")` finds, a
        zero-argument method named `create` declared by the class itself
        (inherited ones do not count), if there is one. */
  datatype ClassDesc = ClassDesc(
    initFailure: Option<Throwable>,
    isXnioSubtype: bool,
    declaredCreate: Option<MethodDesc>)

  /** The classes visible to the loader, by fully qualified name. */
  type Registry = map<string, ClassDesc>
}
