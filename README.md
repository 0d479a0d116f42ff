# XNIO provider entry point, modelled in Dafny

`org.jboss.xnio.Xnio` is the entry point of XNIO, a pluggable asynchronous
network I/O API. A consumer calls the static `Xnio.create()`. That call loads
a provider class chosen by name, checks that the class is a real provider
with a public static no-argument `create()` factory, invokes the factory, and
turns every failure into one of a fixed set of outcomes. The provider it
returns has a surface of `create*` transport constructors: TCP servers,
connectors and acceptors, UDP servers and in-process pipes. By default every
one of them throws `UnsupportedOperationException` naming the transport, and
`awaken` does nothing.

The model has two modules:

- `JavaReflection` (`java_reflection.dfy`) replaces the reflective calls with
  data. A class the loader can find is a `ClassDesc` recording:
  - what its static initialiser throws, if anything;
  - whether it extends `Xnio`;
  - the zero-argument `create` it declares, if any: its 32-bit modifier
    word, whether `Method.invoke` may call it, and whether invoking it
    returns a reference or throws a classified `Throwable`.

  A `Registry` maps class names to descriptors.
- `Xnio` (`xnio.dfy`) holds the core:
  - `ProviderClassName` is the static initialiser.
  - `Create` is the locator, a pure function from a name and a registry to
    an `Outcome` plus the trace of reflective calls it made.
  - `Session` is a run of successive `create()` calls.
  - `DefaultCall` and `Awaken` are the default instance operations.

Failures of `create()` are a tagged datatype:
- `Wrapped(providerClass, cause)` is the new IOException, with the exception
  it attaches through `initCause`.
- `Propagated(t)` is a throwable that leaves `create()` unchanged.

`CatchClause` names the message that each kind of cause selects.

Points of the behaviour of `Xnio.java` that the model makes explicit:
- The Javadoc of `create()` (Xnio.java:66-68) says that any failure to create
  the provider causes an IOException. The code does not always do that.
  - A RuntimeException from the provider's factory is rethrown unchanged
    (Xnio.java:98-99).
  - An `Error` thrown by the provider class's static initialiser is rethrown
    by the JVM as it is (section 12.4.2 of the Java Language Specification).
    `create()` catches it only when it is an ExceptionInInitializerError
    (Xnio.java:109-112): it is then the cause of the new IOException. Any
    other Error escapes unchanged.
  - An exception, as opposed to an Error, thrown by the initialiser reaches
    `create()` inside a new ExceptionInInitializerError.
- The provider name is computed once, by the static initialiser
  (Xnio.java:51-63). Every call of `create()` uses that one name.
- `Class.forName` runs the static initialiser. So an initialiser failure is
  reported before the subtype and method checks.
- The `(Xnio)` cast of the factory's result is inside the `try`. A factory
  that returns a non-`Xnio` object is therefore reported as "not really an
  XNIO provider". A factory that returns `null` makes `create()` return
  `null`.

## Model

| member | source | states |
|---|---|---|
| `Xnio.ProviderClassName` | api/src/main/java/org/jboss/xnio/Xnio.java:47-63 | The provider name is either the default `org.jboss.xnio.nio.NioXnio` or the value of `xnio.provider`. The property value is used when it is present and the read did not throw, even if it is empty. Otherwise the result is the default. |
| `Xnio.Create` | api/src/main/java/org/jboss/xnio/Xnio.java:73-115 | Every call starts by looking the class up and looks it up once. The factory is entered exactly once when the class passes every check and never otherwise. Only an IOException or an unchecked throwable escapes unwrapped. Every wrapping IOException names the configured class. A provider is only ever returned by its own factory. |
| `Xnio.ClassNotFound` | api/src/main/java/org/jboss/xnio/Xnio.java:86-89 | A class missing from the registry gives an IOException "was not found" whose cause is the ClassNotFoundException for that name. The lookup is the only step taken. |
| `Xnio.InitializerFailure` | api/src/main/java/org/jboss/xnio/Xnio.java:109-112 | A failing static initialiser wins over every later check; only the lookup happens. An exception gives an IOException whose cause is the JVM's ExceptionInInitializerError around it. An ExceptionInInitializerError thrown as it is becomes the cause itself. Every other Error escapes unchanged. |
| `Xnio.NotASubtype` | api/src/main/java/org/jboss/xnio/Xnio.java:76-85 | A class that loads but does not extend Xnio gives "not really an XNIO provider" with the ClassCastException of the subclass check as cause. `create` is never looked up or invoked, whatever the class declares. |
| `Xnio.MaskNeedsBothBits` | api/src/main/java/org/jboss/xnio/Xnio.java:49-80 | The test `(mods & mask) == mask` holds exactly when both PUBLIC and STATIC are set; lacking either one fails it. |
| `Xnio.EntryPointMissing` | api/src/main/java/org/jboss/xnio/Xnio.java:105-108 | An Xnio subclass without a declared `create`, or with one lacking PUBLIC or STATIC, gives the "no accessible no-argument static create() method" IOException with a NoSuchMethodException cause. Nothing is invoked. |
| `Xnio.OtherModifierBitsIrrelevant` | api/src/main/java/org/jboss/xnio/Xnio.java:78-80 | Two modifier words that agree on PUBLIC and STATIC give the same outcome and trace. |
| `Xnio.AccessFailure` | api/src/main/java/org/jboss/xnio/Xnio.java:90-93 | An entry point that `invoke` may not call gives an IOException whose cause is the IllegalAccessException. The provider's factory does not run. |
| `Xnio.FactoryThrows` | api/src/main/java/org/jboss/xnio/Xnio.java:94-104 | An IOException or RuntimeException from the factory leaves `create()` as that same object. A checked exception or an Error is wrapped, with that same object as cause. |
| `Xnio.SuccessExactlyForValidProviders` | api/src/main/java/org/jboss/xnio/Xnio.java:73-114 | `create()` succeeds if and only if the class satisfies the provider contract, which is stated independently of `Create`. The result is then exactly the reference the factory returned. |
| `Xnio.FactoryResult` | api/src/main/java/org/jboss/xnio/Xnio.java:81-85 | A non-Xnio object returned by the factory is caught by the cast and reported as "not really an XNIO provider". A null result is returned as is. |
| `Xnio.Session` | api/src/main/java/org/jboss/xnio/Xnio.java:73-115 | Call `i` of a sequence of calls has the outcome of a lone call against what the loader sees at that moment. No earlier call influences it. |
| `Xnio.NoCaching` | api/src/main/java/org/jboss/xnio/Xnio.java:73-115 | Over any number of calls, the class is looked up once per call. The factory is entered once in each call whose class passes every check. |
| `Xnio.DefaultProviderMissing` | api/src/main/java/org/jboss/xnio/Xnio.java:51-89 | With `xnio.provider` unset and no NIO provider present, `create()` reports `org.jboss.xnio.nio.NioXnio` as not found. |
| `Xnio.DefaultCall` | api/src/main/java/org/jboss/xnio/Xnio.java:134-356 | Every un-overridden `create*` throws UnsupportedOperationException with its transport's label. The labels are "TCP Server", "TCP Connector", "UDP Server", "Pipe Server", "One-way Pipe Server" (source and sink), "Pipe Connection", "One-way Pipe Connection" and "TCP Acceptor". |
| `Xnio.OverloadsFailAlike` | api/src/main/java/org/jboss/xnio/Xnio.java:134-356 | The overload with an executor and the overload without one fail identically. |
| `Xnio.DefaultCallDependsOnlyOnKind` | api/src/main/java/org/jboss/xnio/Xnio.java:185-201 | The failure depends only on the operation asked for, not on the handlers, bind addresses, executor or multicast flag. |
| `Xnio.LabelsDistinguishTransports` | api/src/main/java/org/jboss/xnio/Xnio.java:239-283 | Two transports share a label if and only if they are the same transport, or they are the source and sink one-way pipe servers. |
| `Xnio.Awaken` | api/src/main/java/org/jboss/xnio/Xnio.java:368-370 | The default `awaken` leaves the provider unchanged. |

## Left out

- Java reflection itself (`Class.forName`, `asSubclass`, `getDeclaredMethod`, `getModifiers`, `Method.invoke`): each is replaced by a field of a class descriptor. Class loading and class loaders are not modelled.
- `AccessController.doPrivileged` and `System.getProperty`: the system properties are a map parameter and a flag says whether the privileged read threw. Security contexts are not representable.
- Exact message texts: each wrapping IOException carries the class name and its cause, and `CatchClause` names which of the six messages applies.
- Throwables that escape `create()` from anywhere other than the static initialiser or the provider's factory: for example a SecurityException from the method lookup or a LinkageError from loading. The descriptors cannot express them.
- The JVM's memory of a class whose initialiser has failed: a second `Class.forName` of such a class throws NoClassDefFoundError. The model takes whatever the registry says for each call.
- The result types of the `create*` operations (`ConfigurableFactory`, `ChannelSource`, `IoFuture`) and their deferred construction: they are not defined in this file.
- Overriding by concrete providers: only the base class's default bodies are modelled.
- `close()`: abstract in this class, so there is no code to model. Its idempotence is a duty of the subclasses.
- Executors, thread wake-up itself, and concurrent use of a provider: these are concurrency concerns that this class only passes along.
