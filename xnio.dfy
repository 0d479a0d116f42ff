/** The XNIO entry point class, org.jboss.xnio.Xnio.

    Three things live here:
    - the static initialiser, which fixes once the name of the provider class
      (`ProviderClassName`);
    - the locator `Xnio.create()`, which loads that class, checks that it is a
      provider with a public static no-argument `create()` method, invokes it
      and classifies every failure (`Create`);
    - the default bodies of the instance operations: every `create*` transport
      constructor fails with an UnsupportedOperationException naming the
      transport (`DefaultCall`), and `awaken` does nothing (`Awaken`). */
module Xnio {
  import opened JavaReflection

  // ---------------------------------------------------------------------
  // Static initialiser: the provider class name
  // ---------------------------------------------------------------------

  /** The first-party NIO provider, used when nothing else is configured. */
  const NioImplClassName: string := "org.jboss.xnio.nio.NioXnio"

  /** The system property that names an alternative provider class. */
  const ProviderProperty: string := "xnio.provider"

  /** `Modifier.STATIC | Modifier.PUBLIC`. */
  const Mask: bv32 := STATIC | PUBLIC

  /** `System.getProperty(key, def)`. */
  function GetProperty(properties: map<string, string>, key: string, def: string): string {
    if key in properties then properties[key] else def
  }

  /** PROVIDER_CLASS, as the static initialiser computes it once when the
      class is initialised. `properties` are the system properties;
      `readThrows` says that the privileged read threw, in which case the
      throwable is swallowed and the default kept. A property that is
      present is used as it is, even when it is empty. */
  function ProviderClassName(properties: map<string, string>, readThrows: bool): (name: string)
    ensures name == NioImplClassName || (ProviderProperty in properties && name == properties[ProviderProperty])
    ensures !readThrows && ProviderProperty in properties ==> name == properties[ProviderProperty]
    ensures readThrows || ProviderProperty !in properties ==> name == NioImplClassName
  {
    var providerClassName := NioImplClassName;
    if readThrows then providerClassName
    else GetProperty(properties, ProviderProperty, providerClassName)
  }

  // ---------------------------------------------------------------------
  // The locator: Xnio.create()
  // ---------------------------------------------------------------------

  /** Where a ClassCastException caught by create() comes from: the
      `asSubclass(Xnio.class)` check, or the `(Xnio)` cast of the object the
      provider's factory returned. */
  datatype CastSite = SubclassCheck | ResultCast

  /** Why a NoSuchMethodException was raised: `getDeclaredMethod("create")`
      found nothing, or the method found is not both public and static. */
  datatype MethodLookup = NotDeclared | NotPublicStatic

  /** The throwable that create() attaches with `initCause` to the
      IOException it throws. `ExceptionInInitializerError(e)` is the error
      the JVM makes around an exception `e` of a static initialiser;
      `ThrownInitializerError(error)` is an ExceptionInInitializerError that
      the initialiser itself let escape, and that the JVM passes on as it is. */
  datatype Cause =
    | ClassCastException(site: CastSite)
    | ClassNotFoundException(className: string)
    | IllegalAccessException
    | TargetThrowable(thrown: Throwable)
    | NoSuchMethodException(lookup: MethodLookup)
    | ExceptionInInitializerError(exception: Throwable)
    | ThrownInitializerError(error: Throwable)

  /** The message of the wrapping IOException, one per catch clause. */
  datatype Failure =
    | NotReallyAProvider
    | WasNotFound
    | IllegalAccessFailure
    | CreateMethodThrew
    | NoAccessibleCreateMethod
    | InitializationError

  /** The catch clause that a cause is handled by, which selects the message. */
  function CatchClause(c: Cause): Failure {
    match c
    case ClassCastException(_) => NotReallyAProvider
    case ClassNotFoundException(_) => WasNotFound
    case IllegalAccessException => IllegalAccessFailure
    case TargetThrowable(_) => CreateMethodThrew
    case NoSuchMethodException(_) => NoAccessibleCreateMethod
    case ExceptionInInitializerError(_) => InitializationError
    case ThrownInitializerError(_) => InitializationError
  }

  /** How a call of create() ends.
      - `Created`: it returns this reference.
      - `Propagated`: this throwable leaves create() unchanged, either rethrown
        by the InvocationTargetException handler or never caught.
      - `Wrapped`: create() throws a new IOException naming the provider class,
        with `cause` as its cause. */
  datatype Outcome =
    | Created(provider: Obj)
    | Propagated(thrown: Throwable)
    | Wrapped(providerClass: string, cause: Cause)

  /** The reflective calls create() performs, in order, including the one
      that fails. `RunFactory` is the provider's own `create()` body being
      entered by `Method.invoke`. */
  datatype Step =
    | ForName(className: string)
    | AsSubclass
    | GetDeclaredMethod
    | Invoke
    | RunFactory

  datatype Resolution = Resolution(outcome: Outcome, trace: seq<Step>)

  /** The modifier test of create(): both the PUBLIC and the STATIC bit set. */
  predicate IsPublicStatic(modifiers: bv32) {
    modifiers & Mask == Mask
  }

  /** The resolution of `providerClass` gets as far as `method.invoke(null)`. */
  predicate ReachesInvoke(registry: Registry, providerClass: string) {
    && providerClass in registry
    && registry[providerClass].initFailure.None?
    && registry[providerClass].isXnioSubtype
    && registry[providerClass].declaredCreate.Some?
    && IsPublicStatic(registry[providerClass].declaredCreate.value.modifiers)
  }

  /** ... and `Method.invoke` actually enters the provider's factory. */
  predicate FactoryRuns(registry: Registry, providerClass: string) {
    ReachesInvoke(registry, providerClass) && registry[providerClass].declaredCreate.value.accessible
  }

  /** How often the provider's factory was entered in a trace. */
  function FactoryRunCount(trace: seq<Step>): nat {
    multiset(trace)[RunFactory]
  }

  /** How often the provider class was looked up by `providerClass` in a trace. */
  function LookupCount(trace: seq<Step>, providerClass: string): nat {
    multiset(trace)[ForName(providerClass)]
  }

  /** `Xnio.create()` with PROVIDER_CLASS equal to `providerClass`, against the
      classes visible in `registry`. */
  function Create(providerClass: string, registry: Registry): (r: Resolution)
    // every call starts afresh by looking the class up, and does so once
    ensures |r.trace| > 0 && r.trace[0] == ForName(providerClass)
    ensures LookupCount(r.trace, providerClass) == 1
    // the provider's factory runs exactly when the class passes every check
    ensures FactoryRunCount(r.trace) == if FactoryRuns(registry, providerClass) then 1 else 0
    // what escapes unwrapped is an IOException or unchecked, as `throws IOException` requires
    ensures r.outcome.Propagated? ==> r.outcome.thrown.kind == IOExceptionKind || IsUnchecked(r.outcome.thrown)
    // every wrapping IOException names the configured class
    ensures r.outcome.Wrapped? ==> r.outcome.providerClass == providerClass
    // a provider is only ever obtained from its own factory
    ensures r.outcome.Created? ==> FactoryRuns(registry, providerClass) && r.trace[|r.trace| - 1] == RunFactory
  {
    if providerClass !in registry then
      Resolution(Wrapped(providerClass, ClassNotFoundException(providerClass)), [ForName(providerClass)])
    else
      var desc := registry[providerClass];
      match desc.initFailure
      case Some(t) =>
        // an Error is rethrown by the JVM as it is, anything else arrives
        // wrapped in a new ExceptionInInitializerError; create() catches
        // ExceptionInInitializerError in both forms and lets other Errors pass
        var outcome := if t.kind == ErrorKind then Propagated(t)
                       else if t.kind == InInitializerErrorKind then Wrapped(providerClass, ThrownInitializerError(t))
                       else Wrapped(providerClass, ExceptionInInitializerError(t));
        Resolution(outcome, [ForName(providerClass)])
      case None =>
        if !desc.isXnioSubtype then
          Resolution(Wrapped(providerClass, ClassCastException(SubclassCheck)), [ForName(providerClass), AsSubclass])
        else
          var looked := [ForName(providerClass), AsSubclass, GetDeclaredMethod];
          match desc.declaredCreate
          case None =>
            Resolution(Wrapped(providerClass, NoSuchMethodException(NotDeclared)), looked)
          case Some(m) =>
            if !IsPublicStatic(m.modifiers) then
              Resolution(Wrapped(providerClass, NoSuchMethodException(NotPublicStatic)), looked)
            else if !m.accessible then
              Resolution(Wrapped(providerClass, IllegalAccessException), looked + [Invoke])
            else
              var ran := looked + [Invoke, RunFactory];
              match m.invocation
              case Throws(t) =>
                if t.kind == IOExceptionKind || t.kind == RuntimeExceptionKind then
                  Resolution(Propagated(t), ran)
                else
                  Resolution(Wrapped(providerClass, TargetThrowable(t)), ran)
              case Returns(obj) =>
                if obj.Instance? && !obj.isXnio then
                  Resolution(Wrapped(providerClass, ClassCastException(ResultCast)), ran)
                else
                  Resolution(Created(obj), ran)
  }

  /** What a provider class must offer for create() to succeed, stated
      without reference to create(): it initialises, extends Xnio, declares a
      `create()` that is public, static and invocable, and that method
      returns an Xnio (or null) without throwing. */
  predicate IsValidProvider(d: ClassDesc) {
    && d.initFailure.None?
    && d.isXnioSubtype
    && d.declaredCreate.Some?
    && d.declaredCreate.value.modifiers & PUBLIC != 0
    && d.declaredCreate.value.modifiers & STATIC != 0
    && d.declaredCreate.value.accessible
    && d.declaredCreate.value.invocation.Returns?
    && (d.declaredCreate.value.invocation.result.Instance? ==> d.declaredCreate.value.invocation.result.isXnio)
  }

  /** A missing class is reported before anything else is tried. */
  lemma ClassNotFound(providerClass: string, registry: Registry)
    requires providerClass !in registry
    ensures Create(providerClass, registry).outcome == Wrapped(providerClass, ClassNotFoundException(providerClass))
    ensures CatchClause(Create(providerClass, registry).outcome.cause) == WasNotFound
    ensures Create(providerClass, registry).trace == [ForName(providerClass)]
  {
  }

  /** A failing static initialiser is reported whatever the class's type and
      methods: neither the subtype test nor the method lookup happens. An
      exception is wrapped in the JVM's ExceptionInInitializerError, an
      ExceptionInInitializerError thrown as it is becomes the cause itself,
      and every other Error leaves create() unchanged. */
  lemma InitializerFailure(providerClass: string, registry: Registry, t: Throwable)
    requires providerClass in registry && registry[providerClass].initFailure == Some(t)
    ensures t.kind != ErrorKind && t.kind != InInitializerErrorKind ==>
      Create(providerClass, registry).outcome == Wrapped(providerClass, ExceptionInInitializerError(t))
    ensures t.kind == InInitializerErrorKind ==>
      Create(providerClass, registry).outcome == Wrapped(providerClass, ThrownInitializerError(t))
    ensures t.kind != ErrorKind ==> CatchClause(Create(providerClass, registry).outcome.cause) == InitializationError
    ensures t.kind == ErrorKind ==> Create(providerClass, registry).outcome == Propagated(t)
    ensures Create(providerClass, registry).trace == [ForName(providerClass)]
  {
  }

  /** A class that is not an Xnio is rejected without `create` being looked
      up or invoked, whatever methods it declares. */
  lemma NotASubtype(providerClass: string, registry: Registry)
    requires providerClass in registry
    requires registry[providerClass].initFailure.None? && !registry[providerClass].isXnioSubtype
    ensures Create(providerClass, registry).outcome == Wrapped(providerClass, ClassCastException(SubclassCheck))
    ensures CatchClause(Create(providerClass, registry).outcome.cause) == NotReallyAProvider
    ensures GetDeclaredMethod !in Create(providerClass, registry).trace
    ensures Invoke !in Create(providerClass, registry).trace
    ensures FactoryRunCount(Create(providerClass, registry).trace) == 0
  {
  }

  /** The mask test accepts a modifier word exactly when it has both the
      PUBLIC and the STATIC bit: lacking either one is enough to fail. */
  lemma MaskNeedsBothBits(modifiers: bv32)
    ensures IsPublicStatic(modifiers) <==> (modifiers & PUBLIC != 0 && modifiers & STATIC != 0)
  {
  }

  /** An Xnio subclass whose `create` is missing, or lacks PUBLIC or STATIC,
      has no entry point; nothing is invoked. */
  lemma EntryPointMissing(providerClass: string, registry: Registry)
    requires providerClass in registry
    requires registry[providerClass].initFailure.None? && registry[providerClass].isXnioSubtype
    requires registry[providerClass].declaredCreate.None?
          || registry[providerClass].declaredCreate.value.modifiers & PUBLIC == 0
          || registry[providerClass].declaredCreate.value.modifiers & STATIC == 0
    ensures Create(providerClass, registry).outcome.Wrapped?
    ensures Create(providerClass, registry).outcome.cause.NoSuchMethodException?
    ensures CatchClause(Create(providerClass, registry).outcome.cause) == NoAccessibleCreateMethod
    ensures Invoke !in Create(providerClass, registry).trace
  {
  }

  /** Modifier bits other than PUBLIC and STATIC never change the outcome. */
  lemma OtherModifierBitsIrrelevant(providerClass: string, registry: Registry, m: MethodDesc, modifiers: bv32)
    requires providerClass in registry && registry[providerClass].declaredCreate == Some(m)
    requires modifiers & Mask == m.modifiers & Mask
    ensures Create(providerClass, registry[providerClass := registry[providerClass].(declaredCreate := Some(m.(modifiers := modifiers)))])
         == Create(providerClass, registry)
  {
  }

  /** An entry point that Method.invoke may not call fails with an
      IllegalAccessException before the provider's code runs. */
  lemma AccessFailure(providerClass: string, registry: Registry)
    requires ReachesInvoke(registry, providerClass) && !registry[providerClass].declaredCreate.value.accessible
    ensures Create(providerClass, registry).outcome == Wrapped(providerClass, IllegalAccessException)
    ensures CatchClause(Create(providerClass, registry).outcome.cause) == IllegalAccessFailure
    ensures FactoryRunCount(Create(providerClass, registry).trace) == 0
  {
  }

  /** What the provider's factory throws: an IOException or a
      RuntimeException leaves create() as that very object; a checked
      exception or an Error of any kind is wrapped, with that object as the
      cause. */
  lemma FactoryThrows(providerClass: string, registry: Registry, t: Throwable)
    requires FactoryRuns(registry, providerClass)
    requires registry[providerClass].declaredCreate.value.invocation == Throws(t)
    ensures t.kind == IOExceptionKind || t.kind == RuntimeExceptionKind ==>
      Create(providerClass, registry).outcome == Propagated(t)
    ensures t.kind != IOExceptionKind && t.kind != RuntimeExceptionKind ==>
      Create(providerClass, registry).outcome == Wrapped(providerClass, TargetThrowable(t))
  {
  }

  /** create() succeeds exactly for a valid provider, and then returns the
      very reference the provider's factory returned. */
  lemma SuccessExactlyForValidProviders(providerClass: string, registry: Registry)
    ensures Create(providerClass, registry).outcome.Created?
        <==> providerClass in registry && IsValidProvider(registry[providerClass])
    ensures Create(providerClass, registry).outcome.Created? ==>
      Create(providerClass, registry).outcome.provider == registry[providerClass].declaredCreate.value.invocation.result
  {
  }

  /** A factory that returns something other than an Xnio is caught by the
      cast, and reported like a class that is not a provider. A factory that
      returns null makes create() return null. */
  lemma FactoryResult(providerClass: string, registry: Registry, obj: Obj)
    requires FactoryRuns(registry, providerClass)
    requires registry[providerClass].declaredCreate.value.invocation == Returns(obj)
    ensures obj.Instance? && !obj.isXnio ==>
      Create(providerClass, registry).outcome == Wrapped(providerClass, ClassCastException(ResultCast))
    ensures obj == Null ==> Create(providerClass, registry).outcome == Created(Null)
  {
  }

  // ---------------------------------------------------------------------
  // Repeated calls: no caching
  // ---------------------------------------------------------------------

  /** Successive calls of create(), call `i` made while the loader sees
      `worlds[i]` (a provider factory may behave differently from one call
      to the next). All calls share the one PROVIDER_CLASS. */
  function Session(providerClass: string, worlds: seq<Registry>): (rs: seq<Resolution>)
    ensures |rs| == |worlds|
    ensures forall i :: 0 <= i < |worlds| ==> rs[i] == Create(providerClass, worlds[i])
  {
    if worlds == [] then []
    else [Create(providerClass, worlds[0])] + Session(providerClass, worlds[1..])
  }

  /** The reflective calls of a sequence of create() calls, one after another. */
  function SessionTrace(rs: seq<Resolution>): seq<Step> {
    if rs == [] then [] else rs[0].trace + SessionTrace(rs[1..])
  }

  /** The number of calls in which the provider class passes every check. */
  function RunnableCalls(providerClass: string, worlds: seq<Registry>): nat {
    if worlds == [] then 0
    else (if FactoryRuns(worlds[0], providerClass) then 1 else 0) + RunnableCalls(providerClass, worlds[1..])
  }

  /** Nothing is remembered between calls: every call looks the class up
      again, and the provider's factory is entered once in every call that
      gets that far, never skipped in favour of an earlier result. */
  lemma {:induction false} NoCaching(providerClass: string, worlds: seq<Registry>)
    ensures LookupCount(SessionTrace(Session(providerClass, worlds)), providerClass) == |worlds|
    ensures FactoryRunCount(SessionTrace(Session(providerClass, worlds))) == RunnableCalls(providerClass, worlds)
  {
    if worlds != [] {
      var rs := Session(providerClass, worlds);
      assert rs[1..] == Session(providerClass, worlds[1..]);
      NoCaching(providerClass, worlds[1..]);
      assert SessionTrace(rs) == rs[0].trace + SessionTrace(rs[1..]);
    }
  }

  /** With the property unset and no NIO provider on the class path, create()
      reports the default class as not found. */
  lemma DefaultProviderMissing(properties: map<string, string>, readThrows: bool, registry: Registry)
    requires ProviderProperty !in properties && NioImplClassName !in registry
    ensures Create(ProviderClassName(properties, readThrows), registry).outcome
         == Wrapped(NioImplClassName, ClassNotFoundException(NioImplClassName))
  {
  }

  // ---------------------------------------------------------------------
  // The provider's default instance operations
  // ---------------------------------------------------------------------

  /** Opaque arguments: executors, handler factories, handlers, socket
      addresses and threads are only passed along. */
  type ExecutorRef = nat
  type HandlerFactoryRef = nat
  type HandlerRef = nat
  type SocketAddress = nat
  type ThreadRef = nat

  /** A call of one of the `create*` operations. Each operation has two
      overloads, with and without an executor; `executor == None` is the
      overload that uses the provider's default executor. */
  datatype Call =
    | CreateTcpServer(executor: Option<ExecutorRef>, handlerFactory: HandlerFactoryRef, bindAddresses: seq<SocketAddress>)
    | CreateTcpConnector(executor: Option<ExecutorRef>)
    | CreateUdpServer(executor: Option<ExecutorRef>, multicast: bool, handlerFactory: HandlerFactoryRef, bindAddresses: seq<SocketAddress>)
    | CreatePipeServer(executor: Option<ExecutorRef>, handlerFactory: HandlerFactoryRef)
    | CreatePipeSourceServer(executor: Option<ExecutorRef>, handlerFactory: HandlerFactoryRef)
    | CreatePipeSinkServer(executor: Option<ExecutorRef>, handlerFactory: HandlerFactoryRef)
    | CreatePipeConnection(executor: Option<ExecutorRef>, leftHandler: HandlerRef, rightHandler: HandlerRef)
    | CreateOneWayPipeConnection(executor: Option<ExecutorRef>, sourceHandler: HandlerRef, sinkHandler: HandlerRef)
    | CreateTcpAcceptor(executor: Option<ExecutorRef>)

  /** The transport a call asks for. */
  datatype TransportKind =
    | TcpServer | TcpConnector | UdpServer | PipeServer | PipeSourceServer
    | PipeSinkServer | PipeConnection | OneWayPipeConnection | TcpAcceptor

  function KindOf(c: Call): TransportKind {
    match c
    case CreateTcpServer(_, _, _) => TcpServer
    case CreateTcpConnector(_) => TcpConnector
    case CreateUdpServer(_, _, _, _) => UdpServer
    case CreatePipeServer(_, _) => PipeServer
    case CreatePipeSourceServer(_, _) => PipeSourceServer
    case CreatePipeSinkServer(_, _) => PipeSinkServer
    case CreatePipeConnection(_, _, _) => PipeConnection
    case CreateOneWayPipeConnection(_, _, _) => OneWayPipeConnection
    case CreateTcpAcceptor(_) => TcpAcceptor
  }

  /** The message of the UnsupportedOperationException for each transport. */
  function Label(k: TransportKind): string {
    match k
    case TcpServer => "TCP Server"
    case TcpConnector => "TCP Connector"
    case UdpServer => "UDP Server"
    case PipeServer => "Pipe Server"
    case PipeSourceServer => "One-way Pipe Server"
    case PipeSinkServer => "One-way Pipe Server"
    case PipeConnection => "Pipe Connection"
    case OneWayPipeConnection => "One-way Pipe Connection"
    case TcpAcceptor => "TCP Acceptor"
  }

  datatype UnsupportedOperationException = UnsupportedOperationException(message: string)

  /** A `create*` operation that the provider does not override: it throws
      at once, naming the transport asked for. */
  function DefaultCall(c: Call): (e: UnsupportedOperationException)
    ensures c.CreateTcpServer? ==> e.message == "TCP Server"
    ensures c.CreateTcpConnector? ==> e.message == "TCP Connector"
    ensures c.CreateUdpServer? ==> e.message == "UDP Server"
    ensures c.CreatePipeServer? ==> e.message == "Pipe Server"
    ensures c.CreatePipeSourceServer? ==> e.message == "One-way Pipe Server"
    ensures c.CreatePipeSinkServer? ==> e.message == "One-way Pipe Server"
    ensures c.CreatePipeConnection? ==> e.message == "Pipe Connection"
    ensures c.CreateOneWayPipeConnection? ==> e.message == "One-way Pipe Connection"
    ensures c.CreateTcpAcceptor? ==> e.message == "TCP Acceptor"
  {
    UnsupportedOperationException(Label(KindOf(c)))
  }

  /** The two overloads of an operation fail alike. */
  lemma OverloadsFailAlike(c: Call, executor: ExecutorRef)
    ensures DefaultCall(c.(executor := Some(executor))) == DefaultCall(c.(executor := None))
  {
  }

  /** No argument other than the operation asked for affects the failure:
      not the executor, the handlers, the bind addresses or the multicast
      flag. */
  lemma DefaultCallDependsOnlyOnKind(c1: Call, c2: Call)
    requires KindOf(c1) == KindOf(c2)
    ensures DefaultCall(c1) == DefaultCall(c2)
  {
  }

  /** Two transports share a message exactly when they are the same, or are
      the source and the sink one-way pipe servers. */
  lemma LabelsDistinguishTransports(k1: TransportKind, k2: TransportKind)
    ensures Label(k1) == Label(k2)
        <==> k1 == k2 || (k1 in {PipeSourceServer, PipeSinkServer} && k2 in {PipeSourceServer, PipeSinkServer})
  {
  }

  /** `awaken(thread)`: by default it has no effect on the provider. */
  function Awaken<P>(provider: P, targetThread: ThreadRef): (after: P)
    ensures after == provider
  {
    provider
  }
}
