/** Albelli.OpenTelemetry.Logging: registering a decorator for
    `ILoggerFactory` that adds the current span's baggage and tags to log
    messages. The decoration rewrites the service collection in place: each
    registration of the service type is replaced by a factory registration
    that builds the decorator around what the original produced, and an
    original registered by implementation type also gets a registration of
    that type as itself, placed right before it, so the container can still
    build the original. */
module Logging {
  import opened Common

  /** A .NET type, by name. */
  type TypeName = string

  const LoggerFactoryType: TypeName := "ILoggerFactory"
  const DecoratorType: TypeName := "ActivityBagTagLoggerFactory"

  /** `ServiceLifetime`. */
  datatype Lifetime = Singleton | Scoped | Transient

  /** An object the container hands out. */
  datatype Instance =
    /** The registration's `ImplementationInstance`. */
    | Given(id: nat)
    /** `ActivatorUtilities.GetServiceOrCreateInstance(provider, type)`. */
    | Activated(implementationType: TypeName)
    /** What a user-supplied factory returned. */
    | Produced(id: nat)
    /** `ActivatorUtilities.CreateInstance(provider, type, arguments)`. */
    | Created(createdType: TypeName, arguments: seq<Argument>)

  /** A constructor argument of a created instance: a service, or one of the
      two (possibly null) predicates of the logger factory decorator. */
  datatype Argument = Service(instance: Instance) | Predicate(p: Option<string -> bool>)

  /** `ServiceDescriptor`: at most one of the three implementation slots is
      normally set, but `GetInstance` checks them in a fixed order. */
  datatype ServiceDescriptor = ServiceDescriptor(
    serviceType: TypeName,
    lifetime: Lifetime,
    implementationType: Option<TypeName>,
    implementationInstance: Option<nat>,
    implementationFactory: Option<Factory>)

  /** An `ImplementationFactory`: a user-supplied one, with the outcome it
      gives, or the decorator factory `Decorate` builds around a descriptor. */
  datatype Factory =
    | UserFactory(outcome: Outcome<Instance>)
    | DecoratorFactory(inner: ServiceDescriptor, decoratorType: TypeName, additionalParameters: seq<Argument>)

  /** The instance a descriptor yields: the instance if set, else the
      implementation type built by the container, else the factory's result; a
      descriptor with none of them makes the factory call throw. */
  function GetInstance(d: ServiceDescriptor): (r: Outcome<Instance>)
    ensures d.implementationInstance.Some? ==> r == Returned(Given(d.implementationInstance.value))
    ensures d.implementationInstance.None? && d.implementationType.Some? ==>
              r == Returned(Activated(d.implementationType.value))
    ensures d.implementationInstance.None? && d.implementationType.None? && d.implementationFactory.None? ==>
              r == Threw(NullReference)
  {
    if d.implementationInstance.Some? then Returned(Given(d.implementationInstance.value))
    else if d.implementationType.Some? then Returned(Activated(d.implementationType.value))
    else match d.implementationFactory
      case None => Threw(NullReference)
      case Some(UserFactory(outcome)) => outcome
      case Some(DecoratorFactory(inner, t, extra)) =>
        match GetInstance(inner)
        case Returned(x) => Returned(Created(t, [Service(x)] + extra))
        case Threw(e) => Threw(e)
  }

  /** The precedence is strict: a set instance hides the type and the
      factory, and a set type hides the factory. */
  lemma GetInstancePrecedence(d: ServiceDescriptor, t: Option<TypeName>, f: Option<Factory>)
    ensures d.implementationInstance.Some? ==>
              GetInstance(d.(implementationType := t, implementationFactory := f)) == GetInstance(d)
    ensures d.implementationType.Some? ==>
              GetInstance(d.(implementationFactory := f)) == GetInstance(d)
  {
  }

  /** The body of the decorator factory: the constructor arguments are the
      decorated instance followed by the additional parameters, in order,
      collected into an array. */
  method CreateDecorator(inner: Instance, decoratorType: TypeName, additionalParameters: seq<Argument>)
    returns (r: Instance)
    ensures r.Created? && r.createdType == decoratorType
    ensures |r.arguments| == |additionalParameters| + 1
    ensures r.arguments[0] == Service(inner) && r.arguments[1..] == additionalParameters
  {
    var parameters := new Argument[|additionalParameters| + 1](_ => Service(inner));
    parameters[0] := Service(inner);
    for i := 0 to |additionalParameters|
      invariant parameters[0] == Service(inner)
      invariant forall j | 0 <= j < i :: parameters[j + 1] == additionalParameters[j]
    {
      parameters[i + 1] := additionalParameters[i];
    }
    assert forall j | 0 <= j < |additionalParameters| :: parameters[1..][j] == parameters[j + 1];
    assert parameters[1..] == additionalParameters;
    r := Created(decoratorType, parameters[..]);
  }

  /** What `Decorate` is asked to do: which service, which decorator type,
      which additional constructor arguments. */
  datatype Decoration = Decoration(serviceType: TypeName, decoratorType: TypeName, additionalParameters: seq<Argument>)

  /** `descriptor.Decorate(decoratorType, additionalParameters)`, through
      `WithFactory`: same service type and lifetime, now a factory. */
  function Decorated(d: ServiceDescriptor, dec: Decoration): (r: ServiceDescriptor)
    ensures r.serviceType == d.serviceType && r.lifetime == d.lifetime
    ensures r.implementationInstance.None? && r.implementationType.None? && r.implementationFactory.Some?
  {
    ServiceDescriptor(d.serviceType, d.lifetime, None, None,
                      Some(DecoratorFactory(d, dec.decoratorType, dec.additionalParameters)))
  }

  /** `new ServiceDescriptor(type, type, lifetime)`: the original
      implementation type registered as itself. */
  function SelfRegistration(d: ServiceDescriptor): (r: ServiceDescriptor)
    requires d.implementationType.Some?
    ensures r.serviceType == d.implementationType.value && r.implementationType == d.implementationType
    ensures r.lifetime == d.lifetime
  {
    ServiceDescriptor(d.implementationType.value, d.lifetime, d.implementationType, None, None)
  }

  /** What one descriptor of the list becomes. */
  function Expand(d: ServiceDescriptor, dec: Decoration): seq<ServiceDescriptor> {
    if d.serviceType != dec.serviceType then [d]
    else if d.implementationType.Some? then [SelfRegistration(d), Decorated(d, dec)]
    else [Decorated(d, dec)]
  }

  /** The list `DecorateDescriptors` leaves: each descriptor expanded in place. */
  function DecorateAll(ds: seq<ServiceDescriptor>, dec: Decoration): seq<ServiceDescriptor> {
    if ds == [] then [] else DecorateAll(ds[..|ds| - 1], dec) + Expand(ds[|ds| - 1], dec)
  }

  /** How many descriptors get a self-registration. */
  function SelfRegistrations(ds: seq<ServiceDescriptor>, dec: Decoration): nat {
    if ds == [] then 0
    else SelfRegistrations(ds[..|ds| - 1], dec)
         + (if ds[|ds| - 1].serviceType == dec.serviceType && ds[|ds| - 1].implementationType.Some? then 1 else 0)
  }

  predicate HasService(ds: seq<ServiceDescriptor>, serviceType: TypeName) {
    exists j | 0 <= j < |ds| :: ds[j].serviceType == serviceType
  }

  lemma DecorateAllSnoc(ds: seq<ServiceDescriptor>, d: ServiceDescriptor, dec: Decoration)
    ensures DecorateAll(ds + [d], dec) == DecorateAll(ds, dec) + Expand(d, dec)
  {
    assert (ds + [d])[..|ds|] == ds;
  }

  lemma {:induction false} DecorateAllConcat(a: seq<ServiceDescriptor>, b: seq<ServiceDescriptor>, dec: Decoration)
    ensures DecorateAll(a + b, dec) == DecorateAll(a, dec) + DecorateAll(b, dec)
  {
    if b == [] {
      assert a + b == a;
    } else {
      var init, last := b[..|b| - 1], b[|b| - 1];
      assert b == init + [last];
      DecorateAllConcat(a, init, dec);
      DecorateAllConcatSnoc(a, init, last, dec);
    }
  }

  lemma DecorateAllConcatSnoc(a: seq<ServiceDescriptor>, init: seq<ServiceDescriptor>, last: ServiceDescriptor, dec: Decoration)
    requires DecorateAll(a + init, dec) == DecorateAll(a, dec) + DecorateAll(init, dec)
    ensures DecorateAll(a + (init + [last]), dec) == DecorateAll(a, dec) + DecorateAll(init + [last], dec)
  {
    var x, y, e := DecorateAll(a, dec), DecorateAll(init, dec), Expand(last, dec);
    assert a + (init + [last]) == (a + init) + [last];
    DecorateAllSnoc(a + init, last, dec);
    assert DecorateAll(a + (init + [last]), dec) == (x + y) + e;
    DecorateAllSnoc(init, last, dec);
    assert DecorateAll(init + [last], dec) == y + e;
    ConcatAssoc(x, y, e);
  }

  lemma ConcatAssoc<T>(x: seq<T>, y: seq<T>, z: seq<T>)
    ensures (x + y) + z == x + (y + z)
  {
  }

  lemma DecorateAllStep(ds: seq<ServiceDescriptor>, dec: Decoration, k: int)
    requires 0 <= k < |ds|
    ensures DecorateAll(ds[..k + 1], dec) == DecorateAll(ds[..k], dec) + Expand(ds[k], dec)
  {
    assert ds[..k + 1][..k] == ds[..k];
  }

  /** The two edits `DecorateDescriptors` makes at one index, replacing the
      descriptor and then inserting before it, put `Expand(d)` in its place. */
  lemma ExpandInPlace(prefix: seq<ServiceDescriptor>, d: ServiceDescriptor, rest: seq<ServiceDescriptor>, dec: Decoration)
    requires d.serviceType == dec.serviceType
    ensures var s := (prefix + [d] + rest)[|prefix| := Decorated(d, dec)];
            && (d.implementationType.None? ==> s == prefix + Expand(d, dec) + rest)
            && (d.implementationType.Some? ==>
                  s[..|prefix|] + [SelfRegistration(d)] + s[|prefix|..] == prefix + Expand(d, dec) + rest)
  {
    var s := (prefix + [d] + rest)[|prefix| := Decorated(d, dec)];
    assert s == prefix + [Decorated(d, dec)] + rest;
    assert s[..|prefix|] == prefix;
    assert s[|prefix|..] == [Decorated(d, dec)] + rest;
  }

  /** One step of the walk: at the index where descriptor `k` sits, the
      edits `DecorateDescriptors` makes turn the list decorated up to `k`
      into the list decorated up to `k + 1`. */
  lemma EditsExpand(ds: seq<ServiceDescriptor>, dec: Decoration, k: int)
    requires 0 <= k < |ds|
    ensures var cur, index, d := DecorateAll(ds[..k], dec) + ds[k..], |DecorateAll(ds[..k], dec)|, ds[k];
            var next := DecorateAll(ds[..k + 1], dec) + ds[k + 1..];
            && index < |cur| && cur[index] == d
            && |DecorateAll(ds[..k + 1], dec)| == index + |Expand(d, dec)|
            && (d.serviceType != dec.serviceType ==> cur == next)
            && (d.serviceType == dec.serviceType && d.implementationType.None? ==>
                  cur[index := Decorated(d, dec)] == next)
            && (d.serviceType == dec.serviceType && d.implementationType.Some? ==>
                  var s := cur[index := Decorated(d, dec)];
                  s[..index] + [SelfRegistration(d)] + s[index..] == next)
  {
    var prefix, d, rest := DecorateAll(ds[..k], dec), ds[k], ds[k + 1..];
    assert ds[k..] == [d] + rest;
    assert prefix + ds[k..] == prefix + [d] + rest;
    DecorateAllStep(ds, dec, k);
    if d.serviceType == dec.serviceType {
      ExpandInPlace(prefix, d, rest, dec);
    }
  }

  /** The list grows by exactly the number of decorated descriptors that were
      registered by implementation type. */
  lemma {:induction false} DecoratedLength(ds: seq<ServiceDescriptor>, dec: Decoration)
    ensures |DecorateAll(ds, dec)| == |ds| + SelfRegistrations(ds, dec)
  {
    if ds != [] {
      DecoratedLength(ds[..|ds| - 1], dec);
    }
  }

  /** Descriptor `i` of the original list turns into `Expand(ds[i])` at
      offset `|DecorateAll(ds[..i])|`: a descriptor of another service stays
      as it is, and a decorated one is preceded by its self-registration if
      it had an implementation type. */
  lemma DecorateAllAt(ds: seq<ServiceDescriptor>, dec: Decoration, i: int)
    requires 0 <= i < |ds|
    ensures var p := |DecorateAll(ds[..i], dec)|;
            && p + |Expand(ds[i], dec)| <= |DecorateAll(ds, dec)|
            && DecorateAll(ds, dec)[p..p + |Expand(ds[i], dec)|] == Expand(ds[i], dec)
  {
    assert ds == ds[..i] + [ds[i]] + ds[i + 1..];
    DecorateAllConcat(ds[..i] + [ds[i]], ds[i + 1..], dec);
    DecorateAllConcat(ds[..i], [ds[i]], dec);
    assert DecorateAll([ds[i]], dec) == Expand(ds[i], dec) by {
      assert [ds[i]][..0] == [];
    }
  }

  /** Later descriptors land after earlier ones. */
  lemma OffsetsIncrease(ds: seq<ServiceDescriptor>, dec: Decoration, i: int, j: int)
    requires 0 <= i < j <= |ds|
    ensures |DecorateAll(ds[..i], dec)| + |Expand(ds[i], dec)| <= |DecorateAll(ds[..j], dec)|
  {
    DecorateAllStep(ds, dec, i);
    assert ds[..j] == ds[..i + 1] + ds[i + 1..j];
    DecorateAllConcat(ds[..i + 1], ds[i + 1..j], dec);
  }

  /** Descriptors of other services keep their relative order. */
  lemma OthersKeepOrder(ds: seq<ServiceDescriptor>, dec: Decoration, i: int, j: int)
    requires 0 <= i < j < |ds|
    requires ds[i].serviceType != dec.serviceType && ds[j].serviceType != dec.serviceType
    ensures var p, q := |DecorateAll(ds[..i], dec)|, |DecorateAll(ds[..j], dec)|;
            && p < q < |DecorateAll(ds, dec)|
            && DecorateAll(ds, dec)[p] == ds[i] && DecorateAll(ds, dec)[q] == ds[j]
  {
    OffsetsIncrease(ds, dec, i, j);
    DecorateAllAt(ds, dec, i);
    DecorateAllAt(ds, dec, j);
  }

  /** A decorated registration yields the decorator built around exactly
      what the original registration yielded; an original registered by type
      is still reachable through its self-registration. */
  lemma DecoratedWrapsOriginal(d: ServiceDescriptor, dec: Decoration)
    ensures GetInstance(d).Returned? ==>
              GetInstance(Decorated(d, dec))
                == Returned(Created(dec.decoratorType, [Service(GetInstance(d).value)] + dec.additionalParameters))
    ensures GetInstance(d).Threw? ==> GetInstance(Decorated(d, dec)) == GetInstance(d)
    ensures d.implementationType.Some? && d.implementationInstance.None? ==>
              GetInstance(SelfRegistration(d)) == GetInstance(d)
  {
  }

  /** `IServiceCollection`, a list the decoration edits in place. */
  class ServiceCollection {
    var descriptors: seq<ServiceDescriptor>

    constructor (descriptors: seq<ServiceDescriptor>)
      ensures this.descriptors == descriptors
    {
      this.descriptors := descriptors;
    }
  }

  const CannotFindType: Exception := InvalidOperation("Can't find the type to decorate")

  /** `DecorateDescriptors`: fails if no descriptor has the service type;
      otherwise replaces each one by its decorated form and, for one with an
      implementation type, inserts the self-registration at its index. The
      source walks a snapshot of the matching descriptors and finds each by
      reference with `IndexOf`; since every earlier occurrence has been
      replaced by then, that is the left-to-right walk over positions done
      here. */
  method DecorateDescriptors(services: ServiceCollection, dec: Decoration) returns (o: Outcome<()>)
    modifies services
    ensures !HasService(old(services.descriptors), dec.serviceType) ==>
              o == Threw(CannotFindType) && services.descriptors == old(services.descriptors)
    ensures HasService(old(services.descriptors), dec.serviceType) ==>
              o == Returned(()) && services.descriptors == DecorateAll(old(services.descriptors), dec)
  {
    var ds := services.descriptors;
    if !HasService(ds, dec.serviceType) {
      return Threw(CannotFindType);
    }
    var index := 0;
    for k := 0 to |ds|
      invariant index == |DecorateAll(ds[..k], dec)|
      invariant services.descriptors == DecorateAll(ds[..k], dec) + ds[k..]
    {
      var descriptor := ds[k];
      EditsExpand(ds, dec, k);
      if descriptor.serviceType == dec.serviceType {
        services.descriptors := services.descriptors[index := Decorated(descriptor, dec)];
        if descriptor.implementationType.Some? {
          services.descriptors := services.descriptors[..index] + [SelfRegistration(descriptor)] + services.descriptors[index..];
          index := index + 1;
        }
      }
      index := index + 1;
    }
    assert ds[..|ds|] == ds;
    o := Returned(());
  }

  /** `AddActivityBagTagLoggerFactory`: a null collection or two null
      predicates are refused; otherwise every `ILoggerFactory` registration is
      decorated with `ActivityBagTagLoggerFactory(inner, shouldLogBag,
      shouldLogTag)`. */
  method AddActivityBagTagLoggerFactory(services: ServiceCollection?,
                                        shouldLogBag: Option<string -> bool>, shouldLogTag: Option<string -> bool>)
    returns (o: Outcome<()>)
    modifies services
    ensures services == null ==> o == Threw(ArgumentNull("services"))
    ensures services != null && shouldLogBag.None? && shouldLogTag.None? ==>
              o == Threw(Argument("At least one predicate should be specified"))
              && services.descriptors == old(services.descriptors)
    ensures services != null && (shouldLogBag.Some? || shouldLogTag.Some?) ==>
              var dec := Decoration(LoggerFactoryType, DecoratorType, [Predicate(shouldLogBag), Predicate(shouldLogTag)]);
              && (!HasService(old(services.descriptors), LoggerFactoryType) ==>
                    o == Threw(CannotFindType) && services.descriptors == old(services.descriptors))
              && (HasService(old(services.descriptors), LoggerFactoryType) ==>
                    o == Returned(()) && services.descriptors == DecorateAll(old(services.descriptors), dec))
  {
    if services == null {
      return Threw(ArgumentNull("services"));
    }
    if shouldLogBag.None? && shouldLogTag.None? {
      return Threw(Argument("At least one predicate should be specified"));
    }
    o := DecorateDescriptors(services, Decoration(LoggerFactoryType, DecoratorType,
                                                  [Predicate(shouldLogBag), Predicate(shouldLogTag)]));
  }

  /** The default baggage predicate: the key starts with `X-`, ignoring case. */
  predicate DefaultShouldLogBag(key: string) {
    StartsWithIgnoreCase(key, "X-")
  }

  /** The default tag predicate: every tag is logged. */
  predicate DefaultShouldLogTag(key: string) {
    true
  }

  /** The default baggage predicate accepts exactly the keys that begin with
      `X-` or `x-`. */
  lemma DefaultShouldLogBagIff(key: string)
    ensures DefaultShouldLogBag(key) <==> |key| >= 2 && (key[0] == 'X' || key[0] == 'x') && key[1] == '-'
  {
    if |key| >= 2 {
      assert key[..2][0] == key[0] && key[..2][1] == key[1];
    }
  }

  /** `AddDefaultActivityBagTagLoggerFactory`: both default predicates. */
  method AddDefaultActivityBagTagLoggerFactory(services: ServiceCollection?) returns (o: Outcome<()>)
    modifies services
    ensures services == null ==> o == Threw(ArgumentNull("services"))
    ensures services != null ==>
              var dec := Decoration(LoggerFactoryType, DecoratorType,
                                    [Predicate(Some(DefaultShouldLogBag)), Predicate(Some(DefaultShouldLogTag))]);
              && (!HasService(old(services.descriptors), LoggerFactoryType) ==>
                    o == Threw(CannotFindType) && services.descriptors == old(services.descriptors))
              && (HasService(old(services.descriptors), LoggerFactoryType) ==>
                    o == Returned(()) && services.descriptors == DecorateAll(old(services.descriptors), dec))
  {
    o := AddActivityBagTagLoggerFactory(services, Some(DefaultShouldLogBag), Some(DefaultShouldLogTag));
  }
}
