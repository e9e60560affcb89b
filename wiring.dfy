/**
 * What a correctly wired object graph is, stated without the resolver, and the
 * theorems that tie Resolve to it: every instance Resolve returns is wired
 * (soundness), every wired instance is what Resolve returns given enough fuel
 * (completeness), extra fuel changes nothing once resolution finishes, and a
 * dependency cycle never finishes.
 */
module Wiring {
  import opened Types
  import opened Registry
  import opened Resolver

  /** inst is a correct resolution of the requested type t: t is registered and inst is an
      instance of types[t]; that type has a public constructor and inst's arguments wire,
      in order, the parameter types of the first one; if t carries [ImportConstructor]
      nothing is injected, otherwise exactly t's [Import] properties are, in the order
      reflection reports them, each with a wiring of the property's declared type. */
  ghost predicate Wired(types: TypeMap, meta: Metadata, t: TypeId, inst: Instance)
    decreases inst
  {
    && t in types
    && inst.impl == types[t]
    && Describe(meta, inst.impl).ctors != []
    && WiredArgs(types, meta, Describe(meta, inst.impl).ctors[0], inst.args)
    && var d := Describe(meta, t);
    && if d.hasImportCtor then inst.props == []
       else WiredProps(types, meta, ImportedProperties(d.properties), inst.props)
  }

  /** xs wire the parameter types ts, one by one and in order. */
  ghost predicate WiredArgs(types: TypeMap, meta: Metadata, ts: seq<TypeId>, xs: seq<Instance>)
    decreases xs
  {
    && |xs| == |ts|
    && forall i :: 0 <= i < |ts| ==> Wired(types, meta, ts[i], xs[i])
  }

  /** xs inject the properties ps, one by one and in order: same names, and each value
      wires the property's declared type. */
  ghost predicate WiredProps(types: TypeMap, meta: Metadata, ps: seq<Property>, xs: seq<Injected>)
    decreases xs
  {
    && |xs| == |ps|
    && forall i :: 0 <= i < |ps| ==> xs[i].name == ps[i].name && Wired(types, meta, ps[i].propType, xs[i].value)
  }

  function Max(a: nat, b: nat): nat
  {
    if a < b then b else a
  }

  /** The depth of an object graph: the recursion depth needed to build it. */
  function Height(inst: Instance): nat
    decreases inst
  {
    1 + Max(ArgsHeight(inst.args), PropsHeight(inst.props))
  }

  function ArgsHeight(xs: seq<Instance>): nat
    decreases xs
  {
    if xs == [] then 0 else Max(Height(xs[0]), ArgsHeight(xs[1..]))
  }

  function PropsHeight(xs: seq<Injected>): nat
    decreases xs
  {
    if xs == [] then 0 else Max(Height(xs[0].value), PropsHeight(xs[1..]))
  }

  // ---------------------------------------------------------------------------
  // Soundness

  /** Every instance Resolve returns is a correct wiring of the requested type. */
  lemma {:induction false} ResolveSound(types: TypeMap, meta: Metadata, t: TypeId, fuel: nat)
    ensures Resolve(types, meta, t, fuel).Ok? ==> Wired(types, meta, t, Resolve(types, meta, t, fuel).value)
    decreases fuel, 0
  {
    if fuel > 0 && t in types {
      var impl := types[t];
      var ctors := Describe(meta, impl).ctors;
      if ctors != [] {
        var inner := fuel - 1;
        ResolveEachSound(types, meta, ctors[0], inner);
        ResolvePropertiesSound(types, meta, PropertiesToInject(meta, t), inner);
      }
    }
  }

  lemma {:induction false} ResolveEachSound(types: TypeMap, meta: Metadata, ts: seq<TypeId>, fuel: nat)
    ensures ResolveEach(types, meta, ts, fuel).Ok? ==> WiredArgs(types, meta, ts, ResolveEach(types, meta, ts, fuel).value)
    decreases fuel, 1, |ts|
  {
    if ts != [] {
      ResolveSound(types, meta, ts[0], fuel);
      ResolveEachSound(types, meta, ts[1..], fuel);
      var r := ResolveEach(types, meta, ts, fuel);
      if r.Ok? {
        forall i | 0 <= i < |ts| ensures Wired(types, meta, ts[i], r.value[i]) {
          if i > 0 { assert ts[i] == ts[1..][i - 1]; }
        }
      }
    }
  }

  lemma {:induction false} ResolvePropertiesSound(types: TypeMap, meta: Metadata, ps: seq<Property>, fuel: nat)
    ensures ResolveProperties(types, meta, ps, fuel).Ok? ==>
      WiredProps(types, meta, ps, ResolveProperties(types, meta, ps, fuel).value)
    decreases fuel, 1, |ps|
  {
    if ps != [] {
      ResolveSound(types, meta, ps[0].propType, fuel);
      ResolvePropertiesSound(types, meta, ps[1..], fuel);
      var r := ResolveProperties(types, meta, ps, fuel);
      if r.Ok? {
        forall i | 0 <= i < |ps|
          ensures r.value[i].name == ps[i].name && Wired(types, meta, ps[i].propType, r.value[i].value)
        {
          if i > 0 { assert ps[i] == ps[1..][i - 1]; }
        }
      }
    }
  }

  // ---------------------------------------------------------------------------
  // Completeness

  /** Every correct wiring of t is what Resolve builds, once the fuel covers its depth. */
  lemma {:induction false} ResolveComplete(types: TypeMap, meta: Metadata, t: TypeId, inst: Instance, fuel: nat)
    requires Wired(types, meta, t, inst)
    requires fuel >= Height(inst)
    ensures Resolve(types, meta, t, fuel) == Ok(inst)
    decreases inst
  {
    var params := Describe(meta, inst.impl).ctors[0];
    var inner := fuel - 1;
    ResolveEachComplete(types, meta, params, inst.args, inner);
    var d := Describe(meta, t);
    if !d.hasImportCtor {
      ResolvePropertiesComplete(types, meta, ImportedProperties(d.properties), inst.props, inner);
    }
  }

  lemma {:induction false} ResolveEachComplete(types: TypeMap, meta: Metadata, ts: seq<TypeId>,
                                               xs: seq<Instance>, fuel: nat)
    requires WiredArgs(types, meta, ts, xs)
    requires fuel >= ArgsHeight(xs)
    ensures ResolveEach(types, meta, ts, fuel) == Ok(xs)
    decreases xs
  {
    if ts != [] {
      ResolveComplete(types, meta, ts[0], xs[0], fuel);
      assert forall i :: 1 <= i < |xs| ==> xs[i] == xs[1..][i - 1] && ts[i] == ts[1..][i - 1];
      ResolveEachComplete(types, meta, ts[1..], xs[1..], fuel);
      assert xs == [xs[0]] + xs[1..];
    }
  }

  lemma {:induction false} ResolvePropertiesComplete(types: TypeMap, meta: Metadata, ps: seq<Property>,
                                                     xs: seq<Injected>, fuel: nat)
    requires WiredProps(types, meta, ps, xs)
    requires fuel >= PropsHeight(xs)
    ensures ResolveProperties(types, meta, ps, fuel) == Ok(xs)
    decreases xs
  {
    if ps != [] {
      ResolveComplete(types, meta, ps[0].propType, xs[0].value, fuel);
      assert forall i :: 1 <= i < |xs| ==> xs[i] == xs[1..][i - 1] && ps[i] == ps[1..][i - 1];
      ResolvePropertiesComplete(types, meta, ps[1..], xs[1..], fuel);
      assert xs == [Injected(ps[0].name, xs[0].value)] + xs[1..];
    }
  }

  // ---------------------------------------------------------------------------
  // Fuel

  /** A resolution that finishes within some fuel gives the same result with any more:
      the fuel bound only cuts off recursions that would not finish. */
  lemma {:induction false} ResolveFuelMonotone(types: TypeMap, meta: Metadata, t: TypeId, fuel: nat, more: nat)
    requires fuel <= more
    requires Resolve(types, meta, t, fuel) != Err(Diverged)
    ensures Resolve(types, meta, t, more) == Resolve(types, meta, t, fuel)
    decreases fuel, 0
  {
    if t in types && Describe(meta, types[t]).ctors != [] {
      var params := Describe(meta, types[t]).ctors[0];
      var ps := PropertiesToInject(meta, t);
      ResolveDivergesFromParts(types, meta, t, fuel);
      var inner, innerMore := fuel - 1, more - 1;
      ResolveEachFuelMonotone(types, meta, params, inner, innerMore);
      if ResolveEach(types, meta, params, inner).Ok? && !Describe(meta, t).hasImportCtor {
        ResolvePropertiesFuelMonotone(types, meta, ps, inner, innerMore);
      }
      ResolveFromParts(types, meta, t, fuel, more);
    }
  }

  /** Where Resolve of a registered type with a constructor gets Diverged from. */
  lemma ResolveDivergesFromParts(types: TypeMap, meta: Metadata, t: TypeId, fuel: nat)
    requires fuel > 0 && t in types && Describe(meta, types[t]).ctors != []
    requires Resolve(types, meta, t, fuel) != Err(Diverged)
    ensures ResolveEach(types, meta, Describe(meta, types[t]).ctors[0], fuel - 1) != Err(Diverged)
    ensures ResolveEach(types, meta, Describe(meta, types[t]).ctors[0], fuel - 1).Ok? && !Describe(meta, t).hasImportCtor ==>
      ResolveProperties(types, meta, PropertiesToInject(meta, t), fuel - 1) != Err(Diverged)
  {
  }

  /** Resolve of a registered type with a constructor is determined by the resolution of
      the constructor's parameters and of the properties to inject. */
  lemma ResolveFromParts(types: TypeMap, meta: Metadata, t: TypeId, fuel: nat, more: nat)
    requires fuel > 0 && more > 0 && t in types && Describe(meta, types[t]).ctors != []
    requires ResolveEach(types, meta, Describe(meta, types[t]).ctors[0], more - 1)
          == ResolveEach(types, meta, Describe(meta, types[t]).ctors[0], fuel - 1)
    requires ResolveEach(types, meta, Describe(meta, types[t]).ctors[0], fuel - 1).Ok? && !Describe(meta, t).hasImportCtor ==>
      ResolveProperties(types, meta, PropertiesToInject(meta, t), more - 1)
        == ResolveProperties(types, meta, PropertiesToInject(meta, t), fuel - 1)
    ensures Resolve(types, meta, t, more) == Resolve(types, meta, t, fuel)
  {
  }

  lemma {:induction false} ResolveEachFuelMonotone(types: TypeMap, meta: Metadata, ts: seq<TypeId>, fuel: nat, more: nat)
    requires fuel <= more
    requires ResolveEach(types, meta, ts, fuel) != Err(Diverged)
    ensures ResolveEach(types, meta, ts, more) == ResolveEach(types, meta, ts, fuel)
    decreases fuel, 1, |ts|
  {
    if ts != [] {
      ResolveFuelMonotone(types, meta, ts[0], fuel, more);
      if Resolve(types, meta, ts[0], fuel).Ok? {
        ResolveEachFuelMonotone(types, meta, ts[1..], fuel, more);
      }
    }
  }

  lemma {:induction false} ResolvePropertiesFuelMonotone(types: TypeMap, meta: Metadata, ps: seq<Property>, fuel: nat, more: nat)
    requires fuel <= more
    requires ResolveProperties(types, meta, ps, fuel) != Err(Diverged)
    ensures ResolveProperties(types, meta, ps, more) == ResolveProperties(types, meta, ps, fuel)
    decreases fuel, 1, |ps|
  {
    if ps != [] {
      ResolveFuelMonotone(types, meta, ps[0].propType, fuel, more);
      if Resolve(types, meta, ps[0].propType, fuel).Ok? {
        ResolvePropertiesFuelMonotone(types, meta, ps[1..], fuel, more);
      }
    }
  }

  /** What Resolve builds within some fuel is no deeper than that fuel. */
  lemma {:induction false} ResolveDepthBound(types: TypeMap, meta: Metadata, t: TypeId, fuel: nat)
    ensures Resolve(types, meta, t, fuel).Ok? ==> Height(Resolve(types, meta, t, fuel).value) <= fuel
    decreases fuel, 0
  {
    if fuel > 0 && t in types {
      var ctors := Describe(meta, types[t]).ctors;
      if ctors != [] {
        var inner := fuel - 1;
        ResolveEachDepthBound(types, meta, ctors[0], inner);
        ResolvePropertiesDepthBound(types, meta, PropertiesToInject(meta, t), inner);
      }
    }
  }

  lemma {:induction false} ResolveEachDepthBound(types: TypeMap, meta: Metadata, ts: seq<TypeId>, fuel: nat)
    ensures ResolveEach(types, meta, ts, fuel).Ok? ==> ArgsHeight(ResolveEach(types, meta, ts, fuel).value) <= fuel
    decreases fuel, 1, |ts|
  {
    if ts != [] {
      ResolveDepthBound(types, meta, ts[0], fuel);
      ResolveEachDepthBound(types, meta, ts[1..], fuel);
      var r := ResolveEach(types, meta, ts, fuel);
      if r.Ok? {
        assert r.value[1..] == ResolveEach(types, meta, ts[1..], fuel).value;
      }
    }
  }

  lemma {:induction false} ResolvePropertiesDepthBound(types: TypeMap, meta: Metadata, ps: seq<Property>, fuel: nat)
    ensures ResolveProperties(types, meta, ps, fuel).Ok? ==> PropsHeight(ResolveProperties(types, meta, ps, fuel).value) <= fuel
    decreases fuel, 1, |ps|
  {
    if ps != [] {
      ResolveDepthBound(types, meta, ps[0].propType, fuel);
      ResolvePropertiesDepthBound(types, meta, ps[1..], fuel);
      var r := ResolveProperties(types, meta, ps, fuel);
      if r.Ok? {
        assert r.value[1..] == ResolveProperties(types, meta, ps[1..], fuel).value;
      }
    }
  }

  /** Resolve succeeds within some fuel exactly when the requested type has a wiring no
      deeper than that fuel, and then it returns that wiring. */
  lemma ResolveSucceedsIffWired(types: TypeMap, meta: Metadata, t: TypeId, fuel: nat)
    ensures Resolve(types, meta, t, fuel).Ok? <==> exists inst :: Wired(types, meta, t, inst) && Height(inst) <= fuel
  {
    ResolveSound(types, meta, t, fuel);
    ResolveDepthBound(types, meta, t, fuel);
    if inst :| Wired(types, meta, t, inst) && Height(inst) <= fuel {
      ResolveComplete(types, meta, t, inst, fuel);
    }
  }

  /** A requested type has at most one wiring: resolution is deterministic. */
  lemma WiredUnique(types: TypeMap, meta: Metadata, t: TypeId, a: Instance, b: Instance)
    requires Wired(types, meta, t, a) && Wired(types, meta, t, b)
    ensures a == b
  {
    var fuel := Max(Height(a), Height(b));
    ResolveComplete(types, meta, t, a, fuel);
    ResolveComplete(types, meta, t, b, fuel);
  }

  // ---------------------------------------------------------------------------
  // Constructor selection and injection mode

  /** The first two checks of a resolution: an unregistered requested type fails with
      NotRegistered naming it, and an implementation without a public constructor
      fails with NoPublicConstructor naming the implementation. */
  lemma ResolveFirstChecks(types: TypeMap, meta: Metadata, t: TypeId, fuel: nat)
    requires fuel > 0
    ensures t !in types ==> Resolve(types, meta, t, fuel) == Err(NotRegistered(t))
    ensures t in types && Describe(meta, types[t]).ctors == [] ==>
      Resolve(types, meta, t, fuel) == Err(NoPublicConstructor(types[t]))
  {
  }

  /** A resolved instance is built with the first public constructor of types[t]: one
      argument per parameter, in order, each an instance of the implementation
      registered for that parameter's type. */
  lemma ResolvedWithFirstConstructor(types: TypeMap, meta: Metadata, t: TypeId, fuel: nat)
    requires Resolve(types, meta, t, fuel).Ok?
    ensures t in types && Describe(meta, types[t]).ctors != []
    ensures var inst := Resolve(types, meta, t, fuel).value; var params := Describe(meta, types[t]).ctors[0];
      && inst.impl == types[t]
      && |inst.args| == |params|
      && forall i :: 0 <= i < |params| ==> params[i] in types && inst.args[i].impl == types[params[i]]
  {
    ResolveSound(types, meta, t, fuel);
    var inst := Resolve(types, meta, t, fuel).value;
    assert WiredArgs(types, meta, Describe(meta, types[t]).ctors[0], inst.args);
  }

  /** The injection mode is chosen by the requested type: with [ImportConstructor] no
      property is assigned; otherwise each [Import] property of the requested type, in
      the order reflection reports them, is assigned an instance of the implementation
      registered for its declared type. */
  lemma ResolvedInjectionMode(types: TypeMap, meta: Metadata, t: TypeId, fuel: nat)
    requires Resolve(types, meta, t, fuel).Ok?
    ensures Describe(meta, t).hasImportCtor ==> Resolve(types, meta, t, fuel).value.props == []
    ensures !Describe(meta, t).hasImportCtor ==>
      var props := Resolve(types, meta, t, fuel).value.props;
      var ps := ImportedProperties(Describe(meta, t).properties);
      && |props| == |ps|
      && forall i :: 0 <= i < |ps| ==>
        && props[i].name == ps[i].name
        && ps[i].propType in types
        && props[i].value.impl == types[ps[i].propType]
  {
    ResolveSound(types, meta, t, fuel);
    var inst := Resolve(types, meta, t, fuel).value;
    if !Describe(meta, t).hasImportCtor {
      assert WiredProps(types, meta, ImportedProperties(Describe(meta, t).properties), inst.props);
    }
  }

  // ---------------------------------------------------------------------------
  // Cycles: no detection, no silent breaking

  /** Every type of s is registered and the first constructor of its implementation
      takes, as its first parameter, a type of s. */
  ghost predicate FirstParameterCycle(types: TypeMap, meta: Metadata, s: set<TypeId>)
  {
    forall t :: t in s ==> CycleStep(types, meta, s, t)
  }

  ghost predicate CycleStep(types: TypeMap, meta: Metadata, s: set<TypeId>, t: TypeId)
  {
    && t in types
    && Describe(meta, types[t]).ctors != []
    && Describe(meta, types[t]).ctors[0] != []
    && Describe(meta, types[t]).ctors[0][0] in s
  }

  /** Resolving a type on such a cycle recurses until the fuel is exhausted, for every
      fuel: the model of the stack overflow the source runs into. */
  lemma {:induction false} FirstParameterCycleDiverges(types: TypeMap, meta: Metadata, s: set<TypeId>, t: TypeId, fuel: nat)
    requires FirstParameterCycle(types, meta, s)
    requires t in s
    ensures Resolve(types, meta, t, fuel) == Err(Diverged)
    decreases fuel
  {
    if fuel > 0 {
      assert CycleStep(types, meta, s, t);
      var next := Describe(meta, types[t]).ctors[0][0];
      var inner := fuel - 1;
      FirstParameterCycleDiverges(types, meta, s, next, inner);
      FirstArgumentFails(types, meta, t, fuel);
    }
  }

  /** A failure resolving the first constructor parameter is the failure of the whole
      resolution: the arguments are resolved before anything else happens. */
  lemma FirstArgumentFails(types: TypeMap, meta: Metadata, t: TypeId, fuel: nat)
    requires fuel > 0 && t in types && Describe(meta, types[t]).ctors != []
    requires Describe(meta, types[t]).ctors[0] != []
    requires Resolve(types, meta, Describe(meta, types[t]).ctors[0][0], fuel - 1).Err?
    ensures Resolve(types, meta, t, fuel)
         == Err(Resolve(types, meta, Describe(meta, types[t]).ctors[0][0], fuel - 1).error)
  {
  }

  /** Every registered type of s whose implementation has a public constructor depends on
      a type of s: through a parameter of that first constructor, or through one of the
      [Import] properties injected into it. */
  ghost predicate DependencyCycle(types: TypeMap, meta: Metadata, s: set<TypeId>)
  {
    forall t :: t in s && t in types && Describe(meta, types[t]).ctors != [] ==>
      || (exists p :: p in Describe(meta, types[t]).ctors[0] && p in s)
      || (exists q :: q in PropertiesToInject(meta, t) && q.propType in s)
  }

  /** No type on a dependency cycle has a wiring, whatever order its dependencies come in. */
  lemma {:induction false} DependencyCycleHasNoWiring(types: TypeMap, meta: Metadata, s: set<TypeId>, t: TypeId, inst: Instance)
    requires DependencyCycle(types, meta, s)
    requires t in s
    ensures !Wired(types, meta, t, inst)
    decreases inst
  {
    if Wired(types, meta, t, inst) {
      var params := Describe(meta, types[t]).ctors[0];
      if p :| p in params && p in s {
        var arg := WiredArgument(types, meta, t, inst, p);
        DependencyCycleHasNoWiring(types, meta, s, p, arg);
      } else {
        var q :| q in PropertiesToInject(meta, t) && q.propType in s;
        var value := WiredProperty(types, meta, t, inst, q);
        assert Injected(q.name, value) in inst.props;
        DependencyCycleHasNoWiring(types, meta, s, q.propType, value);
      }
    }
  }

  /** So resolving a type on a dependency cycle never succeeds, whatever the fuel. */
  lemma DependencyCycleNeverResolves(types: TypeMap, meta: Metadata, s: set<TypeId>, t: TypeId, fuel: nat)
    requires DependencyCycle(types, meta, s)
    requires t in s
    ensures Resolve(types, meta, t, fuel).Err?
  {
    ResolveSound(types, meta, t, fuel);
    if Resolve(types, meta, t, fuel).Ok? {
      DependencyCycleHasNoWiring(types, meta, s, t, Resolve(types, meta, t, fuel).value);
    }
  }

  // ---------------------------------------------------------------------------
  // Transitive dependencies

  /** Resolving t requests d within `depth` levels: d is t, or d is requested by a
      parameter of the first constructor of t's implementation, or by one of the
      properties injected into t. */
  ghost predicate Requests(types: TypeMap, meta: Metadata, t: TypeId, d: TypeId, depth: nat)
    decreases depth
  {
    || t == d
    || (&& depth > 0
        && t in types
        && Describe(meta, types[t]).ctors != []
        && ((exists p :: p in Describe(meta, types[t]).ctors[0] && Requests(types, meta, p, d, depth - 1))
         || (exists q :: q in PropertiesToInject(meta, t) && Requests(types, meta, q.propType, d, depth - 1))))
  }

  /** Every type a wiring requests is registered. */
  lemma {:induction false} WiredRequestsRegistered(types: TypeMap, meta: Metadata, t: TypeId, inst: Instance, d: TypeId, depth: nat)
    requires Wired(types, meta, t, inst)
    requires Requests(types, meta, t, d, depth)
    ensures d in types
    decreases depth
  {
    if t != d {
      var params, rest := Describe(meta, types[t]).ctors[0], depth - 1;
      if p :| p in params && Requests(types, meta, p, d, rest) {
        var arg := WiredArgument(types, meta, t, inst, p);
        WiredRequestsRegistered(types, meta, p, arg, d, rest);
      } else {
        var q :| q in PropertiesToInject(meta, t) && Requests(types, meta, q.propType, d, rest);
        var dependency := q.propType;
        var value := WiredProperty(types, meta, t, inst, q);
        assert Wired(types, meta, dependency, value) && Requests(types, meta, dependency, d, rest);
        WiredRequestsRegistered(types, meta, dependency, value, d, rest);
      }
    }
  }

  /** A wiring holds a wiring of each parameter type of the constructor it uses. */
  lemma WiredArgument(types: TypeMap, meta: Metadata, t: TypeId, inst: Instance, p: TypeId) returns (arg: Instance)
    requires Wired(types, meta, t, inst)
    requires p in Describe(meta, types[t]).ctors[0]
    ensures arg in inst.args && Wired(types, meta, p, arg)
  {
    var params := Describe(meta, types[t]).ctors[0];
    assert WiredArgs(types, meta, params, inst.args);
    var i :| 0 <= i < |params| && params[i] == p;
    arg := inst.args[i];
  }

  /** A wiring holds a wiring of the declared type of each property it injects. */
  lemma WiredProperty(types: TypeMap, meta: Metadata, t: TypeId, inst: Instance, q: Property) returns (value: Instance)
    requires Wired(types, meta, t, inst)
    requires q in PropertiesToInject(meta, t)
    ensures Injected(q.name, value) in inst.props && Wired(types, meta, q.propType, value)
  {
    var ps := PropertiesToInject(meta, t);
    assert WiredProps(types, meta, ps, inst.props);
    var i :| 0 <= i < |ps| && ps[i] == q;
    value := inst.props[i].value;
    assert inst.props[i] == Injected(q.name, value);
  }

  /** Resolving a type fails when it, or any constructor or property dependency it
      requests at any depth, is not registered. */
  lemma UnregisteredDependencyFails(types: TypeMap, meta: Metadata, t: TypeId, d: TypeId, depth: nat, fuel: nat)
    requires Requests(types, meta, t, d, depth)
    requires d !in types
    ensures Resolve(types, meta, t, fuel).Err?
  {
    ResolveSound(types, meta, t, fuel);
    if Resolve(types, meta, t, fuel).Ok? {
      WiredRequestsRegistered(types, meta, t, Resolve(types, meta, t, fuel).value, d, depth);
    }
  }
}
