/**
 * The recursive resolution of CreateInstanceWithDependencies, with GetConstructor,
 * ResolveConstructor and ResolveProperties, as pure functions over the registry.
 *
 * Construction (Activator.CreateInstance) builds a Node that records the concrete
 * type and the constructor arguments; property assignment (PropertyInfo.SetValue)
 * is recorded in the node's list of injected properties. The source has no cycle
 * detection and overflows its stack on a cycle; here every resolution carries a
 * fuel bound and reports Diverged when the bound is reached.
 */
module Resolver {
  import opened Types
  import opened Registry

  /** An object built by the container: its concrete type, the instances passed to
      its constructor, and the properties assigned after construction. */
  datatype Instance = Node(impl: TypeId, args: seq<Instance>, props: seq<Injected>)

  /** One property assignment: the property's name and the instance assigned to it. */
  datatype Injected = Injected(name: PropId, value: Instance)

  /** GetConstructor: the parameter types of the first public constructor, or the
      failure raised when the type has none. */
  function FirstConstructor(meta: Metadata, impl: TypeId): (r: Result<seq<TypeId>>)
    ensures r.Err? <==> Describe(meta, impl).ctors == []
    ensures r.Err? ==> r.error == NoPublicConstructor(impl)
    ensures r.Ok? ==> r.value == Describe(meta, impl).ctors[0]
  {
    var ctors := Describe(meta, impl).ctors;
    if ctors == [] then Err(NoPublicConstructor(impl)) else Ok(ctors[0])
  }

  /** The properties CreateInstanceWithDependencies injects into an instance of the
      requested type t: none when t carries [ImportConstructor], otherwise its
      [Import] properties in the order reflection reports them. */
  function PropertiesToInject(meta: Metadata, t: TypeId): (ps: seq<Property>)
    ensures Describe(meta, t).hasImportCtor ==> ps == []
    ensures !Describe(meta, t).hasImportCtor ==>
      forall p :: p in ps <==> p in Describe(meta, t).properties && p.hasImport
  {
    var d := Describe(meta, t);
    if d.hasImportCtor then [] else ImportedProperties(d.properties)
  }

  /** CreateInstanceWithDependencies(t), given `fuel` more levels of recursion. */
  function Resolve(types: TypeMap, meta: Metadata, t: TypeId, fuel: nat): (r: Result<Instance>)
    ensures r.Ok? ==> t in types && r.value.impl == types[t]
    decreases fuel, 0
  {
    if fuel == 0 then Err(Diverged)
    else if t !in types then Err(NotRegistered(t))
    else
      var impl := types[t];
      var ctor := FirstConstructor(meta, impl);
      if ctor.Err? then Err(ctor.error)
      else
        var args := ResolveEach(types, meta, ctor.value, fuel - 1);
        if args.Err? then Err(args.error)
        else if Describe(meta, t).hasImportCtor then Ok(Node(impl, args.value, []))
        else
          var props := ResolveProperties(types, meta, PropertiesToInject(meta, t), fuel - 1);
          if props.Err? then Err(props.error)
          else Ok(Node(impl, args.value, props.value))
  }

  /** ResolveConstructor's argument list: each parameter type resolved in order; the
      first failure ends the list. */
  function ResolveEach(types: TypeMap, meta: Metadata, ts: seq<TypeId>, fuel: nat): (r: Result<seq<Instance>>)
    ensures r.Ok? ==> |r.value| == |ts|
    decreases fuel, 1, |ts|
  {
    if ts == [] then Ok([])
    else
      var first := Resolve(types, meta, ts[0], fuel);
      if first.Err? then Err(first.error)
      else
        var rest := ResolveEach(types, meta, ts[1..], fuel);
        if rest.Err? then Err(rest.error)
        else Ok([first.value] + rest.value)
  }

  /** ResolveProperties' loop: each property's declared type resolved in order and
      assigned; the first failure ends the loop. */
  function ResolveProperties(types: TypeMap, meta: Metadata, ps: seq<Property>, fuel: nat): (r: Result<seq<Injected>>)
    ensures r.Ok? ==> |r.value| == |ps|
    decreases fuel, 1, |ps|
  {
    if ps == [] then Ok([])
    else
      var value := Resolve(types, meta, ps[0].propType, fuel);
      if value.Err? then Err(value.error)
      else
        var rest := ResolveProperties(types, meta, ps[1..], fuel);
        if rest.Err? then Err(rest.error)
        else Ok([Injected(ps[0].name, value.value)] + rest.value)
  }

  /** The failures resolution can report: a requested type that is not registered, an
      implementation type without a public constructor, or exhausted fuel; never the
      registry's duplicate-key failure. */
  ghost predicate ResolutionError(types: TypeMap, meta: Metadata, e: ContainerError)
  {
    match e
    case NotRegistered(requested) => requested !in types
    case NoPublicConstructor(impl) => impl in types.Values && Describe(meta, impl).ctors == []
    case Diverged => true
    case DuplicateKey(_) => false
  }

  /** Every failure of a resolution, at any depth, is one of the ResolutionError kinds:
      an unregistered dependency surfaces as NotRegistered naming that dependency. */
  lemma {:induction false} ResolveErrorKinds(types: TypeMap, meta: Metadata, t: TypeId, fuel: nat)
    ensures Resolve(types, meta, t, fuel).Err? ==> ResolutionError(types, meta, Resolve(types, meta, t, fuel).error)
    decreases fuel, 0
  {
    if fuel > 0 && t in types && Describe(meta, types[t]).ctors != [] {
      var inner := fuel - 1;
      ResolveEachErrorKinds(types, meta, Describe(meta, types[t]).ctors[0], inner);
      ResolvePropertiesErrorKinds(types, meta, PropertiesToInject(meta, t), inner);
    }
  }

  lemma {:induction false} ResolveEachErrorKinds(types: TypeMap, meta: Metadata, ts: seq<TypeId>, fuel: nat)
    ensures ResolveEach(types, meta, ts, fuel).Err? ==> ResolutionError(types, meta, ResolveEach(types, meta, ts, fuel).error)
    decreases fuel, 1, |ts|
  {
    if ts != [] {
      ResolveErrorKinds(types, meta, ts[0], fuel);
      ResolveEachErrorKinds(types, meta, ts[1..], fuel);
    }
  }

  lemma {:induction false} ResolvePropertiesErrorKinds(types: TypeMap, meta: Metadata, ps: seq<Property>, fuel: nat)
    ensures ResolveProperties(types, meta, ps, fuel).Err? ==>
      ResolutionError(types, meta, ResolveProperties(types, meta, ps, fuel).error)
    decreases fuel, 1, |ps|
  {
    if ps != [] {
      ResolveErrorKinds(types, meta, ps[0].propType, fuel);
      ResolvePropertiesErrorKinds(types, meta, ps[1..], fuel);
    }
  }
}
