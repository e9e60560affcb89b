/**
 * The container's test fixtures as concrete metadata, and the three test scenarios
 * (IoCContainerTests/ContainerTests.cs) together with the scan's non-atomic failures,
 * each proved about the model.
 *
 * Logger's declaration is not part of this model; it is assumed to carry [Export]
 * and a public parameterless constructor, which is what the tests that scan the
 * assembly and then resolve CustomerBLL require of it.
 */
module Scenarios {
  import opened Types
  import opened Registry
  import opened Resolver
  import opened IoC

  const CustomerBLL: TypeId := "CustomerBLL"
  const SecondCustomerBLL: TypeId := "SecondCustomerBLL"
  const CustomerDAL: TypeId := "CustomerDAL"
  const ICustomerDAL: TypeId := "ICustomerDAL"
  const Logger: TypeId := "Logger"
  const ContainerTests: TypeId := "ContainerTests"

  /** [ImportConstructor] class CustomerBLL, constructed from (ICustomerDAL, Logger). */
  const CustomerBLLInfo := Descriptor(true, [], [], [[ICustomerDAL, Logger]])

  /** class SecondCustomerBLL with [Import] properties CustomerDAL : ICustomerDAL and
      Logger : Logger, and the implicit parameterless constructor. */
  const SecondCustomerBLLInfo := Descriptor(false,
    [Property("CustomerDAL", ICustomerDAL, true), Property("Logger", Logger, true)], [], [[]])

  /** [Export(typeof(ICustomerDAL))] class CustomerDAL with a parameterless constructor. */
  const CustomerDALInfo := Descriptor(false, [], [Some(ICustomerDAL)], [[]])

  /** [Export] class Logger with a parameterless constructor. */
  const LoggerInfo := Descriptor(false, [], [None], [[]])

  /** The test class: no markers (its container field is not a public property). */
  const ContainerTestsInfo := Descriptor(false, [], [], [[]])

  /** The metadata of the test assembly. The interface ICustomerDAL has no entry: its
      declaration is not part of this model, and it is assumed to carry neither
      [ImportConstructor] nor an [Import] property, nor any [Export]. */
  const Fixtures: Metadata := map[
    CustomerBLL := CustomerBLLInfo,
    SecondCustomerBLL := SecondCustomerBLLInfo,
    CustomerDAL := CustomerDALInfo,
    Logger := LoggerInfo,
    ContainerTests := ContainerTestsInfo]

  /** The types of the test assembly, in one possible reflection order. */
  const AssemblyTypes: seq<TypeId> := [ContainerTests, CustomerBLL, SecondCustomerBLL, CustomerDAL, ICustomerDAL, Logger]

  /** The registry the scan of the test assembly builds. */
  const Scanned: TypeMap := map[
    CustomerBLL := CustomerBLL,
    SecondCustomerBLL := SecondCustomerBLL,
    ICustomerDAL := CustomerDAL,
    Logger := Logger]

  /** Scanning the test assembly registers the two marked classes under themselves,
      CustomerDAL under ICustomerDAL and Logger under itself, and nothing else. */
  lemma AssemblyScan()
    ensures Scan(map[], Fixtures, AssemblyTypes) == Registration(Scanned, Pass)
  {
    AssemblyCalls(Fixtures, AssemblyTypes);
    AssemblyInserts(ScanCalls(Fixtures, AssemblyTypes));
  }

  /** The Add calls of the scan all succeed and build the Scanned registry. */
  lemma AssemblyInserts(calls: seq<Call>)
    requires calls == [(CustomerBLL, CustomerBLL), (SecondCustomerBLL, SecondCustomerBLL), (ICustomerDAL, CustomerDAL), (Logger, Logger)]
    ensures InsertAll(map[], calls) == Registration(Scanned, Pass)
  {
    var m1 := map[CustomerBLL := CustomerBLL];
    var m2 := m1[SecondCustomerBLL := SecondCustomerBLL];
    var m3 := m2[ICustomerDAL := CustomerDAL];
    InsertAllCons(map[], calls);
    InsertAllCons(m1, calls[1..]);
    InsertAllCons(m2, calls[1..][1..]);
    InsertAllCons(m3, calls[1..][1..][1..]);
    assert calls[1..][1..][1..][1..] == [];
    assert m3[Logger := Logger] == Scanned;
  }

  /** One step of a run of Add calls. */
  lemma InsertAllCons(types: TypeMap, calls: seq<Call>)
    requires calls != []
    ensures InsertAll(types, calls)
         == if calls[0].0 in types then Registration(types, Fail(DuplicateKey(calls[0].0)))
            else InsertAll(types[calls[0].0 := calls[0].1], calls[1..])
  {
  }

  /** The Add calls the scan of the test assembly makes, in order. */
  lemma AssemblyCalls(meta: Metadata, candidates: seq<TypeId>)
    requires meta == Fixtures && candidates == AssemblyTypes
    ensures ScanCalls(meta, candidates)
         == [(CustomerBLL, CustomerBLL), (SecondCustomerBLL, SecondCustomerBLL), (ICustomerDAL, CustomerDAL), (Logger, Logger)]
  {
    var first, second := candidates[..3], candidates[3..];
    LeadingCalls(meta, first);
    TrailingCalls(meta, second);
    SplitAtIndex(candidates, 3);
    ScanCallsAppend(meta, first, second);
    JoinTwoPairs((CustomerBLL, CustomerBLL), (SecondCustomerBLL, SecondCustomerBLL), (ICustomerDAL, CustomerDAL), (Logger, Logger));
  }

  lemma SplitAtIndex<T>(s: seq<T>, k: nat)
    requires k <= |s|
    ensures s == s[..k] + s[k..]
  {
  }

  lemma JoinTwoPairs<T>(a: T, b: T, c: T, d: T)
    ensures [a, b] + [c, d] == [a, b, c, d]
  {
  }

  /** The calls for the first three types of the test assembly. */
  lemma LeadingCalls(meta: Metadata, three: seq<TypeId>)
    requires meta == Fixtures && three == [ContainerTests, CustomerBLL, SecondCustomerBLL]
    ensures ScanCalls(meta, three) == [(CustomerBLL, CustomerBLL), (SecondCustomerBLL, SecondCustomerBLL)]
  {
    LeadingFixtureCalls(meta);
    ScanThree(meta, ContainerTests, CustomerBLL, SecondCustomerBLL);
  }

  /** The calls for the last three types of the test assembly. */
  lemma TrailingCalls(meta: Metadata, three: seq<TypeId>)
    requires meta == Fixtures && three == [CustomerDAL, ICustomerDAL, Logger]
    ensures ScanCalls(meta, three) == [(ICustomerDAL, CustomerDAL), (Logger, Logger)]
  {
    TrailingFixtureCalls(meta);
    ScanThree(meta, CustomerDAL, ICustomerDAL, Logger);
  }

  /** The Add calls the scan makes for the test class and the two customer classes. */
  lemma LeadingFixtureCalls(meta: Metadata)
    requires meta == Fixtures
    ensures CandidateCalls(meta, ContainerTests) == []
    ensures CandidateCalls(meta, CustomerBLL) == [(CustomerBLL, CustomerBLL)]
    ensures CandidateCalls(meta, SecondCustomerBLL) == [(SecondCustomerBLL, SecondCustomerBLL)]
  {
    assert !HasImportProperties(ContainerTestsInfo);
    CandidateCallsEmpty(meta, ContainerTests);
    MarkerOnly(meta, CustomerBLL);
    var d := SecondCustomerBLLInfo;
    assert d.properties[0] in d.properties;
    MarkerOnly(meta, SecondCustomerBLL);
  }

  /** The calls of a class that carries [ImportConstructor] or an [Import] property and
      no [Export]. */
  lemma MarkerOnly(meta: Metadata, c: TypeId)
    requires c in meta && HasInjectionMarker(meta[c]) && meta[c].exports == []
    ensures CandidateCalls(meta, c) == [(c, c)]
  {
    assert ExportCalls(c, []) == [];
  }

  /** The Add calls the scan makes for CustomerDAL, its interface and Logger. */
  lemma TrailingFixtureCalls(meta: Metadata)
    requires meta == Fixtures
    ensures CandidateCalls(meta, CustomerDAL) == [(ICustomerDAL, CustomerDAL)]
    ensures CandidateCalls(meta, ICustomerDAL) == []
    ensures CandidateCalls(meta, Logger) == [(Logger, Logger)]
  {
    ExportOnly(meta, CustomerDAL, ICustomerDAL);
    assert ExportCalls(Logger, [None]) == [(Logger, Logger)];
  }

  /** The object graph the tests expect for CustomerDAL and for Logger. */
  const DALNode := Node(CustomerDAL, [], [])
  const LoggerNode := Node(Logger, [], [])

  /** The registrations the resolution of either customer class needs. */
  predicate ProvidesDependencies(types: TypeMap)
  {
    && ICustomerDAL in types && types[ICustomerDAL] == CustomerDAL
    && Logger in types && types[Logger] == Logger
  }

  /** With ICustomerDAL and Logger registered, both resolve to leaf instances. */
  lemma DependenciesResolve(types: TypeMap, fuel: nat)
    requires ProvidesDependencies(types)
    requires fuel >= 1
    ensures Resolve(types, Fixtures, ICustomerDAL, fuel) == Ok(DALNode)
    ensures Resolve(types, Fixtures, Logger, fuel) == Ok(LoggerNode)
  {
    assert ResolveEach(types, Fixtures, [], fuel - 1) == Ok([]);
    assert ResolveProperties(types, Fixtures, [], fuel - 1) == Ok([]);
    assert PropertiesToInject(Fixtures, Logger) == [];
  }

  /** CustomerBLL is built from a CustomerDAL and a Logger, with no property assigned. */
  lemma CustomerBLLResolves(types: TypeMap)
    requires ProvidesDependencies(types)
    requires CustomerBLL in types && types[CustomerBLL] == CustomerBLL
    ensures Resolve(types, Fixtures, CustomerBLL, 3) == Ok(Node(CustomerBLL, [DALNode, LoggerNode], []))
  {
    DependenciesResolve(types, 2);
    EachCons(types, Fixtures, Logger, [], 2, LoggerNode, []);
    assert [Logger] + [] == [Logger] && [LoggerNode] + [] == [LoggerNode];
    EachCons(types, Fixtures, ICustomerDAL, [Logger], 2, DALNode, [LoggerNode]);
    assert [ICustomerDAL] + [Logger] == [ICustomerDAL, Logger];
    assert [DALNode] + [LoggerNode] == [DALNode, LoggerNode];
  }

  lemma EachCons(types: TypeMap, meta: Metadata, t: TypeId, rest: seq<TypeId>, fuel: nat, x: Instance, xs: seq<Instance>)
    requires Resolve(types, meta, t, fuel) == Ok(x)
    requires ResolveEach(types, meta, rest, fuel) == Ok(xs)
    ensures ResolveEach(types, meta, [t] + rest, fuel) == Ok([x] + xs)
  {
    assert ([t] + rest)[0] == t && ([t] + rest)[1..] == rest;
  }

  lemma PropertiesCons(types: TypeMap, meta: Metadata, p: Property, rest: seq<Property>, fuel: nat, x: Instance, xs: seq<Injected>)
    requires Resolve(types, meta, p.propType, fuel) == Ok(x)
    requires ResolveProperties(types, meta, rest, fuel) == Ok(xs)
    ensures ResolveProperties(types, meta, [p] + rest, fuel) == Ok([Injected(p.name, x)] + xs)
  {
    assert ([p] + rest)[0] == p && ([p] + rest)[1..] == rest;
  }

  /** SecondCustomerBLL is built by its parameterless constructor and both [Import]
      properties are set, in the order the fixture lists them. */
  lemma SecondCustomerBLLResolves(types: TypeMap)
    requires ProvidesDependencies(types)
    requires SecondCustomerBLL in types && types[SecondCustomerBLL] == SecondCustomerBLL
    ensures Resolve(types, Fixtures, SecondCustomerBLL, 3)
         == Ok(Node(SecondCustomerBLL, [], [Injected("CustomerDAL", DALNode), Injected("Logger", LoggerNode)]))
  {
    DependenciesResolve(types, 2);
    var ps := SecondCustomerBLLInfo.properties;
    assert ImportedProperties(ps[1..][1..]) == [];
    assert ImportedProperties(ps) == ps;
    PropertiesCons(types, Fixtures, ps[1], [], 2, LoggerNode, []);
    assert [ps[1]] + [] == [ps[1]];
    assert [Injected("Logger", LoggerNode)] + [] == [Injected("Logger", LoggerNode)];
    PropertiesCons(types, Fixtures, ps[0], [ps[1]], 2, DALNode, [Injected("Logger", LoggerNode)]);
    assert [ps[0]] + [ps[1]] == ps;
    assert [Injected("CustomerDAL", DALNode)] + [Injected("Logger", LoggerNode)]
        == [Injected("CustomerDAL", DALNode), Injected("Logger", LoggerNode)];
    assert ResolveEach(types, Fixtures, [], 2) == Ok([]);
  }

  /** Constructor dependencies, as the first test has them: after the scan, CustomerBLL
      is built by its constructor from a CustomerDAL and a Logger, and no property
      is assigned. */
  method ConstructorDependencies() returns (r: Result<Instance>)
    ensures r == Ok(Node(CustomerBLL, [DALNode, LoggerNode], []))
  {
    var container := new Container();
    var outcome := container.AddAssembly(Fixtures, AssemblyTypes);
    AssemblyScan();
    CustomerBLLResolves(container.types);
    r := container.CreateInstance(Fixtures, CustomerBLL, 3);
  }

  /** Property dependencies after the scan, as the second test has them. */
  method PropertyDependenciesByScan() returns (r: Result<Instance>)
    ensures r == Ok(Node(SecondCustomerBLL, [], [Injected("CustomerDAL", DALNode), Injected("Logger", LoggerNode)]))
  {
    var container := new Container();
    var outcome := container.AddAssembly(Fixtures, AssemblyTypes);
    AssemblyScan();
    SecondCustomerBLLResolves(container.types);
    r := container.CreateInstance(Fixtures, SecondCustomerBLL, 3);
  }

  /** Property dependencies after explicit registrations, as the third test has them:
      the CustomerDAL property holds a CustomerDAL and the Logger property a Logger. */
  method PropertyDependenciesByAddType() returns (r: Result<Instance>)
    ensures r == Ok(Node(SecondCustomerBLL, [], [Injected("CustomerDAL", DALNode), Injected("Logger", LoggerNode)]))
  {
    var container := new Container();
    var o1 := container.AddType(SecondCustomerBLL);
    var o2 := container.AddType(Logger);
    var o3 := container.AddTypeAs(ICustomerDAL, CustomerDAL);
    SecondCustomerBLLResolves(container.types);
    r := container.CreateInstance(Fixtures, SecondCustomerBLL, 3);
  }

  /** Without the ICustomerDAL registration the same request fails, naming the missing
      property dependency. */
  method MissingPropertyDependency() returns (r: Result<Instance>)
    ensures r == Err(NotRegistered(ICustomerDAL))
  {
    var container := new Container();
    var o1 := container.AddType(SecondCustomerBLL);
    var o2 := container.AddType(Logger);
    var ps := SecondCustomerBLLInfo.properties;
    assert ImportedProperties(ps[1..][1..]) == [];
    assert PropertiesToInject(Fixtures, SecondCustomerBLL) == ps;
    assert ResolveEach(container.types, Fixtures, [], 2) == Ok([]);
    assert ResolveProperties(container.types, Fixtures, ps, 2) == Err(NotRegistered(ICustomerDAL));
    r := container.CreateInstance(Fixtures, SecondCustomerBLL, 3);
  }

  // ---------------------------------------------------------------------------
  // The scan is not atomic

  const Both: TypeId := "Both"
  const OtherDAL: TypeId := "OtherDAL"

  /** Fixtures with a class that carries [ImportConstructor] and a typeless [Export],
      and a second class exported as ICustomerDAL. */
  const Clashing: Metadata := map[
    CustomerDAL := CustomerDALInfo,
    Logger := LoggerInfo,
    Both := Descriptor(true, [], [None], [[]]),
    OtherDAL := Descriptor(false, [], [Some(ICustomerDAL)], [[]])]

  /** A class that qualifies by its marker and also carries a typeless [Export] is added
      twice: the second Add fails, the entries made before it stay, and the types after
      it are never scanned. */
  lemma MarkerAndExportClash()
    ensures Scan(map[], Clashing, [CustomerDAL, Both, Logger])
         == Registration(map[ICustomerDAL := CustomerDAL, Both := Both], Fail(DuplicateKey(Both)))
  {
    var dal, both := (ICustomerDAL, CustomerDAL), (Both, Both);
    ExportOnly(Clashing, CustomerDAL, ICustomerDAL);
    assert CandidateCalls(Clashing, Both) == [both, both] by {
      assert ExportCalls(Both, [None]) == [both];
    }
    ScanThree(Clashing, CustomerDAL, Both, Logger);
    var calls := [dal] + [both, both] + CandidateCalls(Clashing, Logger);
    var m := map[ICustomerDAL := CustomerDAL];
    InsertAllCons(map[], calls);
    InsertAllCons(m, calls[1..]);
    InsertAllCons(m[Both := Both], calls[1..][1..]);
  }

  /** Two classes exporting the same interface: the second Add fails and the first
      class stays registered for it. */
  lemma DuplicateExport()
    ensures Scan(map[], Clashing, [CustomerDAL, OtherDAL, Logger])
         == Registration(map[ICustomerDAL := CustomerDAL], Fail(DuplicateKey(ICustomerDAL)))
  {
    var dal, other := (ICustomerDAL, CustomerDAL), (ICustomerDAL, OtherDAL);
    ExportOnly(Clashing, CustomerDAL, ICustomerDAL);
    ExportOnly(Clashing, OtherDAL, ICustomerDAL);
    ScanThree(Clashing, CustomerDAL, OtherDAL, Logger);
    var calls := [dal] + [other] + CandidateCalls(Clashing, Logger);
    InsertAllCons(map[], calls);
    InsertAllCons(map[ICustomerDAL := CustomerDAL], calls[1..]);
  }

  /** The calls of a class whose only marker is [Export(typeof(i))]. */
  lemma ExportOnly(meta: Metadata, c: TypeId, i: TypeId)
    requires c in meta && !HasInjectionMarker(meta[c]) && meta[c].exports == [Some(i)]
    ensures CandidateCalls(meta, c) == [(i, c)]
  {
    assert ExportCalls(c, [Some(i)]) == [(i, c)];
  }

  /** The scan of three candidates makes their calls one after the other. */
  lemma ScanThree(meta: Metadata, a: TypeId, b: TypeId, c: TypeId)
    ensures ScanCalls(meta, [a, b, c]) == CandidateCalls(meta, a) + CandidateCalls(meta, b) + CandidateCalls(meta, c)
  {
    var last, tail := [c], [b, c];
    assert last == [c] + [] && tail == [b] + last && [a, b, c] == [a] + tail;
    ScanCallsCons(meta, c, []);
    ScanCallsCons(meta, b, last);
    ScanCallsCons(meta, a, tail);
    assert ScanCalls(meta, []) == [];
    Regroup3(CandidateCalls(meta, a), CandidateCalls(meta, b), CandidateCalls(meta, c));
  }
}
