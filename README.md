# IoC container: a verified model

This project models the dependency-injection container of `IoCContainer/IoCContainer/Container.cs`.

The container keeps a registry, `types`, that maps a requested type to the type that implements it. It has two ways to fill the registry:
- explicit registrations, `AddType(T)` and `AddType(Base, Impl)`;
- an assembly scan, `AddAssembly`, which follows the `[ImportConstructor]`, `[Import]` and `[Export]` attributes.

`CreateInstance` then builds an object graph recursively:
1. It looks up the requested type and takes the implementation's first public constructor.
2. It resolves every constructor parameter.
3. When the requested type lacks `[ImportConstructor]`, it also resolves and assigns every `[Import]` property.

Reflection is replaced by data. A type is an opaque name (`TypeId`). A `Descriptor` per type records:
- whether it carries `[ImportConstructor]`;
- its public properties, each with its declared type and an `[Import]` flag;
- its `[Export]` markers, each with an optional explicit type;
- the parameter types of each public constructor, in reflection order.

A type with no descriptor is treated as an interface: no markers and no public constructor.

The model has six modules:

| module | file | content |
|---|---|---|
| `Types` | `types.dfy` | type names, descriptors, errors, and the `[Import]` filter with `HasImportProperties` |
| `Registry` | `registry.dfy` | `Dictionary.Add` as a function; a run of Adds that stops at the first failure; the calls `AddAssembly` makes, and their properties |
| `IoC` | `container.dfy` | class `Container`: the `types` map field, registration methods that update it in place, and `CreateInstance` |
| `Resolver` | `resolver.dfy` | `CreateInstanceWithDependencies`, `ResolveConstructor` and `ResolveProperties` as three mutually recursive pure functions with fuel (`Resolve`, `ResolveEach`, `ResolveProperties`), with `GetConstructor` as `FirstConstructor` and the injection choice as `PropertiesToInject` |
| `Wiring` | `wiring.dfy` | a resolver-free definition of a correctly wired object graph, plus soundness, completeness, fuel and cycle theorems |
| `Scenarios` | `scenarios.dfy` | the test fixtures as metadata, the three container tests, and the scan's non-atomic failures |

**Errors.** The container's exceptions become a `ContainerError`:
- `DuplicateKey`: the `ArgumentException` of `Dictionary.Add`;
- `NotRegistered`: "Dependency is not provided";
- `NoPublicConstructor`: "There are no public constructors".

**Fuel and cycles.** The source has no cycle detection, so a dependency cycle recurses until the stack overflows. Here every resolution carries a `fuel` bound, and exhausting it yields the fourth error, `Diverged`. No cycle is broken silently:
- a dependency cycle, through constructor parameters or injected `[Import]` properties, never resolves, whatever the fuel;
- extra fuel never changes a result that did not diverge;
- a success with fuel `n` builds a graph of depth at most `n`.

## Model

| member | source | states |
|---|---|---|
| IoC.Container.constructor | IoCContainer/IoCContainer/Container.cs:19-22 | a new container has an empty registry |
| IoC.Container.AddType | IoCContainer/IoCContainer/Container.cs:28-31 | if T is absent, adds exactly T -> T and nothing else changes; if present, fails with DuplicateKey(T) and leaves the registry unchanged |
| IoC.Container.AddTypeAs | IoCContainer/IoCContainer/Container.cs:38-41 | if Base is absent, adds exactly Base -> Impl; if present, fails with DuplicateKey(Base) and leaves the registry unchanged |
| IoC.Container.AddAssembly | IoCContainer/IoCContainer/Container.cs:47-72 | the new registry and outcome are exactly those of the pure Scan over the candidates, in order, stopping at the first failure with earlier entries kept |
| IoC.Container.AddCandidate | IoCContainer/IoCContainer/Container.cs:52-70 | one candidate's registrations (marker test, then one Add per [Export]) equal the run of CandidateCalls on the old registry |
| IoC.Container.CreateInstance | IoCContainer/IoCContainer/Container.cs:79-82 | returns the resolution of the requested type against the current registry; on success the instance's type is types[t] |
| Registry.Insert | IoCContainer/IoCContainer/Container.cs:38-41 | Dictionary.Add: succeeds iff the key is absent; on failure, DuplicateKey and no change; on success, the keys grow by exactly the key, mapped to impl; no entry is overwritten |
| Registry.InsertAll | IoCContainer/IoCContainer/Container.cs:50-70 | a run of Adds with no handler never loses a key; when it fails, the failure is DuplicateKey of a key present in the registry it leaves |
| Registry.InsertAllOnlyAdds | IoCContainer/IoCContainer/Container.cs:50-70 | a run of registrations never removes or overwrites an entry; every new entry comes from one of its calls; its only failure is DuplicateKey |
| Registry.InsertAllAppend | IoCContainer/IoCContainer/Container.cs:50-70 | running two batches one after the other is running their concatenation; a failure skips the second batch |
| Registry.FailedRunIgnoresRest | IoCContainer/IoCContainer/Container.cs:54-57 | once a registration has thrown, no later call has any effect |
| Registry.InsertableStep | IoCContainer/IoCContainer/Container.cs:50-70 | a batch can all succeed iff its first key is absent and the rest can succeed after it is added |
| Registry.InsertAllSucceeds | IoCContainer/IoCContainer/Container.cs:50-70 | a run succeeds iff no key is present already and no key repeats |
| Registry.InsertAllRegistersEach | IoCContainer/IoCContainer/Container.cs:50-70 | after a successful run, every call's key maps to the call's implementation |
| Registry.InsertAllStopsAtDuplicate | IoCContainer/IoCContainer/Container.cs:54-57 | a failed run stopped at a call whose key was present; the registry it leaves is the successful run over the calls before it (not atomic) |
| Registry.ExportKey | IoCContainer/IoCContainer/Container.cs:62-68 | an [Export] registers under the class itself or under the type it names, and always under that type when it names one |
| Registry.MarkerCalls | IoCContainer/IoCContainer/Container.cs:52-57 | the marker test makes at most one Add, T -> T, and makes it exactly when T carries [ImportConstructor] or an [Import] property |
| Registry.ExportCalls | IoCContainer/IoCContainer/Container.cs:59-69 | one Add per [Export], in order: the explicit type, or the class itself, mapped to the class |
| Registry.CandidateCalls | IoCContainer/IoCContainer/Container.cs:52-70 | one candidate makes at most one Add per [Export] plus one self-registration |
| Registry.ScanCalls | IoCContainer/IoCContainer/Container.cs:50-71 | the scan's Adds begin with all of the first candidate's Adds: candidates are handled one after another |
| Registry.Scan | IoCContainer/IoCContainer/Container.cs:47-72 | a scan never loses a key registered before it, and its only failure is DuplicateKey |
| Registry.ScanCallsAppend | IoCContainer/IoCContainer/Container.cs:50-71 | scanning a + b makes a's calls and then b's |
| Registry.ScanCallsSplit | IoCContainer/IoCContainer/Container.cs:50-71 | a scan's calls split at any candidate into those before, that candidate's, and those after |
| Registry.ScanCallsPrefix | IoCContainer/IoCContainer/Container.cs:50-71 | the calls for the first i+1 candidates are those for the first i, then candidate i's |
| Registry.InsertAllThenInsert | IoCContainer/IoCContainer/Container.cs:50-70 | extending a successful run by one call is one more Dictionary.Add |
| Registry.CandidateMarkerStep | IoCContainer/IoCContainer/Container.cs:52-57 | the marker test registers T -> T exactly when T has [ImportConstructor] or an [Import] property |
| Registry.CandidateExportStep | IoCContainer/IoCContainer/Container.cs:59-69 | after the first j exports, export j makes the next Add, keyed by ExportKey |
| Registry.ScanStep | IoCContainer/IoCContainer/Container.cs:50-71 | one candidate extends the scan of the candidates before it; a failure there is the result of the whole scan |
| Registry.CandidateCallsEmpty | IoCContainer/IoCContainer/Container.cs:52-69 | a candidate makes no Add iff it has no [ImportConstructor], no [Import] property and no [Export] |
| Registry.CandidateCallsShape | IoCContainer/IoCContainer/Container.cs:52-69 | every Add made for a candidate maps the candidate itself or a type one of its [Export]s names to the candidate |
| Registry.ScanCallsFromMarkedCandidates | IoCContainer/IoCContainer/Container.cs:50-70 | every Add of the scan registers a marked, scanned candidate under itself or an exported type |
| Registry.ScanSkipsUnmarked | IoCContainer/IoCContainer/Container.cs:50-70 | a candidate without markers never becomes a new entry's implementation, and gains no key unless another candidate exports it |
| Registry.CandidateCallsInclude | IoCContainer/IoCContainer/Container.cs:52-69 | a candidate asks for one Add per [Export] keyed by ExportKey, and a self Add when marked |
| Registry.ScanCallsIncludeCandidate | IoCContainer/IoCContainer/Container.cs:50-71 | the scan makes every call each of its candidates asks for |
| Registry.ScanRegistersExports | IoCContainer/IoCContainer/Container.cs:59-69 | after a completed scan, [Export(I)] on C gives I -> C, [Export] on C gives C -> C, and a marker gives C -> C |
| Types.ImportedProperties | IoCContainer/IoCContainer/Container.cs:179 | keeps exactly the properties that carry [Import], and no more of them than there are properties |
| Types.ImportedPropertiesAppend | IoCContainer/IoCContainer/Container.cs:179 | the [Import] filter keeps the order of the properties: filtering a concatenation filters each part |
| Types.HasImportProperties | IoCContainer/IoCContainer/Container.cs:102-107 | true iff some property of the type carries [Import] |
| Types.Describe | IoCContainer/IoCContainer/Container.cs:52-179 | the reflected metadata of a type, standing for every reflection query of the container (the attribute queries at lines 52, 59, 105 and 130, GetConstructors at 147, GetProperties at 179); a type the metadata does not list (an interface) has no marker, no [Import] property, no [Export] and no public constructor |
| Resolver.FirstConstructor | IoCContainer/IoCContainer/Container.cs:145-155 | fails with NoPublicConstructor(impl) iff there is no public constructor; otherwise the first one |
| Resolver.Resolve | IoCContainer/IoCContainer/Container.cs:119-137 | a success means the requested type is registered and the instance's type is types[t] |
| Resolver.PropertiesToInject | IoCContainer/IoCContainer/Container.cs:130-135 | no property when the requested type carries [ImportConstructor]; otherwise exactly the requested type's [Import] properties |
| Resolver.ResolveEach | IoCContainer/IoCContainer/Container.cs:163-170 | on success, exactly one argument per constructor parameter (their types: Wiring.ResolvedWithFirstConstructor) |
| Resolver.ResolveProperties | IoCContainer/IoCContainer/Container.cs:177-185 | on success, exactly one assignment per [Import] property (their names and types: Wiring.ResolvedInjectionMode) |
| Resolver.ResolveErrorKinds | IoCContainer/IoCContainer/Container.cs:121-124 | every failure, at any depth, is an unregistered type, a registered implementation without a public constructor, or exhausted fuel; never DuplicateKey |
| Resolver.ResolveEachErrorKinds | IoCContainer/IoCContainer/Container.cs:163-170 | the same for a constructor's argument list |
| Resolver.ResolvePropertiesErrorKinds | IoCContainer/IoCContainer/Container.cs:177-185 | the same for the injected properties |
| Wiring.ResolveSound | IoCContainer/IoCContainer/Container.cs:119-137 | every instance Resolve returns is a correct wiring of the requested type |
| Wiring.ResolveEachSound | IoCContainer/IoCContainer/Container.cs:163-170 | resolved arguments wire the parameter types one by one, in order |
| Wiring.ResolvePropertiesSound | IoCContainer/IoCContainer/Container.cs:177-185 | resolved properties have the [Import] properties' names, in order, and values that wire their declared types |
| Wiring.ResolveComplete | IoCContainer/IoCContainer/Container.cs:119-137 | every correct wiring is what Resolve returns, given fuel at least its depth |
| Wiring.ResolveEachComplete | IoCContainer/IoCContainer/Container.cs:163-170 | the same for argument lists |
| Wiring.ResolvePropertiesComplete | IoCContainer/IoCContainer/Container.cs:177-185 | the same for property lists |
| Wiring.ResolveFuelMonotone | IoCContainer/IoCContainer/Container.cs:119-137 | a result that did not diverge stays the same with more fuel |
| Wiring.ResolveEachFuelMonotone | IoCContainer/IoCContainer/Container.cs:163-170 | fuel monotonicity for argument lists |
| Wiring.ResolvePropertiesFuelMonotone | IoCContainer/IoCContainer/Container.cs:177-185 | fuel monotonicity for property lists |
| Wiring.ResolveDepthBound | IoCContainer/IoCContainer/Container.cs:119-137 | a success with fuel n builds a graph at most n deep |
| Wiring.ResolveEachDepthBound | IoCContainer/IoCContainer/Container.cs:163-170 | the depth bound for argument lists |
| Wiring.ResolvePropertiesDepthBound | IoCContainer/IoCContainer/Container.cs:177-185 | the depth bound for property lists |
| Wiring.ResolveSucceedsIffWired | IoCContainer/IoCContainer/Container.cs:119-137 | resolution succeeds iff a wiring exists whose depth fits the fuel |
| Wiring.WiredUnique | IoCContainer/IoCContainer/Container.cs:119-137 | a type has at most one wiring, so resolution is deterministic |
| Wiring.ResolveFirstChecks | IoCContainer/IoCContainer/Container.cs:121-127 | with fuel left, an unregistered type fails with NotRegistered(t), and an implementation without a public constructor with NoPublicConstructor(impl) |
| Wiring.ResolvedWithFirstConstructor | IoCContainer/IoCContainer/Container.cs:126-129 | a success uses the first public constructor: one argument per parameter, in order, each an instance of types[parameter] |
| Wiring.ResolvedInjectionMode | IoCContainer/IoCContainer/Container.cs:130-135 | a requested type with [ImportConstructor] gets no property; otherwise exactly its [Import] properties, in the order reflection reports them, each an instance of types[declared type] |
| Wiring.FirstParameterCycleDiverges | IoCContainer/IoCContainer/Container.cs:119-137 | when every type of a set has its first parameter in the set, resolving any of them diverges for every fuel |
| Wiring.FirstArgumentFails | IoCContainer/IoCContainer/Container.cs:163-168 | a failing first constructor argument fails the whole resolution with the same error |
| Wiring.DependencyCycleHasNoWiring | IoCContainer/IoCContainer/Container.cs:119-137 | a type on a dependency cycle, through constructor parameters or injected [Import] properties in any mix, has no wiring |
| Wiring.DependencyCycleNeverResolves | IoCContainer/IoCContainer/Container.cs:119-137 | such a type never resolves, whatever the fuel |
| Wiring.WiredRequestsRegistered | IoCContainer/IoCContainer/Container.cs:121-124 | every type requested anywhere in a wired graph, through a parameter or an [Import] property, is registered |
| Wiring.WiredArgument | IoCContainer/IoCContainer/Container.cs:165-167 | every parameter type of the chosen constructor has a wired argument in the instance |
| Wiring.WiredProperty | IoCContainer/IoCContainer/Container.cs:180-184 | every injected [Import] property has a wired value in the instance |
| Wiring.UnregisteredDependencyFails | IoCContainer/IoCContainer/Container.cs:121-124 | resolution fails whenever a type it would request, at any depth, is not registered |
| Scenarios.AssemblyScan | IoCContainer/IoCContainerTests/ContainerTests.cs:24 | scanning the test assembly registers CustomerBLL and SecondCustomerBLL under themselves, ICustomerDAL -> CustomerDAL and Logger -> Logger, and nothing else |
| Scenarios.AssemblyInserts | IoCContainer/IoCContainerTests/ContainerTests.cs:24 | the four Adds of that scan build exactly that registry |
| Scenarios.AssemblyCalls | IoCContainer/IoCContainerTests/ContainerTests.cs:24 | the scan of the test assembly makes exactly those four Adds |
| Scenarios.LeadingCalls | IoCContainer/IoCContainerTests/TestData/CustomerBLL.cs:6-20 | the test class adds nothing; the two marked BLL classes add themselves |
| Scenarios.TrailingCalls | IoCContainer/IoCContainerTests/TestData/CustomerDAL.cs:6-10 | CustomerDAL adds ICustomerDAL -> CustomerDAL, the interface adds nothing, Logger adds itself |
| Scenarios.LeadingFixtureCalls | IoCContainer/IoCContainerTests/TestData/CustomerBLL.cs:6-20 | the test class asks for no Add; CustomerBLL and SecondCustomerBLL each ask for one Add under themselves |
| Scenarios.TrailingFixtureCalls | IoCContainer/IoCContainerTests/TestData/CustomerDAL.cs:6-10 | CustomerDAL asks for ICustomerDAL -> CustomerDAL, the interface for nothing, Logger for Logger -> Logger |
| Scenarios.MarkerOnly | IoCContainer/IoCContainer/Container.cs:52-57 | a class with [ImportConstructor] or an [Import] property and no [Export] makes the single Add T -> T |
| Scenarios.DependenciesResolve | IoCContainer/IoCContainerTests/ContainerTests.cs:64-67 | ICustomerDAL resolves to a CustomerDAL, and Logger to a Logger |
| Scenarios.CustomerBLLResolves | IoCContainer/IoCContainerTests/ContainerTests.cs:26-31 | CustomerBLL is built from a CustomerDAL and a Logger, with no property injected |
| Scenarios.SecondCustomerBLLResolves | IoCContainer/IoCContainerTests/ContainerTests.cs:56-72 | SecondCustomerBLL gets its CustomerDAL property set to a CustomerDAL and its Logger property to a Logger |
| Scenarios.ConstructorDependencies | IoCContainer/IoCContainerTests/ContainerTests.cs:22-33 | after the scan, CreateInstance(CustomerBLL) returns a CustomerBLL built from a CustomerDAL and a Logger |
| Scenarios.PropertyDependenciesByScan | IoCContainer/IoCContainerTests/ContainerTests.cs:36-47 | after the scan, CreateInstance(SecondCustomerBLL) returns a SecondCustomerBLL with both properties injected |
| Scenarios.PropertyDependenciesByAddType | IoCContainer/IoCContainerTests/ContainerTests.cs:50-73 | after the three AddType calls, the same instance is returned |
| Scenarios.MissingPropertyDependency | IoCContainer/IoCContainer/Container.cs:177-185 | without ICustomerDAL registered, the same request fails with NotRegistered(ICustomerDAL) |
| Scenarios.MarkerAndExportClash | IoCContainer/IoCContainer/Container.cs:54-69 | a class with [ImportConstructor] and a typeless [Export] is added twice; the second Add fails with DuplicateKey, earlier entries stay, and later candidates are not scanned |
| Scenarios.DuplicateExport | IoCContainer/IoCContainer/Container.cs:66-69 | two classes exporting the same interface: the second Add fails, and the first class stays registered for it |
| Scenarios.ExportOnly | IoCContainer/IoCContainer/Container.cs:52-69 | a class with no [ImportConstructor], no [Import] property and a single [Export(typeof(I))] makes the single Add I -> class, whatever its other properties and constructors |
| Scenarios.ScanThree | IoCContainer/IoCContainer/Container.cs:50-71 | a scan of three candidates makes their calls one after another |

## Left out

- Reflection (`Assembly.GetTypes`, `GetCustomAttribute(s)`, `GetProperties`, `GetConstructors`) is not modelled. Its results are input data: the `Metadata` map of descriptors and the candidate list passed to `AddAssembly`. Their order is the order reflection reports.
- `Activator.CreateInstance` and `PropertyInfo.SetValue` are not modelled as calls. Construction builds an `Instance` node that records the concrete type and its arguments. Property assignment is the node's list of injected properties. Exceptions thrown by constructor bodies or setters are not modelled.
- No failure of `Activator.CreateInstance` (Container.cs:168) or `PropertyInfo.SetValue` (Container.cs:183) is modelled. The model has no notion of type compatibility. It does not check that a registered implementation fits the constructor parameter or property it is passed to, and it does not reject an abstract implementation that has a public constructor. Such a registry yields `Ok` in the model where the source throws. For example, registering `ICustomerDAL -> Logger` makes CustomerBLL resolve to a node built from two Logger instances.
- A null type is not modelled: `TypeId` has no null value, so the `ArgumentNullException` of `Dictionary.Add` (Container.cs:30, 40) and of the lookup (Container.cs:121) has no counterpart.
- The generic `CreateInstance<T>` (Container.cs:89-92) only casts the result of `CreateInstance(Type)`, so it is not modelled.
- Exception messages and the `CustomContainerException` class are not modelled; each failure is a `ContainerError` constructor.
- `ExportAttribute` is not modelled as a class; it is the `Option<TypeId>` entries of a descriptor's exports.
- The stack overflow on a dependency cycle is not modelled as non-termination. It is the `Diverged` error once the `fuel` parameter of `CreateInstance` runs out.
- IoC.Container.CreateInstance: takes a fuel bound the source does not have. Every successful resolution is returned once the fuel covers the depth of its object graph (Wiring.ResolveComplete), and a result other than Diverged never changes with more fuel (Wiring.ResolveFuelMonotone). A cycle gives Diverged where the source overflows its stack.
- Thread safety is not modelled; the container has none.
- The `Logger` test fixture's declaration is not part of this model. The scenarios assume it carries `[Export]` and a public parameterless constructor, which the tests that scan the assembly need.
- The `ICustomerDAL` interface's declaration is not part of this model either. The scenarios assume it carries no `[ImportConstructor]`, no `[Import]` property and no `[Export]`. This matters because resolution reads `[ImportConstructor]` and the `[Import]` properties from the requested type (Container.cs:130, 179), and ICustomerDAL is requested for CustomerBLL's constructor and SecondCustomerBLL's property.
- IoC.Container.AddAssembly: its loop body is the separate method AddCandidate, which keeps the same order of Adds and the same stop at the first failure.
- `[ImportConstructor]` and the `[Import]` properties are read from the requested type, not from the implementation type, as in Container.cs:130-135. When the two differ, the model injects what the source injects.
