/**
 * The vocabulary shared by the registry and the resolver of the IoC container:
 * type tokens, the per-type metadata that reflection would report, and the
 * container's error kinds.
 *
 * Reflection (GetCustomAttribute, GetProperties, GetConstructors) is not
 * modelled as code: what it reports about a type is given as a Descriptor.
 */
module Types {

  /** A declared type, identified by its name (stands for System.Type). */
  type TypeId = string

  /** A property of a type, identified by its name. */
  type PropId = string

  datatype Option<T> = None | Some(value: T)

  /** A public property as GetProperties reports it, with whether it carries [Import]. */
  datatype Property = Property(name: PropId, propType: TypeId, hasImport: bool)

  /** What reflection reports about one type. */
  datatype Descriptor = Descriptor(
    hasImportCtor: bool,           // the type carries [ImportConstructor]
    properties: seq<Property>,     // its public properties, in the order reflection reports them
    exports: seq<Option<TypeId>>,  // one entry per [Export]: Some(I) for [Export(typeof(I))], None for [Export]
    ctors: seq<seq<TypeId>>)       // its public constructors, each as its parameter types, in reflection order

  /** The metadata of every type the container may meet. */
  type Metadata = map<TypeId, Descriptor>

  /** The descriptor of a type without any entry in the metadata: no markers and no
      public constructor, which is what reflection reports for an interface. */
  const Unmarked := Descriptor(false, [], [], [])

  function Describe(meta: Metadata, t: TypeId): (d: Descriptor)
    ensures t in meta ==> d == meta[t]
    ensures t !in meta ==> !d.hasImportCtor && !HasImportProperties(d) && d.exports == [] && d.ctors == []
  {
    if t in meta then meta[t] else Unmarked
  }

  /** The failures the container raises (CustomContainerException and Dictionary.Add's
      ArgumentException), plus the stack overflow of an unbounded resolution. */
  datatype ContainerError =
    | DuplicateKey(key: TypeId)               // Dictionary.Add on a key that is present
    | NotRegistered(requested: TypeId)        // "Dependency is not provided"
    | NoPublicConstructor(impl: TypeId)       // "There are no public constructors"
    | Diverged                                // the recursion did not finish within its fuel

  datatype Outcome = Pass | Fail(error: ContainerError)

  datatype Result<T> = Ok(value: T) | Err(error: ContainerError)

  /** The public properties that carry the [Import] attribute, kept in the order
      reflection reports them. */
  function ImportedProperties(ps: seq<Property>): (r: seq<Property>)
    ensures forall p :: p in r <==> p in ps && p.hasImport
    ensures |r| <= |ps|
  {
    if ps == [] then []
    else if ps[0].hasImport then [ps[0]] + ImportedProperties(ps[1..])
    else ImportedProperties(ps[1..])
  }

  /** The filter keeps the order of the properties: filtering a concatenation filters each part. */
  lemma {:induction false} ImportedPropertiesAppend(a: seq<Property>, b: seq<Property>)
    ensures ImportedProperties(a + b) == ImportedProperties(a) + ImportedProperties(b)
  {
    if a == [] {
      assert a + b == b;
    } else {
      assert (a + b)[1..] == a[1..] + b;
      ImportedPropertiesAppend(a[1..], b);
    }
  }

  /** HasImportProperties: at least one public property carries [Import]. */
  function HasImportProperties(d: Descriptor): (b: bool)
    ensures b <==> exists p :: p in d.properties && p.hasImport
  {
    var imported := ImportedProperties(d.properties);
    assert imported != [] ==> imported[0] in imported;
    imported != []
  }
}
