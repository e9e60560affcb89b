/**
 * The Container class: the `types` dictionary it owns, the registration methods
 * that update it in place, and the resolution entry point, which only reads it.
 */
module IoC {
  import opened Types
  import opened Registry
  import opened Resolver

  class Container {
    /** Requested type -> implementation type; entries are only ever added. */
    var types: TypeMap

    constructor ()
      ensures types == map[]
    {
      types := map[];
    }

    /** AddType(type): registers a type as its own implementation. */
    method AddType(t: TypeId) returns (outcome: Outcome)
      modifies this
      ensures t in old(types) ==> outcome == Fail(DuplicateKey(t)) && types == old(types)
      ensures t !in old(types) ==> outcome == Pass && types == old(types)[t := t]
      ensures Registration(types, outcome) == Insert(old(types), t, t)
    {
      outcome := AddTypeAs(t, t);
    }

    /** AddType(baseType, type): registers impl as the implementation of baseType. */
    method AddTypeAs(baseType: TypeId, impl: TypeId) returns (outcome: Outcome)
      modifies this
      ensures baseType in old(types) ==> outcome == Fail(DuplicateKey(baseType)) && types == old(types)
      ensures baseType !in old(types) ==> outcome == Pass && types == old(types)[baseType := impl]
      ensures Registration(types, outcome) == Insert(old(types), baseType, impl)
    {
      if baseType in types {
        outcome := Fail(DuplicateKey(baseType));
      } else {
        types := types[baseType := impl];
        outcome := Pass;
      }
    }

    /** AddAssembly: registers every candidate that carries [ImportConstructor] or an
        [Import] property under its own type, then registers it once per [Export]; the
        first duplicate key ends the scan and keeps the entries added before it. */
    method AddAssembly(meta: Metadata, candidates: seq<TypeId>) returns (outcome: Outcome)
      modifies this
      ensures Registration(types, outcome) == Scan(old(types), meta, candidates)
    {
      ghost var initial := types;
      var i := 0;
      while i < |candidates|
        invariant 0 <= i <= |candidates|
        invariant InsertAll(initial, ScanCalls(meta, candidates[..i])) == Registration(types, Pass)
      {
        ScanStep(initial, meta, candidates, i, types);
        outcome := AddCandidate(meta, candidates[i]);
        if outcome.Fail? {
          return;
        }
        i := i + 1;
      }
      assert candidates[..i] == candidates;
      outcome := Pass;
    }

    /** The body of AddAssembly's loop for one candidate type: the marker test and its
        AddType, then one AddType per [Export]; the first failure ends it. */
    method AddCandidate(meta: Metadata, c: TypeId) returns (outcome: Outcome)
      modifies this
      ensures Registration(types, outcome) == InsertAll(old(types), CandidateCalls(meta, c))
    {
      var d := Describe(meta, c);
      CandidateMarkerStep(types, meta, c);
      if d.hasImportCtor || HasImportProperties(d) {
        outcome := AddType(c);
        if outcome.Fail? {
          return;
        }
      }
      var exports := d.exports;
      var j := 0;
      while j < |exports|
        invariant 0 <= j <= |exports|
        invariant InsertAll(old(types), CallsBeforeExport(c, d, j)) == Registration(types, Pass)
      {
        CandidateExportStep(old(types), meta, c, j, types);
        if exports[j].Some? {
          outcome := AddTypeAs(exports[j].value, c);
        } else {
          outcome := AddType(c);
        }
        if outcome.Fail? {
          return;
        }
        j := j + 1;
      }
      CandidateDone(meta, c);
      outcome := Pass;
    }

    /** CreateInstance(type): resolves the requested type against the registry; the
        registry is left as it was. */
    method CreateInstance(meta: Metadata, t: TypeId, fuel: nat) returns (r: Result<Instance>)
      ensures r == Resolve(types, meta, t, fuel)
      ensures r.Ok? ==> t in types && r.value.impl == types[t]
    {
      r := Resolve(types, meta, t, fuel);
    }
  }
}
