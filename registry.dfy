/**
 * The type registry as values: the `types` dictionary of Container, its
 * insert-only Dictionary.Add, a run of such inserts that stops at the first
 * failure, and the inserts the batch scan (AddAssembly) performs.
 * The Container class in container.dfy is proved against these functions.
 */
module Registry {
  import opened Types

  /** Requested type -> implementation type. */
  type TypeMap = map<TypeId, TypeId>

  /** One call of Dictionary.Add: the key and the value it registers. */
  type Call = (TypeId, TypeId)

  /** The registry after a registration step, and whether the step threw. */
  datatype Registration = Registration(types: TypeMap, outcome: Outcome)

  /** Dictionary.Add: a present key throws and leaves the map as it was; an absent
      key gains exactly the new entry and nothing else changes. */
  function Insert(types: TypeMap, key: TypeId, impl: TypeId): (r: Registration)
    ensures r.outcome.Pass? <==> key !in types
    ensures r.outcome.Fail? ==> r.outcome.error == DuplicateKey(key) && r.types == types
    ensures r.outcome.Pass? ==> r.types.Keys == types.Keys + {key} && r.types[key] == impl
    ensures forall k :: k in types ==> k in r.types && r.types[k] == types[k]
  {
    if key in types then Registration(types, Fail(DuplicateKey(key)))
    else Registration(types[key := impl], Pass)
  }

  /** A run of Dictionary.Add calls with no handler around them: the first exception
      ends the run, and the entries added before it stay. */
  function InsertAll(types: TypeMap, calls: seq<Call>): (r: Registration)
    ensures types.Keys <= r.types.Keys
    ensures r.outcome.Fail? ==> r.outcome.error.DuplicateKey? && r.outcome.error.key in r.types
    decreases |calls|
  {
    if calls == [] then Registration(types, Pass)
    else
      var step := Insert(types, calls[0].0, calls[0].1);
      if step.outcome.Fail? then step else InsertAll(step.types, calls[1..])
  }

  /** A run never removes or overwrites an entry, every entry it adds is one of its
      calls, and its only failure is a duplicate key. */
  lemma {:induction false} InsertAllOnlyAdds(types: TypeMap, calls: seq<Call>)
    ensures forall k :: k in types ==> k in InsertAll(types, calls).types && InsertAll(types, calls).types[k] == types[k]
    ensures forall k :: k in InsertAll(types, calls).types && k !in types ==> (k, InsertAll(types, calls).types[k]) in calls
    ensures InsertAll(types, calls).outcome.Fail? ==> InsertAll(types, calls).outcome.error.DuplicateKey?
    decreases |calls|
  {
    if calls != [] {
      var step := Insert(types, calls[0].0, calls[0].1);
      if step.outcome.Pass? {
        InsertAllOnlyAdds(step.types, calls[1..]);
        assert forall c :: c in calls[1..] ==> c in calls;
      }
    }
  }

  /** The calls can all succeed: no key is present already and no key repeats. */
  ghost predicate Insertable(types: TypeMap, calls: seq<Call>)
  {
    && (forall i :: 0 <= i < |calls| ==> calls[i].0 !in types)
    && (forall i, j :: 0 <= i < j < |calls| ==> calls[i].0 != calls[j].0)
  }

  /** Running two batches of calls one after the other is running their concatenation. */
  lemma {:induction false} InsertAllAppend(types: TypeMap, a: seq<Call>, b: seq<Call>)
    ensures InsertAll(types, a + b)
         == (var first := InsertAll(types, a);
             if first.outcome.Fail? then first else InsertAll(first.types, b))
    decreases |a|
  {
    if a == [] {
      assert a + b == b;
    } else {
      assert (a + b)[0] == a[0];
      assert (a + b)[1..] == a[1..] + b;
      var step := Insert(types, a[0].0, a[0].1);
      if step.outcome.Pass? {
        InsertAllAppend(step.types, a[1..], b);
      }
    }
  }

  /** Once a run has failed, later calls are never made. */
  lemma FailedRunIgnoresRest(types: TypeMap, a: seq<Call>, b: seq<Call>)
    requires InsertAll(types, a).outcome.Fail?
    ensures InsertAll(types, a + b) == InsertAll(types, a)
  {
    InsertAllAppend(types, a, b);
  }

  /** Insertable, one call at a time: the first key is absent and the rest are
      insertable into the registry that holds it. */
  lemma InsertableStep(types: TypeMap, calls: seq<Call>)
    requires calls != []
    ensures Insertable(types, calls) <==>
      calls[0].0 !in types && Insertable(types[calls[0].0 := calls[0].1], calls[1..])
  {
    var tail := calls[1..];
    var next := types[calls[0].0 := calls[0].1];
    if calls[0].0 !in types && Insertable(next, tail) {
      forall i | 0 <= i < |calls| ensures calls[i].0 !in types {
        if i > 0 { assert calls[i] == tail[i - 1]; }
      }
      forall i, j | 0 <= i < j < |calls| ensures calls[i].0 != calls[j].0 {
        assert calls[j] == tail[j - 1];
        if i > 0 { assert calls[i] == tail[i - 1]; }
      }
    }
    if Insertable(types, calls) {
      forall i | 0 <= i < |tail| ensures tail[i].0 !in next {
        assert tail[i] == calls[i + 1];
      }
      forall i, j | 0 <= i < j < |tail| ensures tail[i].0 != tail[j].0 {
        assert tail[i] == calls[i + 1] && tail[j] == calls[j + 1];
      }
    }
  }

  /** A run succeeds exactly when its calls are Insertable. */
  lemma {:induction false} InsertAllSucceeds(types: TypeMap, calls: seq<Call>)
    ensures InsertAll(types, calls).outcome.Pass? <==> Insertable(types, calls)
    decreases |calls|
  {
    if calls != [] {
      InsertableStep(types, calls);
      var step := Insert(types, calls[0].0, calls[0].1);
      if step.outcome.Pass? {
        InsertAllSucceeds(step.types, calls[1..]);
      }
    }
  }

  /** After a successful run every call's entry is in the registry. */
  lemma {:induction false} InsertAllRegistersEach(types: TypeMap, calls: seq<Call>)
    requires InsertAll(types, calls).outcome.Pass?
    ensures forall i :: 0 <= i < |calls| ==>
      calls[i].0 in InsertAll(types, calls).types && InsertAll(types, calls).types[calls[i].0] == calls[i].1
    decreases |calls|
  {
    if calls != [] {
      var step := Insert(types, calls[0].0, calls[0].1);
      var tail := calls[1..];
      InsertAllRegistersEach(step.types, tail);
      InsertAllOnlyAdds(step.types, tail);
      forall i | 0 <= i < |calls|
        ensures calls[i].0 in InsertAll(types, calls).types && InsertAll(types, calls).types[calls[i].0] == calls[i].1
      {
        if i > 0 { assert calls[i] == tail[i - 1]; }
      }
    }
  }

  /** A failed run stopped at a call whose key was present: the registry it leaves is
      that of the successful run over the calls before it (the run is not atomic). */
  lemma {:induction false} InsertAllStopsAtDuplicate(types: TypeMap, calls: seq<Call>) returns (i: nat)
    requires InsertAll(types, calls).outcome.Fail?
    ensures i < |calls|
    ensures InsertAll(types, calls[..i]).outcome.Pass?
    ensures InsertAll(types, calls).types == InsertAll(types, calls[..i]).types
    ensures calls[i].0 in InsertAll(types, calls).types
    ensures InsertAll(types, calls).outcome == Fail(DuplicateKey(calls[i].0))
    decreases |calls|
  {
    var step := Insert(types, calls[0].0, calls[0].1);
    if step.outcome.Fail? {
      i := 0;
      assert calls[..0] == [];
    } else {
      var j := InsertAllStopsAtDuplicate(step.types, calls[1..]);
      i := j + 1;
      assert calls[..i][0] == calls[0];
      assert calls[..i][1..] == calls[1..][..j];
    }
  }

  // ---------------------------------------------------------------------------
  // The batch scan (AddAssembly)

  /** The condition of the first registration in AddAssembly: the type carries
      [ImportConstructor] or has an [Import] property. */
  predicate HasInjectionMarker(d: Descriptor)
  {
    d.hasImportCtor || HasImportProperties(d)
  }

  /** The key an [Export] registers its type under: the explicit type, or the type itself. */
  function ExportKey(candidate: TypeId, marker: Option<TypeId>): (key: TypeId)
    ensures key == candidate || marker == Some(key)
    ensures marker.Some? ==> key == marker.value
  {
    match marker
    case Some(i) => i
    case None => candidate
  }

  /** The Add calls made for the [Export] markers of a candidate, one per marker, in order. */
  function ExportCalls(candidate: TypeId, exports: seq<Option<TypeId>>): (r: seq<Call>)
    ensures |r| == |exports|
    ensures forall j :: 0 <= j < |exports| ==> r[j] == (ExportKey(candidate, exports[j]), candidate)
  {
    seq(|exports|, j requires 0 <= j < |exports| => (ExportKey(candidate, exports[j]), candidate))
  }

  /** The Add calls made for the marker test of a candidate: (T, T) if it qualifies. */
  function MarkerCalls(candidate: TypeId, d: Descriptor): (r: seq<Call>)
    ensures r != [] <==> HasInjectionMarker(d)
    ensures r == [] || r == [(candidate, candidate)]
  {
    if HasInjectionMarker(d) then [(candidate, candidate)] else []
  }

  /** The Add calls AddAssembly makes for one candidate type, in order. */
  function CandidateCalls(meta: Metadata, candidate: TypeId): (r: seq<Call>)
    ensures |r| <= 1 + |Describe(meta, candidate).exports|
  {
    var d := Describe(meta, candidate);
    MarkerCalls(candidate, d) + ExportCalls(candidate, d.exports)
  }

  /** The Add calls AddAssembly makes for a list of candidates, in order. */
  function ScanCalls(meta: Metadata, candidates: seq<TypeId>): (r: seq<Call>)
    ensures candidates != [] ==> CandidateCalls(meta, candidates[0]) <= r
  {
    if candidates == [] then []
    else CandidateCalls(meta, candidates[0]) + ScanCalls(meta, candidates[1..])
  }

  /** The registry and outcome of AddAssembly over the given candidates. */
  function Scan(types: TypeMap, meta: Metadata, candidates: seq<TypeId>): (r: Registration)
    ensures types.Keys <= r.types.Keys
    ensures r.outcome.Fail? ==> r.outcome.error.DuplicateKey?
  {
    InsertAll(types, ScanCalls(meta, candidates))
  }

  lemma {:induction false} ScanCallsAppend(meta: Metadata, a: seq<TypeId>, b: seq<TypeId>)
    ensures ScanCalls(meta, a + b) == ScanCalls(meta, a) + ScanCalls(meta, b)
    decreases |a|
  {
    if a == [] {
      assert a + b == b;
    } else {
      var rest := a[1..];
      assert a == [a[0]] + rest;
      assert a + b == [a[0]] + (rest + b);
      ScanCallsCons(meta, a[0], rest);
      ScanCallsCons(meta, a[0], rest + b);
      ScanCallsAppend(meta, rest, b);
      Regroup3(CandidateCalls(meta, a[0]), ScanCalls(meta, rest), ScanCalls(meta, b));
    }
  }

  /** The scan's calls split around any candidate: those for the candidates before it,
      its own, and those for the candidates after it. */
  lemma ScanCallsSplit(meta: Metadata, candidates: seq<TypeId>, i: nat)
    requires i < |candidates|
    ensures ScanCalls(meta, candidates)
         == ScanCalls(meta, candidates[..i]) + CandidateCalls(meta, candidates[i]) + ScanCalls(meta, candidates[i + 1..])
  {
    var before, after := candidates[..i], candidates[i + 1..];
    SplitAt(candidates, i);
    ScanCallsAppend(meta, before, [candidates[i]] + after);
    ScanCallsCons(meta, candidates[i], after);
    Regroup3(ScanCalls(meta, before), CandidateCalls(meta, candidates[i]), ScanCalls(meta, after));
  }

  lemma Regroup3<T>(a: seq<T>, b: seq<T>, c: seq<T>)
    ensures a + (b + c) == a + b + c
  {
  }

  lemma SplitAt<T>(s: seq<T>, i: nat)
    requires i < |s|
    ensures s == s[..i] + ([s[i]] + s[i + 1..])
  {
  }

  lemma ScanCallsCons(meta: Metadata, here: TypeId, after: seq<TypeId>)
    ensures ScanCalls(meta, [here] + after) == CandidateCalls(meta, here) + ScanCalls(meta, after)
  {
    var tail := [here] + after;
    assert tail[0] == here && tail[1..] == after;
  }

  /** The scan's calls for one more candidate extend those for the ones before. */
  lemma ScanCallsPrefix(meta: Metadata, candidates: seq<TypeId>, i: nat)
    requires i < |candidates|
    ensures ScanCalls(meta, candidates[..i + 1]) == ScanCalls(meta, candidates[..i]) + CandidateCalls(meta, candidates[i])
  {
    assert candidates[..i + 1] == candidates[..i] + [candidates[i]];
    ScanCallsAppend(meta, candidates[..i], [candidates[i]]);
    assert [candidates[i]][1..] == [];
  }

  lemma ExportCallsPrefix(candidate: TypeId, exports: seq<Option<TypeId>>, j: nat)
    requires j < |exports|
    ensures ExportCalls(candidate, exports[..j + 1])
         == ExportCalls(candidate, exports[..j]) + [(ExportKey(candidate, exports[j]), candidate)]
  {
    assert ExportCalls(candidate, exports[..j + 1])
        == ExportCalls(candidate, exports[..j]) + [(ExportKey(candidate, exports[j]), candidate)];
  }

  lemma ExportCallsSplit(candidate: TypeId, exports: seq<Option<TypeId>>, k: nat)
    requires k <= |exports|
    ensures ExportCalls(candidate, exports)
         == ExportCalls(candidate, exports[..k]) + ExportCalls(candidate, exports[k..])
  {
    var whole := ExportCalls(candidate, exports);
    var joined := ExportCalls(candidate, exports[..k]) + ExportCalls(candidate, exports[k..]);
    forall n | 0 <= n < |exports| ensures joined[n] == whole[n] {
      if n >= k {
        assert exports[k..][n - k] == exports[n];
      }
    }
  }

  /** A run that has succeeded so far, followed by one more call, ends as that call does. */
  lemma InsertAllThenInsert(types: TypeMap, made: seq<Call>, call: Call)
    requires InsertAll(types, made).outcome.Pass?
    ensures InsertAll(types, made + [call]) == Insert(InsertAll(types, made).types, call.0, call.1)
  {
    InsertAllAppend(types, made, [call]);
    assert [call][1..] == [];
  }

  // The steps of AddAssembly's loops, each stated in terms of the calls made so far.

  /** The calls made for candidate c before its export j: the marker call, if any,
      then the calls for its first j exports. */
  function CallsBeforeExport(c: TypeId, d: Descriptor, j: nat): seq<Call>
    requires j <= |d.exports|
  {
    MarkerCalls(c, d) + ExportCalls(c, d.exports[..j])
  }

  /** The marker step of a candidate: the run ends as Insert(c, c) does when the
      candidate carries a marker and is unchanged otherwise; a failure there ends the
      candidate's run. */
  lemma CandidateMarkerStep(types: TypeMap, meta: Metadata, c: TypeId)
    ensures var d := Describe(meta, c);
      InsertAll(types, CallsBeforeExport(c, d, 0))
        == if HasInjectionMarker(d) then Insert(types, c, c) else Registration(types, Pass)
    ensures var d := Describe(meta, c);
      HasInjectionMarker(d) && Insert(types, c, c).outcome.Fail? ==>
        InsertAll(types, CandidateCalls(meta, c)) == Insert(types, c, c)
  {
    var d := Describe(meta, c);
    assert d.exports[..0] == [];
    assert CallsBeforeExport(c, d, 0) == MarkerCalls(c, d);
    if HasInjectionMarker(d) {
      assert [(c, c)][1..] == [];
      if Insert(types, c, c).outcome.Fail? {
        FailedRunIgnoresRest(types, MarkerCalls(c, d), ExportCalls(c, d.exports));
      }
    }
  }

  /** The step for export j of a candidate: the run ends as the Insert for that export
      does; a failure there ends the candidate's run. */
  lemma CandidateExportStep(types: TypeMap, meta: Metadata, c: TypeId, j: nat, current: TypeMap)
    requires j < |Describe(meta, c).exports|
    requires InsertAll(types, CallsBeforeExport(c, Describe(meta, c), j)) == Registration(current, Pass)
    ensures var d := Describe(meta, c); var key := ExportKey(c, d.exports[j]);
      && InsertAll(types, CallsBeforeExport(c, d, j + 1)) == Insert(current, key, c)
      && (Insert(current, key, c).outcome.Fail? ==> InsertAll(types, CandidateCalls(meta, c)) == Insert(current, key, c))
  {
    var d := Describe(meta, c);
    var call := (ExportKey(c, d.exports[j]), c);
    var marker, made := MarkerCalls(c, d), ExportCalls(c, d.exports[..j]);
    ExportCallsPrefix(c, d.exports, j);
    Regroup3(marker, made, [call]);
    InsertAllThenInsert(types, marker + made, call);
    if Insert(current, call.0, c).outcome.Fail? {
      ExportCallsSplit(c, d.exports, j + 1);
      Regroup3(marker, ExportCalls(c, d.exports[..j + 1]), ExportCalls(c, d.exports[j + 1..]));
      FailedRunIgnoresRest(types, CallsBeforeExport(c, d, j + 1), ExportCalls(c, d.exports[j + 1..]));
    }
  }

  /** After its last export a candidate's run has made all of its calls. */
  lemma CandidateDone(meta: Metadata, c: TypeId)
    ensures var d := Describe(meta, c);
      CallsBeforeExport(c, d, |d.exports|) == CandidateCalls(meta, c)
  {
    var d := Describe(meta, c);
    assert d.exports[..|d.exports|] == d.exports;
  }

  /** The step of the outer loop for candidate i: after the scan of the candidates
      before it succeeded, the candidate's own run either extends that scan or, when
      it fails, is the outcome of the whole scan. */
  lemma ScanStep(types: TypeMap, meta: Metadata, candidates: seq<TypeId>, i: nat, current: TypeMap)
    requires i < |candidates|
    requires InsertAll(types, ScanCalls(meta, candidates[..i])) == Registration(current, Pass)
    ensures var r := InsertAll(current, CandidateCalls(meta, candidates[i]));
      && (r.outcome.Pass? ==> InsertAll(types, ScanCalls(meta, candidates[..i + 1])) == r)
      && (r.outcome.Fail? ==> Scan(types, meta, candidates) == r)
  {
    var before, here := ScanCalls(meta, candidates[..i]), CandidateCalls(meta, candidates[i]);
    ScanCallsPrefix(meta, candidates, i);
    InsertAllAppend(types, before, here);
    if InsertAll(current, here).outcome.Fail? {
      ScanCallsSplit(meta, candidates, i);
      FailedRunIgnoresRest(types, before + here, ScanCalls(meta, candidates[i + 1..]));
    }
  }

  /** A candidate contributes a call exactly when it carries some marker. */
  lemma CandidateCallsEmpty(meta: Metadata, candidate: TypeId)
    ensures CandidateCalls(meta, candidate) == [] <==>
      (var d := Describe(meta, candidate); !d.hasImportCtor && !HasImportProperties(d) && d.exports == [])
  {
  }

  /** Every call made for a candidate registers that candidate, under its own name or
      under a type one of its [Export]s names. */
  lemma CandidateCallsShape(meta: Metadata, candidate: TypeId)
    ensures forall c :: c in CandidateCalls(meta, candidate) ==>
      c.1 == candidate && (c.0 == candidate || Some(c.0) in Describe(meta, candidate).exports)
  {
    var d := Describe(meta, candidate);
    forall c | c in CandidateCalls(meta, candidate)
      ensures c.1 == candidate && (c.0 == candidate || Some(c.0) in d.exports)
    {
      if c !in MarkerCalls(candidate, d) {
        var j :| 0 <= j < |d.exports| && ExportCalls(candidate, d.exports)[j] == c;
        assert d.exports[j] in d.exports;
      }
    }
  }

  /** Every call of the scan registers a scanned candidate that carries a marker, and the
      key is the candidate itself or a type one of its [Export]s names. */
  lemma {:induction false} ScanCallsFromMarkedCandidates(meta: Metadata, candidates: seq<TypeId>)
    ensures forall c :: c in ScanCalls(meta, candidates) ==>
      && c.1 in candidates
      && CandidateCalls(meta, c.1) != []
      && (c.0 == c.1 || Some(c.0) in Describe(meta, c.1).exports)
    decreases |candidates|
  {
    if candidates != [] {
      ScanCallsFromMarkedCandidates(meta, candidates[1..]);
      CandidateCallsShape(meta, candidates[0]);
      assert forall x :: x in candidates[1..] ==> x in candidates;
    }
  }

  /** Batch scan selectivity: a scanned type with no marker never becomes the
      implementation of a new entry, and it gains no entry as a key unless another
      candidate exports it by name. */
  lemma ScanSkipsUnmarked(types: TypeMap, meta: Metadata, candidates: seq<TypeId>, t: TypeId)
    requires CandidateCalls(meta, t) == []
    ensures forall k :: k in Scan(types, meta, candidates).types && k !in types ==>
      Scan(types, meta, candidates).types[k] != t
    ensures t !in types && (forall c :: c in candidates ==> Some(t) !in Describe(meta, c).exports) ==>
      t !in Scan(types, meta, candidates).types
  {
    ScanCallsFromMarkedCandidates(meta, candidates);
    InsertAllOnlyAdds(types, ScanCalls(meta, candidates));
  }

  /** The calls made for a candidate: one per [Export], keyed by ExportKey, and one
      self-registration when it carries [ImportConstructor] or an [Import] property. */
  lemma CandidateCallsInclude(meta: Metadata, candidate: TypeId)
    ensures forall e :: e in Describe(meta, candidate).exports ==>
      (ExportKey(candidate, e), candidate) in CandidateCalls(meta, candidate)
    ensures HasInjectionMarker(Describe(meta, candidate)) ==>
      (candidate, candidate) in CandidateCalls(meta, candidate)
  {
    var d := Describe(meta, candidate);
    forall e | e in d.exports
      ensures (ExportKey(candidate, e), candidate) in CandidateCalls(meta, candidate)
    {
      var j :| 0 <= j < |d.exports| && d.exports[j] == e;
      assert ExportCalls(candidate, d.exports)[j] == (ExportKey(candidate, e), candidate);
    }
  }

  /** Export aliasing: the scan makes every call each of its candidates asks for. */
  lemma {:induction false} ScanCallsIncludeCandidate(meta: Metadata, candidates: seq<TypeId>, i: nat)
    requires i < |candidates|
    ensures forall c :: c in CandidateCalls(meta, candidates[i]) ==> c in ScanCalls(meta, candidates)
    decreases |candidates|
  {
    if i > 0 {
      var rest, j := candidates[1..], i - 1;
      assert rest[j] == candidates[i];
      ScanCallsIncludeCandidate(meta, rest, j);
      ScanCallsCons(meta, candidates[0], rest);
      assert candidates == [candidates[0]] + rest;
    }
  }

  /** A scan that completes registers every export: [Export(I)] on C gives I -> C and
      [Export] on C gives C -> C; a marker on C gives C -> C. */
  lemma ScanRegistersExports(types: TypeMap, meta: Metadata, candidates: seq<TypeId>, i: nat)
    requires i < |candidates|
    requires Scan(types, meta, candidates).outcome.Pass?
    ensures forall e :: e in Describe(meta, candidates[i]).exports ==>
      && ExportKey(candidates[i], e) in Scan(types, meta, candidates).types
      && Scan(types, meta, candidates).types[ExportKey(candidates[i], e)] == candidates[i]
    ensures HasInjectionMarker(Describe(meta, candidates[i])) ==>
      && candidates[i] in Scan(types, meta, candidates).types
      && Scan(types, meta, candidates).types[candidates[i]] == candidates[i]
  {
    var calls := ScanCalls(meta, candidates);
    CandidateCallsInclude(meta, candidates[i]);
    ScanCallsIncludeCandidate(meta, candidates, i);
    InsertAllRegistersEach(types, calls);
    forall c | c in calls ensures c.0 in InsertAll(types, calls).types && InsertAll(types, calls).types[c.0] == c.1 {
      var j :| 0 <= j < |calls| && calls[j] == c;
    }
  }
}
