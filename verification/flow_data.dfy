/**
 * FlowData: one request's pass through a pipeline (its evidence, the element
 * data the elements store, the errors they raise, the `stopped` and
 * `processed` flags), and Evidence, the store of evidence a FlowData owns.
 */
module Flow {
  import opened Wrappers
  import opened OrderedMaps
  import opened Text
  import opened Values
  import opened KeyFilters
  import opened Logging
  import opened Elements
  import opened PropertyIndex
  import opened SetHeaders
  import opened Pipelines

  // ---------------------------------------------------------------------
  // The processing pass as a specification
  // ---------------------------------------------------------------------

  /** What `setError` logs for an error recorded under `key`. */
  function ErrorLogMessage(key: string, e: Error): string {
    "Error occurred during processing" + (if PhpEmpty(key) then "" else " of " + key + ". \n" + Message(e))
  }

  /** What one element's `process` does when it is given the FlowData. */
  function Invoke(e: Stage, evidence: OMap<string, Value>, data: DataMap, stages: seq<Stage>): Outcome {
    match e.kind
    case Engine(run) => run(evidence, data)
    case SetHeaders => ProcessWith(e.dataKey, Scan(stages), data)
    case _ => Outcome(None, false, None)
  }

  /**
   * The state `process` works on.  `invoked` lists the data keys of the
   * elements whose `process` was called, and `logged` the messages `setError`
   * sent to the logger at level `error`.
   */
  datatype RunState = RunState(stopped: bool, data: DataMap, errors: OMap<string, Error>,
                               invoked: seq<string>, logged: seq<string>)

  /** `setError($key, $e)` on the state. */
  function RecordError(st: RunState, key: string, e: Error): RunState {
    st.(errors := st.errors.Put(key, e), logged := st.logged + [ErrorLogMessage(key, e)])
  }

  /** The element's outcome applied in order: data stored, stop, exception caught. */
  function Apply(st: RunState, key: string, o: Outcome): RunState {
    var st1 := if o.output.Some? then st.(data := StoreElementData(st.data, o.output.value)) else st;
    var st2 := if o.stop then st1.(stopped := true) else st1;
    if o.raised.Some? then RecordError(st2, key, o.raised.value) else st2
  }

  /** One iteration of the loop in `process`. */
  function Step(st: RunState, e: Stage, evidence: OMap<string, Value>, stages: seq<Stage>): RunState {
    if st.stopped then st
    else Apply(st.(invoked := st.invoked + [e.dataKey]), e.dataKey, Invoke(e, evidence, st.data, stages))
  }

  /**
   * Applying an outcome leaves the invoked list alone, never clears `stopped`,
   * stores the element's data when there is some, and records and logs a
   * raised exception under the element's own key and nowhere else.
   */
  lemma ApplyFacts(st: RunState, key: string, o: Outcome)
    ensures var r := Apply(st, key, o);
      && r.invoked == st.invoked
      && (st.stopped ==> r.stopped)
      && (r.stopped <==> st.stopped || o.stop)
      && st.errors.keys <= r.errors.keys
      && (forall k :: k in r.errors.vals ==> k in st.errors.vals || k == key)
      && (r.errors.vals.Keys == st.errors.vals.Keys || o.raised.Some?)
    ensures var r := Apply(st, key, o);
      && (o.raised.Some? ==>
            && key in r.errors.vals && r.errors.vals[key] == o.raised.value
            && r.logged == st.logged + [ErrorLogMessage(key, o.raised.value)])
      && (o.raised.None? ==> r.errors == st.errors && r.logged == st.logged)
      && (o.output.Some? ==> r.data == StoreElementData(st.data, o.output.value))
      && (o.output.None? ==> r.data == st.data)
  {
  }

  /**
   * One step of a pass that has not stopped calls the element, stops exactly
   * when the element asks to, and records and logs what it throws under its
   * own data key; the error does not stop the pass.
   */
  lemma StepFacts(st: RunState, e: Stage, evidence: OMap<string, Value>, stages: seq<Stage>)
    requires !st.stopped
    ensures var o := Invoke(e, evidence, st.data, stages);
            var r := Step(st, e, evidence, stages);
      && r.invoked == st.invoked + [e.dataKey]
      && (r.stopped <==> o.stop)
      && (o.raised.Some? ==>
            && e.dataKey in r.errors.vals && r.errors.vals[e.dataKey] == o.raised.value
            && r.logged == st.logged + [ErrorLogMessage(e.dataKey, o.raised.value)])
      && (o.raised.None? ==> r.errors == st.errors && r.logged == st.logged)
  {
    ApplyFacts(st.(invoked := st.invoked + [e.dataKey]), e.dataKey, Invoke(e, evidence, st.data, stages));
  }

  /** The loop in `process` over `elements` (the pipeline is `stages`). */
  function Run(st: RunState, elements: seq<Stage>, evidence: OMap<string, Value>, stages: seq<Stage>): RunState {
    if elements == [] then st
    else Step(Run(st, elements[..|elements| - 1], evidence, stages), elements[|elements| - 1], evidence, stages)
  }

  /** `Run` over one more element is one more `Step`. */
  lemma RunSnoc(st: RunState, elements: seq<Stage>, i: nat, evidence: OMap<string, Value>)
    requires i < |elements|
    ensures Run(st, elements[..i + 1], evidence, elements) == Step(Run(st, elements[..i], evidence, elements), elements[i], evidence, elements)
  {
    assert elements[..i + 1][..i] == elements[..i];
  }

  /** Once stopped, no further element runs and nothing changes. */
  lemma {:induction false} RunStopped(st: RunState, elements: seq<Stage>, evidence: OMap<string, Value>, stages: seq<Stage>)
    requires st.stopped
    ensures Run(st, elements, evidence, stages) == st
  {
    if elements != [] {
      RunStopped(st, elements[..|elements| - 1], evidence, stages);
    }
  }

  /**
   * The elements run in pipeline order, each at most once, until one stops
   * the pass: the invoked keys are a prefix of the data keys, and fewer than
   * all of them only when the pass was stopped.
   */
  lemma {:induction false} RunInvokesPrefix(st: RunState, elements: seq<Stage>, evidence: OMap<string, Value>, stages: seq<Stage>)
    requires !st.stopped
    ensures var r := Run(st, elements, evidence, stages);
      && |st.invoked| <= |r.invoked| <= |st.invoked| + |elements|
      && r.invoked == st.invoked + DataKeys(elements)[..|r.invoked| - |st.invoked|]
      && (|r.invoked| < |st.invoked| + |elements| ==> r.stopped)
  {
    if elements != [] {
      var init := elements[..|elements| - 1];
      var e := elements[|elements| - 1];
      RunInvokesPrefix(st, init, evidence, stages);
      var prev := Run(st, init, evidence, stages);
      var n := |prev.invoked| - |st.invoked|;
      DataKeysSnoc(elements, n);
      if !prev.stopped {
        ApplyFacts(prev.(invoked := prev.invoked + [e.dataKey]), e.dataKey, Invoke(e, evidence, prev.data, stages));
      }
    }
  }

  lemma DataKeysSnoc(elements: seq<Stage>, n: nat)
    requires 0 < |elements| && n <= |elements| - 1
    ensures DataKeys(elements)[..n] == DataKeys(elements[..|elements| - 1])[..n]
    ensures n == |elements| - 1 ==>
      DataKeys(elements)[..n + 1] == DataKeys(elements[..|elements| - 1]) + [elements[|elements| - 1].dataKey]
  {
    var init := elements[..|elements| - 1];
    assert DataKeys(elements)[..n] == DataKeys(init)[..n];
    if n == |init| {
      assert DataKeys(elements)[..n + 1] == DataKeys(init) + [elements[|elements| - 1].dataKey];
    }
  }

  /** Errors are only ever added or overwritten, and only under the data key of an element that ran. */
  lemma {:induction false} RunErrors(st: RunState, elements: seq<Stage>, evidence: OMap<string, Value>, stages: seq<Stage>)
    ensures var r := Run(st, elements, evidence, stages);
      && st.errors.keys <= r.errors.keys
      && (forall k :: k in r.errors.vals ==> k in st.errors.vals || k in r.invoked)
      && st.invoked <= r.invoked
  {
    if elements != [] {
      var init := elements[..|elements| - 1];
      var e := elements[|elements| - 1];
      RunErrors(st, init, evidence, stages);
      var prev := Run(st, init, evidence, stages);
      if !prev.stopped {
        ApplyFacts(prev.(invoked := prev.invoked + [e.dataKey]), e.dataKey, Invoke(e, evidence, prev.data, stages));
      }
    }
  }

  /**
   * A worked example of `StepFacts` on a two-element pipeline: the first
   * element throws, its error is recorded and logged, and the second still
   * runs and stores its data.
   */
  lemma ErrorDoesNotStop()
    ensures var boom := Stage("a", Empty(), KeyFilter(None),
                              Engine((ev: OMap<string, Value>, d: DataMap) => Outcome(None, false, Some(Raised("boom")))));
            var store := Stage("b", Empty(), KeyFilter(None),
                               Engine((ev: OMap<string, Value>, d: DataMap) => Outcome(Some(ElementData("b", map[])), false, None)));
            var r := Run(RunState(false, None, Empty(), [], []), [boom, store], Empty(), [boom, store]);
      && r.invoked == ["a", "b"]
      && r.errors.keys == ["a"] && "a" in r.errors.vals && r.errors.vals["a"] == Raised("boom")
      && GetElementData(r.data, "b") == Ok(ElementData("b", map[]))
      && r.logged == [ErrorLogMessage("a", Raised("boom"))]
  {
    var boom := Stage("a", Empty(), KeyFilter(None),
                      Engine((ev: OMap<string, Value>, d: DataMap) => Outcome(None, false, Some(Raised("boom")))));
    var store := Stage("b", Empty(), KeyFilter(None),
                       Engine((ev: OMap<string, Value>, d: DataMap) => Outcome(Some(ElementData("b", map[])), false, None)));
    var s0 := RunState(false, None, Empty(), [], []);
    assert [boom, store][..1] == [boom];
    assert [boom][..0] == [];
    assert Run(s0, [boom], Empty(), [boom, store]) == Step(s0, boom, Empty(), [boom, store]);
  }

  /** The first error recorded, which `process` rethrows unless exceptions are suppressed. */
  function FirstError(errors: OMap<string, Error>): (r: Option<Error>)
    requires errors.Valid()
    ensures r.Some? <==> |errors.keys| > 0
    ensures r.Some? ==> r.value == errors.vals[errors.keys[0]]
  {
    if |errors.keys| > 0 then Some(errors.vals[errors.keys[0]]) else None
  }

  // ---------------------------------------------------------------------
  // getWhere as a specification
  // ---------------------------------------------------------------------

  /** `$value['flowElement']`: the data key a property-database entry is tagged with. */
  function OwnerOf(meta: Metadata): string {
    if "flowElement" in meta.vals && meta.vals["flowElement"].Str? then meta.vals["flowElement"].s else ""
  }

  /** The first loop of `getWhere`: property name -> owning data key, for the first `n` entries. */
  function OwnersUpTo(bucket: Bucket, n: nat): OMap<string, string>
    requires n <= |bucket.keys|
  {
    if n == 0 then Empty()
    else
      var k := bucket.keys[n - 1];
      OwnersUpTo(bucket, n - 1).Put(k, if k in bucket.vals then OwnerOf(bucket.vals[k]) else "")
  }

  /** Whether `getWhere` returns a value for `key` owned by `owner`. */
  predicate Found(data: DataMap, owner: string, key: string) {
    data.Some? && owner in data.value.vals && data.value.vals[owner].Get(key).Ok?
  }

  /** The second loop of `getWhere`, over the first `n` owners. */
  function CollectUpTo(owners: OMap<string, string>, data: DataMap, n: nat): OMap<string, Value>
    requires n <= |owners.keys|
  {
    if n == 0 then Empty()
    else
      var k := owners.keys[n - 1];
      var prev := CollectUpTo(owners, data, n - 1);
      if k in owners.vals && Found(data, owners.vals[k], k) then
        prev.Put(k, data.value.vals[owners.vals[k]].Get(k).value)
      else prev
  }

  /** The bucket `getWhere(metaKey, metaValue)` reads, if any. */
  function BucketFor(db: Db, metaKey: string, metaValue: string): Option<Bucket> {
    var f, v := ToLower(metaKey), ToLower(metaValue);
    if f in db && v in db[f] then Some(db[f][v]) else None
  }

  /** `getWhere` as a specification. */
  function Where(db: Db, data: DataMap, metaKey: string, metaValue: string): OMap<string, Value> {
    match BucketFor(db, metaKey, metaValue)
    case None => Empty()
    case Some(bucket) =>
      var owners := OwnersUpTo(bucket, |bucket.keys|);
      CollectUpTo(owners, data, |owners.keys|)
  }

  /** The owners map lists the bucket's first `n` property names, in order, once each. */
  lemma {:induction false} OwnersUpToKeys(bucket: Bucket, n: nat)
    requires bucket.Valid() && n <= |bucket.keys|
    ensures OwnersUpTo(bucket, n).keys == bucket.keys[..n]
    ensures forall k :: k in OwnersUpTo(bucket, n).vals <==> k in bucket.keys[..n]
  {
    if n > 0 {
      OwnersUpToKeys(bucket, n - 1);
      var prev := OwnersUpTo(bucket, n - 1);
      var k := bucket.keys[n - 1];
      var init := bucket.keys[..n - 1];
      assert k !in init by {
        forall i | 0 <= i < n - 1 ensures init[i] != k {
          assert bucket.keys[i] != bucket.keys[n - 1];
        }
      }
      assert bucket.keys[..n] == bucket.keys[..n - 1] + [k];
    }
  }

  lemma {:induction false} OwnersUpToValues(bucket: Bucket, n: nat)
    requires bucket.Valid() && n <= |bucket.keys|
    ensures forall k :: k in OwnersUpTo(bucket, n).vals ==>
      k in bucket.vals && OwnersUpTo(bucket, n).vals[k] == OwnerOf(bucket.vals[k])
  {
    if n > 0 {
      OwnersUpToValues(bucket, n - 1);
      var prev := OwnersUpTo(bucket, n - 1);
      var k := bucket.keys[n - 1];
      assert OwnersUpTo(bucket, n).vals == prev.vals[k := OwnerOf(bucket.vals[k])];
    }
  }

  lemma OwnersUpToShape(bucket: Bucket)
    requires bucket.Valid()
    ensures OwnersUpTo(bucket, |bucket.keys|).Valid()
    ensures forall k :: k in OwnersUpTo(bucket, |bucket.keys|).vals <==> k in bucket.vals
    ensures forall k :: k in OwnersUpTo(bucket, |bucket.keys|).vals ==>
      OwnersUpTo(bucket, |bucket.keys|).vals[k] == OwnerOf(bucket.vals[k])
  {
    OwnersUpToKeys(bucket, |bucket.keys|);
    OwnersUpToValues(bucket, |bucket.keys|);
    assert bucket.keys[..|bucket.keys|] == bucket.keys;
    assert forall k :: k in OwnersUpTo(bucket, |bucket.keys|).vals <==> k in bucket.keys;
  }

  lemma {:induction false} CollectUpToContents(owners: OMap<string, string>, data: DataMap, n: nat)
    requires owners.Valid() && n <= |owners.keys|
    ensures forall k :: k in CollectUpTo(owners, data, n).vals <==>
      k in owners.keys[..n] && Found(data, owners.vals[k], k)
    ensures forall k :: k in CollectUpTo(owners, data, n).vals ==>
      && k in owners.vals && Found(data, owners.vals[k], k)
      && CollectUpTo(owners, data, n).vals[k] == data.value.vals[owners.vals[k]].Get(k).value
  {
    if n > 0 {
      CollectUpToContents(owners, data, n - 1);
      assert owners.keys[..n] == owners.keys[..n - 1] + [owners.keys[n - 1]];
    }
  }

  /**
   * `getWhere` returns exactly the properties filed under the lower-cased
   * field and value whose owning element has data holding the property, each
   * with that data's value.
   */
  lemma WhereContents(db: Db, data: DataMap, metaKey: string, metaValue: string)
    requires BucketsValid(db)
    ensures forall k :: k in Where(db, data, metaKey, metaValue).vals <==>
      && BucketFor(db, metaKey, metaValue).Some?
      && k in BucketFor(db, metaKey, metaValue).value.vals
      && Found(data, OwnerOf(BucketFor(db, metaKey, metaValue).value.vals[k]), k)
    ensures forall k :: k in Where(db, data, metaKey, metaValue).vals ==>
      && BucketFor(db, metaKey, metaValue).Some?
      && k in BucketFor(db, metaKey, metaValue).value.vals
      && Found(data, OwnerOf(BucketFor(db, metaKey, metaValue).value.vals[k]), k)
      && Where(db, data, metaKey, metaValue).vals[k] ==
           data.value.vals[OwnerOf(BucketFor(db, metaKey, metaValue).value.vals[k])].Get(k).value
  {
    if BucketFor(db, metaKey, metaValue).Some? {
      var bucket := BucketFor(db, metaKey, metaValue).value;
      OwnersUpToShape(bucket);
      var owners := OwnersUpTo(bucket, |bucket.keys|);
      CollectUpToContents(owners, data, |owners.keys|);
      assert owners.keys[..|owners.keys|] == owners.keys;
    }
  }

  /**
   * Once an element has been indexed, any of its properties whose metadata
   * field holds a string value is found by `getWhere` on that field and
   * value as soon as the element has stored data holding the property.
   */
  lemma IndexedIsFound(db: Db, e: Stage, name: string, field: string, value: string, data: DataMap)
    requires e.Valid() && BucketsValid(db)
    requires name in e.properties.vals && e.properties.vals[name].Valid() && field in e.properties.vals[name].vals
    requires e.properties.vals[name].vals[field] == Str(value)
    requires Found(data, e.dataKey, name)
    ensures name in Where(IndexElement(db, e), data, field, value).vals
    ensures Where(IndexElement(db, e), data, field, value).vals[name] == data.value.vals[e.dataKey].Get(name).value
  {
    IndexElementContents(db, e);
    var db2 := IndexElement(db, e);
    var meta := e.properties.vals[name];
    assert field in meta.keys;
    assert FieldIndexed(db2, e.dataKey, name, meta, field);
    assert OwnerOf(Tagged(meta, e.dataKey)) == e.dataKey;
    WhereContents(db2, data, field, value);
  }

  // ---------------------------------------------------------------------
  // getEvidenceDataKey as a specification
  // ---------------------------------------------------------------------

  /** `array_merge($a, $b)` for string keys: `b`'s entries written over `a` in `b`'s order. */
  function MergeUpTo(a: OMap<string, Value>, b: OMap<string, Value>, n: nat): (r: OMap<string, Value>)
    requires n <= |b.keys|
    ensures a.Valid() ==> r.Valid()
  {
    if n == 0 then a
    else
      var k := b.keys[n - 1];
      var prev := MergeUpTo(a, b, n - 1);
      if k in b.vals then prev.Put(k, b.vals[k]) else prev
  }

  function ArrayMerge(a: OMap<string, Value>, b: OMap<string, Value>): OMap<string, Value> {
    MergeUpTo(a, b, |b.keys|)
  }

  lemma MergeUpToContents(a: OMap<string, Value>, b: OMap<string, Value>, n: nat)
    requires a.Valid() && b.Valid() && n <= |b.keys|
    ensures MergeUpTo(a, b, n).Valid()
    ensures forall k :: k in MergeUpTo(a, b, n).vals <==> k in a.vals || k in b.keys[..n]
    ensures forall k :: k in MergeUpTo(a, b, n).vals ==>
      MergeUpTo(a, b, n).vals[k] == if k in b.keys[..n] then b.vals[k] else a.vals[k]
  {
    MergeKeysContents(a, b, n);
  }

  /** The contents of a partial merge; only needs every key of `b` to have a value. */
  lemma {:induction false} MergeKeysContents(a: OMap<string, Value>, b: OMap<string, Value>, n: nat)
    requires n <= |b.keys| && forall i :: 0 <= i < |b.keys| ==> b.keys[i] in b.vals
    ensures forall k :: k in MergeUpTo(a, b, n).vals <==> k in a.vals || k in b.keys[..n]
    ensures forall k :: k in MergeUpTo(a, b, n).vals ==>
      MergeUpTo(a, b, n).vals[k] == if k in b.keys[..n] then b.vals[k] else a.vals[k]
  {
    if n == 0 {
      assert b.keys[..n] == [];
    } else {
      var k, prev, r := b.keys[n - 1], MergeUpTo(a, b, n - 1), MergeUpTo(a, b, n);
      assert r.vals == prev.vals[k := b.vals[k]];
      MergeKeysContents(a, b, n - 1);
      forall x
        ensures x in r.vals <==> x in a.vals || x in b.keys[..n]
        ensures x in r.vals ==> r.vals[x] == if x in b.keys[..n] then b.vals[x] else a.vals[x]
      {
        assert x in b.keys[..n] <==> x in b.keys[..n - 1] || x == k by {
          assert b.keys[..n] == b.keys[..n - 1] + [k];
        }
      }
    }
  }

  /** The loop of `getEvidenceDataKey` over the first `n` elements. */
  function RequestedUpTo(stages: seq<Stage>, evidence: OMap<string, Value>, n: nat): OMap<string, Value>
    requires n <= |stages|
  {
    if n == 0 then Empty()
    else ArrayMerge(RequestedUpTo(stages, evidence, n - 1), FilterEvidence(stages[n - 1].filter, evidence))
  }

  /** Whether some element among the first `n` accepts `key`. */
  predicate SomeAccepts(stages: seq<Stage>, key: string) {
    exists i :: 0 <= i < |stages| && stages[i].FilterEvidenceKey(key)
  }

  /**
   * The requested evidence is the evidence restricted to the keys at least
   * one element's filter accepts, with the evidence's values.
   */
  lemma {:induction false} RequestedContents(stages: seq<Stage>, evidence: OMap<string, Value>, n: nat)
    requires evidence.Valid() && n <= |stages|
    ensures RequestedUpTo(stages, evidence, n).Valid()
    ensures forall k :: k in RequestedUpTo(stages, evidence, n).vals <==>
      k in evidence.vals && SomeAccepts(stages[..n], k)
    ensures forall k :: k in RequestedUpTo(stages, evidence, n).vals ==>
      RequestedUpTo(stages, evidence, n).vals[k] == evidence.vals[k]
  {
    if n > 0 {
      RequestedContents(stages, evidence, n - 1);
      var prev := RequestedUpTo(stages, evidence, n - 1);
      var filtered := FilterEvidence(stages[n - 1].filter, evidence);
      FilterEvidenceIsAcceptedSubmap(stages[n - 1].filter, evidence);
      MergeUpToContents(prev, filtered, |filtered.keys|);
      assert filtered.keys[..|filtered.keys|] == filtered.keys;
      forall k ensures SomeAccepts(stages[..n], k) <==> SomeAccepts(stages[..n - 1], k) || stages[n - 1].FilterEvidenceKey(k) {
        if SomeAccepts(stages[..n], k) {
          var i :| 0 <= i < n && stages[..n][i].FilterEvidenceKey(k);
          if i < n - 1 {
            assert stages[..n - 1][i] == stages[..n][i];
          }
        }
        if SomeAccepts(stages[..n - 1], k) {
          var i :| 0 <= i < n - 1 && stages[..n - 1][i].FilterEvidenceKey(k);
          assert stages[..n][i] == stages[..n - 1][i];
        }
        if stages[n - 1].FilterEvidenceKey(k) {
          assert stages[..n][n - 1] == stages[n - 1];
        }
      }
    }
  }

  // ---------------------------------------------------------------------
  // Evidence
  // ---------------------------------------------------------------------

  /** The position of the first element whose filter accepts `key`, if any. */
  function FirstAccepting(stages: seq<Stage>, key: string): (r: Option<nat>)
    ensures r.Some? ==> r.value < |stages| && stages[r.value].FilterEvidenceKey(key)
    ensures r.Some? ==> forall j :: 0 <= j < r.value ==> !stages[j].FilterEvidenceKey(key)
    ensures r.None? ==> forall j :: 0 <= j < |stages| ==> !stages[j].FilterEvidenceKey(key)
  {
    if stages == [] then None
    else if stages[0].FilterEvidenceKey(key) then Some(0)
    else match FirstAccepting(stages[1..], key)
      case None => None
      case Some(i) => Some(i + 1)
  }

  /** `set(k, v)` on the store, given the pipeline's elements. */
  function SetOne(store: OMap<string, Value>, stages: seq<Stage>, key: string, value: Value): OMap<string, Value> {
    if FirstAccepting(stages, key).Some? then store.Put(key, value) else store
  }

  /** `setArray` over the first `n` entries of `entries`. */
  function SetAllUpTo(store: OMap<string, Value>, stages: seq<Stage>, entries: OMap<string, Value>, n: nat): OMap<string, Value>
    requires n <= |entries.keys|
  {
    if n == 0 then store
    else
      var k := entries.keys[n - 1];
      var prev := SetAllUpTo(store, stages, entries, n - 1);
      if k in entries.vals then SetOne(prev, stages, k, entries.vals[k]) else prev
  }

  /**
   * After `setArray`, an entry is stored exactly when some element accepts
   * its key, with the array's value; keys no element accepts keep what the
   * store held.
   */
  lemma {:induction false} SetAllContents(store: OMap<string, Value>, stages: seq<Stage>, entries: OMap<string, Value>, n: nat)
    requires entries.Valid() && n <= |entries.keys|
    ensures forall k :: k in SetAllUpTo(store, stages, entries, n).vals <==>
      k in store.vals || (k in entries.keys[..n] && SomeAccepts(stages, k))
    ensures forall k :: k in SetAllUpTo(store, stages, entries, n).vals ==>
      SetAllUpTo(store, stages, entries, n).vals[k] ==
        if k in entries.keys[..n] && SomeAccepts(stages, k) then entries.vals[k] else store.vals[k]
  {
    if n > 0 {
      SetAllContents(store, stages, entries, n - 1);
      var prev := SetAllUpTo(store, stages, entries, n - 1);
      var k := entries.keys[n - 1];
      assert entries.keys[..n] == entries.keys[..n - 1] + [k];
      var accepted := FirstAccepting(stages, k).Some?;
      assert accepted <==> SomeAccepts(stages, k);
      assert SetAllUpTo(store, stages, entries, n) == if accepted then prev.Put(k, entries.vals[k]) else prev;
    }
  }

  /** A value that is neither a PHP array nor an object: `foreach` over it visits nothing. */
  type Scalar = v: Value | v.Null? || v.Bool? || v.Int? || v.Str? witness Null

  /** What `setArray` is given: a PHP array, or a scalar. */
  datatype ArrayArg = Entries(entries: OMap<string, Value>) | NotArray(value: Scalar)

  class FlowData {
    const pipeline: Pipeline
    var evidence: Evidence
    var stopped: bool
    var processed: bool
    var data: DataMap
    var errors: OMap<string, Error>

    ghost predicate Valid()
      reads this, evidence
    {
      && errors.Valid()
      && (data.Some? ==> data.value.Valid())
      && evidence.flowData == this
      && evidence.evidence.Valid()
    }

    /** A FlowData for `p`: not processed, not stopped, no data, no errors, empty evidence. */
    constructor (p: Pipeline)
      ensures pipeline == p
      ensures !processed && !stopped && data.None? && errors == Empty()
      ensures fresh(evidence) && evidence.evidence == Empty()
      ensures Valid()
    {
      pipeline := p;
      stopped := false;
      processed := false;
      data := None;
      errors := Empty();
      evidence := new Evidence(null);
      new;
      evidence.flowData := this;
    }

    /** The state `process` starts from. */
    function State(): RunState
      reads this
    {
      RunState(stopped, data, errors, [], [])
    }

    /**
     * `process`: the first call runs the elements in order until one stops
     * the pass, recording each exception under the element's data key; any
     * later call records `FlowData already processed` under `global`.  Then
     * the first recorded error is thrown unless exceptions are suppressed.
     */
    method Process() returns (r: Result<(), Error>)
      requires Valid()
      modifies this, pipeline.logger
      ensures Valid() && processed && evidence == old(evidence)
      ensures !old(processed) ==>
        var run := Run(old(State()), pipeline.flowElements, old(evidence.evidence), pipeline.flowElements);
        && stopped == run.stopped && data == run.data && errors == run.errors
        && pipeline.logger.delivered == old(pipeline.logger.delivered) + Gate(pipeline.logger.minLevel, "error", run.logged)
      ensures old(processed) ==>
        && stopped == old(stopped) && data == old(data)
        && errors == old(errors).Put("global", FlowDataProcessed)
        && pipeline.logger.delivered == old(pipeline.logger.delivered) +
             Gate(pipeline.logger.minLevel, "error", [ErrorLogMessage("global", FlowDataProcessed)])
      ensures r.Err? <==> |errors.keys| > 0 && !pipeline.suppressProcessExceptions
      ensures r.Err? ==> r.error == errors.vals[errors.keys[0]]
    {
      if !processed {
        RunElements();
        processed := true;
      } else {
        SetError("global", FlowDataProcessed);
      }
      if |errors.keys| > 0 && !pipeline.suppressProcessExceptions {
        return Err(errors.vals[errors.keys[0]]);
      }
      return Ok(());
    }

    /** The loop of `process`: each element in pipeline order gets its turn unless the pass was stopped. */
    method RunElements()
      requires Valid()
      modifies this, pipeline.logger
      ensures Valid() && evidence == old(evidence) && processed == old(processed)
      ensures var run := Run(old(State()), pipeline.flowElements, evidence.evidence, pipeline.flowElements);
        && stopped == run.stopped && data == run.data && errors == run.errors
        && pipeline.logger.delivered == old(pipeline.logger.delivered) + Gate(pipeline.logger.minLevel, "error", run.logged)
    {
      var stages := pipeline.flowElements;
      ghost var st0 := State();
      ghost var st := st0;
      var i := 0;
      while i < |stages|
        invariant 0 <= i <= |stages|
        invariant evidence == old(evidence) && processed == old(processed) && Valid()
        invariant st == Run(st0, stages[..i], evidence.evidence, stages)
        invariant stopped == st.stopped && data == st.data && errors == st.errors
        invariant pipeline.logger.delivered == old(pipeline.logger.delivered) + Gate(pipeline.logger.minLevel, "error", st.logged)
      {
        RunSnoc(st0, stages, i, evidence.evidence);
        st := Turn(stages[i], st, old(pipeline.logger.delivered));
        i := i + 1;
      }
      assert stages[..i] == stages;
    }

    /** One iteration of the loop in `process`: the element runs unless the pass was stopped. */
    method Turn(e: Stage, ghost st: RunState, ghost base: seq<LogRecord>) returns (ghost next: RunState)
      requires Valid()
      requires st.stopped == stopped && st.data == data && st.errors == errors
      requires pipeline.logger.delivered == base + Gate(pipeline.logger.minLevel, "error", st.logged)
      modifies this, pipeline.logger
      ensures Valid() && evidence == old(evidence) && processed == old(processed)
      ensures next == Step(st, e, evidence.evidence, pipeline.flowElements)
      ensures stopped == next.stopped && data == next.data && errors == next.errors
      ensures pipeline.logger.delivered == base + Gate(pipeline.logger.minLevel, "error", next.logged)
    {
      if !stopped {
        next := Proceed(e, st, base);
      } else {
        next := st;
      }
    }

    /** The turn of an element when the pass has not been stopped. */
    method Proceed(e: Stage, ghost st: RunState, ghost base: seq<LogRecord>) returns (ghost next: RunState)
      requires Valid() && !stopped
      requires st.stopped == stopped && st.data == data && st.errors == errors
      requires pipeline.logger.delivered == base + Gate(pipeline.logger.minLevel, "error", st.logged)
      modifies this, pipeline.logger
      ensures Valid() && evidence == old(evidence) && processed == old(processed)
      ensures next == Step(st, e, evidence.evidence, pipeline.flowElements)
      ensures stopped == next.stopped && data == next.data && errors == next.errors
      ensures pipeline.logger.delivered == base + Gate(pipeline.logger.minLevel, "error", next.logged)
    {
      next := Step(st, e, evidence.evidence, pipeline.flowElements);
      ghost var extra := ProcessElement(e, st);
      GateExtend(pipeline.logger.minLevel, "error", base, st.logged, extra);
    }

    /**
     * One element's turn in `process`: call its `process`, store what it
     * produced, honour `stop()`, and catch its exception into `errors`.
     * `extra` holds what `setError` logged.
     */
    method ProcessElement(e: Stage, ghost st: RunState) returns (ghost extra: seq<string>)
      requires Valid() && !stopped
      requires st.stopped == stopped && st.data == data && st.errors == errors
      modifies this, pipeline.logger
      ensures Valid() && evidence == old(evidence) && processed == old(processed)
      ensures var next := Step(st, e, evidence.evidence, pipeline.flowElements);
        && stopped == next.stopped && data == next.data && errors == next.errors
        && next.logged == st.logged + extra
      ensures pipeline.logger.delivered == old(pipeline.logger.delivered) + Gate(pipeline.logger.minLevel, "error", extra)
    {
      var o := Invoke(e, evidence.evidence, data, pipeline.flowElements);
      if o.output.Some? {
        SetElementData(o.output.value);
      }
      if o.stop {
        Stop();
      }
      extra := [];
      if o.raised.Some? {
        SetError(e.dataKey, o.raised.value);
        extra := [ErrorLogMessage(e.dataKey, o.raised.value)];
      }
    }

    /** `get($key)`: the stored data, or the exception naming what is there. */
    function Get(key: string): (r: Result<ElementData, Error>)
      reads this
      ensures r.Ok? <==> data.Some? && key in data.value.vals
      ensures r.Ok? ==> r.value == data.value.vals[key]
      ensures data.None? ==> r == Err(NoElementDataNull(key))
      ensures data.Some? && key !in data.value.vals ==> r == Err(NoElementData(key, data.value.keys))
    {
      GetElementData(data, key)
    }

    /** `getFromElement($e)`: the data stored under the element's data key, or `get`'s exception. */
    function GetFromElement(e: Stage): (r: Result<ElementData, Error>)
      reads this
      ensures r.Ok? <==> data.Some? && e.dataKey in data.value.vals
      ensures r.Ok? ==> r.value == data.value.vals[e.dataKey]
      ensures r.Err? ==> r == Get(e.dataKey)
    {
      Get(e.dataKey)
    }

    /** `setElementData($d)`: store or overwrite under the owning element's key. */
    method SetElementData(d: ElementData)
      requires Valid()
      modifies this
      ensures data.Some? && data.value.vals == (if old(data).Some? then old(data).value.vals else map[])[d.owner := d]
      ensures data == StoreElementData(old(data), d)
      ensures Valid()
      ensures stopped == old(stopped) && errors == old(errors) && processed == old(processed) && evidence == old(evidence)
    {
      if data.None? {
        data := Some(Empty());
      }
      data := Some(data.value.Put(d.owner, d));
    }

    /** `setError($key, $e)`: record under `key` and log at level `error`. */
    method SetError(key: string, e: Error)
      requires Valid()
      modifies this, pipeline.logger
      ensures errors == old(errors).Put(key, e)
      ensures pipeline.logger.delivered == old(pipeline.logger.delivered) +
        Gate(pipeline.logger.minLevel, "error", [ErrorLogMessage(key, e)])
      ensures Valid()
      ensures stopped == old(stopped) && data == old(data) && processed == old(processed) && evidence == old(evidence)
    {
      errors := errors.Put(key, e);
      var detail := "";
      if !PhpEmpty(key) {
        detail := " of " + key + ". \n" + Message(e);
      }
      pipeline.Log("error", "Error occurred during processing" + detail);
    }

    /** `stop()`: later elements will not run. */
    method Stop()
      modifies this
      ensures stopped
      ensures data == old(data) && errors == old(errors) && processed == old(processed) && evidence == old(evidence)
    {
      stopped := true;
    }

    /**
     * `getWhere`: the properties filed in the property database under the
     * lower-cased field and value, with their values from the data of the
     * element that owns them; lookups that throw are skipped.
     */
    method GetWhere(metaKey: string, metaValue: string) returns (output: OMap<string, Value>)
      ensures output == Where(pipeline.propertyDatabase, data, metaKey, metaValue)
    {
      var f := ToLower(metaKey);
      var v := ToLower(metaValue);
      var keys: OMap<string, string> := Empty();
      if f in pipeline.propertyDatabase && v in pipeline.propertyDatabase[f] {
        keys := OwnersOf(pipeline.propertyDatabase[f][v]);
      }
      output := CollectFound(keys, data);
    }

    /** The second loop of `getWhere`: each property whose owner's data holds it, with its value. */
    static method CollectFound(keys: OMap<string, string>, data: DataMap) returns (output: OMap<string, Value>)
      ensures output == CollectUpTo(keys, data, |keys.keys|)
    {
      output := Empty();
      var j := 0;
      while j < |keys.keys|
        invariant 0 <= j <= |keys.keys|
        invariant output == CollectUpTo(keys, data, j)
      {
        var key := keys.keys[j];
        if key in keys.vals {
          var owner := keys.vals[key];
          if data.Some? && owner in data.value.vals {
            var found := data.value.vals[owner].Get(key);
            if found.Ok? {
              output := output.Put(key, found.value);
            }
          }
        }
        j := j + 1;
      }
    }

    /** The first loop of `getWhere`: each filed property with the data key it is tagged with. */
    static method OwnersOf(bucket: Bucket) returns (keys: OMap<string, string>)
      ensures keys == OwnersUpTo(bucket, |bucket.keys|)
    {
      keys := Empty();
      var i := 0;
      while i < |bucket.keys|
        invariant 0 <= i <= |bucket.keys|
        invariant keys == OwnersUpTo(bucket, i)
      {
        var key := bucket.keys[i];
        keys := keys.Put(key, if key in bucket.vals then OwnerOf(bucket.vals[key]) else "");
        i := i + 1;
      }
    }

    /**
     * `getEvidenceDataKey`: the evidence entries at least one element's
     * filter accepts, merged element by element.
     */
    method GetEvidenceDataKey() returns (requested: OMap<string, Value>)
      ensures requested == RequestedUpTo(pipeline.flowElements, evidence.evidence, |pipeline.flowElements|)
    {
      requested := Empty();
      var all := evidence.GetAll();
      var stages := pipeline.flowElements;
      var i := 0;
      while i < |stages|
        invariant 0 <= i <= |stages|
        invariant requested == RequestedUpTo(stages, all, i)
      {
        var filtered := FilterEvidence(stages[i].filter, all);
        var j := 0;
        ghost var before := requested;
        while j < |filtered.keys|
          invariant 0 <= j <= |filtered.keys|
          invariant requested == MergeUpTo(before, filtered, j)
        {
          var key := filtered.keys[j];
          if key in filtered.vals {
            requested := requested.Put(key, filtered.vals[key]);
          }
          j := j + 1;
        }
        i := i + 1;
      }
    }
  }

  /** `createFlowData`: a fresh FlowData bound to the pipeline. */
  method CreateFlowData(p: Pipeline) returns (fd: FlowData)
    ensures fresh(fd) && fd.pipeline == p
    ensures !fd.processed && !fd.stopped && fd.data.None? && fd.errors == Empty()
    ensures fd.evidence.evidence == Empty()
    ensures fd.Valid()
  {
    fd := new FlowData(p);
  }

  /**
   * The evidence store of one FlowData.  `flowData` is set once, right after
   * the FlowData that owns the store is allocated.
   */
  class Evidence {
    var flowData: FlowData?
    var evidence: OMap<string, Value>

    constructor (owner: FlowData?)
      ensures flowData == owner && evidence == Empty()
    {
      flowData := owner;
      evidence := Empty();
    }

    /**
     * `set($key, $value)`: ask the elements' filters in pipeline order and
     * store the value at the first one that accepts the key.  `consulted`
     * counts the filters asked.
     */
    method Set(key: string, value: Value) returns (ghost consulted: nat)
      requires flowData != null
      modifies this
      ensures flowData == old(flowData)
      ensures evidence == SetOne(old(evidence), flowData.pipeline.flowElements, key, value)
      ensures consulted == match FirstAccepting(flowData.pipeline.flowElements, key)
        case Some(i) => i + 1
        case None => |flowData.pipeline.flowElements|
    {
      var stages := flowData.pipeline.flowElements;
      var i := 0;
      while i < |stages|
        invariant 0 <= i <= |stages|
        invariant evidence == old(evidence) && flowData == old(flowData)
        invariant forall j :: 0 <= j < i ==> !stages[j].FilterEvidenceKey(key)
      {
        if stages[i].FilterEvidenceKey(key) {
          evidence := evidence.Put(key, value);
          return i + 1;
        }
        i := i + 1;
      }
      return |stages|;
    }

    /**
     * `setArray($array)`: a value that is not an array records `Must pass key
     * and value` under `core` and sets nothing; an array is `set` entry by
     * entry in its order.
     */
    method SetArray(arg: ArrayArg)
      requires flowData != null && flowData.Valid() && flowData.evidence == this
      modifies this, flowData, flowData.pipeline.logger
      ensures flowData == old(flowData) && flowData.Valid() && flowData.evidence == this
      ensures arg.NotArray? ==>
        && evidence == old(evidence)
        && flowData.errors == old(flowData.errors).Put("core", PassKeyValue)
        && flowData.pipeline.logger.delivered == old(flowData.pipeline.logger.delivered) +
             Gate(flowData.pipeline.logger.minLevel, "error", [ErrorLogMessage("core", PassKeyValue)])
      ensures arg.Entries? ==>
        && evidence == SetAllUpTo(old(evidence), flowData.pipeline.flowElements, arg.entries, |arg.entries.keys|)
        && flowData.errors == old(flowData.errors)
        && flowData.pipeline.logger.delivered == old(flowData.pipeline.logger.delivered)
      ensures flowData.data == old(flowData.data) && flowData.stopped == old(flowData.stopped)
      ensures flowData.processed == old(flowData.processed)
    {
      match arg
      case NotArray(_) =>
        flowData.SetError("core", PassKeyValue);
      case Entries(entries) =>
        var i := 0;
        while i < |entries.keys|
          invariant 0 <= i <= |entries.keys|
          invariant flowData == old(flowData) && flowData.evidence == this
          invariant flowData.errors == old(flowData.errors) && flowData.data == old(flowData.data)
          invariant flowData.stopped == old(flowData.stopped) && flowData.processed == old(flowData.processed)
          invariant evidence == SetAllUpTo(old(evidence), flowData.pipeline.flowElements, entries, i)
          invariant evidence.Valid()
          invariant flowData.pipeline.logger.delivered == old(flowData.pipeline.logger.delivered)
        {
          var key := entries.keys[i];
          if key in entries.vals {
            var _ := Set(key, entries.vals[key]);
          }
          i := i + 1;
        }
    }

    /** `get($key)`: the stored value, or null when the key is absent. */
    function Get(key: string): (v: Value)
      reads this
      ensures key in evidence.vals ==> v == evidence.vals[key]
      ensures key !in evidence.vals ==> v == Null
    {
      if key in evidence.vals then evidence.vals[key] else Null
    }

    /** `getAll()`: the whole store. */
    function GetAll(): (all: OMap<string, Value>)
      reads this
      ensures all == evidence
    {
      evidence
    }
  }
}
