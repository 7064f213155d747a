/**
 * The pipeline's property database: lower-case metadata field -> lower-case
 * metadata value -> property name -> that property's metadata with
 * `flowElement` set to the owning element's data key.  This module holds the
 * indexing of one element as a function and what it guarantees; the method
 * that performs it in place is `Pipelines.Pipeline.UpdatePropertyDatabaseForFlowElement`.
 */
module PropertyIndex {
  import opened Wrappers
  import opened OrderedMaps
  import opened Text
  import opened Values
  import opened Elements

  /** Property name -> tagged metadata, in the order the properties were first indexed. */
  type Bucket = OMap<string, Metadata>
  type Db = map<string, map<string, Bucket>>

  ghost predicate BucketsValid(db: Db) {
    forall f, v :: f in db && v in db[f] ==> db[f][v].Valid()
  }

  /** The metadata with `flowElement` set to the owner's key, as it is stored. */
  function Tagged(meta: Metadata, dataKey: string): Metadata {
    meta.Put("flowElement", Str(dataKey))
  }

  /** One pass of the inner loop: field `field` of property `name`.  The
      field's bucket is created even when its value is not a string. */
  function IndexField(db: Db, dataKey: string, name: string, meta: Metadata, field: string): Db {
    if field !in meta.vals then db
    else
      var f := ToLower(field);
      var db1 := if f in db then db else db[f := map[]];
      match meta.vals[field]
      case Str(s) =>
        var v := ToLower(s);
        var bucket := if v in db1[f] then db1[f][v] else Empty();
        db1[f := db1[f][v := bucket.Put(name, Tagged(meta, dataKey))]]
      case _ => db1
  }

  /** The inner loop after its first `n` fields. */
  function IndexFields(db: Db, dataKey: string, name: string, meta: Metadata, n: nat): Db
    requires n <= |meta.keys|
  {
    if n == 0 then db
    else IndexField(IndexFields(db, dataKey, name, meta, n - 1), dataKey, name, meta, meta.keys[n - 1])
  }

  /** The outer loop after its first `n` properties. */
  function IndexProperties(db: Db, dataKey: string, props: Properties, n: nat): Db
    requires n <= |props.keys|
  {
    if n == 0 then db
    else
      var prev := IndexProperties(db, dataKey, props, n - 1);
      var name := props.keys[n - 1];
      if name in props.vals then IndexFields(prev, dataKey, name, props.vals[name], |props.vals[name].keys|)
      else prev
  }

  /** `updatePropertyDatabaseForFlowElement($e)`.  The purge loop that precedes
      the indexing in the source unsets entries of `foreach` copies only, so it
      leaves the database as it was and has no counterpart here. */
  function IndexElement(db: Db, e: Stage): Db {
    IndexProperties(db, e.dataKey, e.properties, |e.properties.keys|)
  }

  /** The constructor's registration loop, as far as the database goes. */
  function IndexAll(db: Db, stages: seq<Stage>): Db {
    if stages == [] then db
    else IndexElement(IndexAll(db, stages[..|stages| - 1]), stages[|stages| - 1])
  }

  /** Field `field` of property `name` is in the database as indexing puts it there. */
  ghost predicate FieldIndexed(db: Db, dataKey: string, name: string, meta: Metadata, field: string) {
    field in meta.vals ==>
      && ToLower(field) in db
      && (meta.vals[field].Str? ==>
            var f, v := ToLower(field), ToLower(meta.vals[field].s);
            && v in db[f]
            && name in db[f][v].vals
            && db[f][v].vals[name] == Tagged(meta, dataKey))
  }

  ghost predicate FieldsIndexed(db: Db, dataKey: string, name: string, meta: Metadata, fields: seq<string>) {
    forall field :: field in fields ==> FieldIndexed(db, dataKey, name, meta, field)
  }

  /** Every field of every property of `e` is in the database. */
  ghost predicate Indexed(db: Db, e: Stage) {
    forall name :: name in e.properties.vals ==>
      FieldsIndexed(db, e.dataKey, name, e.properties.vals[name], e.properties.vals[name].keys)
  }

  /**
   * `db2` keeps every bucket and every entry of `db`; entries for properties
   * outside `written` keep their value, and no entry loses its position.
   */
  ghost predicate Extends(db: Db, db2: Db, written: set<string>) {
    && (forall f :: f in db ==> f in db2)
    && (forall f, v :: f in db && v in db[f] ==>
          && v in db2[f]
          && db[f][v].keys <= db2[f][v].keys
          && (forall p :: p in db[f][v].vals ==>
                p in db2[f][v].vals && (p !in written ==> db2[f][v].vals[p] == db[f][v].vals[p])))
  }

  lemma ExtendsTrans(db: Db, db2: Db, db3: Db, w: set<string>)
    requires Extends(db, db2, w) && Extends(db2, db3, w)
    ensures Extends(db, db3, w)
  {
  }

  lemma ExtendsWiden(db: Db, db2: Db, w: set<string>, w2: set<string>)
    requires Extends(db, db2, w) && w <= w2
    ensures Extends(db, db2, w2)
  {
  }

  /** Some field of `meta` lower-cases to `f`. */
  ghost predicate BucketOf(f: string, meta: Metadata) {
    exists field :: field in meta.vals && f == ToLower(field)
  }

  /** Some string-valued field of `meta` files its property under field `f`, value `v`. */
  ghost predicate FiledUnder(f: string, v: string, meta: Metadata) {
    exists field :: field in meta.vals && meta.vals[field].Str? && f == ToLower(field) && v == ToLower(meta.vals[field].s)
  }

  /** Some property of `owners` has a field that lower-cases to `f`. */
  ghost predicate OwnedBucket(f: string, owners: map<string, Metadata>) {
    exists p :: p in owners && BucketOf(f, owners[p])
  }

  /** Entry `p` of bucket `f`/`v` is in `db2` because `db` already had it there, with that value. */
  ghost predicate Kept(db: Db, db2: Db, f: string, v: string, p: string) {
    && f in db && v in db[f] && p in db[f][v].vals
    && f in db2 && v in db2[f] && p in db2[f][v].vals
    && db2[f][v].vals[p] == db[f][v].vals[p]
  }

  /** Entry `p` of bucket `f`/`v` of `db2` is owner `p` filed under one of its string fields. */
  ghost predicate Filed(db2: Db, dataKey: string, owners: map<string, Metadata>, f: string, v: string, p: string) {
    && f in db2 && v in db2[f] && p in db2[f][v].vals
    && p in owners && FiledUnder(f, v, owners[p])
    && db2[f][v].vals[p] == Tagged(owners[p], dataKey)
  }

  /**
   * The converse of `Extends`: every field bucket of `db2` was in `db` or is
   * named by a field of one of the `owners`' properties, and every entry of
   * `db2` is either an entry of `db` with its old value, or an owner's
   * property filed under one of its string-valued fields with its metadata
   * tagged with `dataKey`.  A field whose value is not a string files nothing.
   */
  ghost predicate OnlyFiles(db: Db, db2: Db, dataKey: string, owners: map<string, Metadata>) {
    && (forall f :: f in db2 ==> f in db || OwnedBucket(f, owners))
    && (forall f, v, p :: f in db2 && v in db2[f] && p in db2[f][v].vals ==>
          Kept(db, db2, f, v, p) || Filed(db2, dataKey, owners, f, v, p))
  }

  lemma OnlyFilesTrans(db: Db, db1: Db, db2: Db, dataKey: string, owners: map<string, Metadata>)
    requires OnlyFiles(db, db1, dataKey, owners) && OnlyFiles(db1, db2, dataKey, owners)
    ensures OnlyFiles(db, db2, dataKey, owners)
  {
    forall f, v, p | f in db2 && v in db2[f] && p in db2[f][v].vals
      ensures Kept(db, db2, f, v, p) || Filed(db2, dataKey, owners, f, v, p)
    {
      if Kept(db1, db2, f, v, p) {
        assert Kept(db, db1, f, v, p) || Filed(db1, dataKey, owners, f, v, p);
      }
    }
  }

  lemma OnlyFilesWiden(db: Db, db2: Db, dataKey: string, owners: map<string, Metadata>, owners2: map<string, Metadata>)
    requires OnlyFiles(db, db2, dataKey, owners)
    requires forall p :: p in owners ==> p in owners2 && owners2[p] == owners[p]
    ensures OnlyFiles(db, db2, dataKey, owners2)
  {
    forall f | f in db2 && f !in db ensures OwnedBucket(f, owners2) {
      var p :| p in owners && BucketOf(f, owners[p]);
      assert p in owners2 && BucketOf(f, owners2[p]);
    }
    forall f, v, p | f in db2 && v in db2[f] && p in db2[f][v].vals
      ensures Kept(db, db2, f, v, p) || Filed(db2, dataKey, owners2, f, v, p)
    {
      assert Kept(db, db2, f, v, p) || Filed(db2, dataKey, owners, f, v, p);
    }
  }

  /** Indexing one field creates at most the field's bucket and files at most
      property `name` under the field's string value. */
  lemma IndexFieldOnly(db: Db, dataKey: string, name: string, meta: Metadata, field: string)
    ensures OnlyFiles(db, IndexField(db, dataKey, name, meta, field), dataKey, map[name := meta])
  {
    var owners := map[name := meta];
    var db2: Db := IndexField(db, dataKey, name, meta, field);
    if field in meta.vals {
      var f := ToLower(field);
      assert BucketOf(f, owners[name]);
      var db1 := if f in db then db else db[f := map[]];
      if meta.vals[field].Str? {
        var v := ToLower(meta.vals[field].s);
        assert FiledUnder(f, v, owners[name]);
        var bucket := if v in db1[f] then db1[f][v] else Empty();
        assert db2 == db1[f := db1[f][v := bucket.Put(name, Tagged(meta, dataKey))]];
        forall f', v', p | f' in db2 && v' in db2[f'] && p in db2[f'][v'].vals
          ensures Kept(db, db2, f', v', p) || Filed(db2, dataKey, owners, f', v', p)
        {
          if f' != f || v' != v {
            assert db2[f'][v'] == db[f'][v'];
          } else if p != name {
            assert p in bucket.vals;
          }
        }
      } else {
        forall f', v', p | f' in db2 && v' in db2[f'] && p in db2[f'][v'].vals
          ensures Kept(db, db2, f', v', p)
        {
          assert db2[f'][v'] == db[f'][v'];
        }
      }
    } else {
      forall f', v', p | f' in db2 && v' in db2[f'] && p in db2[f'][v'].vals
        ensures Kept(db, db2, f', v', p)
      {
      }
    }
  }

  lemma IndexFieldFacts(db: Db, dataKey: string, name: string, meta: Metadata, field: string)
    ensures var db2 := IndexField(db, dataKey, name, meta, field);
      && Extends(db, db2, {name})
      && (BucketsValid(db) ==> BucketsValid(db2))
      && FieldIndexed(db2, dataKey, name, meta, field)
  {
    var db2 := IndexField(db, dataKey, name, meta, field);
    if field in meta.vals {
      var f := ToLower(field);
      var db1 := if f in db then db else db[f := map[]];
      if meta.vals[field].Str? {
        var v := ToLower(meta.vals[field].s);
        var bucket := if v in db1[f] then db1[f][v] else Empty();
        BucketPutFacts(db1, f, v, bucket, name, Tagged(meta, dataKey), db);
      }
    }
  }

  /** Filing one entry into a bucket extends the database and keeps buckets valid. */
  lemma BucketPutFacts(db1: Db, f: string, v: string, bucket: Bucket, name: string, tagged: Metadata, db: Db)
    requires f in db1 && bucket == (if v in db1[f] then db1[f][v] else Empty())
    requires Extends(db, db1, {name}) && (BucketsValid(db) ==> BucketsValid(db1))
    ensures var db2 := db1[f := db1[f][v := bucket.Put(name, tagged)]];
      && Extends(db, db2, {name})
      && (BucketsValid(db) ==> BucketsValid(db2))
      && v in db2[f] && name in db2[f][v].vals && db2[f][v].vals[name] == tagged
  {
    var db2: Db := db1[f := db1[f][v := bucket.Put(name, tagged)]];
    BucketPutExtends(db1, f, v, bucket, name, tagged);
    ExtendsTrans(db, db1, db2, {name});
    if BucketsValid(db) {
      forall f', v' | f' in db2 && v' in db2[f'] ensures db2[f'][v'].Valid() {
        if f' != f || v' != v {
          assert db2[f'][v'] == db1[f'][v'];
        }
      }
    }
  }

  lemma BucketPutExtends(db1: Db, f: string, v: string, bucket: Bucket, name: string, tagged: Metadata)
    requires f in db1 && bucket == (if v in db1[f] then db1[f][v] else Empty())
    ensures Extends(db1, db1[f := db1[f][v := bucket.Put(name, tagged)]], {name})
  {
    var db2: Db := db1[f := db1[f][v := bucket.Put(name, tagged)]];
    forall f', v' | f' in db1 && v' in db1[f']
      ensures && v' in db2[f']
              && db1[f'][v'].keys <= db2[f'][v'].keys
              && (forall p :: p in db1[f'][v'].vals ==>
                    p in db2[f'][v'].vals && (p !in {name} ==> db2[f'][v'].vals[p] == db1[f'][v'].vals[p]))
    {
      if f' == f && v' == v {
        assert db2[f'][v'] == bucket.Put(name, tagged);
      } else {
        assert db2[f'][v'] == db1[f'][v'];
      }
    }
  }

  /** An entry already in place stays in place when another field is indexed. */
  lemma IndexFieldKeeps(db: Db, dataKey: string, name: string, meta: Metadata, field: string,
                        name': string, meta': Metadata, field': string)
    requires FieldIndexed(db, dataKey, name', meta', field')
    requires name' != name || meta' == meta
    ensures FieldIndexed(IndexField(db, dataKey, name, meta, field), dataKey, name', meta', field')
  {
  }

  /** Indexing a field that is already in place changes nothing. */
  lemma IndexFieldFixed(db: Db, dataKey: string, name: string, meta: Metadata, field: string)
    requires FieldIndexed(db, dataKey, name, meta, field)
    ensures IndexField(db, dataKey, name, meta, field) == db
  {
    if field in meta.vals && meta.vals[field].Str? {
      var f, v := ToLower(field), ToLower(meta.vals[field].s);
      PutPresent(db[f][v], name, Tagged(meta, dataKey));
      assert db[f][v := db[f][v]] == db[f];
    }
  }

  lemma {:induction false} IndexFieldsExtends(db: Db, dataKey: string, name: string, meta: Metadata, n: nat)
    requires n <= |meta.keys|
    ensures Extends(db, IndexFields(db, dataKey, name, meta, n), {name})
  {
    if n > 0 {
      var prev := IndexFields(db, dataKey, name, meta, n - 1);
      var db2 := IndexField(prev, dataKey, name, meta, meta.keys[n - 1]);
      IndexFieldsExtends(db, dataKey, name, meta, n - 1);
      IndexFieldFacts(prev, dataKey, name, meta, meta.keys[n - 1]);
      ExtendsTrans(db, prev, db2, {name});
    }
  }

  lemma {:induction false} IndexFieldsOnly(db: Db, dataKey: string, name: string, meta: Metadata, n: nat)
    requires n <= |meta.keys|
    ensures OnlyFiles(db, IndexFields(db, dataKey, name, meta, n), dataKey, map[name := meta])
  {
    if n > 0 {
      var prev := IndexFields(db, dataKey, name, meta, n - 1);
      IndexFieldsOnly(db, dataKey, name, meta, n - 1);
      IndexFieldOnly(prev, dataKey, name, meta, meta.keys[n - 1]);
      OnlyFilesTrans(db, prev, IndexField(prev, dataKey, name, meta, meta.keys[n - 1]), dataKey, map[name := meta]);
    }
  }

  lemma {:induction false} IndexFieldsValid(db: Db, dataKey: string, name: string, meta: Metadata, n: nat)
    requires n <= |meta.keys| && BucketsValid(db)
    ensures BucketsValid(IndexFields(db, dataKey, name, meta, n))
  {
    if n > 0 {
      IndexFieldsValid(db, dataKey, name, meta, n - 1);
      IndexFieldFacts(IndexFields(db, dataKey, name, meta, n - 1), dataKey, name, meta, meta.keys[n - 1]);
    }
  }

  lemma {:induction false} IndexFieldsIndexes(db: Db, dataKey: string, name: string, meta: Metadata, n: nat)
    requires n <= |meta.keys|
    ensures FieldsIndexed(IndexFields(db, dataKey, name, meta, n), dataKey, name, meta, meta.keys[..n])
  {
    if n > 0 {
      var prev := IndexFields(db, dataKey, name, meta, n - 1);
      var last := meta.keys[n - 1];
      IndexFieldsIndexes(db, dataKey, name, meta, n - 1);
      IndexFieldFacts(prev, dataKey, name, meta, last);
      forall field | field in meta.keys[..n]
        ensures FieldIndexed(IndexField(prev, dataKey, name, meta, last), dataKey, name, meta, field)
      {
        if field != last {
          assert field in meta.keys[..n - 1];
          IndexFieldKeeps(prev, dataKey, name, meta, last, name, meta, field);
        }
      }
    }
  }

  /** The fields of another property that were in place stay in place. */
  lemma {:induction false} IndexFieldsKeep(db: Db, dataKey: string, name: string, meta: Metadata, n: nat,
                                           name': string, meta': Metadata, fields: seq<string>)
    requires n <= |meta.keys| && name' != name
    requires FieldsIndexed(db, dataKey, name', meta', fields)
    ensures FieldsIndexed(IndexFields(db, dataKey, name, meta, n), dataKey, name', meta', fields)
  {
    if n > 0 {
      IndexFieldsKeep(db, dataKey, name, meta, n - 1, name', meta', fields);
      forall field | field in fields
        ensures FieldIndexed(IndexFields(db, dataKey, name, meta, n), dataKey, name', meta', field)
      {
        IndexFieldKeeps(IndexFields(db, dataKey, name, meta, n - 1), dataKey, name, meta, meta.keys[n - 1],
                        name', meta', field);
      }
    }
  }

  lemma {:induction false} IndexFieldsFixed(db: Db, dataKey: string, name: string, meta: Metadata, n: nat)
    requires n <= |meta.keys|
    requires FieldsIndexed(db, dataKey, name, meta, meta.keys)
    ensures IndexFields(db, dataKey, name, meta, n) == db
  {
    if n > 0 {
      IndexFieldsFixed(db, dataKey, name, meta, n - 1);
      IndexFieldFixed(db, dataKey, name, meta, meta.keys[n - 1]);
    }
  }

  lemma {:induction false} IndexPropertiesExtends(db: Db, e: Stage, n: nat)
    requires n <= |e.properties.keys|
    ensures Extends(db, IndexProperties(db, e.dataKey, e.properties, n), e.properties.vals.Keys)
  {
    if n > 0 {
      var props := e.properties;
      IndexPropertiesExtends(db, e, n - 1);
      IndexPropertyStepExtends(db, e.dataKey, props, n);
      ExtendsTrans(db, IndexProperties(db, e.dataKey, props, n - 1), IndexProperties(db, e.dataKey, props, n),
                   props.vals.Keys);
    }
  }

  /** One pass of the outer loop extends the database, writing only entries of that property. */
  lemma IndexPropertyStepExtends(db: Db, dataKey: string, props: Properties, n: nat)
    requires 0 < n <= |props.keys|
    ensures Extends(IndexProperties(db, dataKey, props, n - 1), IndexProperties(db, dataKey, props, n), props.vals.Keys)
  {
    var prev := IndexProperties(db, dataKey, props, n - 1);
    var name := props.keys[n - 1];
    if name in props.vals {
      var meta := props.vals[name];
      IndexFieldsExtends(prev, dataKey, name, meta, |meta.keys|);
      ExtendsWiden(prev, IndexFields(prev, dataKey, name, meta, |meta.keys|), {name}, props.vals.Keys);
    }
  }

  /** The outer loop files only `props`' properties, under their string-valued fields. */
  lemma {:induction false} IndexPropertiesOnly(db: Db, dataKey: string, props: Properties, n: nat)
    requires n <= |props.keys|
    ensures OnlyFiles(db, IndexProperties(db, dataKey, props, n), dataKey, props.vals)
  {
    if n > 0 {
      var prev := IndexProperties(db, dataKey, props, n - 1);
      IndexPropertiesOnly(db, dataKey, props, n - 1);
      var name := props.keys[n - 1];
      if name in props.vals {
        var meta := props.vals[name];
        IndexFieldsOnly(prev, dataKey, name, meta, |meta.keys|);
        OnlyFilesWiden(prev, IndexFields(prev, dataKey, name, meta, |meta.keys|), dataKey, map[name := meta], props.vals);
        OnlyFilesTrans(db, prev, IndexProperties(db, dataKey, props, n), dataKey, props.vals);
      }
    }
  }

  lemma {:induction false} IndexPropertiesValid(db: Db, e: Stage, n: nat)
    requires n <= |e.properties.keys| && BucketsValid(db)
    ensures BucketsValid(IndexProperties(db, e.dataKey, e.properties, n))
  {
    var props := e.properties;
    if n > 0 {
      var prev := IndexProperties(db, e.dataKey, props, n - 1);
      IndexPropertiesValid(db, e, n - 1);
      var name := props.keys[n - 1];
      if name in props.vals {
        IndexFieldsValid(prev, e.dataKey, name, props.vals[name], |props.vals[name].keys|);
      }
    }
  }

  lemma {:induction false} IndexPropertiesIndexes(db: Db, e: Stage, n: nat)
    requires e.Valid() && n <= |e.properties.keys|
    ensures forall name :: name in e.properties.keys[..n] ==>
      FieldsIndexed(IndexProperties(db, e.dataKey, e.properties, n), e.dataKey, name,
                    e.properties.vals[name], e.properties.vals[name].keys)
  {
    var props := e.properties;
    if n > 0 {
      var prev := IndexProperties(db, e.dataKey, props, n - 1);
      IndexPropertiesIndexes(db, e, n - 1);
      var name := props.keys[n - 1];
      var meta := props.vals[name];
      var db2 := IndexFields(prev, e.dataKey, name, meta, |meta.keys|);
      assert db2 == IndexProperties(db, e.dataKey, props, n);
      IndexFieldsIndexes(prev, e.dataKey, name, meta, |meta.keys|);
      assert meta.keys[..|meta.keys|] == meta.keys;
      forall name' | name' in props.keys[..n]
        ensures FieldsIndexed(db2, e.dataKey, name', props.vals[name'], props.vals[name'].keys)
      {
        if name' != name {
          assert name' in props.keys[..n - 1];
          IndexFieldsKeep(prev, e.dataKey, name, meta, |meta.keys|, name', props.vals[name'], props.vals[name'].keys);
        }
      }
    }
  }

  lemma {:induction false} IndexPropertiesFixed(db: Db, e: Stage, n: nat)
    requires n <= |e.properties.keys|
    requires Indexed(db, e)
    ensures IndexProperties(db, e.dataKey, e.properties, n) == db
  {
    if n > 0 {
      IndexPropertiesFixed(db, e, n - 1);
      var name := e.properties.keys[n - 1];
      if name in e.properties.vals {
        var meta := e.properties.vals[name];
        IndexFieldsFixed(db, e.dataKey, name, meta, |meta.keys|);
      }
    }
  }

  /**
   * After indexing `e`: for every property P of `e` and every metadata field F
   * of P, the bucket for lower(F) exists, and when F's value V is a string,
   * `db[lower F][lower V][P]` is P's metadata tagged with `e`'s key.  Every
   * entry that was there before is still there, with its value unless it
   * belongs to a property name of `e`; conversely every new bucket and every
   * new or changed entry comes from such a field, and a field whose value is
   * not a string files nothing.  Buckets stay well formed.
   */
  lemma IndexElementContents(db: Db, e: Stage)
    requires e.Valid()
    ensures var db2 := IndexElement(db, e);
      && Indexed(db2, e)
      && Extends(db, db2, e.properties.vals.Keys)
      && OnlyFiles(db, db2, e.dataKey, e.properties.vals)
      && (BucketsValid(db) ==> BucketsValid(db2))
  {
    IndexPropertiesExtends(db, e, |e.properties.keys|);
    IndexPropertiesOnly(db, e.dataKey, e.properties, |e.properties.keys|);
    IndexPropertiesIndexes(db, e, |e.properties.keys|);
    if BucketsValid(db) {
      IndexPropertiesValid(db, e, |e.properties.keys|);
    }
    assert e.properties.keys[..|e.properties.keys|] == e.properties.keys;
  }

  /** Indexing an element a second time with unchanged properties changes nothing. */
  lemma IndexElementIdempotent(db: Db, e: Stage)
    requires e.Valid()
    ensures IndexElement(IndexElement(db, e), e) == IndexElement(db, e)
  {
    IndexElementContents(db, e);
    IndexPropertiesFixed(IndexElement(db, e), e, |e.properties.keys|);
  }

  /** Entries of `e` survive a change that writes none of `e`'s property names. */
  lemma IndexedPreserved(db: Db, db2: Db, e: Stage, written: set<string>)
    requires Indexed(db, e) && Extends(db, db2, written)
    requires forall name :: name in e.properties.vals ==> name !in written
    ensures Indexed(db2, e)
  {
    forall name, field | name in e.properties.vals && field in e.properties.vals[name].keys
      ensures FieldIndexed(db2, e.dataKey, name, e.properties.vals[name], field)
    {
      assert FieldIndexed(db, e.dataKey, name, e.properties.vals[name], field);
    }
  }

  /**
   * The registration loop: every element's properties are in the database
   * unless a later element re-declares one of its property names; buckets
   * stay well formed.
   */
  lemma {:induction false} IndexAllIndexes(db: Db, stages: seq<Stage>, i: nat)
    requires forall j :: 0 <= j < |stages| ==> stages[j].Valid()
    requires i < |stages|
    requires forall j, name :: i < j < |stages| && name in stages[j].properties.vals ==>
      name !in stages[i].properties.vals
    ensures Indexed(IndexAll(db, stages), stages[i])
  {
    var init := stages[..|stages| - 1];
    var last := stages[|stages| - 1];
    IndexElementContents(IndexAll(db, init), last);
    if i < |stages| - 1 {
      IndexAllIndexes(db, init, i);
      IndexedPreserved(IndexAll(db, init), IndexAll(db, stages), stages[i], last.properties.vals.Keys);
    }
  }

  lemma {:induction false} IndexAllValid(db: Db, stages: seq<Stage>)
    requires forall j :: 0 <= j < |stages| ==> stages[j].Valid()
    requires BucketsValid(db)
    ensures BucketsValid(IndexAll(db, stages))
  {
    if stages != [] {
      IndexAllValid(db, stages[..|stages| - 1]);
      IndexElementContents(IndexAll(db, stages[..|stages| - 1]), stages[|stages| - 1]);
    }
  }

  /** Re-indexing never removes an entry: a property that no longer carries a
      metadata value stays findable under it. */
  lemma ReindexKeepsStaleEntry()
    ensures var e1 := Stage("a", Empty<string, Metadata>().Put("x", Empty<string, Value>().Put("type", Str("int"))),
                            KeyFilters.KeyFilter(None), Sequence);
            var e2 := e1.(properties := Empty<string, Metadata>().Put("x", Empty<string, Value>().Put("type", Str("string"))));
            var db := IndexElement(IndexElement(map[], e1), e2);
      && "type" in db && "int" in db["type"] && "string" in db["type"]
      && "x" in db["type"]["int"].vals
      && "x" in db["type"]["string"].vals
  {
    var e1 := Stage("a", Empty<string, Metadata>().Put("x", Empty<string, Value>().Put("type", Str("int"))),
                    KeyFilters.KeyFilter(None), Sequence);
    var e2 := e1.(properties := Empty<string, Metadata>().Put("x", Empty<string, Value>().Put("type", Str("string"))));
    assert ToLower("type") == "type" && ToLower("int") == "int" && ToLower("string") == "string";
    IndexElementContents(map[], e1);
    IndexElementContents(IndexElement(map[], e1), e2);
    assert "type" in e1.properties.vals["x"].vals;
  }
}
