/**
 * The pipeline: its elements in processing order, the element registry by
 * data key, the logger, the exception-suppression flag and the property
 * database built when the pipeline is constructed.
 */
module Pipelines {
  import opened Wrappers
  import opened OrderedMaps
  import opened Text
  import opened Values
  import opened Elements
  import opened PropertyIndex
  import opened Logging

  /** The `$settings` array the constructor reads; a missing entry is `None`. */
  datatype PipelineSettings = PipelineSettings(logger: Option<Logger>, suppressProcessExceptions: Option<bool>)

  /** `flowElementsList` after registering `stages` in order: the last element with a data key wins. */
  function Registered(stages: seq<Stage>): (r: OMap<string, Stage>)
    ensures r.Valid()
  {
    if stages == [] then Empty()
    else Registered(stages[..|stages| - 1]).Put(stages[|stages| - 1].dataKey, stages[|stages| - 1])
  }

  /** A data key is registered exactly when some element has it. */
  lemma {:induction false} RegisteredKeys(stages: seq<Stage>)
    ensures forall key :: key in Registered(stages).vals <==> exists i :: 0 <= i < |stages| && stages[i].dataKey == key
  {
    if stages != [] {
      var init := stages[..|stages| - 1];
      RegisteredKeys(init);
      forall key | key in Registered(stages).vals
        ensures exists i :: 0 <= i < |stages| && stages[i].dataKey == key
      {
        if key != stages[|stages| - 1].dataKey {
          var i :| 0 <= i < |init| && init[i].dataKey == key;
          assert stages[i] == init[i];
        }
      }
      forall key | exists i :: 0 <= i < |stages| && stages[i].dataKey == key
        ensures key in Registered(stages).vals
      {
        var i :| 0 <= i < |stages| && stages[i].dataKey == key;
        if i < |init| {
          assert init[i] == stages[i];
        }
      }
    }
  }

  /** A data key is registered to the last element that has it. */
  lemma {:induction false} RegisteredLastWins(stages: seq<Stage>, i: nat)
    requires i < |stages|
    requires forall j :: i < j < |stages| ==> stages[j].dataKey != stages[i].dataKey
    ensures stages[i].dataKey in Registered(stages).vals
    ensures Registered(stages).vals[stages[i].dataKey] == stages[i]
  {
    if i < |stages| - 1 {
      RegisteredLastWins(stages[..|stages| - 1], i);
    }
  }

  /** Registering and indexing one more element extends the registry and the database by that element. */
  lemma RegisterSnoc(stages: seq<Stage>, i: nat)
    requires i < |stages|
    ensures Registered(stages[..i + 1]) == Registered(stages[..i]).Put(stages[i].dataKey, stages[i])
    ensures IndexAll(map[], stages[..i + 1]) == IndexElement(IndexAll(map[], stages[..i]), stages[i])
  {
    assert stages[..i + 1][..i] == stages[..i];
  }

  class Pipeline {
    /** The elements, in processing order. */
    const flowElements: seq<Stage>
    /** Data key -> registered element. */
    var flowElementsList: OMap<string, Stage>
    const logger: Logger
    /** When false, `FlowData::process` rethrows the first recorded error. */
    const suppressProcessExceptions: bool
    var propertyDatabase: Db

    ghost predicate Valid()
      reads this
    {
      && (forall i :: 0 <= i < |flowElements| ==> flowElements[i].Valid())
      && BucketsValid(propertyDatabase)
    }

    /**
     * The logger is the one given or a new one at the default level; it
     * receives an `info` record (which the default level drops); then every
     * element is registered under its data key and indexed in turn.
     */
    constructor (stages: seq<Stage>, settings: PipelineSettings)
      requires forall i :: 0 <= i < |stages| ==> stages[i].Valid()
      modifies if settings.logger.Some? then {settings.logger.value} else {}
      ensures flowElements == stages
      ensures settings.logger.Some? ==> logger == settings.logger.value
      ensures settings.logger.None? ==> fresh(logger) && logger.minLevel == GetLevel(None)
      ensures logger.delivered ==
        (if settings.logger.Some? then old(settings.logger.value.delivered) else []) + Gate(logger.minLevel, "info", ["test"])
      ensures suppressProcessExceptions == settings.suppressProcessExceptions.GetOr(false)
      ensures flowElementsList == Registered(stages)
      ensures propertyDatabase == IndexAll(map[], stages)
      ensures Valid()
    {
      var chosen: Logger;
      if settings.logger.Some? {
        chosen := settings.logger.value;
      } else {
        chosen := new Logger(None);
      }
      logger := chosen;
      suppressProcessExceptions := settings.suppressProcessExceptions.GetOr(false);
      flowElements := stages;
      flowElementsList := Empty();
      propertyDatabase := map[];
      new;
      Log("info", "test");
      RegisterElements();
    }

    /** The constructor's loop: each element registered under its data key and indexed, in order. */
    method RegisterElements()
      requires flowElementsList == Empty() && propertyDatabase == map[]
      requires forall i :: 0 <= i < |flowElements| ==> flowElements[i].Valid()
      modifies this
      ensures flowElementsList == Registered(flowElements)
      ensures propertyDatabase == IndexAll(map[], flowElements)
      ensures Valid()
    {
      var i := 0;
      while i < |flowElements|
        invariant 0 <= i <= |flowElements|
        invariant flowElementsList == Registered(flowElements[..i])
        invariant propertyDatabase == IndexAll(map[], flowElements[..i])
        invariant BucketsValid(propertyDatabase)
      {
        var e := flowElements[i];
        RegisterSnoc(flowElements, i);
        flowElementsList := flowElementsList.Put(e.dataKey, e);
        UpdatePropertyDatabaseForFlowElement(e);
        i := i + 1;
      }
      assert flowElements[..i] == flowElements;
    }

    /** `log`: forwarded to the logger. */
    method Log(level: string, message: string)
      modifies logger
      ensures logger.delivered == old(logger.delivered) + Gate(logger.minLevel, level, [message])
    {
      logger.Log(level, message);
    }

    /** `getElement`: the registered element, or null for an unknown key. */
    function GetElement(key: string): (r: Option<Stage>)
      reads this
      ensures r.Some? <==> key in flowElementsList.vals
      ensures r.Some? ==> r.value == flowElementsList.vals[key]
    {
      if key in flowElementsList.vals then Some(flowElementsList.vals[key]) else None
    }

    /**
     * `updatePropertyDatabaseForFlowElement`: for every property of `e`, in
     * order, index its metadata fields.
     */
    method UpdatePropertyDatabaseForFlowElement(e: Stage)
      requires Valid() && e.Valid()
      modifies this
      ensures propertyDatabase == IndexElement(old(propertyDatabase), e)
      ensures flowElementsList == old(flowElementsList)
      ensures Valid()
    {
      IndexElementContents(propertyDatabase, e);
      var db := propertyDatabase;
      var i := 0;
      while i < |e.properties.keys|
        invariant 0 <= i <= |e.properties.keys|
        invariant db == IndexProperties(propertyDatabase, e.dataKey, e.properties, i)
        modifies {}
      {
        var key := e.properties.keys[i];
        db := IndexPropertyFields(db, e.dataKey, key, e.properties.vals[key]);
        i := i + 1;
      }
      propertyDatabase := db;
    }
  }

  /**
   * The inner loop of `updatePropertyDatabaseForFlowElement` over one
   * property's metadata: make sure the field's bucket exists and, when the
   * value is a string, file the tagged metadata under the lower-cased value.
   */
  method IndexPropertyFields(db0: Db, dataKey: string, key: string, property: Metadata) returns (db: Db)
    ensures db == IndexFields(db0, dataKey, key, property, |property.keys|)
  {
    db := db0;
    var j := 0;
    while j < |property.keys|
      invariant 0 <= j <= |property.keys|
      invariant db == IndexFields(db0, dataKey, key, property, j)
    {
      var next := db;
      var metaKey := ToLower(property.keys[j]);
      if property.keys[j] in property.vals {
        var metaValue := property.vals[property.keys[j]];
        if metaKey !in next {
          next := next[metaKey := map[]];
        }
        if metaValue.Str? {
          var value := ToLower(metaValue.s);
          var bucket := if value in next[metaKey] then next[metaKey][value] else Empty();
          var tagged := property.Put("flowElement", Str(dataKey));
          next := next[metaKey := next[metaKey][value := bucket.Put(key, tagged)]];
        }
      }
      assert next == IndexField(db, dataKey, key, property, property.keys[j]);
      db := next;
      j := j + 1;
    }
  }
}
