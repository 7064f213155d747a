/**
 * The flow-element contract as the core sees it: a data key, declared
 * property metadata, an evidence key filter and what its `process` does;
 * plus the element data the elements produce and FlowData's lookup of it.
 */
module Elements {
  import opened Wrappers
  import opened OrderedMaps
  import opened Text
  import opened Values
  import opened KeyFilters

  /** One property's metadata: field name -> value (at least `name` and `type` in practice). */
  type Metadata = OMap<string, Value>
  /** An element's `getProperties()`: property name -> metadata. */
  type Properties = OMap<string, Metadata>

  /**
   * An element's result record.  `get` and `isset` look the property up by
   * its lower-cased name; a missing property makes `get` throw.
   */
  datatype ElementData = ElementData(owner: string, values: map<string, Value>) {

    function Get(key: string): (r: Result<Value, Error>)
      ensures r.Ok? <==> ToLower(key) in values
      ensures r.Ok? ==> r.value == values[ToLower(key)]
      ensures r.Err? ==> r.error == PropertyNotFound(key, owner)
    {
      if ToLower(key) in values then Ok(values[ToLower(key)]) else Err(PropertyNotFound(key, owner))
    }

    /** `isset($elementData->{$key})`: present and not null. */
    predicate IsSet(key: string) {
      ToLower(key) in values && values[ToLower(key)] != Null
    }
  }

  /** FlowData's `$data`: null until the first element data is stored. */
  type DataMap = Option<OMap<string, ElementData>>

  /** `FlowData::get`: the stored data, or the exception whose message says
      whether there is no data at all yet or only not under this key. */
  function GetElementData(data: DataMap, key: string): Result<ElementData, Error> {
    match data
    case None => Err(NoElementDataNull(key))
    case Some(m) => if key in m.vals then Ok(m.vals[key]) else Err(NoElementData(key, m.keys))
  }

  /** `setElementData`: store under the data's own element key, creating the array if null. */
  function StoreElementData(data: DataMap, d: ElementData): DataMap {
    Some(data.GetOr(Empty()).Put(d.owner, d))
  }

  /**
   * What one call of an element's `process` did, in the order it is applied:
   * element data stored, `stop()` called, exception thrown.
   */
  datatype Outcome = Outcome(output: Option<ElementData>, stop: bool, raised: Option<Error>)

  /**
   * How an element processes.  `Engine` is any external element: its result
   * is a function of the evidence and the data stored so far.  The others are
   * the elements the builder adds itself.
   */
  datatype StageKind =
    | Engine(run: (OMap<string, Value>, DataMap) -> Outcome)
    | SetHeaders
    | Sequence
    | JsonBundler
    | JavascriptBuilder(settings: map<string, Value>)

  datatype Stage = Stage(dataKey: string, properties: Properties, filter: KeyFilter, kind: StageKind) {

    ghost predicate Valid() {
      properties.Valid()
    }

    predicate FilterEvidenceKey(key: string) {
      filter.FilterEvidenceKey(key)
    }
  }

  /** The data keys of `stages`, in order. */
  function DataKeys(stages: seq<Stage>): seq<string> {
    seq(|stages|, i requires 0 <= i < |stages| => stages[i].dataKey)
  }
}
