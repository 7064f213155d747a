/**
 * The SetHeader element as an object: its data key and the SetHeader
 * properties it caches between calls, and `processInternal`, which fills the
 * cache from the pipeline when it is empty, builds the response headers from
 * the FlowData and stores them as the element's data.
 */
module SetHeaderElements {
  import opened Wrappers
  import opened OrderedMaps
  import opened Values
  import opened Elements
  import opened SetHeaders
  import opened Flow

  class SetHeaderElement {
    const dataKey: string
    /** Data key -> the SetHeader property names of that element, as last scanned. */
    var setHeaderProperties: HeaderProperties

    ghost predicate Valid()
      reads this
    {
      setHeaderProperties.Valid()
    }

    /** A new element: data key `set-headers` and nothing cached yet. */
    constructor ()
      ensures dataKey == "set-headers"
      ensures setHeaderProperties == Empty()
      ensures Valid()
    {
      dataKey := "set-headers";
      setHeaderProperties := Empty();
    }

    /**
     * `processInternal`: when nothing is cached, scan the FlowData's pipeline
     * (an empty scan leaves the cache empty, so the next call scans again);
     * build the response headers from the cached properties; on success store
     * them under `responseheaderdictionary`, otherwise raise the error and
     * store nothing.
     */
    method ProcessInternal(flowData: FlowData) returns (r: Result<(), Error>)
      requires Valid() && flowData.Valid()
      modifies this, flowData
      ensures Valid() && flowData.Valid()
      ensures setHeaderProperties ==
        if |old(setHeaderProperties).keys| == 0 then Scan(flowData.pipeline.flowElements) else old(setHeaderProperties)
      ensures r.Err? <==> ResponseHeaderValues(old(flowData.data), setHeaderProperties).Err?
      ensures r.Err? ==> r.error == ResponseHeaderValues(old(flowData.data), setHeaderProperties).error
      ensures r.Err? ==> flowData.data == old(flowData.data)
      ensures r.Ok? ==> flowData.data == StoreElementData(old(flowData.data),
        ElementData(dataKey, map[DictionaryKey := HeaderDictionary(ResponseHeaderValues(old(flowData.data), setHeaderProperties).value)]))
      ensures flowData.stopped == old(flowData.stopped) && flowData.errors == old(flowData.errors)
      ensures flowData.processed == old(flowData.processed) && flowData.evidence == old(flowData.evidence)
    {
      if |setHeaderProperties.keys| == 0 {
        setHeaderProperties := GetSetHeaderPropertiesPipeline(flowData.pipeline.flowElements);
      }
      var responseHeaders := GetResponseHeaderValue(flowData.data, setHeaderProperties);
      if responseHeaders.Err? {
        return Err(responseHeaders.error);
      }
      flowData.SetElementData(ElementData(dataKey, map[DictionaryKey := HeaderDictionary(responseHeaders.value)]));
      return Ok(());
    }
  }

  /**
   * While the cache is empty or holds the scan of the pipeline the FlowData
   * runs through, `processInternal` does what the element's turn in
   * `FlowData::process` is specified to do.
   */
  lemma CacheAgreesWithProcess(e: Stage, cache: HeaderProperties, evidence: OMap<string, Value>, data: DataMap, stages: seq<Stage>)
    requires e.kind.SetHeaders?
    requires |cache.keys| == 0 || cache == Scan(stages)
    ensures var used := if |cache.keys| == 0 then Scan(stages) else cache;
      && (ResponseHeaderValues(data, used).Err? <==> Invoke(e, evidence, data, stages).raised.Some?)
      && (ResponseHeaderValues(data, used).Ok? ==>
            Invoke(e, evidence, data, stages).output ==
              Some(ElementData(e.dataKey, map[DictionaryKey := HeaderDictionary(ResponseHeaderValues(data, used).value)])))
  {
  }
}
