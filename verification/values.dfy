/** The values that flow through the pipeline and the exceptions the core raises. */
module Values {
  import opened OrderedMaps

  /**
   * A PHP value as far as the core inspects it.  `AspectValue` is an
   * AspectPropertyValue (a `hasValue` flag and a string value);
   * `HeaderDictionary` is the response-header map the set-header stage stores.
   */
  datatype Value =
    | Null
    | Bool(b: bool)
    | Int(i: int)
    | Str(s: string)
    | AspectValue(hasValue: bool, value: string)
    | HeaderDictionary(headers: OMap<string, string>)

  /** Exceptions: those the core raises itself, and `Raised` for any a stage throws. */
  datatype Error =
    | NoElementDataNull(key: string)                      // FlowData::get while data is still null
    | NoElementData(key: string, available: seq<string>)  // FlowData::get, key missing
    | FlowDataProcessed                                   // second FlowData::process
    | PassKeyValue                                        // Evidence::setArray given a non-array
    | PropertyNotSetHeader(property: string)              // name without the SetHeader prefix
    | WrongPropertyFormat(property: string)               // SetHeader name with no component/header part
    | PropertyNotFound(property: string, element: string) // ElementData::get, key missing
    | Raised(message: string)                             // thrown by a stage's own code

  /** `getMessage()`; only the text of FlowDataProcessed is fixed by the system,
      the others are stand-ins that carry the same arguments. */
  function Message(e: Error): string {
    match e
    case NoElementDataNull(key) => "There is no element data for " + key + " against this flow data."
    case NoElementData(key, _) => "There is no element data for " + key + " against this flow data."
    case FlowDataProcessed => "FlowData already processed"
    case PassKeyValue => "Must pass key and value"
    case PropertyNotSetHeader(p) => p + " is not a SetHeader property"
    case WrongPropertyFormat(p) => p + " is not in the SetHeader property format"
    case PropertyNotFound(p, el) => "Property " + p + " not found in " + el
    case Raised(m) => m
  }
}
