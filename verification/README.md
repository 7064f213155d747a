# Pipeline core (PHP), modelled in Dafny

This project models the core of the 51Degrees PHP pipeline library. A
**pipeline** is an ordered list of **flow elements**, each registered under
its data key. It owns a logger, a flag that says whether processing exceptions
are suppressed, and a **property database**. The property database indexes
every element property by `metadata field -> lower-cased string value ->
property name -> metadata tagged with the owning element`.

A **FlowData** is one request's pass through a pipeline. It holds:
- the **evidence** that the elements' **evidence key filters** accept;
- the **element data** the elements store;
- the **errors** they raise, kept in insertion order;
- the `stopped` and `processed` flags.

`process` runs every element in order until one stops the flow. It records each
exception under the element's data key, and then rethrows the first one unless
exceptions are suppressed. The rest of the modelled core:
- the **pipeline builder**, which appends the JavaScript and SetHeader elements
  when it builds;
- the **SetHeader element**, which collects the `SetHeader*` properties of
  every element and turns them into response headers;
- the **logger**, which gates records by level;
- the test helper **HeaderParser**, which turns raw response header lines into
  an array.

How PHP constructs are represented:
- **Arrays with string keys** are `OrderedMaps.OMap`: a key sequence in
  insertion order plus a map. `Put` keeps an existing key in place, as PHP
  does.
- **Exceptions** are `Result` values; PHP `null` is `Option`.
- **Objects whose methods update their fields** (`Pipeline`, `FlowData`,
  `Evidence`, `EvidenceKeyFilter`, `Logger`, `PipelineBuilder`,
  `SetHeaderElement`) are classes with `modifies` clauses.
- **Loops** are methods. Each is proved against a specification function
  written as a fold, and the source's promises are proved about that function
  as lemmas.
- **Other flow elements** are abstracted as `Elements.Stage` values: a data key,
  the property metadata, a key filter and a kind. An engine element's
  `process` becomes a function from the evidence and the current data to an
  `Outcome`: the data stored, whether the flow stops, and the error raised.

Where the code and its documented intent differ, the model follows the code:
- **Header names:** `getResponseHeaderName` removes the first capitalised
  component everywhere it occurs, not only at the start. So
  `SetHeaderAcceptCHUaFull` gives `CHUaFull`, and `SetHeaderAcceptCH` gives
  `CH` rather than an error.
- **No purge before re-indexing:** `updatePropertyDatabaseForFlowElement`
  loops over copies of the database, so its "unset" loop changes nothing.
  Re-indexing an element therefore keeps its stale entries
  (`PropertyIndex.ReindexKeepsStaleEntry`).
- **`getElement`** returns `null` for an unknown key rather than failing.
- **The level name `info`** is not one of the logger's levels, so it ranks as
  `trace`.

## Model

| member | source | states |
|---|---|---|
| OrderedMaps.OMap.Put | src/FlowData.php:168 | assigning `$a[$k] = $v`: the value is stored, an existing key keeps its position, a new key goes last, and distinct keys stay distinct |
| OrderedMaps.Empty | src/FlowData.php:62 | the empty array `[]` is well formed, with no keys |
| OrderedMaps.PutPresent | src/FlowData.php:168 | writing a key's current value again changes nothing |
| Text.ToLower | src/Pipeline.php:146 | `strtolower`: each character lower-cased on its own (properties: `ToLowerIdempotent`, `Logging.GetLevelIgnoresCase`) |
| Text.ToLowerIdempotent | src/Pipeline.php:146 | lower-casing twice is lower-casing once |
| Text.RemoveAll | src/SetHeaderElement.php:191 | `str_replace` of a needle never lengthens the string |
| Text.RemoveAllShortens | src/SetHeaderElement.php:191 | removing a needle from a string that starts with it shortens it by at least the needle's length |
| Text.RemoveAllFront | src/SetHeaderElement.php:191 | a leading needle is dropped and the rest is processed the same way |
| Text.RemoveAllAbsent | src/SetHeaderElement.php:211 | a string that never contains the needle's first character is unchanged |
| Text.TrimLeft | tests/classes/HeaderParser.php:21 | `trim` from the left gives a suffix that does not start with whitespace, and every character removed is whitespace |
| Text.TrimRight | tests/classes/HeaderParser.php:21 | `trim` from the right gives a prefix that does not end with whitespace, and every character removed is whitespace |
| Text.Trim | tests/classes/HeaderParser.php:21 | `trim`: whitespace removed from both ends (properties: `TrimLeft`, `TrimRight`) |
| Text.IndexOfChar | tests/classes/HeaderParser.php:18 | the first position of a character, or the length when it is absent |
| Elements.ElementData.Get | src/FlowData.php:248 | the value under the lower-cased property name when there is one, otherwise the not-found error naming the property and the owner |
| Elements.ElementData.IsSet | src/SetHeaderElement.php:156 | `isset` on element data: the lower-cased property is present and not null |
| Elements.GetElementData | src/FlowData.php:145-158 | `get`: the stored data, or the error for no data at all yet, or the error listing the keys present (properties: `Flow.FlowData.Get`) |
| Elements.StoreElementData | src/FlowData.php:166-169 | `setElementData`: the data goes under its own element's key, creating the array when it is still null (properties: `Flow.FlowData.SetElementData`, `Flow.ApplyFacts`) |
| Elements.Stage.FilterEvidenceKey | src/Evidence.php:62 | an element accepts a key exactly when its evidence key filter does |
| Elements.DataKeys | src/FlowData.php:99-110 | the data keys of the pipeline's elements, in order: the keys `process` invokes (property: `Flow.RunInvokesPrefix`) |
| KeyFilters.KeyFilter.FilterEvidenceKey | src/EvidenceKeyFilter.php:79-86 | the installed callable's answer, or true when none is installed (property: `KeyFilters.DefaultAcceptsAll`) |
| KeyFilters.FilterPrefix | src/EvidenceKeyFilter.php:64-68 | the loop of `filterEvidence` after `n` entries (properties: `FilterPrefixShape`) |
| KeyFilters.FilterEvidence | src/EvidenceKeyFilter.php:60-71 | `filterEvidence`: the entries whose key is accepted (properties: `FilterEvidenceIsAcceptedSubmap`, `FilterEvidenceIdempotent`) |
| KeyFilters.Accepted | src/EvidenceKeyFilter.php:60-71 | the accepted keys: a key is kept exactly when it was there and the filter accepts it, and never more keys than were given |
| KeyFilters.AcceptedAt | src/EvidenceKeyFilter.php:64-68 | each kept key comes from a position of the input holding that key, and the positions strictly increase: the kept keys are in input order |
| KeyFilters.AcceptedAtComplete | src/EvidenceKeyFilter.php:64-68 | every position of the input whose key is accepted is one of the kept positions |
| KeyFilters.FilterPrefixShape | src/EvidenceKeyFilter.php:64-68 | after `n` iterations the output is well formed, lists the accepted keys in input order, and maps each to its input value |
| KeyFilters.FilterEvidenceIsAcceptedSubmap | src/EvidenceKeyFilter.php:60-71 | `filterEvidence` keeps exactly the entries whose key is accepted, with their values and in their order |
| KeyFilters.AcceptedAll | src/EvidenceKeyFilter.php:64-68 | when every key is accepted, all are kept in order |
| KeyFilters.FilterEvidenceKeepsAccepted | src/EvidenceKeyFilter.php:60-71 | an array whose every key is accepted passes through unchanged |
| KeyFilters.FilterEvidenceIdempotent | src/EvidenceKeyFilter.php:60-71 | filtering twice is filtering once |
| KeyFilters.EvidenceKeyFilter.constructor | src/EvidenceKeyFilter.php:40 | a new filter has no callable installed |
| KeyFilters.EvidenceKeyFilter.Current | src/EvidenceKeyFilter.php:79-86 | the filter applied is the installed callable |
| KeyFilters.EvidenceKeyFilter.FilterEvidenceList | src/EvidenceKeyFilter.php:60-71 | the loop of `filterEvidence` computes the filtered array, which the lemmas above describe |
| KeyFilters.EvidenceKeyFilter.Set | src/EvidenceKeyFilter.php:47-52 | only the name `filterEvidenceKey` installs the value; any other name changes nothing |
| KeyFilters.DefaultAcceptsAll | src/EvidenceKeyFilter.php:81-85 | with no callable installed, every key is accepted |
| Logging.IndexOf | src/Logger.php:103 | `array_search`: the first position holding the name, or none when it is absent |
| Logging.GetLevel | src/Logger.php:95-104 | no level gives `error` (rank 4); a known name, compared case-insensitively, gives its rank; an unknown name gives 0 |
| Logging.LevelRanks | src/Logger.php:44 | each of the six level names ranks at its position in the list |
| Logging.GetLevelIgnoresCase | src/Logger.php:100 | the rank depends only on the lower-cased name |
| Logging.InfoRanksAsTrace | src/Logger.php:95-104 | `info` ranks as `trace`, below the default level |
| Logging.Gate | src/Logger.php:65-78 | the records that pass for one level: none below the minimum, otherwise one record per message (properties: `GateAppend`, `GateExtend`, `Logging.Logger.Log`) |
| Logging.GateAppend | src/Logger.php:65-78 | gating two batches one after the other is gating them together |
| Logging.GateExtend | src/Logger.php:65-78 | appending to a log in two gated steps gives the same log as one gated step |
| Logging.Logger.constructor | src/Logger.php:52-56 | the minimum level is `getLevel` of the given name, and nothing has been delivered |
| Logging.Logger.Passes | src/Logger.php:69 | a level passes when its rank is at or above the logger's minimum (property: `Logging.Logger.Log`) |
| Logging.Logger.Log | src/Logger.php:65-78 | a record reaches `logInternal` exactly when its level is at or above the minimum; otherwise the log is unchanged |
| PropertyIndex.Tagged | src/Pipeline.php:162 | the metadata as it is stored: `flowElement` set to the owner's data key |
| PropertyIndex.IndexField | src/Pipeline.php:145-165 | one pass of the inner loop: the lower-cased field's bucket is created; a string value files the tagged metadata under the lower-cased value; any other value stops there (properties: `IndexFieldFacts`) |
| PropertyIndex.IndexFields | src/Pipeline.php:145-165 | the inner loop after `n` fields of one property |
| PropertyIndex.IndexProperties | src/Pipeline.php:144-166 | the outer loop after `n` properties of the element |
| PropertyIndex.IndexElement | src/Pipeline.php:127-167 | `updatePropertyDatabaseForFlowElement`: every property of the element indexed in order (properties: `IndexElementContents`) |
| PropertyIndex.IndexAll | src/Pipeline.php:79-87 | the constructor's loop: the elements indexed in pipeline order (properties: `IndexAllIndexes`) |
| PropertyIndex.FieldIndexed | src/Pipeline.php:158-164 | a field of a property is indexed when its lower-cased name has a bucket and, for a string value, the tagged metadata is filed under the lower-cased value |
| PropertyIndex.Indexed | src/Pipeline.php:144-166 | every field of every property of the element is indexed |
| PropertyIndex.Extends | src/Pipeline.php:144-166 | what indexing keeps: every old bucket and entry stays, in its position, and only entries of the properties written may change value; what it may add is `OnlyFiles` |
| PropertyIndex.ExtendsTrans | src/Pipeline.php:144-166 | two loop passes that each only extend the database together only extend it |
| PropertyIndex.ExtendsWiden | src/Pipeline.php:144-166 | an extension that writes some properties writes within any larger set of properties |
| PropertyIndex.BucketPutFacts | src/Pipeline.php:158-164 | filing one entry only extends the database, keeps buckets well formed, and leaves the entry in place |
| PropertyIndex.BucketPutExtends | src/Pipeline.php:158-164 | filing one entry changes no other property's existing entry |
| PropertyIndex.IndexFieldFacts | src/Pipeline.php:145-165 | indexing one metadata field keeps every existing entry and changes none of another property, keeps every bucket well formed, and files the tagged metadata under the lower-cased field and value; what it may add is stated by `IndexFieldOnly` |
| PropertyIndex.BucketOf | src/Pipeline.php:145-151 | some field of the metadata lower-cases to the bucket's name |
| PropertyIndex.FiledUnder | src/Pipeline.php:152-164 | some string-valued field of the metadata lower-cases to the bucket's name, and its value to the entry's value |
| PropertyIndex.OwnedBucket | src/Pipeline.php:145-151 | some property of the owners has a field naming the bucket |
| PropertyIndex.Kept | src/Pipeline.php:144-166 | an entry of the new database that the old one had, with the same value |
| PropertyIndex.Filed | src/Pipeline.php:152-164 | an entry of the new database that is an owner's property filed under one of its string fields, holding its tagged metadata |
| PropertyIndex.OnlyFiles | src/Pipeline.php:144-166 | the converse of `Extends`: every new bucket is named by a field of an owner's property, and every entry is kept from before or filed under a string-valued field of its own property, so a non-string value files nothing |
| PropertyIndex.OnlyFilesTrans | src/Pipeline.php:144-166 | two passes that each add only owners' filings together add only owners' filings |
| PropertyIndex.OnlyFilesWiden | src/Pipeline.php:144-166 | filings of some owners are filings of any set of owners that agrees with them |
| PropertyIndex.IndexFieldOnly | src/Pipeline.php:145-165 | indexing one field adds at most the field's bucket and, only when its value is a string, the property's entry under the lower-cased value; nothing else changes |
| PropertyIndex.IndexFieldKeeps | src/Pipeline.php:145-165 | indexing a field leaves other properties' entries indexed |
| PropertyIndex.IndexFieldFixed | src/Pipeline.php:145-165 | indexing a field that is already indexed changes nothing |
| PropertyIndex.IndexFieldsExtends | src/Pipeline.php:145-165 | the inner loop keeps every existing entry and changes none of another property |
| PropertyIndex.IndexFieldsOnly | src/Pipeline.php:145-165 | the inner loop adds only buckets named by the property's fields and entries of the property under its string-valued fields |
| PropertyIndex.IndexFieldsValid | src/Pipeline.php:145-165 | the inner loop keeps every bucket well formed |
| PropertyIndex.IndexFieldsIndexes | src/Pipeline.php:145-165 | after the inner loop, every field visited so far is indexed |
| PropertyIndex.IndexFieldsKeep | src/Pipeline.php:145-165 | the inner loop leaves other properties' entries indexed |
| PropertyIndex.IndexFieldsFixed | src/Pipeline.php:145-165 | re-running the inner loop on an indexed property changes nothing |
| PropertyIndex.IndexPropertiesExtends | src/Pipeline.php:144-166 | the outer loop keeps every existing entry and changes none outside the element's properties |
| PropertyIndex.IndexPropertyStepExtends | src/Pipeline.php:144-166 | one pass of the outer loop keeps every existing entry and changes none outside the element's properties |
| PropertyIndex.IndexPropertiesOnly | src/Pipeline.php:144-166 | the outer loop adds only buckets named by fields of the element's properties and entries of those properties under their string-valued fields |
| PropertyIndex.IndexPropertiesValid | src/Pipeline.php:144-166 | the outer loop keeps every bucket well formed |
| PropertyIndex.IndexPropertiesIndexes | src/Pipeline.php:144-166 | after `n` passes, every field of each property visited so far is indexed |
| PropertyIndex.IndexPropertiesFixed | src/Pipeline.php:144-166 | the outer loop on an already indexed element changes nothing |
| PropertyIndex.IndexElementContents | src/Pipeline.php:127-167 | after `updatePropertyDatabaseForFlowElement` the element is indexed, every old entry is kept and only its properties' entries change, buckets stay well formed; conversely every new bucket is a lower-cased field of one of its properties and every new or changed entry is one of its properties filed under the lower-cased value of a string field, so non-string values file nothing |
| PropertyIndex.IndexElementIdempotent | src/Pipeline.php:127-167 | indexing the same element twice is indexing it once |
| PropertyIndex.IndexedPreserved | src/Pipeline.php:79-87 | an indexed element stays indexed while only other properties are written |
| PropertyIndex.IndexAllIndexes | src/Pipeline.php:79-87 | after construction, every element whose property names no later element reuses is fully indexed |
| PropertyIndex.IndexAllValid | src/Pipeline.php:79-87 | the database built by the constructor has well-formed buckets |
| PropertyIndex.ReindexKeepsStaleEntry | src/Pipeline.php:131-140 | the unset loop edits copies: after re-indexing a property whose `type` changed, both the old and the new value list it |
| Pipelines.Registered | src/Pipeline.php:79-87 | the registry built by the constructor is well formed |
| Pipelines.RegisteredKeys | src/Pipeline.php:81 | a data key is registered exactly when some element has it |
| Pipelines.RegisteredLastWins | src/Pipeline.php:81 | a data key is registered to the last element that has it |
| Pipelines.RegisterSnoc | src/Pipeline.php:79-87 | one more pass of the constructor's loop registers that element under its data key and indexes it into the database so far |
| Pipelines.Pipeline.constructor | src/Pipeline.php:63-88 | the elements are kept in order; the logger is the one given or a new one at the default level, and it receives the `info` record `test`; exceptions are not suppressed by default; every element is registered and indexed in order |
| Pipelines.Pipeline.RegisterElements | src/Pipeline.php:79-87 | the constructor's loop leaves every element registered and indexed, in order, with well-formed buckets |
| Pipelines.Pipeline.Log | src/Pipeline.php:105-108 | the logger receives the record exactly when it passes the logger's gate |
| Pipelines.Pipeline.GetElement | src/Pipeline.php:116-119 | the element registered under the key, or null when none is registered |
| Pipelines.Pipeline.UpdatePropertyDatabaseForFlowElement | src/Pipeline.php:127-167 | the database becomes the element indexed into the old database, the registry is untouched, and the pipeline's invariant (well-formed property buckets) still holds |
| Pipelines.IndexPropertyFields | src/Pipeline.php:145-165 | the inner loop over one property's metadata computes that property's indexing |
| Builders.SequenceStage | src/PipelineBuilder.php:167 | the sequence element: data key `sequence`, with what its class declares |
| Builders.JsonBundlerStage | src/PipelineBuilder.php:168 | the JSON bundler element: data key `jsonbundler`, with what its class declares |
| Builders.JavascriptBuilderStage | src/PipelineBuilder.php:169 | the JavaScript builder element, given the builder's JavaScript settings |
| Builders.SetHeaderStage | src/PipelineBuilder.php:183 | the SetHeader element: data key `set-headers`, with what its class declares |
| Builders.JavaScriptElements | src/PipelineBuilder.php:162-173 | the sequence, JSON bundler and JavaScript builder elements when enabled, otherwise none (properties: `BuiltOrder`) |
| Builders.SetHeaderElements | src/PipelineBuilder.php:178-187 | the SetHeader element when enabled, otherwise none (properties: `BuiltOrder`) |
| Builders.Built | src/PipelineBuilder.php:96-100 | the list after `build`: what was added, then the JavaScript elements, then the SetHeader element (properties: `BuiltOrder`) |
| Builders.BuiltOrder | src/PipelineBuilder.php:94-103 | the built list is the added elements, then the three JavaScript elements, then the SetHeader element, each only when enabled |
| Builders.BuildTwiceRepeats | src/PipelineBuilder.php:96-100 | `build` appends to the builder's own list, so a second `build` repeats the extra elements |
| Builders.BuiltFacts | src/PipelineBuilder.php:94-103 | the built elements are well formed, and with SetHeader enabled `set-headers` is registered to the SetHeader element |
| Builders.PipelineBuilder.constructor | src/PipelineBuilder.php:66-74 | the three options default to true, true and no settings; no elements; the pipeline settings start empty; what the builder's own elements declare is given |
| Builders.PipelineBuilder.Add | src/PipelineBuilder.php:82-87 | the element is appended, nothing else changes, and the builder itself is returned |
| Builders.PipelineBuilder.AddLogger | src/PipelineBuilder.php:111-116 | only the logger setting changes, and the builder itself is returned |
| Builders.PipelineBuilder.AppendBuilt | src/PipelineBuilder.php:96-100 | the builder's list gets the extra elements |
| Builders.PipelineBuilder.Build | src/PipelineBuilder.php:94-103 | a new pipeline over the built list, with that list registered and indexed, the builder's logger, and exceptions not suppressed; the builder's logger receives the pipeline's `info` record `test` when its level lets it through; with SetHeader enabled, `getElement('set-headers')` finds the SetHeader element; the builder's options (JavaScript builder, SetHeader, JavaScript builder settings) are unchanged |
| SetHeaders.SplitBeforeUpper | src/SetHeaderElement.php:200 | `preg_split` before capitals, without empty pieces (properties: `SplitBeforeUpperConcat`, `SplitBeforeUpperPieces`, `SplitCount`) |
| SetHeaders.NonUpperRun | src/SetHeaderElement.php:200 | the longest run without a capital letter, followed by a capital if anything follows |
| SetHeaders.PieceLength | src/SetHeaderElement.php:200-203 | the first piece of a split before capitals: one character, then no capital up to the next capital |
| SetHeaders.SplitBeforeUpperConcat | src/SetHeaderElement.php:200 | `preg_split('/(?=[A-Z])/')`: the pieces joined give back the string |
| SetHeaders.Concat | src/SetHeaderElement.php:200 | the pieces of a split joined back together |
| SetHeaders.SplitBeforeUpperPieces | src/SetHeaderElement.php:200 | every piece is non-empty, has no capital after its first character, and every piece but the first starts with a capital |
| SetHeaders.SplitCount | src/SetHeaderElement.php:200-209 | there is more than one piece exactly when a capital follows the first piece |
| SetHeaders.ResponseHeaderName | src/SetHeaderElement.php:181-212 | a name not starting with `SetHeader` is an error naming it; otherwise the name is well formed exactly when the rest starts with a capital and has a second capital, and then the header name is the rest with its first component removed everywhere; any other `SetHeader` name is a format error |
| SetHeaders.HeaderNameOfTaggedKey | src/SetHeaderElement.php:181-212 | `SetHeader` + component + header name gives the header name when neither contains the removed text |
| SetHeaders.HeaderNameBrowser | src/SetHeaderElement.php:181-212 | `SetHeaderBrowserAccept-CH` gives `Accept-CH` |
| SetHeaders.HeaderNameCH | src/SetHeaderElement.php:177-212 | the key named in `getResponseHeaderName`'s documentation, `SetHeaderAcceptCH`, gives `CH`: a worked example of `HeaderNameOfTaggedKey` |
| SetHeaders.HeaderNameTagOnly | src/SetHeaderElement.php:207-209 | a single component after `SetHeader` is a format error |
| SetHeaders.HeaderNameSingleComponent | src/SetHeaderElement.php:207-209 | `SetHeaderBrowser` is a format error |
| SetHeaders.HeaderNameNotSetHeader | src/SetHeaderElement.php:187-189 | `BrowserAccept-CH` is rejected as not a SetHeader property |
| SetHeaders.IsPlaceholder | src/SetHeaderElement.php:164 | the values `Unknown` and `noValue`, which never become a header value |
| SetHeaders.IsFlowDataField | src/FlowData.php:34-67 | the keys naming a declared `FlowData` property, which PHP reads directly instead of calling the magic getter |
| SetHeaders.GetPropertyValue | src/SetHeaderElement.php:144-171 | a key naming a declared `FlowData` property gives "" and never throws; for any other key, missing element data raises `get`'s exception, and only then is the result an exception; a result is never `Unknown` or `noValue`; a non-empty result is the property's value, which has a value |
| SetHeaders.GetPropertyValueFound | src/SetHeaderElement.php:144-171 | for a key that is not a declared `FlowData` property, a set property with a real value gives that value |
| SetHeaders.Merge | src/SetHeaderElement.php:117-127 | combining a header's value with one more: an empty current value is replaced, an empty new value is dropped, otherwise they are joined with `,` (properties: `MergeJoins`) |
| SetHeaders.Join | src/SetHeaderElement.php:122 | values joined with `,` (properties: `JoinEmpty`, `MergeJoins`) |
| SetHeaders.NonEmpty | src/SetHeaderElement.php:120-127 | the values kept are non-empty, and never more than were given |
| SetHeaders.JoinEmpty | src/SetHeaderElement.php:120-127 | joining non-empty values gives "" exactly when there are none |
| SetHeaders.MergeJoins | src/SetHeaderElement.php:117-127 | merging one more value into a header is joining all of its non-empty values with `,` |
| SetHeaders.AddContribution | src/SetHeaderElement.php:117-127 | adding a header value keeps the array well formed |
| SetHeaders.Aggregate | src/SetHeaderElement.php:108-131 | the headers built from all contributions are well formed |
| SetHeaders.HeaderNames | src/SetHeaderElement.php:117 | the header name of each contribution, in order (properties: `AggregateJoins`) |
| SetHeaders.ValuesFor | src/SetHeaderElement.php:117-127 | the values contributed to one header, in order (properties: `ValuesForAbsent`, `AggregateJoins`) |
| SetHeaders.Distinct | src/SetHeaderElement.php:117-127 | the header names, each once, in order of first contribution (properties: `DistinctMembers`) |
| SetHeaders.ValuesForAbsent | src/SetHeaderElement.php:117-127 | a header that never appears has no values |
| SetHeaders.DistinctMembers | src/SetHeaderElement.php:117-127 | the distinct header names are exactly the names that occur |
| SetHeaders.AggregateJoins | src/SetHeaderElement.php:103-132 | the response headers are the distinct header names in first-seen order, each mapped to its non-empty values joined with `,` |
| SetHeaders.Tag | src/SetHeaderElement.php:108-111 | each property name paired with its element's data key, in order |
| SetHeaders.NamesAt | src/SetHeaderElement.php:108-110 | the property names listed under one element key, none when the key has no entry |
| SetHeaders.PairsFrom | src/SetHeaderElement.php:108-111 | the (data key, property) pairs the nested loops visit from the `n`-th element key on |
| SetHeaders.Pairs | src/SetHeaderElement.php:108-111 | every (data key, property) pair the nested loops visit |
| SetHeaders.Contribute | src/SetHeaderElement.php:112-115 | one property's header name and value, or the exception the name or the value raises, in that order (properties: `ResolveContents`) |
| SetHeaders.Resolve | src/SetHeaderElement.php:108-131 | one contribution per property when none fails |
| SetHeaders.ResolveErrSticky | src/SetHeaderElement.php:108-131 | the first exception ends the loop: later properties cannot change it |
| SetHeaders.ResolveContents | src/SetHeaderElement.php:112-115 | each contribution is the property's header name and its value |
| SetHeaders.ResolveSnoc | src/SetHeaderElement.php:110-128 | one more property either raises its exception or appends its contribution |
| SetHeaders.AggregateSnoc | src/SetHeaderElement.php:117-127 | one more contribution is merged into the headers so far |
| SetHeaders.AddPropertyValue | src/SetHeaderElement.php:112-127 | one pass of the inner loop: that property's exception, or the headers with its value merged in |
| SetHeaders.AddPropertyAt | src/SetHeaderElement.php:112-127 | one pass of the inner loop continues the specification's walk by one property: its exception is the walk's, or the headers gain its contribution |
| SetHeaders.AddElementValues | src/SetHeaderElement.php:110-128 | the inner loop over one element's properties continues the specification's walk, ending on its exception or its headers |
| SetHeaders.ResponseHeaderValues | src/SetHeaderElement.php:103-132 | `getResponseHeaderValue`: the first exception of the walk, or the headers built from every contribution (properties: `AggregateJoins`, `ResolveErrSticky`) |
| SetHeaders.AddElementAt | src/SetHeaderElement.php:108-129 | one pass of the outer loop: the element's exception is the one `getResponseHeaderValue` throws, or the walk advances past that element key with its headers merged in |
| SetHeaders.GetResponseHeaderValue | src/SetHeaderElement.php:103-132 | `getResponseHeaderValue` computes the specified response headers or the first exception |
| SetHeaders.PropertyName | src/SetHeaderElement.php:83 | `$propertyMeta['name']` of a property, "" when it is absent or not a string |
| SetHeaders.IsSetHeaderKey | src/SetHeaderElement.php:82 | a property key marks a SetHeader property when it contains `setheader`, case-sensitively |
| SetHeaders.SetHeaderNamesUpTo | src/SetHeaderElement.php:80-85 | the inner loop of the scan after `n` properties (properties: `SetHeaderNamesUpToMembers`) |
| SetHeaders.SetHeaderNames | src/SetHeaderElement.php:77-85 | the names of an element's SetHeader properties, in order (properties: `SetHeaderNamesMembers`) |
| SetHeaders.Scan | src/SetHeaderElement.php:68-94 | the scanned dictionary is well formed |
| SetHeaders.SetHeaderNamesUpToMembers | src/SetHeaderElement.php:80-85 | after `n` properties, the names collected are those of the properties whose key contains `setheader` |
| SetHeaders.SetHeaderNamesMembers | src/SetHeaderElement.php:80-85 | the names collected are exactly those of the element's SetHeader properties |
| SetHeaders.ScanKeys | src/SetHeaderElement.php:73-91 | an element's data key is listed exactly when it has a SetHeader property, and every list is non-empty |
| SetHeaders.ScanKeyWitness | src/SetHeaderElement.php:88-90 | a listed data key belongs to some element with a SetHeader property, and its list is non-empty |
| SetHeaders.ScanKeyListed | src/SetHeaderElement.php:88-90 | an element with a SetHeader property has its data key listed |
| SetHeaders.ScanLastWins | src/SetHeaderElement.php:88-90 | a data key lists the names of the last element with that key and any SetHeader property |
| SetHeaders.CollectSetHeaderNames | src/SetHeaderElement.php:80-85 | the inner loop collects the element's SetHeader property names in order |
| SetHeaders.GetSetHeaderPropertiesPipeline | src/SetHeaderElement.php:68-94 | the loop over the pipeline's elements computes the scan |
| SetHeaders.ProcessWith | src/SetHeaderElement.php:49-60 | the element never stops the flow; it raises exactly when building the headers fails, and otherwise stores the headers under `responseheaderdictionary` |
| SetHeaderElements.SetHeaderElement.constructor | src/SetHeaderElement.php:36-41 | data key `set-headers`, nothing cached |
| SetHeaderElements.SetHeaderElement.ProcessInternal | src/SetHeaderElement.php:49-60 | an empty cache is filled by scanning the pipeline; on failure the data is untouched and the error is raised; on success the headers are stored; nothing else in the FlowData changes |
| SetHeaderElements.CacheAgreesWithProcess | src/SetHeaderElement.php:51-53 | while the cache is empty or holds the pipeline's scan, the element does what its turn in `process` is specified to do |
| Flow.ErrorLogMessage | src/FlowData.php:182-186 | the message `setError` logs: a fixed text, followed by the key and the error's message unless the key is empty in PHP's sense |
| Flow.Invoke | src/FlowData.php:105 | what an element's `process` does: an engine's function of the evidence and the data, the SetHeader element's processing, or nothing for the JavaScript elements |
| Flow.RecordError | src/FlowData.php:178-189 | `setError` on the state: the error under the key and its message logged (properties: `ApplyFacts`) |
| Flow.Apply | src/FlowData.php:104-108 | an element's outcome applied in order: data stored, then stop, then the exception recorded (properties: `ApplyFacts`) |
| Flow.Step | src/FlowData.php:100-109 | one iteration of the loop: nothing once stopped, otherwise the element is invoked and its outcome applied (properties: `StepFacts`) |
| Flow.Run | src/FlowData.php:99-110 | the loop over the elements (properties: `RunInvokesPrefix`, `RunErrors`, `RunStopped`) |
| Flow.ApplyFacts | src/FlowData.php:104-108 | an element's turn never clears `stopped` and sets it exactly when the element stops; its data is stored when it produced some and the data is otherwise unchanged; a raised error is recorded under the element's own key with that value and logged, and without one the errors and the log are unchanged |
| Flow.StepFacts | src/FlowData.php:100-109 | in a pass not yet stopped, the element is invoked, the pass stops exactly when the element asks, and what it raises is recorded under its data key and logged; raising does not stop the pass |
| Flow.RunSnoc | src/FlowData.php:99-110 | the loop over one more element is one more turn |
| Flow.RunStopped | src/FlowData.php:100 | once stopped, no further element runs and nothing changes |
| Flow.RunInvokesPrefix | src/FlowData.php:99-110 | the elements run are a prefix of the pipeline, in order, and all of them run unless the flow stopped |
| Flow.RunErrors | src/FlowData.php:99-110 | errors are only added, each under the data key of an element that ran |
| Flow.ErrorDoesNotStop | src/FlowData.php:104-108 | a worked example of `StepFacts` on two elements: the one that raises is recorded and logged, and the next still runs and stores its data |
| Flow.FirstError | src/FlowData.php:118-122 | `reset($this->errors)`: the first recorded error, present exactly when there is any |
| Flow.OwnerOf | src/FlowData.php:236 | `$value['flowElement']`: the data key an entry is tagged with |
| Flow.OwnersUpTo | src/FlowData.php:234-238 | the first loop of `getWhere` after `n` entries (properties: `OwnersUpToShape`) |
| Flow.Found | src/FlowData.php:244-251 | the owner has data and the data holds the property |
| Flow.CollectUpTo | src/FlowData.php:242-253 | the second loop of `getWhere` after `n` owners (properties: `CollectUpToContents`) |
| Flow.BucketFor | src/FlowData.php:229-234 | the bucket under the lower-cased field and value, if there is one |
| Flow.Where | src/FlowData.php:227-256 | `getWhere`: the two loops over the bucket (properties: `WhereContents`, `IndexedIsFound`) |
| Flow.OwnersUpToKeys | src/FlowData.php:234-238 | the first loop of `getWhere` lists the bucket's property names in order, once each |
| Flow.OwnersUpToValues | src/FlowData.php:234-238 | each property name maps to the data key its metadata is tagged with |
| Flow.OwnersUpToShape | src/FlowData.php:234-238 | the first loop maps exactly the bucket's property names to their owners |
| Flow.CollectUpToContents | src/FlowData.php:242-253 | the second loop returns exactly the properties whose owner has data holding them, with those values |
| Flow.WhereContents | src/FlowData.php:227-256 | `getWhere` returns exactly the indexed properties, under the lower-cased field and value, whose owner's data holds them, with their values |
| Flow.IndexedIsFound | src/FlowData.php:227-256 | a property with that string metadata, indexed and present in its owner's data, is returned by `getWhere` with its value |
| Flow.MergeUpTo | src/FlowData.php:203 | `array_merge` keeps the array well formed |
| Flow.MergeUpToContents | src/FlowData.php:203 | `array_merge`: the keys of both arrays, the second array's value winning |
| Flow.MergeKeysContents | src/FlowData.php:203 | `array_merge` after `n` keys of the second array: the keys of both, the second array's value winning |
| Flow.ArrayMerge | src/FlowData.php:203 | `array_merge` of two string-keyed arrays (properties: `MergeUpToContents`) |
| Flow.RequestedUpTo | src/FlowData.php:202-204 | the loop of `getEvidenceDataKey` after `n` elements (properties: `RequestedContents`) |
| Flow.SomeAccepts | src/Evidence.php:61-66 | some element of the pipeline accepts the key |
| Flow.RequestedContents | src/FlowData.php:197-207 | `getEvidenceDataKey` returns exactly the evidence some element's filter accepts, with its value |
| Flow.FirstAccepting | src/Evidence.php:61-66 | the first element whose filter accepts the key, or none when no element accepts it |
| Flow.SetOne | src/Evidence.php:59-68 | `set` on the store: the value is stored when some element accepts the key (properties: `FirstAccepting`, `Flow.Evidence.Set`) |
| Flow.SetAllUpTo | src/Evidence.php:82-84 | `setArray`'s loop after `n` entries (properties: `SetAllContents`) |
| Flow.SetAllContents | src/Evidence.php:76-85 | after `setArray`, a key is stored exactly when it was already stored or is an entry some filter accepts, and the entry's value wins |
| Flow.FlowData.constructor | src/FlowData.php:72-77 | a new FlowData for the pipeline: not processed, not stopped, no data, no errors, an empty evidence store of its own |
| Flow.FlowData.Process | src/FlowData.php:96-125 | the first call runs the elements in order as specified and logs their errors; a second call only records and logs `FlowData already processed` under `global`; an error is raised exactly when there is one and exceptions are not suppressed, and it is the first recorded |
| Flow.FlowData.RunElements | src/FlowData.php:99-110 | the loop over the elements gives the specified run's flags, data, errors and log |
| Flow.FlowData.Turn | src/FlowData.php:100-109 | one iteration of the loop performs the specified step, keeping the log equal to the gated messages so far |
| Flow.FlowData.Proceed | src/FlowData.php:104-108 | the turn of an element when the pass has not stopped performs the specified step |
| Flow.FlowData.ProcessElement | src/FlowData.php:104-108 | one element's turn, with the exception caught and recorded |
| Flow.FlowData.Get | src/FlowData.php:145-158 | the stored data for the key, or the exception for no data at all or for a missing key |
| Flow.FlowData.GetFromElement | src/FlowData.php:133-136 | the data stored under the element's data key, or `get`'s exception |
| Flow.FlowData.SetElementData | src/FlowData.php:166-169 | the data is stored under its owner's data key, replacing any earlier data, and nothing else changes |
| Flow.FlowData.SetError | src/FlowData.php:178-189 | the error is recorded under the key and logged at `error` level, and nothing else changes |
| Flow.FlowData.Stop | src/FlowData.php:214-217 | the flow is stopped, and nothing else changes |
| Flow.FlowData.GetWhere | src/FlowData.php:227-256 | the two loops compute `getWhere` as specified |
| Flow.FlowData.CollectFound | src/FlowData.php:242-253 | the second loop of `getWhere` |
| Flow.FlowData.OwnersOf | src/FlowData.php:234-238 | the first loop of `getWhere` |
| Flow.FlowData.GetEvidenceDataKey | src/FlowData.php:197-207 | the loop merges each element's filtered evidence, as specified |
| Flow.CreateFlowData | src/Pipeline.php:95-98 | a new, unprocessed FlowData for this pipeline |
| Flow.Evidence.constructor | src/Evidence.php:46-49 | an empty store tied to its FlowData |
| Flow.Evidence.Set | src/Evidence.php:59-68 | the value is stored exactly when some element's filter accepts the key, and the filters after the first one that accepts are not consulted |
| Flow.Evidence.SetArray | src/Evidence.php:76-85 | a scalar records and logs `core` and sets nothing; an array is set entry by entry, in order, logs nothing, and leaves the flow data's evidence as this store |
| Flow.Evidence.Get | src/Evidence.php:169-176 | the stored value, or null |
| Flow.Evidence.GetAll | src/Evidence.php:183-186 | the whole store, in insertion order |
| HeaderParsing.SplitAtColon | tests/classes/HeaderParser.php:18 | `explode(':', $h, 2)`: two parts exactly when there is a colon; they rebuild the line, and the first part has no colon |
| HeaderParsing.Run | tests/classes/HeaderParser.php:25 | a greedy run of one character class stays within the line |
| HeaderParsing.RunClass | tests/classes/HeaderParser.php:25 | the run is all of its class, and whatever follows it is not |
| HeaderParsing.DigitValue | tests/classes/HeaderParser.php:26 | a digit's value is below ten |
| HeaderParsing.DigitsValue | tests/classes/HeaderParser.php:26 | the decimal value of a digit string |
| HeaderParsing.IntCast | tests/classes/HeaderParser.php:26 | `(int)` of a digit string is its value up to PHP's largest integer; above it, the double it converts through saturates at that integer, and from 2^1024 - 2^970 up the double is infinite and the cast gives 0 |
| HeaderParsing.MatchAt | tests/classes/HeaderParser.php:25 | the pattern tried at one position: `HTTP/`, then the rest |
| HeaderParsing.VersionAt | tests/classes/HeaderParser.php:25 | `[0-9.]+` then the rest of the pattern |
| HeaderParsing.SpacesAt | tests/classes/HeaderParser.php:25 | `\s+` then the captured digits |
| HeaderParsing.CodeAt | tests/classes/HeaderParser.php:25-26 | `([0-9]+)`: the captured digits cast to an integer |
| HeaderParsing.StatusFrom | tests/classes/HeaderParser.php:25-26 | the leftmost match at or after a position, as `preg_match` finds it (properties: `StatusFromNeedsMarker`, `StatusLineCode`) |
| HeaderParsing.MarkerAt | tests/classes/HeaderParser.php:25 | `HTTP/` starts at the position |
| HeaderParsing.StatusFromNeedsMarker | tests/classes/HeaderParser.php:25 | a line matches the status pattern only where it contains `HTTP/` |
| HeaderParsing.RunIs | tests/classes/HeaderParser.php:25 | a run of one class followed by a character outside it has exactly that length |
| HeaderParsing.CodeIs | tests/classes/HeaderParser.php:25-26 | digits not followed by a digit are captured whole |
| HeaderParsing.SpacesThenCode | tests/classes/HeaderParser.php:25-26 | whitespace then digits gives the digits' value |
| HeaderParsing.SpacesIs | tests/classes/HeaderParser.php:25 | whitespace followed by a digit leads to the code read there |
| HeaderParsing.VersionIs | tests/classes/HeaderParser.php:25 | a version run followed by whitespace leads to what follows the whitespace |
| HeaderParsing.MatchAtStart | tests/classes/HeaderParser.php:25 | a match at the start of the line is the leftmost match |
| HeaderParsing.Layout | tests/classes/HeaderParser.php:25 | where the marker, version, whitespace and digits of a status line sit |
| HeaderParsing.StatusOfParts | tests/classes/HeaderParser.php:25-26 | a line laid out as `HTTP/`, version, whitespace, digits and a non-digit has those digits as its code |
| HeaderParsing.StatusLineCode | tests/classes/HeaderParser.php:25-27 | `HTTP/` + version + whitespace + digits + anything not starting with a digit gives those digits as the code |
| HeaderParsing.StatusOk | tests/classes/HeaderParser.php:25-27 | `HTTP/1.1 200 OK` has code 200 |
| HeaderParsing.Classify | tests/classes/HeaderParser.php:18-27 | a line is a header exactly when it has a colon; any other line is kept whole |
| HeaderParsing.ParseLine | tests/classes/HeaderParser.php:20-28 | one pass of the loop: a header line writes its name; any other line is appended at the next index and, when it matches, writes `response_code` (properties: `ParseLineNumbered`, `ParseLineKeepsName`) |
| HeaderParsing.ParseFrom | tests/classes/HeaderParser.php:17-29 | the loop over a run of lines (properties: `ParseFromNumbered`, `ParseSplit`) |
| HeaderParsing.ParseAll | tests/classes/HeaderParser.php:13-32 | `parse` (properties: `ParsePositions`, `HeaderLastWins`, `StatusLastWins`) |
| HeaderParsing.Unnamed | tests/classes/HeaderParser.php:23 | the lines without a colon, in order |
| HeaderParsing.Appended | tests/classes/HeaderParser.php:23 | the lines the loop appends by index, in order |
| HeaderParsing.Writes | tests/classes/HeaderParser.php:21-26 | whether a line writes a named key: a header line its name, a matching status line `response_code` |
| HeaderParsing.Numbered | tests/classes/HeaderParser.php:23 | the appended lines sit under 0, 1, 2, ... in order, the next index is their count, and no other index is used |
| HeaderParsing.PutNamedNumbered | tests/classes/HeaderParser.php:21 | writing a named key keeps the numbering |
| HeaderParsing.AppendNumbered | tests/classes/HeaderParser.php:23 | appending a line extends the numbering by that line |
| HeaderParsing.Kinds | tests/classes/HeaderParser.php:17 | one classification per line |
| HeaderParsing.AppendedUnnamed | tests/classes/HeaderParser.php:23 | the appended lines are exactly the lines without a colon, in order |
| HeaderParsing.ParseLineNumbered | tests/classes/HeaderParser.php:20-28 | one line keeps the numbering and extends it when the line is appended |
| HeaderParsing.ParseFromNumbered | tests/classes/HeaderParser.php:17-29 | the loop numbers exactly the appended lines |
| HeaderParsing.ParsePositions | tests/classes/HeaderParser.php:13-32 | the lines without a colon sit under 0, 1, 2, ... in order, and no other index is used |
| HeaderParsing.ParseKeepsName | tests/classes/HeaderParser.php:17-29 | a name keeps its entry through lines that do not write it |
| HeaderParsing.ParseLineKeepsName | tests/classes/HeaderParser.php:20-28 | a line that does not write a name keeps its entry |
| HeaderParsing.LaterLinesKeep | tests/classes/HeaderParser.php:17-29 | a name written by a line keeps that value when no later line writes it |
| HeaderParsing.ParseSplit | tests/classes/HeaderParser.php:17-29 | parsing in two stretches is parsing the whole |
| HeaderParsing.LastWriteWins | tests/classes/HeaderParser.php:21 | the last header line writing a name sets its value |
| HeaderParsing.LastStatusWins | tests/classes/HeaderParser.php:26 | the last status line sets `response_code` unless a later header is named so |
| HeaderParsing.HeaderLastWins | tests/classes/HeaderParser.php:20-21 | a header line maps its trimmed name to its trimmed value, with any further colons kept; the last such line wins |
| HeaderParsing.StatusLastWins | tests/classes/HeaderParser.php:25-27 | a status line without a colon records its code under `response_code`; the last such line wins |
| HeaderParsing.Parse | tests/classes/HeaderParser.php:13-32 | `parse` computes the specified array |
| HeaderParsing.ParseHeader | tests/classes/HeaderParser.php:18-28 | one pass of the loop in `parse` |

## Left out

- `Evidence::setFromWebRequest` is not modelled: it reads the request superglobals.
- `PipelineBuilder::buildFromConfig` is not modelled: it reads a configuration file and instantiates classes by name.
- `FlowElement`, `ElementData` and the messages table are not part of this model:
  - An engine element's `process` is a function of the evidence and the current data.
  - `ElementData::get` is a case-insensitive lookup that fails on a missing property.
  - Of the message texts, only `FlowData already processed` is known; the others are named constants.
- Elements are values here, so the model does not capture:
  - the `pipelines` list that registration appends to;
  - `onRegistration`;
  - the same element object's state being shared between pipelines.
- The sequence, JSON bundler and JavaScript builder elements are inert: their code is not part of this model.
- `Builders.OwnElements`: the classes of the elements `build` creates are not part of this model, so the properties and evidence key filters they declare are a parameter of the builder's constructor rather than fixed values.
- `FlowData::__get` is not a separate member. In `getPropertyValue`, a key naming a declared `FlowData` property (`pipeline`, `stopped`, `evidence`, `data`, `processed`, `errors`, `jsonbundler`) reads that property directly, and the result is ""; any other key goes through `__get` to `get`, which is what the model calls. The `error_log` calls on the empty-result paths are not modelled.
- `Logger`: the record's timestamp, the `$settings` array and PHP's `error_log` fallback are not modelled. `logInternal` appends to the list of records delivered.
- PHP arrays are modelled with string keys, with these consequences:
  - a numeric-string key is not converted to an integer;
  - `array_merge` does not renumber;
  - metadata values that are not strings are skipped, as the source skips them.
- `HeaderParser`:
  - a header name made of digits is kept as a name rather than becoming an integer index;
  - the next free index counts only appended lines.
- `HeaderParsing.DigitValue` gives 0 for a character that is not a digit, but the pattern only ever captures digits.
- Flow.Evidence.SetArray: an object passed to `setArray` is not modelled. PHP would record the error and then iterate the object's visible properties; the model takes an array or a scalar, over which `foreach` visits nothing.
- `Flow.Evidence.Set`: the number of filters consulted is a ghost result, so it states the early exit only in the proof.
- `Pipelines.Pipeline.UpdatePropertyDatabaseForFlowElement` does not model the purge loop: it edits copies, and its absence is stated by `PropertyIndex.ReindexKeepsStaleEntry`.
- `Flow.FlowData.Process`: a flow element that is not an engine, the SetHeader element or one of the inert JavaScript elements cannot be expressed.
