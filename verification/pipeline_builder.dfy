/**
 * PipelineBuilder: collects the elements of a pipeline and, on `build`,
 * appends the JavaScript elements and the SetHeader element it was told to
 * add, then constructs the pipeline.
 */
module Builders {
  import opened Wrappers
  import opened OrderedMaps
  import opened Values
  import opened KeyFilters
  import opened Logging
  import opened Elements
  import opened Pipelines

  /** The constructor's `$settings` array; a missing entry is `None`. */
  datatype BuilderSettings = BuilderSettings(
    addJavaScriptBuilder: Option<bool>,
    useSetHeaderProperties: Option<bool>,
    javascriptBuilderSettings: Option<map<string, Value>>)

  /**
   * What an element the builder creates itself declares: its properties and
   * its evidence key filter.  The classes of those elements are not part of
   * this model, so what they declare is a parameter of the builder.
   */
  datatype Declared = Declared(properties: Properties, filter: KeyFilter)

  /** What the sequence, JSON bundler, JavaScript builder and SetHeader elements declare. */
  datatype OwnElements = OwnElements(sequence: Declared, jsonBundler: Declared,
                                     javascriptBuilder: Declared, setHeader: Declared)
  {
    ghost predicate Valid() {
      && sequence.properties.Valid() && jsonBundler.properties.Valid()
      && javascriptBuilder.properties.Valid() && setHeader.properties.Valid()
    }
  }

  // The elements the builder creates itself, by data key.

  function SequenceStage(own: OwnElements): Stage {
    Stage("sequence", own.sequence.properties, own.sequence.filter, Sequence)
  }

  function JsonBundlerStage(own: OwnElements): Stage {
    Stage("jsonbundler", own.jsonBundler.properties, own.jsonBundler.filter, JsonBundler)
  }

  function JavascriptBuilderStage(own: OwnElements, settings: map<string, Value>): Stage {
    Stage("javascriptbuilder", own.javascriptBuilder.properties, own.javascriptBuilder.filter, JavascriptBuilder(settings))
  }

  function SetHeaderStage(own: OwnElements): Stage {
    Stage("set-headers", own.setHeader.properties, own.setHeader.filter, SetHeaders)
  }

  /** `getJavaScriptElements`: the three JavaScript elements, in this order, or none. */
  function JavaScriptElements(own: OwnElements, add: bool, settings: map<string, Value>): seq<Stage> {
    if add then [SequenceStage(own), JsonBundlerStage(own), JavascriptBuilderStage(own, settings)] else []
  }

  /** `getSetHeaderElements`: a SetHeader element, or none. */
  function SetHeaderElements(own: OwnElements, use: bool): seq<Stage> {
    if use then [SetHeaderStage(own)] else []
  }

  /** The element list after `build`: what was added, then the JavaScript elements, then the SetHeader element. */
  function Built(own: OwnElements, elements: seq<Stage>, addJs: bool, jsSettings: map<string, Value>, useSetHeader: bool): seq<Stage> {
    elements + JavaScriptElements(own, addJs, jsSettings) + SetHeaderElements(own, useSetHeader)
  }

  /**
   * `build` keeps the added elements first and in order; the SetHeader
   * element, when asked for, comes last, so it runs after every element
   * whose properties it reads; the JavaScript elements sit in between.
   */
  lemma BuiltOrder(own: OwnElements, elements: seq<Stage>, addJs: bool, jsSettings: map<string, Value>, useSetHeader: bool)
    ensures var r := Built(own, elements, addJs, jsSettings, useSetHeader);
      && |r| == |elements| + (if addJs then 3 else 0) + (if useSetHeader then 1 else 0)
      && r[..|elements|] == elements
      && (useSetHeader ==> r[|r| - 1] == SetHeaderStage(own))
      && (addJs ==> r[|elements|] == SequenceStage(own) && r[|elements| + 1] == JsonBundlerStage(own)
                    && r[|elements| + 2] == JavascriptBuilderStage(own, jsSettings))
  {
    var r := Built(own, elements, addJs, jsSettings, useSetHeader);
    assert r[..|elements|] == elements;
  }

  /**
   * `build` appends to the builder's own list, so a second `build` appends
   * the builder's elements a second time: the SetHeader element is then in
   * the list twice, at the end of each round.
   */
  lemma BuildTwiceRepeats(own: OwnElements, elements: seq<Stage>, addJs: bool, jsSettings: map<string, Value>)
    ensures var once := Built(own, elements, addJs, jsSettings, true);
      var twice := Built(own, once, addJs, jsSettings, true);
      && |twice| == |once| + |once| - |elements|
      && twice[|once| - 1] == SetHeaderStage(own) && twice[|twice| - 1] == SetHeaderStage(own)
      && twice[..|once|] == once
  {
    var once := Built(own, elements, addJs, jsSettings, true);
    BuiltOrder(own, elements, addJs, jsSettings, true);
    BuiltOrder(own, once, addJs, jsSettings, true);
  }

  /**
   * The built list holds only well-formed elements when the added ones are,
   * and, when the SetHeader element is added, registering the list maps
   * `set-headers` to it.
   */
  lemma BuiltFacts(own: OwnElements, elements: seq<Stage>, addJs: bool, jsSettings: map<string, Value>, useSetHeader: bool)
    requires own.Valid() && forall i :: 0 <= i < |elements| ==> elements[i].Valid()
    ensures var r := Built(own, elements, addJs, jsSettings, useSetHeader);
      && (forall i :: 0 <= i < |r| ==> r[i].Valid())
      && (useSetHeader ==> SetHeaderStage(own).dataKey in Registered(r).vals
                           && Registered(r).vals[SetHeaderStage(own).dataKey] == SetHeaderStage(own))
  {
    var r := Built(own, elements, addJs, jsSettings, useSetHeader);
    BuiltOrder(own, elements, addJs, jsSettings, useSetHeader);
    forall i | 0 <= i < |r| ensures r[i].Valid() {
      if i < |elements| {
        assert r[i] == r[..|elements|][i];
      }
    }
    if useSetHeader {
      RegisteredLastWins(r, |r| - 1);
    }
  }

  class PipelineBuilder {
    /** What the elements `build` creates declare. */
    const own: OwnElements
    var addJavaScriptBuilder: bool
    var javascriptBuilderSettings: map<string, Value>
    var useSetHeaderProperties: bool
    var flowElements: seq<Stage>
    /** The settings handed to the pipeline; only `addLogger` writes them. */
    var settings: PipelineSettings

    ghost predicate Valid()
      reads this
    {
      && own.Valid()
      && (forall i :: 0 <= i < |flowElements| ==> flowElements[i].Valid())
      && settings.suppressProcessExceptions.None?
    }

    /**
     * The three options default to true, true and no settings.  The
     * constructor's array is not kept: the pipeline's own settings start
     * empty.
     */
    constructor (s: BuilderSettings, own: OwnElements)
      requires own.Valid()
      ensures this.own == own
      ensures addJavaScriptBuilder == s.addJavaScriptBuilder.GetOr(true)
      ensures useSetHeaderProperties == s.useSetHeaderProperties.GetOr(true)
      ensures javascriptBuilderSettings == s.javascriptBuilderSettings.GetOr(map[])
      ensures flowElements == [] && settings == PipelineSettings(None, None)
      ensures Valid()
    {
      this.own := own;
      addJavaScriptBuilder := s.addJavaScriptBuilder.GetOr(true);
      useSetHeaderProperties := s.useSetHeaderProperties.GetOr(true);
      javascriptBuilderSettings := s.javascriptBuilderSettings.GetOr(map[]);
      flowElements := [];
      settings := PipelineSettings(None, None);
    }

    /** `add`: append an element; returns the builder for chaining. */
    method Add(e: Stage) returns (self: PipelineBuilder)
      requires Valid() && e.Valid()
      modifies this
      ensures self == this && Valid()
      ensures flowElements == old(flowElements) + [e]
      ensures settings == old(settings)
      ensures addJavaScriptBuilder == old(addJavaScriptBuilder) && useSetHeaderProperties == old(useSetHeaderProperties)
      ensures javascriptBuilderSettings == old(javascriptBuilderSettings)
    {
      flowElements := flowElements + [e];
      return this;
    }

    /** `addLogger`: the pipeline will log to `logger`; returns the builder for chaining. */
    method AddLogger(logger: Logger) returns (self: PipelineBuilder)
      requires Valid()
      modifies this
      ensures self == this && Valid()
      ensures settings == old(settings).(logger := Some(logger))
      ensures flowElements == old(flowElements)
      ensures addJavaScriptBuilder == old(addJavaScriptBuilder) && useSetHeaderProperties == old(useSetHeaderProperties)
      ensures javascriptBuilderSettings == old(javascriptBuilderSettings)
    {
      settings := settings.(logger := Some(logger));
      return this;
    }

    /**
     * `build`: append the JavaScript and SetHeader elements to the builder's
     * own list and construct a pipeline from it.  The pipeline logs to the
     * builder's logger, or, when none was added, to a new logger at the
     * default level.  Exceptions are never suppressed in a built pipeline,
     * and the SetHeader element, when added, is the one registered under
     * `set-headers`.
     */
    method Build() returns (p: Pipeline)
      requires Valid()
      modifies this, if settings.logger.Some? then {settings.logger.value} else {}
      ensures Valid() && settings == old(settings)
      ensures addJavaScriptBuilder == old(addJavaScriptBuilder) && useSetHeaderProperties == old(useSetHeaderProperties)
      ensures javascriptBuilderSettings == old(javascriptBuilderSettings)
      ensures flowElements == Built(own, old(flowElements), addJavaScriptBuilder, javascriptBuilderSettings, useSetHeaderProperties)
      ensures fresh(p) && p.flowElements == flowElements
      ensures p.flowElementsList == Registered(flowElements)
      ensures p.propertyDatabase == PropertyIndex.IndexAll(map[], flowElements)
      ensures settings.logger.Some? ==> p.logger == settings.logger.value
      ensures settings.logger.None? ==> (fresh(p.logger) && p.logger.minLevel == GetLevel(None))
      ensures settings.logger.None? ==> p.logger.delivered == Gate(p.logger.minLevel, "info", ["test"])
      ensures !p.suppressProcessExceptions
      ensures useSetHeaderProperties ==> p.GetElement(SetHeaderStage(own).dataKey) == Some(SetHeaderStage(own))
      ensures settings.logger.Some? ==>
                settings.logger.value.delivered ==
                old(settings.logger.value.delivered) + Gate(settings.logger.value.minLevel, "info", ["test"])
    {
      AppendBuilt();
      p := new Pipeline(flowElements, settings);
      assert useSetHeaderProperties ==> SetHeaderStage(own).dataKey in p.flowElementsList.vals;
    }

    /** The first half of `build`: the builder's own list gets the extra elements. */
    method AppendBuilt()
      requires Valid()
      modifies this
      ensures Valid() && settings == old(settings)
      ensures flowElements == Built(own, old(flowElements), addJavaScriptBuilder, javascriptBuilderSettings, useSetHeaderProperties)
      ensures useSetHeaderProperties ==> SetHeaderStage(own).dataKey in Registered(flowElements).vals
                                         && Registered(flowElements).vals[SetHeaderStage(own).dataKey] == SetHeaderStage(own)
      ensures addJavaScriptBuilder == old(addJavaScriptBuilder) && useSetHeaderProperties == old(useSetHeaderProperties)
      ensures javascriptBuilderSettings == old(javascriptBuilderSettings)
    {
      BuiltFacts(own, flowElements, addJavaScriptBuilder, javascriptBuilderSettings, useSetHeaderProperties);
      flowElements := Built(own, flowElements, addJavaScriptBuilder, javascriptBuilderSettings, useSetHeaderProperties);
    }
  }
}
