/**
 * SetHeaderElement: gathers the `SetHeader*` properties other elements
 * declare, derives a response-header name from each property name, and merges
 * the values contributed to the same header.
 */
module SetHeaders {
  import opened Wrappers
  import opened OrderedMaps
  import opened Text
  import opened Values
  import opened Elements

  const Prefix: string := "SetHeader"

  // ---------------------------------------------------------------------
  // Header name derivation
  // ---------------------------------------------------------------------

  /** Number of characters before the first upper-case letter of `t`. */
  function NonUpperRun(t: string): (n: nat)
    ensures n <= |t|
    ensures forall i :: 0 <= i < n ==> !IsUpper(t[i])
    ensures n < |t| ==> IsUpper(t[n])
  {
    if t == [] || IsUpper(t[0]) then 0 else 1 + NonUpperRun(t[1..])
  }

  /** Length of the leading piece `preg_split('/(?=[A-Z][^A-Z]*)/', ...)` cuts off:
      up to (not including) the first upper-case letter after position 0. */
  function PieceLength(s: string): (n: nat)
    requires s != []
    ensures 1 <= n <= |s|
    ensures forall i :: 1 <= i < n ==> !IsUpper(s[i])
    ensures n < |s| ==> IsUpper(s[n])
  {
    1 + NonUpperRun(s[1..])
  }

  /** `preg_split('/(?=[A-Z][^A-Z]*)/', $s, -1, PREG_SPLIT_NO_EMPTY)`: cut before every
      upper-case letter and drop empty pieces. */
  function SplitBeforeUpper(s: string): (parts: seq<string>)
    decreases |s|
  {
    if s == [] then [] else [s[..PieceLength(s)]] + SplitBeforeUpper(s[PieceLength(s)..])
  }

  function Concat(parts: seq<string>): string {
    if parts == [] then "" else parts[0] + Concat(parts[1..])
  }

  /** The pieces of the split concatenate back to the input. */
  lemma {:induction false} SplitBeforeUpperConcat(s: string)
    ensures Concat(SplitBeforeUpper(s)) == s
    decreases |s|
  {
    if s != [] {
      var n := PieceLength(s);
      var parts := SplitBeforeUpper(s);
      assert parts[0] == s[..n] && parts[1..] == SplitBeforeUpper(s[n..]);
      SplitBeforeUpperConcat(s[n..]);
      assert Concat(parts) == s[..n] + s[n..];
      TakeDrop(s, n);
    }
  }

  /**
   * The split cuts exactly before upper-case letters: no piece is empty, no
   * piece has an upper-case letter after its first character, and every piece
   * but the first starts with one.
   */
  lemma {:induction false} SplitBeforeUpperPieces(s: string)
    ensures forall i :: 0 <= i < |SplitBeforeUpper(s)| ==> SplitBeforeUpper(s)[i] != []
    ensures forall i, j :: 0 <= i < |SplitBeforeUpper(s)| && 1 <= j < |SplitBeforeUpper(s)[i]| ==>
      !IsUpper(SplitBeforeUpper(s)[i][j])
    ensures forall i :: 1 <= i < |SplitBeforeUpper(s)| ==> IsUpper(SplitBeforeUpper(s)[i][0])
    decreases |s|
  {
    if s != [] {
      var n := PieceLength(s);
      var parts := SplitBeforeUpper(s);
      var tail := SplitBeforeUpper(s[n..]);
      SplitBeforeUpperPieces(s[n..]);
      assert parts == [s[..n]] + tail;
      assert forall i :: 1 <= i < |parts| ==> parts[i] == tail[i - 1];
      assert parts[0] == s[..n];
      if |tail| > 0 {
        assert tail[0] == s[n..][..PieceLength(s[n..])];
      }
    }
  }

  /** More than one piece exactly when an upper-case letter follows position 0. */
  lemma SplitCount(s: string)
    requires s != []
    ensures |SplitBeforeUpper(s)| > 1 <==> PieceLength(s) < |s|
    ensures SplitBeforeUpper(s)[0] == s[..PieceLength(s)]
  {
  }

  /**
   * `getResponseHeaderName`: the name must begin with `SetHeader`; every
   * `SetHeader` is removed; the rest must begin with an upper-case letter and
   * contain another one; then every occurrence of the first piece (the
   * component tag) is removed.
   */
  function ResponseHeaderName(propertyKey: string): (r: Result<string, Error>)
    ensures r.Ok? <==>
      && |propertyKey| >= |Prefix| && propertyKey[..|Prefix|] == Prefix
      && var rest := RemoveAll(propertyKey, Prefix);
         |rest| > 0 && IsUpper(rest[0]) && exists i :: 1 <= i < |rest| && IsUpper(rest[i])
    ensures !(|propertyKey| >= |Prefix| && propertyKey[..|Prefix|] == Prefix) ==>
      r == Err(PropertyNotSetHeader(propertyKey))
    ensures r.Err? && |propertyKey| >= |Prefix| && propertyKey[..|Prefix|] == Prefix ==>
      r == Err(WrongPropertyFormat(propertyKey))
    ensures r.Ok? ==>
      var rest := RemoveAll(propertyKey, Prefix);
      r.value == RemoveAll(rest, rest[..PieceLength(rest)])
    ensures r.Ok? ==> |r.value| + |Prefix| + 1 <= |propertyKey|
  {
    if |propertyKey| < |Prefix| || propertyKey[..|Prefix|] != Prefix then
      Err(PropertyNotSetHeader(propertyKey))
    else
      var rest := RemoveAll(propertyKey, Prefix);
      RemoveAllShortens(propertyKey, Prefix);
      if |rest| == 0 || !IsUpper(rest[0]) then
        Err(WrongPropertyFormat(propertyKey))
      else
        var parts := SplitBeforeUpper(rest);
        SplitCount(rest);
        if |parts| <= 1 then
          Err(WrongPropertyFormat(propertyKey))
        else
          var tag := parts[0];
          RemoveAllShortens(rest, tag);
          Ok(RemoveAll(rest, tag))
  }

  /**
   * The well-formed case: `SetHeader` + a component tag (an upper-case letter
   * followed by non-upper-case ones) + a header name starting with an
   * upper-case letter yields that header name, provided neither the `S` of
   * the prefix nor the tag's first letter occurs again later on.
   */
  lemma HeaderNameOfTaggedKey(tag: string, header: string)
    requires |tag| > 0 && IsUpper(tag[0])
    requires forall i :: 1 <= i < |tag| ==> !IsUpper(tag[i])
    requires |header| > 0 && IsUpper(header[0])
    requires forall i :: 0 <= i < |tag| ==> tag[i] != Prefix[0]
    requires forall i :: 0 <= i < |header| ==> header[i] != Prefix[0] && header[i] != tag[0]
    ensures ResponseHeaderName(Prefix + tag + header) == Ok(header)
  {
    var key := Prefix + tag + header;
    var rest := tag + header;
    assert key == Prefix + rest;
    RemoveAllFront(Prefix, rest);
    assert forall i :: 0 <= i < |rest| ==> rest[i] != Prefix[0] by {
      forall i | 0 <= i < |rest| ensures rest[i] != Prefix[0] {
        if i >= |tag| { assert rest[i] == header[i - |tag|]; }
      }
    }
    RemoveAllAbsent(rest, Prefix);
    assert RemoveAll(key, Prefix) == rest;
    assert IsUpper(rest[|tag|]);
    assert PieceLength(rest) == |tag|;
    assert rest[..PieceLength(rest)] == tag;
    RemoveAllFront(tag, header);
    RemoveAllAbsent(header, tag);
  }

  /** `SetHeaderBrowserAccept-CH` names the `Accept-CH` header. */
  lemma HeaderNameBrowser()
    ensures ResponseHeaderName("SetHeaderBrowserAccept-CH") == Ok("Accept-CH")
  {
    HeaderNameOfTaggedKey("Browser", "Accept-CH");
    assert Prefix + "Browser" + "Accept-CH" == "SetHeaderBrowserAccept-CH";
  }

  /** A worked example: `SetHeaderAcceptCH`, the key that `getResponseHeaderName`'s
      own documentation names, is well-formed; the component `Accept` is removed
      and the header name is `CH`. */
  lemma HeaderNameCH()
    ensures ResponseHeaderName("SetHeaderAcceptCH") == Ok("CH")
  {
    HeaderNameOfTaggedKey("Accept", "CH");
    assert Prefix + "Accept" + "CH" == "SetHeaderAcceptCH";
  }

  /**
   * `SetHeader` followed by a component tag alone (one upper-case letter
   * and no other) is malformed: there is no header name after the tag.
   */
  lemma HeaderNameTagOnly(tag: string)
    requires |tag| > 0 && IsUpper(tag[0])
    requires forall i :: 1 <= i < |tag| ==> !IsUpper(tag[i])
    requires forall i :: 0 <= i < |tag| ==> tag[i] != Prefix[0]
    ensures ResponseHeaderName(Prefix + tag) == Err(WrongPropertyFormat(Prefix + tag))
  {
    RemoveAllFront(Prefix, tag);
    RemoveAllAbsent(tag, Prefix);
  }

  /** A key whose remainder has a single upper-case letter is malformed. */
  lemma HeaderNameSingleComponent()
    ensures ResponseHeaderName("SetHeaderBrowser") == Err(WrongPropertyFormat("SetHeaderBrowser"))
  {
    HeaderNameTagOnly("Browser");
    assert Prefix + "Browser" == "SetHeaderBrowser";
  }

  /** A key not starting with `SetHeader` is rejected as such. */
  lemma HeaderNameNotSetHeader()
    ensures ResponseHeaderName("BrowserAccept-CH") == Err(PropertyNotSetHeader("BrowserAccept-CH"))
  {
    assert "BrowserAccept-CH"[..|Prefix|] != Prefix by {
      assert "BrowserAccept-CH"[0] != Prefix[0];
    }
  }

  // ---------------------------------------------------------------------
  // Header values
  // ---------------------------------------------------------------------

  /** The values a property may hold that do not count as a header value. */
  predicate IsPlaceholder(v: string) { v == "Unknown" || v == "noValue" }

  /**
   * The properties `FlowData` declares. PHP reads a declared property
   * directly, so `$flowData->{$key}` only reaches the magic getter (and its
   * exception) for any other key.
   */
  const FlowDataFields: set<string> := {"pipeline", "stopped", "evidence", "data", "processed", "errors", "jsonbundler"}

  predicate IsFlowDataField(key: string) { key in FlowDataFields }

  /**
   * `getPropertyValue`. A key naming a declared `FlowData` property reads
   * that property, which is never element data, so the result is "".
   * For any other key, reading element data that is not there throws (the
   * magic getter is `FlowData::get`); a property that is not set, is not an
   * aspect value with a value, or holds `Unknown`/`noValue` gives "".
   */
  function GetPropertyValue(data: DataMap, elementKey: string, propertyKey: string): (r: Result<string, Error>)
    ensures IsFlowDataField(elementKey) ==> r.Ok? && r.value == ""
    ensures r.Err? <==> !IsFlowDataField(elementKey) && GetElementData(data, elementKey).Err?
    ensures r.Err? ==> r.error == GetElementData(data, elementKey).error
    ensures r.Ok? ==> !IsPlaceholder(r.value)
    ensures r.Ok? && r.value != "" ==>
      && !IsFlowDataField(elementKey)
      && var values := GetElementData(data, elementKey).value.values;
         ToLower(propertyKey) in values && values[ToLower(propertyKey)] == AspectValue(true, r.value)
  {
    if IsFlowDataField(elementKey) then Ok("")
    else
      var elementData :- GetElementData(data, elementKey);
      var key := ToLower(propertyKey);
      ToLowerIdempotent(propertyKey);
      if !elementData.IsSet(key) then Ok("")
      else
        match elementData.values[key]
        case AspectValue(hasValue, value) =>
          if hasValue && !IsPlaceholder(value) then Ok(value) else Ok("")
        case _ => Ok("")
  }

  /** A property holding a real aspect value contributes exactly that value. */
  lemma GetPropertyValueFound(data: DataMap, elementKey: string, propertyKey: string, value: string)
    requires !IsFlowDataField(elementKey)
    requires GetElementData(data, elementKey).Ok?
    requires ToLower(propertyKey) in GetElementData(data, elementKey).value.values
    requires GetElementData(data, elementKey).value.values[ToLower(propertyKey)] == AspectValue(true, value)
    requires !IsPlaceholder(value)
    ensures GetPropertyValue(data, elementKey, propertyKey) == Ok(value)
  {
    ToLowerIdempotent(propertyKey);
  }

  /** Combining a header's current value with one more contribution. */
  function Merge(current: string, value: string): string {
    if current == "" then value
    else if value != "" then current + "," + value
    else current
  }

  /** The contributions that are not "". */
  function NonEmpty(vs: seq<string>): (r: seq<string>)
    ensures forall i :: 0 <= i < |r| ==> r[i] != ""
    ensures |r| <= |vs|
  {
    if vs == [] then []
    else if vs[|vs| - 1] == "" then NonEmpty(vs[..|vs| - 1])
    else NonEmpty(vs[..|vs| - 1]) + [vs[|vs| - 1]]
  }

  /** `implode(',', $vs)` */
  function Join(vs: seq<string>): string {
    if vs == [] then ""
    else if |vs| == 1 then vs[0]
    else Join(vs[..|vs| - 1]) + "," + vs[|vs| - 1]
  }

  /** Joining non-empty strings gives "" only for no strings. */
  lemma {:induction false} JoinEmpty(vs: seq<string>)
    requires forall i :: 0 <= i < |vs| ==> vs[i] != ""
    ensures Join(vs) == "" <==> vs == []
  {
    if |vs| > 1 {
      assert |Join(vs)| > 0;
    } else if |vs| == 1 {
      assert Join(vs) == vs[0];
    }
  }

  /** Merging contribution by contribution is joining the non-empty ones with commas. */
  lemma MergeJoins(vs: seq<string>, v: string)
    ensures Merge(Join(NonEmpty(vs)), v) == Join(NonEmpty(vs + [v]))
  {
    var ws := vs + [v];
    assert ws[..|ws| - 1] == vs;
    JoinEmpty(NonEmpty(vs));
    if v != "" {
      var ne := NonEmpty(vs);
      assert NonEmpty(ws) == ne + [v];
      if ne != [] {
        assert (ne + [v])[..|ne + [v]| - 1] == ne;
      }
    }
  }

  /** One header name and the value one property contributes to it. */
  type Contribution = (string, string)

  /** `$responseHeadersDict[$name]` updated with one contribution. */
  function AddContribution(headers: OMap<string, string>, c: Contribution): (r: OMap<string, string>)
    ensures headers.Valid() ==> r.Valid()
  {
    if c.0 in headers.vals then headers.Put(c.0, Merge(headers.vals[c.0], c.1))
    else headers.Put(c.0, c.1)
  }

  /** The header dictionary the contributions build up, in order. */
  function Aggregate(cs: seq<Contribution>): (r: OMap<string, string>)
    ensures r.Valid()
  {
    if cs == [] then Empty() else AddContribution(Aggregate(cs[..|cs| - 1]), cs[|cs| - 1])
  }

  /** The values contributed to header `name`, in order. */
  function ValuesFor(cs: seq<Contribution>, name: string): seq<string> {
    if cs == [] then []
    else if cs[|cs| - 1].0 == name then ValuesFor(cs[..|cs| - 1], name) + [cs[|cs| - 1].1]
    else ValuesFor(cs[..|cs| - 1], name)
  }

  /** The header names, each once, in order of first contribution. */
  function Distinct(names: seq<string>): seq<string> {
    if names == [] then []
    else if names[|names| - 1] in Distinct(names[..|names| - 1]) then Distinct(names[..|names| - 1])
    else Distinct(names[..|names| - 1]) + [names[|names| - 1]]
  }

  function HeaderNames(cs: seq<Contribution>): seq<string> {
    seq(|cs|, i requires 0 <= i < |cs| => cs[i].0)
  }

  lemma {:induction false} ValuesForAbsent(cs: seq<Contribution>, name: string)
    requires name !in Aggregate(cs).vals
    ensures ValuesFor(cs, name) == []
  {
    if cs != [] {
      ValuesForAbsent(cs[..|cs| - 1], name);
    }
  }

  lemma {:induction false} DistinctMembers(names: seq<string>)
    ensures forall x :: x in Distinct(names) <==> x in names
  {
    if names != [] {
      DistinctMembers(names[..|names| - 1]);
      assert names == names[..|names| - 1] + [names[|names| - 1]];
    }
  }

  /**
   * The header dictionary has one entry per header name, in order of first
   * contribution, holding the non-empty contributions joined with commas.
   */
  lemma {:induction false} AggregateJoins(cs: seq<Contribution>)
    ensures Aggregate(cs).keys == Distinct(HeaderNames(cs))
    ensures forall name :: name in Aggregate(cs).vals ==>
      Aggregate(cs).vals[name] == Join(NonEmpty(ValuesFor(cs, name)))
  {
    if cs != [] {
      var init := cs[..|cs| - 1];
      var c := cs[|cs| - 1];
      AggregateJoins(init);
      assert HeaderNames(cs)[..|cs| - 1] == HeaderNames(init);
      var before := Aggregate(init);
      forall name | name in Aggregate(cs).vals
        ensures Aggregate(cs).vals[name] == Join(NonEmpty(ValuesFor(cs, name)))
      {
        if name == c.0 {
          if c.0 in before.vals {
            MergeJoins(ValuesFor(init, name), c.1);
          } else {
            ValuesForAbsent(init, name);
            MergeJoins([], c.1);
          }
        }
      }
    }
  }

  /** The SetHeader property names, grouped by the data key of the element declaring them. */
  type HeaderProperties = OMap<string, seq<string>>

  /** `(elementKey, propertyName)` for each name in `names`. */
  function Tag(elementKey: string, names: seq<string>): seq<(string, string)> {
    seq(|names|, i requires 0 <= i < |names| => (elementKey, names[i]))
  }

  lemma TagSnoc(elementKey: string, names: seq<string>, j: nat)
    requires j < |names|
    ensures Tag(elementKey, names[..j + 1]) == Tag(elementKey, names[..j]) + [(elementKey, names[j])]
  {
  }

  /** The property names stored under `k` ([] when `k` is not a key). */
  function NamesAt(dict: HeaderProperties, k: string): seq<string> {
    if k in dict.vals then dict.vals[k] else []
  }

  /** The properties of the element keys from position `n` on, in the order the nested loops visit them. */
  function PairsFrom(dict: HeaderProperties, n: nat): seq<(string, string)>
    requires n <= |dict.keys|
    decreases |dict.keys| - n
  {
    if n == |dict.keys| then []
    else Tag(dict.keys[n], NamesAt(dict, dict.keys[n])) + PairsFrom(dict, n + 1)
  }

  function Pairs(dict: HeaderProperties): seq<(string, string)> {
    PairsFrom(dict, 0)
  }

  /** The header name and value of one property, or the exception either step throws. */
  function Contribute(data: DataMap, elementKey: string, property: string): Result<Contribution, Error> {
    var name :- ResponseHeaderName(property);
    var value :- GetPropertyValue(data, elementKey, property);
    Ok((name, value))
  }

  /**
   * Header name and value of each property in turn; the first exception
   * (from the name, then from the value) ends the walk.
   */
  function Resolve(data: DataMap, pairs: seq<(string, string)>): (r: Result<seq<Contribution>, Error>)
    ensures r.Ok? ==> |r.value| == |pairs|
  {
    if pairs == [] then Ok([])
    else
      var done :- Resolve(data, pairs[..|pairs| - 1]);
      var c :- Contribute(data, pairs[|pairs| - 1].0, pairs[|pairs| - 1].1);
      Ok(done + [c])
  }

  /** `getResponseHeaderValue` as a specification. */
  function ResponseHeaderValues(data: DataMap, dict: HeaderProperties): Result<OMap<string, string>, Error> {
    var cs :- Resolve(data, Pairs(dict));
    Ok(Aggregate(cs))
  }

  /** Once the walk has thrown, walking further throws the same exception. */
  lemma {:induction false} ResolveErrSticky(data: DataMap, a: seq<(string, string)>, b: seq<(string, string)>)
    requires a <= b
    requires Resolve(data, a).Err?
    ensures Resolve(data, b) == Resolve(data, a)
    decreases |b|
  {
    if |b| > |a| {
      ResolveErrSticky(data, a, b[..|b| - 1]);
    } else {
      assert a == b;
    }
  }

  /**
   * Every contribution names the header its property's name derives to and
   * carries that property's value; exceptions come from exactly those two.
   */
  lemma {:induction false} ResolveContents(data: DataMap, pairs: seq<(string, string)>)
    requires Resolve(data, pairs).Ok?
    ensures forall i :: 0 <= i < |pairs| ==>
      && ResponseHeaderName(pairs[i].1) == Ok(Resolve(data, pairs).value[i].0)
      && GetPropertyValue(data, pairs[i].0, pairs[i].1) == Ok(Resolve(data, pairs).value[i].1)
  {
    if pairs != [] {
      var init, x := pairs[..|pairs| - 1], pairs[|pairs| - 1];
      assert Resolve(data, init).Ok? && Contribute(data, x.0, x.1).Ok?;
      var done, c := Resolve(data, init).value, Contribute(data, x.0, x.1).value;
      assert Resolve(data, pairs).value == done + [c];
      ResolveContents(data, init);
      forall i | 0 <= i < |pairs|
        ensures && ResponseHeaderName(pairs[i].1) == Ok((done + [c])[i].0)
                && GetPropertyValue(data, pairs[i].0, pairs[i].1) == Ok((done + [c])[i].1)
      {
        if i < |init| {
          assert pairs[i] == init[i] && (done + [c])[i] == done[i];
        } else {
          assert pairs[i] == x && (done + [c])[i] == c;
        }
      }
    }
  }

  /** One more property: its contribution, or the exception it throws. */
  lemma ResolveSnoc(data: DataMap, a: seq<(string, string)>, x: (string, string), done: seq<Contribution>)
    requires Resolve(data, a) == Ok(done)
    ensures Resolve(data, a + [x]) ==
      match Contribute(data, x.0, x.1)
      case Err(e) => Err(e)
      case Ok(c) => Ok(done + [c])
  {
    assert (a + [x])[..|a + [x]| - 1] == a;
  }

  lemma AggregateSnoc(cs: seq<Contribution>, c: Contribution)
    ensures Aggregate(cs + [c]) == AddContribution(Aggregate(cs), c)
  {
    assert (cs + [c])[..|cs|] == cs;
  }

  /**
   * One iteration of `getResponseHeaderValue`'s inner loop: derive the
   * header name, read the value and merge it into the dictionary.
   */
  method AddPropertyValue(data: DataMap, headers: OMap<string, string>, elementKey: string, property: string)
    returns (r: Result<OMap<string, string>, Error>)
    ensures r == match Contribute(data, elementKey, property)
      case Err(e) => Err(e)
      case Ok(c) => Ok(AddContribution(headers, c))
  {
    var name := ResponseHeaderName(property);
    if name.Err? {
      return Err(name.error);
    }
    var value := GetPropertyValue(data, elementKey, property);
    if value.Err? {
      return Err(value.error);
    }
    if name.value in headers.vals {
      var current := headers.vals[name.value];
      if current == "" {
        current := value.value;
      } else if value.value != "" {
        current := current + "," + value.value;
      }
      return Ok(headers.Put(name.value, current));
    } else {
      return Ok(headers.Put(name.value, value.value));
    }
  }

  /**
   * One pass of `getResponseHeaderValue`'s inner loop, continuing the walk
   * that has produced `done` over `before` and the first `j` names.
   */
  method AddPropertyAt(data: DataMap, headers: OMap<string, string>, elementKey: string, names: seq<string>, j: nat,
                       ghost before: seq<(string, string)>, ghost done: seq<Contribution>)
    returns (r: Result<OMap<string, string>, Error>, ghost after: seq<Contribution>)
    requires j < |names|
    requires Resolve(data, before + Tag(elementKey, names[..j])) == Ok(done) && headers == Aggregate(done)
    ensures r.Err? ==> Resolve(data, before + Tag(elementKey, names)) == Err(r.error)
    ensures r.Ok? ==> Resolve(data, before + Tag(elementKey, names[..j + 1])) == Ok(after) && r.value == Aggregate(after)
  {
    ghost var walked := before + Tag(elementKey, names[..j]);
    ghost var next := before + Tag(elementKey, names[..j + 1]);
    TagSnoc(elementKey, names, j);
    assert next == walked + [(elementKey, names[j])];
    ResolveSnoc(data, walked, (elementKey, names[j]), done);
    r := AddPropertyValue(data, headers, elementKey, names[j]);
    if r.Err? {
      assert next <= before + Tag(elementKey, names);
      ResolveErrSticky(data, next, before + Tag(elementKey, names));
      after := done;
    } else {
      ghost var c := Contribute(data, elementKey, names[j]).value;
      AggregateSnoc(done, c);
      after := done + [c];
    }
  }

  /**
   * `getResponseHeaderValue`'s inner loop over one element's SetHeader
   * properties, continuing the walk that has produced `done` from `before`.
   */
  method AddElementValues(data: DataMap, headers: OMap<string, string>, elementKey: string, names: seq<string>,
                          ghost before: seq<(string, string)>, ghost done: seq<Contribution>)
    returns (r: Result<OMap<string, string>, Error>, ghost after: seq<Contribution>)
    requires Resolve(data, before) == Ok(done) && headers == Aggregate(done)
    ensures r.Err? ==> Resolve(data, before + Tag(elementKey, names)) == Err(r.error)
    ensures r.Ok? ==> Resolve(data, before + Tag(elementKey, names)) == Ok(after) && r.value == Aggregate(after)
  {
    var acc := headers;
    after := done;
    var j := 0;
    assert before + Tag(elementKey, names[..0]) == before;
    while j < |names|
      invariant 0 <= j <= |names|
      invariant Resolve(data, before + Tag(elementKey, names[..j])) == Ok(after)
      invariant acc == Aggregate(after)
    {
      var added;
      added, after := AddPropertyAt(data, acc, elementKey, names, j, before, after);
      if added.Err? {
        return added, after;
      }
      acc := added.value;
      j := j + 1;
    }
    assert names[..j] == names;
    return Ok(acc), after;
  }

  /**
   * One pass of `getResponseHeaderValue`'s outer loop: the properties of
   * element key `i`, continuing the walk over `walked`, which the
   * properties from key `i` on complete to `Pairs(dict)`.
   */
  method AddElementAt(data: DataMap, dict: HeaderProperties, i: nat, headers: OMap<string, string>,
                      ghost walked: seq<(string, string)>, ghost done: seq<Contribution>)
    returns (r: Result<OMap<string, string>, Error>, ghost walkedNext: seq<(string, string)>, ghost after: seq<Contribution>)
    requires i < |dict.keys|
    requires walked + PairsFrom(dict, i) == Pairs(dict)
    requires Resolve(data, walked) == Ok(done) && headers == Aggregate(done)
    ensures r.Err? ==> ResponseHeaderValues(data, dict) == Err(r.error)
    ensures r.Ok? ==> walkedNext + PairsFrom(dict, i + 1) == Pairs(dict)
    ensures r.Ok? ==> Resolve(data, walkedNext) == Ok(after) && r.value == Aggregate(after)
  {
    var elementKey := dict.keys[i];
    walkedNext := walked + Tag(elementKey, NamesAt(dict, elementKey));
    assert walked + PairsFrom(dict, i) == walkedNext + PairsFrom(dict, i + 1);
    r, after := AddElementValues(data, headers, elementKey, NamesAt(dict, elementKey), walked, done);
    if r.Err? {
      assert walkedNext <= Pairs(dict);
      ResolveErrSticky(data, walkedNext, Pairs(dict));
    }
  }

  /**
   * `getResponseHeaderValue`: walks the element keys and, within each, the
   * property names, merging each property's value into its header.
   */
  method GetResponseHeaderValue(data: DataMap, dict: HeaderProperties) returns (r: Result<OMap<string, string>, Error>)
    ensures r == ResponseHeaderValues(data, dict)
  {
    var headers := Empty();
    ghost var done: seq<Contribution> := [];
    ghost var walked: seq<(string, string)> := [];
    var i := 0;
    while i < |dict.keys|
      invariant 0 <= i <= |dict.keys|
      invariant walked + PairsFrom(dict, i) == Pairs(dict)
      invariant Resolve(data, walked) == Ok(done)
      invariant headers == Aggregate(done)
    {
      var added;
      added, walked, done := AddElementAt(data, dict, i, headers, walked, done);
      if added.Err? {
        return Err(added.error);
      }
      headers := added.value;
      i := i + 1;
    }
    assert walked == Pairs(dict);
    return Ok(headers);
  }

  // ---------------------------------------------------------------------
  // Collecting the SetHeader properties of a pipeline
  // ---------------------------------------------------------------------

  /** `$propertyMeta['name']` read as a string ("" when absent or not a string). */
  function PropertyName(props: Properties, key: string): string {
    if key in props.vals && "name" in props.vals[key].vals && props.vals[key].vals["name"].Str? then
      props.vals[key].vals["name"].s
    else ""
  }

  /** A property key marks a SetHeader property when it contains `setheader` (case-sensitive). */
  predicate IsSetHeaderKey(key: string) { Contains(key, "setheader") }

  /** The names of the SetHeader properties among the first `n` property keys, in order. */
  function SetHeaderNamesUpTo(props: Properties, n: nat): seq<string>
    requires n <= |props.keys|
  {
    if n == 0 then []
    else if IsSetHeaderKey(props.keys[n - 1]) then
      SetHeaderNamesUpTo(props, n - 1) + [PropertyName(props, props.keys[n - 1])]
    else SetHeaderNamesUpTo(props, n - 1)
  }

  function SetHeaderNames(e: Stage): seq<string> {
    SetHeaderNamesUpTo(e.properties, |e.properties.keys|)
  }

  /** `getSetHeaderPropertiesPipeline` as a specification: the elements with at
      least one SetHeader property, keyed by data key. */
  function Scan(stages: seq<Stage>): (r: HeaderProperties)
    ensures r.Valid()
  {
    if stages == [] then Empty()
    else
      var e := stages[|stages| - 1];
      if |SetHeaderNames(e)| > 0 then Scan(stages[..|stages| - 1]).Put(e.dataKey, SetHeaderNames(e))
      else Scan(stages[..|stages| - 1])
  }

  /** A name is collected exactly when some SetHeader key carries it. */
  lemma {:induction false} SetHeaderNamesUpToMembers(props: Properties, n: nat)
    requires n <= |props.keys|
    ensures forall x :: x in SetHeaderNamesUpTo(props, n) <==>
      exists i :: 0 <= i < n && IsSetHeaderKey(props.keys[i]) && PropertyName(props, props.keys[i]) == x
  {
    if n > 0 {
      SetHeaderNamesUpToMembers(props, n - 1);
    }
  }

  lemma SetHeaderNamesMembers(e: Stage)
    ensures forall x :: x in SetHeaderNames(e) <==>
      exists i :: 0 <= i < |e.properties.keys| && IsSetHeaderKey(e.properties.keys[i]) &&
        PropertyName(e.properties, e.properties.keys[i]) == x
  {
    SetHeaderNamesUpToMembers(e.properties, |e.properties.keys|);
  }

  /** An element is listed exactly when it has a SetHeader property, and never with an empty list. */
  lemma {:induction false} ScanKeys(stages: seq<Stage>)
    ensures forall k :: k in Scan(stages).vals <==>
      exists i :: 0 <= i < |stages| && stages[i].dataKey == k && |SetHeaderNames(stages[i])| > 0
    ensures forall k :: k in Scan(stages).vals ==> |Scan(stages).vals[k]| > 0
  {
    forall k | k in Scan(stages).vals
      ensures (exists i :: 0 <= i < |stages| && stages[i].dataKey == k && |SetHeaderNames(stages[i])| > 0)
      ensures |Scan(stages).vals[k]| > 0
    {
      ScanKeyWitness(stages, k);
    }
    forall k | exists i :: 0 <= i < |stages| && stages[i].dataKey == k && |SetHeaderNames(stages[i])| > 0
      ensures k in Scan(stages).vals
    {
      var i :| 0 <= i < |stages| && stages[i].dataKey == k && |SetHeaderNames(stages[i])| > 0;
      ScanKeyListed(stages, i);
    }
  }

  /** A listed data key comes from an element with SetHeader properties, and its list is not empty. */
  lemma {:induction false} ScanKeyWitness(stages: seq<Stage>, k: string)
    requires k in Scan(stages).vals
    ensures exists i :: 0 <= i < |stages| && stages[i].dataKey == k && |SetHeaderNames(stages[i])| > 0
    ensures |Scan(stages).vals[k]| > 0
  {
    var init, e := stages[..|stages| - 1], stages[|stages| - 1];
    if |SetHeaderNames(e)| > 0 && k == e.dataKey {
      assert stages[|stages| - 1] == e;
    } else {
      assert k in Scan(init).vals && Scan(stages).vals[k] == Scan(init).vals[k];
      ScanKeyWitness(init, k);
      var i :| 0 <= i < |init| && init[i].dataKey == k && |SetHeaderNames(init[i])| > 0;
      assert stages[i] == init[i];
    }
  }

  /** Every element with SetHeader properties has its data key listed. */
  lemma {:induction false} ScanKeyListed(stages: seq<Stage>, i: nat)
    requires i < |stages| && |SetHeaderNames(stages[i])| > 0
    ensures stages[i].dataKey in Scan(stages).vals
  {
    var init := stages[..|stages| - 1];
    if i < |init| {
      assert init[i] == stages[i];
      ScanKeyListed(init, i);
      assert Scan(init).vals.Keys <= Scan(stages).vals.Keys;
    }
  }

  /** An element's list survives unless a later element with the same data key has SetHeader properties. */
  lemma {:induction false} ScanLastWins(stages: seq<Stage>, i: nat)
    requires i < |stages| && |SetHeaderNames(stages[i])| > 0
    requires forall j :: i < j < |stages| && stages[j].dataKey == stages[i].dataKey ==>
      |SetHeaderNames(stages[j])| == 0
    ensures stages[i].dataKey in Scan(stages).vals
    ensures Scan(stages).vals[stages[i].dataKey] == SetHeaderNames(stages[i])
  {
    if i < |stages| - 1 {
      ScanLastWins(stages[..|stages| - 1], i);
    }
  }

  /** The inner loop of `getSetHeaderPropertiesPipeline` over one element's properties. */
  method CollectSetHeaderNames(props: Properties) returns (names: seq<string>)
    ensures names == SetHeaderNamesUpTo(props, |props.keys|)
  {
    names := [];
    var i := 0;
    while i < |props.keys|
      invariant 0 <= i <= |props.keys|
      invariant names == SetHeaderNamesUpTo(props, i)
    {
      var key := props.keys[i];
      if Contains(key, "setheader") {
        names := names + [PropertyName(props, key)];
      }
      i := i + 1;
    }
  }

  /** `getSetHeaderPropertiesPipeline`, over the pipeline's elements. */
  method GetSetHeaderPropertiesPipeline(stages: seq<Stage>) returns (dict: HeaderProperties)
    ensures dict == Scan(stages)
  {
    dict := Empty();
    var i := 0;
    while i < |stages|
      invariant 0 <= i <= |stages|
      invariant dict == Scan(stages[..i])
    {
      var names := CollectSetHeaderNames(stages[i].properties);
      assert stages[..i + 1][..i] == stages[..i];
      if |names| > 0 {
        dict := dict.Put(stages[i].dataKey, names);
      }
      i := i + 1;
    }
    assert stages[..i] == stages;
  }

  // ---------------------------------------------------------------------
  // Processing
  // ---------------------------------------------------------------------

  const DictionaryKey: string := "responseheaderdictionary"

  /**
   * What `processInternal` does to the FlowData given the SetHeader
   * properties it works from: store the header dictionary under the element's
   * data key, or throw.
   */
  function ProcessWith(owner: string, dict: HeaderProperties, data: DataMap): (r: Outcome)
    ensures !r.stop
    ensures r.raised.Some? <==> ResponseHeaderValues(data, dict).Err?
    ensures r.raised.Some? ==> r.output.None? && r.raised.value == ResponseHeaderValues(data, dict).error
    ensures r.raised.None? ==> r.output == Some(ElementData(owner,
      map[DictionaryKey := HeaderDictionary(ResponseHeaderValues(data, dict).value)]))
  {
    match ResponseHeaderValues(data, dict)
    case Err(e) => Outcome(None, false, Some(e))
    case Ok(headers) => Outcome(Some(ElementData(owner, map[DictionaryKey := HeaderDictionary(headers)])), false, None)
  }
}
