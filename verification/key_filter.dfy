/** EvidenceKeyFilter: which evidence keys a flow element is interested in. */
module KeyFilters {
  import opened Wrappers
  import opened OrderedMaps
  import opened Values

  /**
   * The filter's state: the installed callable, if any.  A value that is not
   * callable behaves exactly like none at all, so it is `None` here.
   */
  datatype KeyFilter = KeyFilter(callback: Option<string -> bool>) {

    /** `filterEvidenceKey`: the callable's answer, or true when none is installed. */
    predicate FilterEvidenceKey(key: string) {
      match callback
      case Some(f) => f(key)
      case None => true
    }
  }

  /** The keys of `ks` the filter accepts, in order. */
  function Accepted(filter: KeyFilter, ks: seq<string>): (r: seq<string>)
    ensures |r| <= |ks|
    ensures forall k :: k in r <==> k in ks && filter.FilterEvidenceKey(k)
  {
    if ks == [] then []
    else
      var r := Accepted(filter, ks[..|ks| - 1]);
      var k := ks[|ks| - 1];
      if filter.FilterEvidenceKey(k) then r + [k] else r
  }

  /**
   * Where in `ks` the keys `Accepted` keeps come from: strictly increasing
   * positions, so `Accepted` keeps the order of `ks`.
   */
  function AcceptedAt(filter: KeyFilter, ks: seq<string>): (pos: seq<nat>)
    ensures |pos| == |Accepted(filter, ks)|
    ensures forall i :: 0 <= i < |pos| ==> pos[i] < |ks| && ks[pos[i]] == Accepted(filter, ks)[i]
    ensures forall i, j :: 0 <= i < j < |pos| ==> pos[i] < pos[j]
  {
    if ks == [] then []
    else
      var init := ks[..|ks| - 1];
      var pos := AcceptedAt(filter, init);
      assert forall p :: 0 <= p < |init| ==> init[p] == ks[p];
      if filter.FilterEvidenceKey(ks[|ks| - 1]) then
        assert Accepted(filter, ks) == Accepted(filter, init) + [ks[|ks| - 1]];
        pos + [|ks| - 1]
      else
        assert Accepted(filter, ks) == Accepted(filter, init);
        pos
  }

  /** Every position of `ks` holding an accepted key is one `Accepted` keeps. */
  lemma {:induction false} AcceptedAtComplete(filter: KeyFilter, ks: seq<string>, p: nat)
    requires p < |ks| && filter.FilterEvidenceKey(ks[p])
    ensures p in AcceptedAt(filter, ks)
  {
    var init := ks[..|ks| - 1];
    if p < |init| {
      assert init[p] == ks[p];
      AcceptedAtComplete(filter, init, p);
    }
  }

  /** The loop of `filterEvidence` after its first `n` entries. */
  function FilterPrefix(filter: KeyFilter, evidence: OMap<string, Value>, n: nat): OMap<string, Value>
    requires n <= |evidence.keys|
  {
    if n == 0 then Empty()
    else
      var r := FilterPrefix(filter, evidence, n - 1);
      var k := evidence.keys[n - 1];
      if k in evidence.vals && filter.FilterEvidenceKey(k) then r.Put(k, evidence.vals[k]) else r
  }

  /** `filterEvidence`: the entries whose key the filter accepts. */
  function FilterEvidence(filter: KeyFilter, evidence: OMap<string, Value>): OMap<string, Value> {
    FilterPrefix(filter, evidence, |evidence.keys|)
  }

  lemma {:induction false} FilterPrefixShape(filter: KeyFilter, evidence: OMap<string, Value>, n: nat)
    requires evidence.Valid() && n <= |evidence.keys|
    ensures var r := FilterPrefix(filter, evidence, n);
      && r.Valid()
      && r.keys == Accepted(filter, evidence.keys[..n])
      && r.vals == map k | k in evidence.keys[..n] && filter.FilterEvidenceKey(k) :: evidence.vals[k]
  {
    if n > 0 {
      FilterPrefixShape(filter, evidence, n - 1);
      assert evidence.keys[..n] == evidence.keys[..n - 1] + [evidence.keys[n - 1]];
      var k := evidence.keys[n - 1];
      assert k !in evidence.keys[..n - 1];
    }
  }

  /**
   * The output of `filterEvidence` holds exactly the accepted entries of its
   * input, with their values, in the input's order.
   */
  lemma FilterEvidenceIsAcceptedSubmap(filter: KeyFilter, evidence: OMap<string, Value>)
    requires evidence.Valid()
    ensures var r := FilterEvidence(filter, evidence);
      && r.Valid()
      && r.keys == Accepted(filter, evidence.keys)
      && (forall k :: k in r.vals <==> k in evidence.vals && filter.FilterEvidenceKey(k))
      && (forall k :: k in r.vals ==> r.vals[k] == evidence.vals[k])
  {
    FilterPrefixShape(filter, evidence, |evidence.keys|);
    assert evidence.keys[..|evidence.keys|] == evidence.keys;
  }

  lemma {:induction false} AcceptedAll(filter: KeyFilter, ks: seq<string>)
    requires forall k :: k in ks ==> filter.FilterEvidenceKey(k)
    ensures Accepted(filter, ks) == ks
  {
    if ks != [] {
      AcceptedAll(filter, ks[..|ks| - 1]);
      assert ks[..|ks| - 1] + [ks[|ks| - 1]] == ks;
    }
  }

  /** A map whose every key the filter accepts passes through unchanged. */
  lemma FilterEvidenceKeepsAccepted(filter: KeyFilter, evidence: OMap<string, Value>)
    requires evidence.Valid()
    requires forall k :: k in evidence.vals ==> filter.FilterEvidenceKey(k)
    ensures FilterEvidence(filter, evidence) == evidence
  {
    var r := FilterEvidence(filter, evidence);
    FilterEvidenceIsAcceptedSubmap(filter, evidence);
    AcceptedAll(filter, evidence.keys);
    assert r.vals == evidence.vals;
  }

  /** Filtering the output of `filterEvidence` again gives it back unchanged. */
  lemma FilterEvidenceIdempotent(filter: KeyFilter, evidence: OMap<string, Value>)
    requires evidence.Valid()
    ensures FilterEvidence(filter, FilterEvidence(filter, evidence)) == FilterEvidence(filter, evidence)
  {
    FilterEvidenceIsAcceptedSubmap(filter, evidence);
    FilterEvidenceKeepsAccepted(filter, FilterEvidence(filter, evidence));
  }

  /** The object: `__set` is the only way its callable changes. */
  class EvidenceKeyFilter {
    var callback: Option<string -> bool>

    constructor ()
      ensures callback.None?
    {
      callback := None;
    }

    /** The filter this object currently applies. */
    function Current(): (f: KeyFilter)
      reads this
      ensures f.callback == callback
    {
      KeyFilter(callback)
    }

    /** `filterEvidence`: walk the evidence in order, keeping the entries whose key is accepted. */
    method FilterEvidenceList(evidenceList: OMap<string, Value>) returns (filtered: OMap<string, Value>)
      ensures filtered == FilterEvidence(Current(), evidenceList)
    {
      filtered := Empty();
      var i := 0;
      while i < |evidenceList.keys|
        invariant 0 <= i <= |evidenceList.keys|
        invariant filtered == FilterPrefix(Current(), evidenceList, i)
      {
        var key := evidenceList.keys[i];
        if key in evidenceList.vals && Current().FilterEvidenceKey(key) {
          filtered := filtered.Put(key, evidenceList.vals[key]);
        }
        i := i + 1;
      }
    }

    /** `__set($name, $value)`: only the name `filterEvidenceKey` is stored. */
    method Set(name: string, value: Option<string -> bool>)
      modifies this
      ensures name == "filterEvidenceKey" ==> callback == value
      ensures name != "filterEvidenceKey" ==> callback == old(callback)
    {
      if name == "filterEvidenceKey" {
        callback := value;
      }
    }
  }

  /** With no callable installed every key passes. */
  lemma DefaultAcceptsAll(key: string)
    ensures KeyFilter(None).FilterEvidenceKey(key)
  {
  }
}
