/**
 * The OSM object filter: parse the requested object ids and `key=value` tag
 * specs, then emit, in scan order, every object whose id is requested (or
 * any object when no id is requested) and whose tags carry every requested
 * value.
 */
module ExtractObjects {
  import opened Outcomes
  import opened GoLibrary

  datatype Tag = Tag(key: string, value: string)

  /** The object kinds the PBF scanner produces. */
  datatype ObjectType = Node | Way | Relation

  datatype OsmObject = OsmObject(kind: ObjectType, ref: int, tags: seq<Tag>)

  /** One accepted tag spec: the two sides of `key=value`. */
  datatype TagFilter = TagFilter(key: string, value: string)

  datatype ExtractError = InvalidRef(ref: string) | InvalidTagValue(spec: string)

  // ---------------------------------------------------------------------
  // Tag lookup (osm.Tags.Find)
  // ---------------------------------------------------------------------

  /** The value of the first tag with key `k`, or "" when there is none. */
  function Find(tags: seq<Tag>, k: string): (v: string)
    ensures (forall i | 0 <= i < |tags| :: tags[i].key != k) ==> v == ""
    ensures v != "" ==> exists i | 0 <= i < |tags| :: tags[i] == Tag(k, v)
    ensures forall i | 0 <= i < |tags| && tags[i].key == k && (forall j | 0 <= j < i :: tags[j].key != k) ::
              v == tags[i].value
  {
    if |tags| == 0 then ""
    else if tags[0].key == k then tags[0].value
    else Find(tags[1..], k)
  }

  // ---------------------------------------------------------------------
  // Object ids
  // ---------------------------------------------------------------------

  /** Specification of the id set: every ref parsed in order, the first bad one reported. */
  function RefIds(refs: seq<string>): Result<set<int>, ExtractError>
  {
    if |refs| == 0 then Ok({})
    else match ParseInt64(refs[0])
      case None => Err(InvalidRef(refs[0]))
      case Some(id) =>
        match RefIds(refs[1..])
        case Err(e) => Err(e)
        case Ok(ids) => Ok({id} + ids)
  }

  /** The id set is built when every ref is a 64-bit decimal integer, and holds exactly their values. */
  lemma {:induction false} RefIdsOk(refs: seq<string>)
    ensures RefIds(refs).Ok? <==> forall i | 0 <= i < |refs| :: ParseInt64(refs[i]).Some?
    ensures RefIds(refs).Ok? ==>
              forall id :: id in RefIds(refs).value <==> exists i | 0 <= i < |refs| :: ParseInt64(refs[i]) == Some(id)
  {
    if |refs| > 0 {
      RefIdsOk(refs[1..]);
      assert forall i | 1 <= i < |refs| :: refs[1..][i - 1] == refs[i];
      if RefIds(refs).Ok? {
        forall id | id in RefIds(refs).value
          ensures exists i | 0 <= i < |refs| :: ParseInt64(refs[i]) == Some(id)
        {
          if id != ParseInt64(refs[0]).value {
            var j :| 0 <= j < |refs| - 1 && ParseInt64(refs[1..][j]) == Some(id);
            assert ParseInt64(refs[j + 1]) == Some(id);
          }
        }
        forall id | exists i | 0 <= i < |refs| :: ParseInt64(refs[i]) == Some(id)
          ensures id in RefIds(refs).value
        {
          var i :| 0 <= i < |refs| && ParseInt64(refs[i]) == Some(id);
          if i > 0 {
            assert ParseInt64(refs[1..][i - 1]) == Some(id);
          }
        }
      }
    }
  }

  /** The first ref that does not parse is the one reported. */
  lemma {:induction false} RefIdsFirstError(refs: seq<string>, k: nat)
    requires k < |refs| && ParseInt64(refs[k]).None?
    requires forall j | 0 <= j < k :: ParseInt64(refs[j]).Some?
    ensures RefIds(refs) == Err(InvalidRef(refs[k]))
    decreases k
  {
    if k > 0 {
      assert forall j | 0 <= j < k - 1 :: refs[1..][j] == refs[j + 1];
      RefIdsFirstError(refs[1..], k - 1);
    }
  }

  /** Combines the id sets of two consecutive runs of refs; the earlier error wins. */
  function JoinIds(first: Result<set<int>, ExtractError>, second: Result<set<int>, ExtractError>): Result<set<int>, ExtractError>
  {
    match first
    case Err(e) => Err(e)
    case Ok(ids) =>
      match second
      case Err(e) => Err(e)
      case Ok(more) => Ok(ids + more)
  }

  lemma JoinIdsUnit(r: Result<set<int>, ExtractError>)
    ensures JoinIds(Ok({}), r) == r
  {
    if r.Ok? {
      assert {} + r.value == r.value;
    }
  }

  lemma JoinIdsAssoc(a: set<int>, b: set<int>, r: Result<set<int>, ExtractError>)
    ensures JoinIds(Ok(a), JoinIds(Ok(b), r)) == JoinIds(Ok(a + b), r)
  {
    if r.Ok? {
      assert a + (b + r.value) == (a + b) + r.value;
    }
  }

  lemma {:induction false} RefIdsAppend(a: seq<string>, b: seq<string>)
    ensures RefIds(a + b) == JoinIds(RefIds(a), RefIds(b))
  {
    if |a| == 0 {
      assert a + b == b;
      JoinIdsUnit(RefIds(b));
    } else {
      assert (a + b)[0] == a[0];
      assert (a + b)[1..] == a[1..] + b;
      RefIdsAppend(a[1..], b);
      match ParseInt64(a[0])
      case None =>
      case Some(id) =>
        assert RefIds(a + b) == JoinIds(Ok({id}), RefIds(a[1..] + b));
        assert RefIds(a) == JoinIds(Ok({id}), RefIds(a[1..]));
        if RefIds(a[1..]).Ok? {
          JoinIdsAssoc({id}, RefIds(a[1..]).value, RefIds(b));
        }
    }
  }

  /** Every listed ref of a successfully built set is in it. */
  lemma {:induction false} RefIdsContains(refs: seq<string>, j: nat)
    requires j < |refs| && RefIds(refs).Ok?
    ensures ParseInt64(refs[j]).Some? && ParseInt64(refs[j]).value in RefIds(refs).value
    decreases j
  {
    if j > 0 {
      assert refs[1..][j - 1] == refs[j];
      RefIdsContains(refs[1..], j - 1);
    }
  }

  /** Repeating a ref that is already listed does not change the id set. */
  lemma DuplicateRefCollapses(refs: seq<string>, j: nat)
    requires j < |refs|
    ensures RefIds(refs + [refs[j]]) == RefIds(refs)
  {
    RefIdsAppend(refs, [refs[j]]);
    if RefIds(refs).Ok? {
      RefIdsContains(refs, j);
      var ids := RefIds(refs).value;
      var id := ParseInt64(refs[j]).value;
      assert [refs[j]][1..] == [];
      assert {id} + {} == {id};
      assert RefIds([refs[j]]) == Ok({id});
      assert ids + {id} == ids;
    }
  }

  /** Helper: a downward search that stopped at k found the first failing ref. */
  lemma FirstFailureBefore(refs: seq<string>, k: nat)
    requires k < |refs| && ParseInt64(refs[k]).None?
    ensures exists f | 0 <= f <= k :: ParseInt64(refs[f]).None? && forall j | 0 <= j < f :: ParseInt64(refs[j]).Some?
  {
    if k > 0 && exists j | 0 <= j < k :: ParseInt64(refs[j]).None? {
      var j :| 0 <= j < k && ParseInt64(refs[j]).None?;
      FirstFailureBefore(refs, j);
    }
  }

  /**
   * The loop that fills `lookupIDs`: parse each ref in turn and add it to the
   * set, stopping at the first one that does not parse.
   */
  method BuildLookupIds(refs: seq<string>) returns (r: Result<set<int>, ExtractError>)
    ensures r == RefIds(refs)
  {
    var lookupIds: set<int> := {};
    var i := 0;
    assert refs[i..] == refs;
    JoinIdsUnit(RefIds(refs));
    while i < |refs|
      invariant 0 <= i <= |refs|
      invariant RefIds(refs) == JoinIds(Ok(lookupIds), RefIds(refs[i..]))
    {
      assert refs[i..][0] == refs[i];
      assert refs[i..][1..] == refs[i + 1..];
      var objectId := ParseInt64(refs[i]);
      if objectId.None? {
        return Err(InvalidRef(refs[i]));
      }
      assert RefIds(refs[i..]) == JoinIds(Ok({objectId.value}), RefIds(refs[i + 1..]));
      JoinIdsAssoc(lookupIds, {objectId.value}, RefIds(refs[i + 1..]));
      lookupIds := lookupIds + {objectId.value};
      i := i + 1;
    }
    assert refs[i..] == [];
    r := Ok(lookupIds);
  }

  // ---------------------------------------------------------------------
  // Tag specs
  // ---------------------------------------------------------------------

  /** Specification of the tag-spec list: each spec split on '=', the first bad one reported. */
  function TagFilters(specs: seq<string>): Result<seq<TagFilter>, ExtractError>
  {
    if |specs| == 0 then Ok([])
    else
      var parts := Split(specs[0], '=');
      if |parts| != 2 then Err(InvalidTagValue(specs[0]))
      else match TagFilters(specs[1..])
        case Err(e) => Err(e)
        case Ok(rest) => Ok([TagFilter(parts[0], parts[1])] + rest)
  }

  /**
   * A spec is accepted exactly when it holds one '='; it is then split into
   * the text before and after that '=', neither of which holds '='.
   */
  lemma TagSpecSplit(spec: string)
    ensures |Split(spec, '=')| == 2 <==> Count(spec, '=') == 1
    ensures |Split(spec, '=')| == 2 ==>
              var parts := Split(spec, '=');
              parts[0] + "=" + parts[1] == spec && '=' !in parts[0] && '=' !in parts[1]
  {
    SplitJoin(spec, '=');
    var parts := Split(spec, '=');
    if |parts| == 2 {
      assert Join(parts, '=') == parts[0] + ['='] + Join(parts[1..], '=');
    }
  }

  /**
   * The specs are accepted exactly when each holds one '='; the filters keep
   * the input order, one (key, value) per spec, rebuilding the spec as
   * key "=" value.
   */
  lemma {:induction false} TagFiltersOk(specs: seq<string>)
    ensures TagFilters(specs).Ok? <==> forall i | 0 <= i < |specs| :: Count(specs[i], '=') == 1
    ensures TagFilters(specs).Ok? ==>
              var tv := TagFilters(specs).value;
              && |tv| == |specs|
              && forall i | 0 <= i < |specs| ::
                   tv[i].key + "=" + tv[i].value == specs[i] && '=' !in tv[i].key && '=' !in tv[i].value
  {
    if |specs| > 0 {
      TagSpecSplit(specs[0]);
      TagFiltersOk(specs[1..]);
      assert forall i | 1 <= i < |specs| :: specs[1..][i - 1] == specs[i];
      if TagFilters(specs).Ok? {
        var tv := TagFilters(specs).value;
        var rest := TagFilters(specs[1..]).value;
        assert tv == [tv[0]] + rest;
        assert forall i | 1 <= i < |specs| :: tv[i] == rest[i - 1];
      }
    }
  }

  /** The first spec without exactly one '=' is the one reported. */
  lemma {:induction false} TagFiltersFirstError(specs: seq<string>, k: nat)
    requires k < |specs| && Count(specs[k], '=') != 1
    requires forall j | 0 <= j < k :: Count(specs[j], '=') == 1
    ensures TagFilters(specs) == Err(InvalidTagValue(specs[k]))
    decreases k
  {
    TagSpecSplit(specs[0]);
    if k > 0 {
      assert forall j | 0 <= j < k - 1 :: specs[1..][j] == specs[j + 1];
      TagFiltersFirstError(specs[1..], k - 1);
    }
  }

  /** Worked cases: a second '=' or no '=' is an error; an empty value is allowed. */
  lemma TagSpecExamples()
    ensures TagFilters(["a=b=c"]) == Err(InvalidTagValue("a=b=c"))
    ensures TagFilters(["ab"]) == Err(InvalidTagValue("ab"))
    ensures TagFilters([""]) == Err(InvalidTagValue(""))
    ensures TagFilters(["a=b", "c="]) == Ok([TagFilter("a", "b"), TagFilter("c", "")])
  {
    assert "a=b=c"[1..] == "=b=c";
    assert "=b=c"[1..] == "b=c";
    assert "b=c"[1..] == "=c";
    assert "=c"[1..] == "c";
    assert "ab"[1..] == "b";
    assert "a=b"[1..] == "=b";
    assert "=b"[1..] == "b";
    assert "b"[1..] == "";
    assert ['b'] + "" == "b";
    assert [""][1..] == [];
    assert Split("b", '=') == ["b"];
    assert Split("=b", '=') == ["", "b"];
    assert ['a'] + "" == "a";
    assert ["", "b"][1..] == ["b"];
    assert Split("a=b", '=') == ["a", "b"];
    assert "c="[1..] == "=";
    assert Split("", '=') == [""];
    assert Split("=", '=') == ["", ""];
    assert ['c'] + "" == "c";
    assert ["", ""][1..] == [""];
    assert Split("c=", '=') == ["c", ""];
    assert ["c="][1..] == [];
    assert ["a=b", "c="][1..] == ["c="];
    assert TagFilters(["c="][1..]) == Ok([]);
    assert [TagFilter("c", "")] + [] == [TagFilter("c", "")];
    assert TagFilters(["c="]) == Ok([TagFilter("c", "")]);
    assert TagFilters(["a=b", "c="][1..]) == Ok([TagFilter("c", "")]);
    assert ["a=b", "c="][0] == "a=b";
    assert [TagFilter("a", "b")] + [TagFilter("c", "")] == [TagFilter("a", "b"), TagFilter("c", "")];
  }

  /** Prefixes already accepted filters to the result for the remaining specs. */
  function JoinFilters(accepted: seq<TagFilter>, rest: Result<seq<TagFilter>, ExtractError>): Result<seq<TagFilter>, ExtractError>
  {
    match rest
    case Err(e) => Err(e)
    case Ok(more) => Ok(accepted + more)
  }

  /**
   * The loop that fills `tv`: split each spec on '=' and append its two
   * parts, stopping at the first spec that does not have exactly two.
   */
  method BuildTagFilters(specs: seq<string>) returns (r: Result<seq<TagFilter>, ExtractError>)
    ensures r == TagFilters(specs)
  {
    var tv: seq<TagFilter> := [];
    var i := 0;
    assert specs[i..] == specs;
    assert JoinFilters([], TagFilters(specs)) == TagFilters(specs) by {
      if TagFilters(specs).Ok? {
        assert [] + TagFilters(specs).value == TagFilters(specs).value;
      }
    }
    while i < |specs|
      invariant 0 <= i <= |specs|
      invariant TagFilters(specs) == JoinFilters(tv, TagFilters(specs[i..]))
    {
      assert specs[i..][0] == specs[i];
      assert specs[i..][1..] == specs[i + 1..];
      var ss := Split(specs[i], '=');
      if |ss| != 2 {
        return Err(InvalidTagValue(specs[i]));
      }
      var f := TagFilter(ss[0], ss[1]);
      assert TagFilters(specs[i..]) == JoinFilters([f], TagFilters(specs[i + 1..]));
      assert JoinFilters(tv, JoinFilters([f], TagFilters(specs[i + 1..])))
             == JoinFilters(tv + [f], TagFilters(specs[i + 1..])) by {
        if TagFilters(specs[i + 1..]).Ok? {
          var more := TagFilters(specs[i + 1..]).value;
          assert tv + ([f] + more) == (tv + [f]) + more;
        }
      }
      tv := tv + [TagFilter(ss[0], ss[1])];
      i := i + 1;
    }
    assert specs[i..] == [];
    assert tv + [] == tv;
    r := Ok(tv);
  }

  // ---------------------------------------------------------------------
  // Per-object filters
  // ---------------------------------------------------------------------

  /** The id filter is inactive when no id was requested. */
  predicate PassesRefFilter(lookupIds: set<int>, ref: int)
  {
    ref in lookupIds || |lookupIds| == 0
  }

  /** With no requested ids every object passes; otherwise exactly the requested ones do. */
  lemma RefFilterRegimes(lookupIds: set<int>, ref: int)
    ensures lookupIds == {} ==> PassesRefFilter(lookupIds, ref)
    ensures lookupIds != {} ==> (PassesRefFilter(lookupIds, ref) <==> ref in lookupIds)
  {
  }

  /** isMatchTagValues: every filter's key looks up to exactly the filter's value. */
  function IsMatchTagValues(tags: seq<Tag>, tv: seq<TagFilter>): (r: bool)
    ensures r <==> forall i | 0 <= i < |tv| :: Find(tags, tv[i].key) == tv[i].value
  {
    if |tv| == 0 then true
    else if Find(tags, tv[0].key) != tv[0].value then false
    else
      var rest := IsMatchTagValues(tags, tv[1..]);
      assert forall i | 1 <= i < |tv| :: tv[i] == tv[1..][i - 1];
      rest
  }

  /**
   * A filter with an empty value matches exactly the objects that do not
   * carry that key with a non-empty value (a missing key looks up as "").
   */
  lemma EmptyValueMatchesMissingKey(tags: seq<Tag>, key: string)
    ensures (forall i | 0 <= i < |tags| :: tags[i].key != key) ==> IsMatchTagValues(tags, [TagFilter(key, "")])
    ensures IsMatchTagValues(tags, [TagFilter(key, "")]) <==> Find(tags, key) == ""
  {
  }

  predicate Emitted(o: OsmObject, lookupIds: set<int>, tv: seq<TagFilter>)
  {
    PassesRefFilter(lookupIds, o.ref) && IsMatchTagValues(o.tags, tv)
  }

  /** Specification of the scan: the emitted objects, in scan order. */
  function Selected(objects: seq<OsmObject>, lookupIds: set<int>, tv: seq<TagFilter>): seq<OsmObject>
  {
    if |objects| == 0 then []
    else (if Emitted(objects[0], lookupIds, tv) then [objects[0]] else [])
         + Selected(objects[1..], lookupIds, tv)
  }

  /** An object is emitted exactly when it passes both the id filter and the tag filter. */
  lemma {:induction false} SelectedMembers(objects: seq<OsmObject>, lookupIds: set<int>, tv: seq<TagFilter>)
    ensures forall o :: o in Selected(objects, lookupIds, tv) <==> o in objects && Emitted(o, lookupIds, tv)
    ensures |Selected(objects, lookupIds, tv)| <= |objects|
  {
    if |objects| > 0 {
      SelectedMembers(objects[1..], lookupIds, tv);
      assert objects == [objects[0]] + objects[1..];
    }
  }

  /** Selection keeps scan order: it distributes over concatenation. */
  lemma {:induction false} SelectedAppend(a: seq<OsmObject>, b: seq<OsmObject>, lookupIds: set<int>, tv: seq<TagFilter>)
    ensures Selected(a + b, lookupIds, tv) == Selected(a, lookupIds, tv) + Selected(b, lookupIds, tv)
  {
    if |a| > 0 {
      assert (a + b)[1..] == a[1..] + b;
      SelectedAppend(a[1..], b, lookupIds, tv);
    } else {
      assert a + b == b;
    }
  }

  /** With no ids and no tag specs, every object is emitted. */
  lemma {:induction false} NoFiltersSelectAll(objects: seq<OsmObject>)
    ensures Selected(objects, {}, []) == objects
  {
    if |objects| > 0 {
      NoFiltersSelectAll(objects[1..]);
    }
  }

  /** Specification of ExtractObject: ids first, then tag specs, then the scan. */
  function ExtractResult(refs: seq<string>, specs: seq<string>, objects: seq<OsmObject>): Result<seq<OsmObject>, ExtractError>
  {
    match RefIds(refs)
    case Err(e) => Err(e)
    case Ok(lookupIds) =>
      match TagFilters(specs)
      case Err(e) => Err(e)
      case Ok(tv) => Ok(Selected(objects, lookupIds, tv))
  }

  /** A bad ref is reported before any tag spec is looked at. */
  lemma RefsCheckedFirst(refs: seq<string>, specs: seq<string>, specs2: seq<string>, objects: seq<OsmObject>)
    requires exists i | 0 <= i < |refs| :: ParseInt64(refs[i]).None?
    ensures ExtractResult(refs, specs, objects) == ExtractResult(refs, specs2, objects)
    ensures RefIds(refs).Err? && ExtractResult(refs, specs, objects) == Err(RefIds(refs).error)
    ensures ExtractResult(refs, specs, objects).error.InvalidRef?
  {
    RefIdsOk(refs);
    var k :| 0 <= k < |refs| && ParseInt64(refs[k]).None?;
    FirstFailureBefore(refs, k);
    var f :| 0 <= f <= k && ParseInt64(refs[f]).None? && forall j | 0 <= j < f :: ParseInt64(refs[j]).Some?;
    RefIdsFirstError(refs, f);
  }

  /**
   * ExtractObject: parse the ids, parse the tag specs, then scan the objects
   * and emit those that pass both filters. The requested object type is not
   * consulted.
   */
  method ExtractObject(objectType: string, refs: seq<string>, specs: seq<string>, objects: seq<OsmObject>)
    returns (r: Result<seq<OsmObject>, ExtractError>)
    ensures r == ExtractResult(refs, specs, objects)
  {
    var lookup := BuildLookupIds(refs);
    if lookup.Err? {
      return Err(lookup.error);
    }
    var tvResult := BuildTagFilters(specs);
    if tvResult.Err? {
      return Err(tvResult.error);
    }
    var lookupIds, tv := lookup.value, tvResult.value;
    var emitted: seq<OsmObject> := [];
    var i := 0;
    while i < |objects|
      invariant 0 <= i <= |objects|
      invariant emitted == Selected(objects[..i], lookupIds, tv)
    {
      var o := objects[i];
      SelectedAppend(objects[..i], [o], lookupIds, tv);
      assert objects[..i + 1] == objects[..i] + [o];
      i := i + 1;
      if !(o.ref in lookupIds) && |lookupIds| > 0 {
        continue;
      }
      match o.kind {
        case Node =>
          if !IsMatchTagValues(o.tags, tv) {
            continue;
          }
          emitted := emitted + [o];
        case Way =>
          if !IsMatchTagValues(o.tags, tv) {
            continue;
          }
          emitted := emitted + [o];
        case Relation =>
          if !IsMatchTagValues(o.tags, tv) {
            continue;
          }
          emitted := emitted + [o];
      }
    }
    assert objects[..i] == objects;
    r := Ok(emitted);
  }
}
