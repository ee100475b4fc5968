/** The mock similarity search over an in-memory list of project records (backend/vector_store.py). */
module VectorStore {
  import opened Wrappers
  import opened Text
  import opened Json
  import opened Sequences

  // ---------------------------------------------------------------------------------------------
  // Keyword extraction

  /** `_extract_project_type`: the first of "kitchen", "bathroom", then "addition" or "adu" that
      occurs in the lower-cased query. */
  function ExtractProjectType(query: string): (r: Option<string>)
    ensures r.Some? ==> r.value in {"kitchen", "bathroom", "addition"}
    ensures var q := Lower(query);
      && (r == Some("kitchen") <==> Contains(q, "kitchen"))
      && (r == Some("bathroom") <==> !Contains(q, "kitchen") && Contains(q, "bathroom"))
      && (r == Some("addition") <==>
            !Contains(q, "kitchen") && !Contains(q, "bathroom") && (Contains(q, "addition") || Contains(q, "adu")))
  {
    var q := Lower(query);
    if Contains(q, "kitchen") then Some("kitchen")
    else if Contains(q, "bathroom") then Some("bathroom")
    else if Contains(q, "addition") || Contains(q, "adu") then Some("addition")
    else None
  }

  /** `_extract_material_grade`: the first of "premium", "luxury", "standard" that occurs in the
      lower-cased query; "economy" is never extracted. */
  function ExtractMaterialGrade(query: string): (r: Option<string>)
    ensures r.Some? ==> r.value in {"premium", "luxury", "standard"}
    ensures var q := Lower(query);
      && (r == Some("premium") <==> Contains(q, "premium"))
      && (r == Some("luxury") <==> !Contains(q, "premium") && Contains(q, "luxury"))
      && (r == Some("standard") <==> !Contains(q, "premium") && !Contains(q, "luxury") && Contains(q, "standard"))
  {
    var q := Lower(query);
    if Contains(q, "premium") then Some("premium")
    else if Contains(q, "luxury") then Some("luxury")
    else if Contains(q, "standard") then Some("standard")
    else None
  }

  /** A word that lower-cases to `w`, anywhere in the query, makes `w` occur in the lower-cased query. */
  lemma MentionContained(pre: string, word: string, post: string, w: string)
    requires Lower(word) == w
    ensures Contains(Lower(pre + word + post), w)
  {
    LowerAppend(pre + word, post);
    LowerAppend(pre, word);
    var q := Lower(pre + word + post);
    assert q == Lower(pre) + w + Lower(post);
    assert q[|pre|..|pre| + |w|] == w;
    assert OccursAt(q, w, |pre|);
    ContainsAt(q, w);
  }

  /** "kitchen", in any mix of cases and anywhere in the query, always wins. */
  lemma KitchenAnywhere(pre: string, word: string, post: string)
    requires Lower(word) == "kitchen"
    ensures ExtractProjectType(pre + word + post) == Some("kitchen")
  {
    MentionContained(pre, word, post, "kitchen");
  }

  /** "premium", in any mix of cases and anywhere in the query, always wins. */
  lemma PremiumAnywhere(pre: string, word: string, post: string)
    requires Lower(word) == "premium"
    ensures ExtractMaterialGrade(pre + word + post) == Some("premium")
  {
    MentionContained(pre, word, post, "premium");
  }

  /** Both extractors ignore case. */
  lemma ExtractIgnoresCase(query: string)
    ensures ExtractProjectType(Lower(query)) == ExtractProjectType(query)
    ensures ExtractMaterialGrade(Lower(query)) == ExtractMaterialGrade(query)
  {
    LowerIdempotent(query);
  }

  // ---------------------------------------------------------------------------------------------
  // Reading a record's metadata

  /** The exceptions reading a record's metadata can raise. */
  datatype LookupError =
    | KeyError(key: string)   // a missing dictionary key
    | TypeError               // `p["metadata"]` is not a dictionary and is subscripted
    | AttributeError          // `p["metadata"]` is not a dictionary and `.get` is called on it

  /** The two ways the search reads a record's metadata. */
  datatype Probe =
    | Field(name: string)     // `p["metadata"][name]`
    | GetKey(key: string)     // `p["metadata"].get(key)`, a missing key reading as None

  /** The record has a "metadata" entry holding a dictionary. */
  predicate MetaOk(p: Dict) {
    "metadata" in p && p["metadata"].Obj?
  }

  function Meta(p: Dict): Dict
    requires MetaOk(p)
  {
    p["metadata"].fields
  }

  /** Reading one value of a record's metadata. */
  function Look(p: Dict, probe: Probe): Result<Value, LookupError> {
    if "metadata" !in p then Err(KeyError("metadata"))
    else match p["metadata"]
      case Obj(m) =>
        (match probe
         case Field(name) => if name in m then Ok(m[name]) else Err(KeyError(name))
         case GetKey(key) => Ok(Get(m, key, Null)))
      case _ => if probe.Field? then Err(TypeError) else Err(AttributeError)
  }

  /** When a lookup fails, and what it then reads. */
  lemma LookCases(p: Dict, name: string)
    ensures Look(p, GetKey(name)).Ok? <==> MetaOk(p)
    ensures Look(p, Field(name)).Ok? <==> MetaOk(p) && name in Meta(p)
    ensures MetaOk(p) ==> Look(p, GetKey(name)) == Ok(Get(Meta(p), name, Null))
    ensures MetaOk(p) && name in Meta(p) ==> Look(p, Field(name)) == Ok(Meta(p)[name])
    ensures "metadata" !in p ==> Look(p, Field(name)) == Look(p, GetKey(name)) == Err(KeyError("metadata"))
    ensures MetaOk(p) && name !in Meta(p) ==> Look(p, Field(name)) == Err(KeyError(name))
    ensures "metadata" in p && !MetaOk(p) ==> Look(p, Field(name)) == Err(TypeError) && Look(p, GetKey(name)) == Err(AttributeError)
  {
  }

  /** The first lookup error met going left to right, if any. */
  function FirstError(ps: seq<Dict>, probe: Probe): Option<LookupError> {
    if ps == [] then None
    else if Look(ps[0], probe).Err? then Some(Look(ps[0], probe).error)
    else FirstError(ps[1..], probe)
  }

  /** The first record without dictionary metadata, as the error `.get` raises on it. */
  function FirstMetaError(ps: seq<Dict>): (r: Option<LookupError>)
    ensures r.None? <==> forall p :: p in ps ==> MetaOk(p)
  {
    if ps == [] then None
    else if !MetaOk(ps[0]) then
      assert ps[0] in ps;
      if "metadata" !in ps[0] then Some(KeyError("metadata")) else Some(AttributeError)
    else FirstMetaError(ps[1..])
  }

  /** `.get` fails on exactly the records without dictionary metadata, whatever the key. */
  lemma {:induction false} FirstErrorGetKey(ps: seq<Dict>, key: string)
    ensures FirstError(ps, GetKey(key)) == FirstMetaError(ps)
  {
    if ps != [] {
      FirstErrorGetKey(ps[1..], key);
    }
  }

  /** `[p for p in ps if <probe of p> == value]`: the first failing lookup aborts the whole list. */
  function Keep(ps: seq<Dict>, probe: Probe, value: Value): (r: Result<seq<Dict>, LookupError>)
    ensures r.Err? <==> FirstError(ps, probe).Some?
    ensures r.Err? ==> r.error == FirstError(ps, probe).value
  {
    if ps == [] then Ok([])
    else match Look(ps[0], probe)
      case Err(e) => Err(e)
      case Ok(v) =>
        match Keep(ps[1..], probe, value)
        case Err(e) => Err(e)
        case Ok(rest) => Ok(if v == value then [ps[0]] + rest else rest)
  }

  /** What `Keep` keeps: the records whose lookup gives `value`, all of them, in their original order. */
  lemma {:induction false} KeepSpec(ps: seq<Dict>, probe: Probe, value: Value)
    ensures var r := Keep(ps, probe, value);
      r.Ok? ==>
        && Subseq(r.value, ps)
        && (forall q :: q in r.value ==> Look(q, probe) == Ok(value))
        && (forall q :: q in ps && Look(q, probe) == Ok(value) ==> q in r.value)
  {
    if ps != [] && Keep(ps, probe, value).Ok? {
      KeepSpec(ps[1..], probe, value);
      var rest := Keep(ps[1..], probe, value).value;
      assert ps == [ps[0]] + ps[1..];
      if Look(ps[0], probe).value == value {
        assert ([ps[0]] + rest)[1..] == rest;
      }
    }
  }

  // ---------------------------------------------------------------------------------------------
  // The explicit filter

  /** The record's metadata agrees with `filter` on every key of `keys`, a missing key reading as None. */
  predicate MatchesFilter(p: Dict, filter: Dict, keys: set<string>) {
    MetaOk(p) && forall key :: key in keys && key in filter ==> Get(Meta(p), key, Null) == filter[key]
  }

  /** The records matching `filter` on `keys`, in their original order. */
  function FilterBy(ps: seq<Dict>, filter: Dict, keys: set<string>): seq<Dict> {
    if ps == [] then []
    else (if MatchesFilter(ps[0], filter, keys) then [ps[0]] else []) + FilterBy(ps[1..], filter, keys)
  }

  /** What `FilterBy` keeps: the matching records, all of them, in their original order. */
  lemma {:induction false} FilterBySpec(ps: seq<Dict>, filter: Dict, keys: set<string>)
    ensures var r := FilterBy(ps, filter, keys);
      && Subseq(r, ps)
      && (forall q :: q in r ==> MatchesFilter(q, filter, keys))
      && (forall q :: q in ps && MatchesFilter(q, filter, keys) ==> q in r)
  {
    if ps != [] {
      FilterBySpec(ps[1..], filter, keys);
      var rest := FilterBy(ps[1..], filter, keys);
      assert ps == [ps[0]] + ps[1..];
      if MatchesFilter(ps[0], filter, keys) {
        assert ([ps[0]] + rest)[1..] == rest;
      } else {
        assert [] + rest == rest;
      }
    }
  }

  /** With every record's metadata a dictionary, matching on no key keeps everything. */
  lemma {:induction false} FilterByNoKeys(ps: seq<Dict>, filter: Dict)
    requires FirstMetaError(ps).None?
    ensures FilterBy(ps, filter, {}) == ps
  {
    if ps != [] {
      FilterByNoKeys(ps[1..], filter);
      assert ps == [ps[0]] + ps[1..];
    }
  }

  /** `Keep` on a list whose first lookup succeeds. */
  lemma KeepCons(p: Dict, rest: seq<Dict>, probe: Probe, value: Value)
    requires Look(p, probe).Ok? && Keep(rest, probe, value).Ok?
    ensures Keep([p] + rest, probe, value)
         == Ok((if Look(p, probe).value == value then [p] else []) + Keep(rest, probe, value).value)
  {
    var l := [p] + rest;
    assert l[0] == p && l[1..] == rest;
    assert [] + Keep(rest, probe, value).value == Keep(rest, probe, value).value;
  }

  lemma MatchesAddKey(p: Dict, filter: Dict, done: set<string>, key: string)
    requires MetaOk(p) && key in filter
    ensures MatchesFilter(p, filter, done + {key}) <==>
            MatchesFilter(p, filter, done) && Get(Meta(p), key, Null) == filter[key]
  {
  }

  /** One pass of the `for key, value in filter.items()` loop narrows the match to one more key. */
  lemma {:induction false} FilterStep(ps: seq<Dict>, filter: Dict, done: set<string>, key: string)
    requires FirstMetaError(ps).None?
    requires key in filter
    ensures Keep(FilterBy(ps, filter, done), GetKey(key), filter[key]) == Ok(FilterBy(ps, filter, done + {key}))
  {
    if ps != [] {
      var p := ps[0];
      assert p in ps;
      FilterStep(ps[1..], filter, done, key);
      var rest := FilterBy(ps[1..], filter, done);
      MatchesAddKey(p, filter, done, key);
      if MatchesFilter(p, filter, done) {
        KeepCons(p, rest, GetKey(key), filter[key]);
      } else {
        assert FilterBy(ps, filter, done) == rest;
        assert FilterBy(ps, filter, done + {key}) == FilterBy(ps[1..], filter, done + {key});
      }
    }
  }

  // ---------------------------------------------------------------------------------------------
  // The search

  /** `if filter:` — a filter that is present and not empty. */
  predicate Truthy(filter: Option<Dict>) {
    filter.Some? && filter.value != map[]
  }

  /** The two keyword stages: by the extracted project type, then by the extracted material grade. */
  function Narrow(data: seq<Dict>, query: string): Result<seq<Dict>, LookupError> {
    var byType :=
      match ExtractProjectType(query)
      case None => Ok(data)
      case Some(t) => Keep(data, Field("project_type"), Str(t));
    match byType
    case Err(e) => Err(e)
    case Ok(s) =>
      match ExtractMaterialGrade(query)
      case None => Ok(s)
      case Some(g) => Keep(s, Field("material_grade"), Str(g))
  }

  /** The explicit filter stage; with a truthy filter every surviving record is read with `.get`. */
  function ApplyFilter(ps: seq<Dict>, filter: Option<Dict>): Result<seq<Dict>, LookupError> {
    if !Truthy(filter) then Ok(ps)
    else match FirstMetaError(ps)
      case Some(e) => Err(e)
      case None => Ok(FilterBy(ps, filter.value, filter.value.Keys))
  }

  /** What `similarity_search(query, filter, k)` returns over the records `data`, or the exception it
      raises: the survivors of the three stages, cut to `filtered[:min(k, len(filtered))]`. */
  function Search(data: seq<Dict>, query: string, filter: Option<Dict>, k: int): Result<seq<Dict>, LookupError> {
    match Narrow(data, query)
    case Err(e) => Err(e)
    case Ok(s) =>
      match ApplyFilter(s, filter)
      case Err(e) => Err(e)
      case Ok(filtered) => Ok(SlicePrefix(filtered, Min(k, |filtered|)))
  }

  /** `MockVectorStore.similarity_search` over the store's records `data`. The filter's keys are
      visited in an unspecified order; the result does not depend on it. */
  method SimilaritySearch(data: seq<Dict>, query: string, filter: Option<Dict>, k: int)
    returns (r: Result<seq<Dict>, LookupError>)
    ensures r == Search(data, query, filter, k)
  {
    var projectType := ExtractProjectType(query);
    var materialGrade := ExtractMaterialGrade(query);
    var filtered := data;
    if projectType.Some? {
      var next := Keep(filtered, Field("project_type"), Str(projectType.value));
      if next.Err? {
        return Err(next.error);
      }
      filtered := next.value;
    }
    if materialGrade.Some? {
      var next := Keep(filtered, Field("material_grade"), Str(materialGrade.value));
      if next.Err? {
        return Err(next.error);
      }
      filtered := next.value;
    }
    assert Narrow(data, query) == Ok(filtered);
    if Truthy(filter) {
      var next := FilterLoop(filtered, filter.value);
      if next.Err? {
        return Err(next.error);
      }
      filtered := next.value;
    }
    r := Ok(SlicePrefix(filtered, Min(k, |filtered|)));
  }

  /** The `for key, value in filter.items()` loop: each pass keeps the records whose metadata has
      `value` under `key`. Keys are taken in an unspecified order. */
  method FilterLoop(narrowed: seq<Dict>, f: Dict) returns (r: Result<seq<Dict>, LookupError>)
    requires f != map[]
    ensures r == ApplyFilter(narrowed, Some(f))
  {
    var filtered := narrowed;
    var done: set<string> := {};
    while done != f.Keys
      invariant done <= f.Keys
      invariant done == {} ==> filtered == narrowed
      invariant done != {} ==> FirstMetaError(narrowed).None? && filtered == FilterBy(narrowed, f, done)
      decreases |f.Keys - done|
    {
      var key :| key in f.Keys - done;
      FilterPass(narrowed, f, done, key, filtered);
      var next := Keep(filtered, GetKey(key), f[key]);
      if next.Err? {
        return Err(next.error);
      }
      filtered := next.value;
      done := done + {key};
    }
    return Ok(filtered);
  }

  /** One pass of the filter loop: the first pass fails exactly when `ApplyFilter` does, and with the
      same exception; every pass that succeeds narrows the match to one more key. */
  lemma FilterPass(narrowed: seq<Dict>, f: Dict, done: set<string>, key: string, filtered: seq<Dict>)
    requires f != map[] && key in f
    requires done == {} ==> filtered == narrowed
    requires done != {} ==> FirstMetaError(narrowed).None? && filtered == FilterBy(narrowed, f, done)
    ensures var next := Keep(filtered, GetKey(key), f[key]);
      && (next.Err? ==> ApplyFilter(narrowed, Some(f)) == Err(next.error))
      && (next.Ok? ==> FirstMetaError(narrowed).None? && next.value == FilterBy(narrowed, f, done + {key}))
  {
    FirstErrorGetKey(filtered, key);
    if FirstMetaError(narrowed).None? {
      if done == {} {
        FilterByNoKeys(narrowed, f);
      }
      FilterStep(narrowed, f, done, key);
    }
  }

  // ---------------------------------------------------------------------------------------------
  // Properties of the search

  /** No lookup fails when every record's lookup succeeds. */
  lemma {:induction false} FirstErrorNone(ps: seq<Dict>, probe: Probe)
    requires forall q :: q in ps ==> Look(q, probe).Ok?
    ensures FirstError(ps, probe).None?
  {
    if ps != [] {
      assert ps[0] in ps;
      FirstErrorNone(ps[1..], probe);
    }
  }

  /** The keyword stages keep an ordered selection of the records, each of the extracted type and grade. */
  lemma NarrowSpec(data: seq<Dict>, query: string)
    ensures var r := Narrow(data, query);
      r.Ok? ==>
        && Subseq(r.value, data)
        && (forall q :: q in r.value ==> Relevant(q, query, None))
  {
    var t, g := ExtractProjectType(query), ExtractMaterialGrade(query);
    var s := data;
    if t.Some? {
      KeepSpec(data, Field("project_type"), Str(t.value));
      if Keep(data, Field("project_type"), Str(t.value)).Ok? {
        s := Keep(data, Field("project_type"), Str(t.value)).value;
      }
    } else {
      SubseqRefl(data);
    }
    if Narrow(data, query).Ok? {
      if g.Some? {
        KeepSpec(s, Field("material_grade"), Str(g.value));
        SubseqTrans(Narrow(data, query).value, s, data);
        SubseqMembers(Narrow(data, query).value, s);
      } else {
        assert Narrow(data, query).value == s;
      }
    }
  }

  /** The record is among those `similarity_search` looks for: it has the extracted type and grade and
      agrees with a truthy filter on every key. */
  predicate Relevant(q: Dict, query: string, filter: Option<Dict>) {
    && (ExtractProjectType(query).Some? ==> Look(q, Field("project_type")) == Ok(Str(ExtractProjectType(query).value)))
    && (ExtractMaterialGrade(query).Some? ==> Look(q, Field("material_grade")) == Ok(Str(ExtractMaterialGrade(query).value)))
    && AgreesWith(q, filter)
  }

  /** The record agrees with a truthy filter on every key, a key missing from its metadata reading as None. */
  predicate AgreesWith(q: Dict, filter: Option<Dict>) {
    Truthy(filter) ==> forall key :: key in filter.value ==> Look(q, GetKey(key)) == Ok(filter.value[key])
  }

  /** The filter stage keeps every record when the filter is not truthy; otherwise it keeps, in order,
      exactly the records agreeing with every entry of the filter. */
  lemma ApplyFilterSpec(ps: seq<Dict>, filter: Option<Dict>)
    ensures var r := ApplyFilter(ps, filter);
      r.Ok? ==>
        && Subseq(r.value, ps)
        && (!Truthy(filter) ==> r.value == ps)
        && (Truthy(filter) ==> forall q :: q in r.value ==> MatchesFilter(q, filter.value, filter.value.Keys))
        && (Truthy(filter) ==> forall q :: q in ps && MatchesFilter(q, filter.value, filter.value.Keys) ==> q in r.value)
  {
    if Truthy(filter) {
      FilterBySpec(ps, filter.value, filter.value.Keys);
    } else {
      SubseqRefl(ps);
    }
  }

  /** The result is an ordered selection of the records: nothing reordered, duplicated or invented,
      and no longer than `k` or the collection. */
  lemma SearchSubseq(data: seq<Dict>, query: string, filter: Option<Dict>, k: int)
    ensures var r := Search(data, query, filter, k);
      r.Ok? ==>
        && Subseq(r.value, data)
        && |r.value| <= |data|
        && (k >= 0 ==> |r.value| <= k)
  {
    var r := Search(data, query, filter, k);
    if r.Ok? {
      NarrowSpec(data, query);
      var s := Narrow(data, query).value;
      ApplyFilterSpec(s, filter);
      var filtered := ApplyFilter(s, filter).value;
      SubseqTrans(filtered, s, data);
      SubseqPrefix(filtered, data, |r.value|);
      SubseqLength(r.value, data);
    }
  }

  /** An empty collection gives an empty result. */
  lemma SearchEmpty(query: string, filter: Option<Dict>, k: int)
    ensures Search([], query, filter, k) == Ok([])
  {
    SearchSubseq([], query, filter, k);
    FirstErrorNone([], Field("project_type"));
    FirstErrorNone([], Field("material_grade"));
  }

  /** Every record returned has the extracted project type and material grade and agrees with every
      entry of a truthy filter, a key missing from its metadata comparing as None. */
  lemma SearchRelevant(data: seq<Dict>, query: string, filter: Option<Dict>, k: int)
    ensures var r := Search(data, query, filter, k);
      r.Ok? ==> forall q :: q in r.value ==> Relevant(q, query, filter)
  {
    var r := Search(data, query, filter, k);
    if r.Ok? {
      NarrowSpec(data, query);
      var s := Narrow(data, query).value;
      ApplyFilterSpec(s, filter);
      var filtered := ApplyFilter(s, filter).value;
      assert Subseq(r.value, filtered) by {
        SubseqRefl(filtered);
        SubseqPrefix(filtered, filtered, |r.value|);
      }
      SubseqMembers(r.value, filtered);
      SubseqMembers(filtered, s);
      forall q | q in r.value
        ensures Relevant(q, query, filter)
      {
        if Truthy(filter) {
          assert MatchesFilter(q, filter.value, filter.value.Keys);
          forall key | key in filter.value
            ensures Look(q, GetKey(key)) == Ok(filter.value[key])
          {
            LookCases(q, key);
          }
        }
      }
    }
  }

  /** With no keyword recognised and no filter, the first `min(k, n)` records come back unchanged. */
  lemma SearchPlain(data: seq<Dict>, query: string, filter: Option<Dict>, k: int)
    requires ExtractProjectType(query).None? && ExtractMaterialGrade(query).None? && !Truthy(filter)
    ensures k >= 0 ==> Search(data, query, filter, k) == Ok(data[..Min(k, |data|)])
    ensures Search(data, query, filter, k) == Ok(SlicePrefix(data, Min(k, |data|)))
  {
  }

  /** The search raises nothing when every record has dictionary metadata holding a project type and
      a material grade. */
  lemma SearchWellFormed(data: seq<Dict>, query: string, filter: Option<Dict>, k: int)
    requires forall p :: p in data ==> MetaOk(p) && "project_type" in Meta(p) && "material_grade" in Meta(p)
    ensures Search(data, query, filter, k).Ok?
  {
    var t, g := ExtractProjectType(query), ExtractMaterialGrade(query);
    var s := data;
    if t.Some? {
      forall q | q in data
        ensures Look(q, Field("project_type")).Ok?
      {
        LookCases(q, "project_type");
      }
      FirstErrorNone(data, Field("project_type"));
      KeepSpec(data, Field("project_type"), Str(t.value));
      s := Keep(data, Field("project_type"), Str(t.value)).value;
      SubseqMembers(s, data);
    }
    if g.Some? {
      forall q | q in s
        ensures Look(q, Field("material_grade")).Ok?
      {
        LookCases(q, "material_grade");
      }
      FirstErrorNone(s, Field("material_grade"));
      KeepSpec(s, Field("material_grade"), Str(g.value));
      SubseqMembers(Keep(s, Field("material_grade"), Str(g.value)).value, s);
    }
    assert Narrow(data, query).Ok?;
  }

  /** With `k` at least the collection size, every relevant record is returned. */
  lemma SearchComplete(data: seq<Dict>, query: string, filter: Option<Dict>, k: int, q: Dict)
    requires k >= |data| && q in data && Relevant(q, query, filter)
    requires Search(data, query, filter, k).Ok?
    ensures q in Search(data, query, filter, k).value
  {
    var t, g := ExtractProjectType(query), ExtractMaterialGrade(query);
    var s := data;
    if t.Some? {
      KeepSpec(data, Field("project_type"), Str(t.value));
      s := Keep(data, Field("project_type"), Str(t.value)).value;
    }
    assert q in s;
    var s2 := Narrow(data, query).value;
    if g.Some? {
      KeepSpec(s, Field("material_grade"), Str(g.value));
    }
    assert q in s2;
    NarrowSpec(data, query);
    SubseqLength(s2, data);
    var filtered := ApplyFilter(s2, filter).value;
    if Truthy(filter) {
      FilterBySpec(s2, filter.value, filter.value.Keys);
      LookCases(q, "");
      assert MetaOk(q);
      assert MatchesFilter(q, filter.value, filter.value.Keys) by {
        forall key | key in filter.value.Keys && key in filter.value
          ensures Get(Meta(q), key, Null) == filter.value[key]
        {
          LookCases(q, key);
        }
      }
    }
    assert q in filtered;
    ApplyFilterSpec(s2, filter);
    SubseqLength(filtered, s2);
    assert Search(data, query, filter, k).value == filtered;
  }

  /** The records `similarity_search` looks for, all of them and in their original order, defined
      record by record from `Relevant` and independently of the three stages. */
  function RelevantOf(data: seq<Dict>, query: string, filter: Option<Dict>): seq<Dict> {
    if data == [] then []
    else (if Relevant(data[0], query, filter) then [data[0]] else []) + RelevantOf(data[1..], query, filter)
  }

  /** The keyword stages on a non-empty list: the first record, when it has the extracted type and
      grade, followed by the stages' result on the rest. */
  lemma NarrowCons(data: seq<Dict>, query: string)
    requires data != [] && Narrow(data, query).Ok?
    ensures Narrow(data[1..], query).Ok?
    ensures Narrow(data, query).value ==
            (if Relevant(data[0], query, None) then [data[0]] else []) + Narrow(data[1..], query).value
  {
    var p, rest := data[0], data[1..];
    var t, g := ExtractProjectType(query), ExtractMaterialGrade(query);
    var s, s' := data, rest;
    if t.Some? {
      s := Keep(data, Field("project_type"), Str(t.value)).value;
      s' := Keep(rest, Field("project_type"), Str(t.value)).value;
      assert s == (if Look(p, Field("project_type")) == Ok(Str(t.value)) then [p] else []) + s';
    } else {
      assert data == [p] + rest;
    }
    if g.Some? {
      var probe, v := Field("material_grade"), Str(g.value);
      if t.None? || Look(p, Field("project_type")) == Ok(Str(t.value)) {
        assert s == [p] + s';
        KeepCons(p, s', probe, v);
      } else {
        assert s == s' by {
          assert [] + s' == s';
        }
      }
    } else {
      assert [] + s' == s';
    }
  }

  /** The filter stage on a list with one more record in front. */
  lemma ApplyFilterCons(p: Dict, ps: seq<Dict>, filter: Option<Dict>)
    requires ApplyFilter([p] + ps, filter).Ok?
    ensures ApplyFilter(ps, filter).Ok?
    ensures ApplyFilter([p] + ps, filter).value ==
            (if AgreesWith(p, filter) then [p] else []) + ApplyFilter(ps, filter).value
  {
    var l := [p] + ps;
    assert l[0] == p && l[1..] == ps;
    if Truthy(filter) {
      assert MetaOk(p);
      assert AgreesWith(p, filter) <==> MatchesFilter(p, filter.value, filter.value.Keys) by {
        forall key | key in filter.value
          ensures Look(p, GetKey(key)) == Ok(Get(Meta(p), key, Null))
        {
          LookCases(p, key);
        }
      }
    } else {
      assert [] + ps == ps;
    }
  }

  /** When no stage raises, the three stages together keep exactly the relevant records. */
  lemma {:induction false} StagesKeepRelevant(data: seq<Dict>, query: string, filter: Option<Dict>)
    requires Narrow(data, query).Ok? && ApplyFilter(Narrow(data, query).value, filter).Ok?
    ensures ApplyFilter(Narrow(data, query).value, filter).value == RelevantOf(data, query, filter)
    decreases |data|
  {
    if data == [] {
      assert Narrow(data, query).value == [];
    } else {
      var p := data[0];
      NarrowCons(data, query);
      var s' := Narrow(data[1..], query).value;
      if Relevant(p, query, None) {
        ApplyFilterCons(p, s', filter);
      } else {
        assert Narrow(data, query).value == s' by {
          assert [] + s' == s';
        }
      }
      StagesKeepRelevant(data[1..], query, filter);
    }
  }

  /** `similarity_search` returns the first `min(k, n)` of the relevant records, in order, each as
      often as it occurs in the collection. */
  lemma SearchSelects(data: seq<Dict>, query: string, filter: Option<Dict>, k: int)
    ensures var r := Search(data, query, filter, k);
      var rel := RelevantOf(data, query, filter);
      r.Ok? ==> r.value == SlicePrefix(rel, Min(k, |rel|))
  {
    if Search(data, query, filter, k).Ok? {
      StagesKeepRelevant(data, query, filter);
    }
  }
}
