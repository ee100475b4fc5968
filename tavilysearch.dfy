/** Cost ranges scanned from web search results, and the summary built from them
    (backend/tavily_search.py). The search itself is a parameter. */
module TavilySearch {
  import opened Wrappers
  import opened Text
  import opened Sequences

  // ---------------------------------------------------------------------------------------------
  // extract_cost_ranges: the pattern
  //   \$\s*[\d,]+(?:\.\d+)?(?:\s*[kK])?(?:\s*(?:to|-)\s*\$\s*[\d,]+(?:\.\d+)?(?:\s*[kK])?)?
  // as a left-to-right scanner. Every part after `[\d,]+` is optional and every repetition is greedy,
  // so the regular expression's first successful path is the one that takes each part as far as
  // it goes; no backtracking is needed.

  datatype CharClass = Space | Digit | DigitOrComma

  predicate InClass(c: char, cls: CharClass) {
    match cls
    case Space => IsSpace(c)
    case Digit => IsDigit(c)
    case DigitOrComma => IsDigit(c) || c == ','
  }

  /** The end of the longest run of `cls` characters starting at `i`. */
  function Skip(s: string, i: nat, cls: CharClass): (j: nat)
    requires i <= |s|
    ensures i <= j <= |s|
    decreases |s| - i
  {
    if i < |s| && InClass(s[i], cls) then Skip(s, i + 1, cls) else i
  }

  /** `\$\s*[\d,]+(?:\.\d+)?(?:\s*[kK])?` at `i`: where a dollar amount starting there ends. */
  function AmountAt(s: string, i: nat): (r: Option<nat>)
    requires i <= |s|
    ensures r.Some? ==> i < r.value <= |s| && s[i] == '$'
  {
    if i == |s| || s[i] != '$' then None
    else
      var digitsStart := Skip(s, i + 1, Space);
      var digitsEnd := Skip(s, digitsStart, DigitOrComma);
      if digitsEnd == digitsStart then None
      else
        var afterFraction :=
          if digitsEnd + 1 < |s| && s[digitsEnd] == '.' && IsDigit(s[digitsEnd + 1])
          then Skip(s, digitsEnd + 1, Digit) else digitsEnd;
        var k := Skip(s, afterFraction, Space);
        Some(if k < |s| && (s[k] == 'k' || s[k] == 'K') then k + 1 else afterFraction)
  }

  /** `\s*(?:to|-)\s*` and a second amount, after the first amount ends at `e`. */
  function RangeTailAt(s: string, e: nat): (r: Option<nat>)
    requires e <= |s|
    ensures r.Some? ==> e < r.value <= |s|
  {
    var a := Skip(s, e, Space);
    var b := if a + 2 <= |s| && s[a..a + 2] == "to" then a + 2 else if a < |s| && s[a] == '-' then a + 1 else a;
    if b == a then None else AmountAt(s, Skip(s, b, Space))
  }

  /** Where the pattern's match starting at `i` ends, if it matches there. */
  function MatchAt(s: string, i: nat): (r: Option<nat>)
    requires i <= |s|
    ensures r.Some? ==> i < r.value <= |s| && s[i] == '$'
  {
    match AmountAt(s, i)
    case None => None
    case Some(e) =>
      match RangeTailAt(s, e)
      case Some(end) => Some(end)
      case None => Some(e)
  }

  /** Where the match starting at each position ends, if one does. */
  function MatchTable(s: string): (t: seq<Option<nat>>)
    ensures |t| == |s|
  {
    seq(|s|, p requires 0 <= p < |s| => MatchAt(s, p))
  }

  /** Every match in the table ends after its start and inside the text. */
  predicate ValidTable(t: seq<Option<nat>>) {
    forall p :: 0 <= p < |t| && t[p].Some? ==> p < t[p].value <= |t|
  }

  lemma MatchTableValid(s: string)
    ensures ValidTable(MatchTable(s))
  {
  }

  datatype Span = Span(start: nat, end: nat)

  /** `re.findall`'s scan from `i`: try a match at each position; after a match, go on from its end. */
  function Scan(t: seq<Option<nat>>, i: nat): (r: seq<Span>)
    requires ValidTable(t) && i <= |t|
    decreases |t| - i
  {
    if i == |t| then []
    else match t[i]
      case Some(e) => [Span(i, e)] + Scan(t, e)
      case None => Scan(t, i + 1)
  }

  /** Every span lies inside the text, after the starting position. */
  lemma {:induction false} ScanBounds(t: seq<Option<nat>>, i: nat)
    requires ValidTable(t) && i <= |t|
    ensures forall k :: 0 <= k < |Scan(t, i)| ==> i <= Scan(t, i)[k].start < Scan(t, i)[k].end <= |t|
    decreases |t| - i
  {
    if i < |t| {
      match t[i]
      case Some(e) =>
        ScanBounds(t, e);
        ConsIndex(Span(i, e), Scan(t, e));
      case None =>
        ScanBounds(t, i + 1);
    }
  }

  lemma ConsIndex(x: Span, rest: seq<Span>)
    ensures ([x] + rest)[0] == x
    ensures forall k :: 1 <= k < |rest| + 1 ==> ([x] + rest)[k] == rest[k - 1]
  {
  }

  /** Every span is a match of the pattern. */
  lemma {:induction false} ScanMatches(t: seq<Option<nat>>, i: nat)
    requires ValidTable(t) && i <= |t|
    ensures forall k :: 0 <= k < |Scan(t, i)| ==>
      Scan(t, i)[k].start < |t| && t[Scan(t, i)[k].start] == Some(Scan(t, i)[k].end)
    decreases |t| - i
  {
    if i < |t| {
      match t[i]
      case Some(e) =>
        ScanMatches(t, e);
        ConsIndex(Span(i, e), Scan(t, e));
      case None =>
        ScanMatches(t, i + 1);
    }
  }

  /** The spans come left to right and do not overlap. */
  lemma {:induction false} ScanOrdered(t: seq<Option<nat>>, i: nat)
    requires ValidTable(t) && i <= |t|
    ensures forall k :: 0 <= k < |Scan(t, i)| - 1 ==> Scan(t, i)[k].end <= Scan(t, i)[k + 1].start
    decreases |t| - i
  {
    if i < |t| {
      match t[i]
      case Some(e) =>
        ScanOrdered(t, e);
        ScanBounds(t, e);
        ConsIndex(Span(i, e), Scan(t, e));
      case None =>
        ScanOrdered(t, i + 1);
    }
  }

  /** No span covers `p`. */
  predicate Uncovered(r: seq<Span>, p: nat) {
    forall k :: 0 <= k < |r| ==> !(r[k].start <= p < r[k].end)
  }

  /** No match starts at a position the spans leave uncovered: nothing is missed. */
  lemma {:induction false} ScanComplete(t: seq<Option<nat>>, i: nat, p: nat)
    requires ValidTable(t) && i <= p < |t| && Uncovered(Scan(t, i), p)
    ensures t[p].None?
    decreases |t| - i
  {
    match t[i]
    case Some(e) =>
      var rest := Scan(t, e);
      ConsIndex(Span(i, e), rest);
      assert !(i <= p < e);
      assert Uncovered(rest, p) by {
        forall k | 0 <= k < |rest|
          ensures !(rest[k].start <= p < rest[k].end)
        {
          assert rest[k] == Scan(t, i)[k + 1];
        }
      }
      ScanComplete(t, e, p);
    case None =>
      if p > i {
        ScanComplete(t, i + 1, p);
      }
  }

  /** The spans of `re.findall` over the text. */
  function Spans(text: string): (r: seq<Span>)
    ensures forall k :: 0 <= k < |r| ==> r[k].start < r[k].end <= |text|
  {
    var t := MatchTable(text);
    MatchTableValid(text);
    ScanBounds(t, 0);
    Scan(t, 0)
  }

  /** `extract_cost_ranges`: the text of every match, in order. */
  function ExtractCostRanges(text: string): seq<string> {
    var spans := Spans(text);
    seq(|spans|, k requires 0 <= k < |spans| => text[spans[k].start..spans[k].end])
  }

  /** What `re.findall` promises: the matches are taken left to right without overlap, each is a
      match of the pattern, and no match starts at a position they leave uncovered. */
  lemma SpansSpec(text: string)
    ensures var r := Spans(text);
      && (forall k :: 0 <= k < |r| ==> MatchAt(text, r[k].start) == Some(r[k].end))
      && (forall k :: 0 <= k < |r| - 1 ==> r[k].end <= r[k + 1].start)
      && (forall p :: 0 <= p < |text| && Uncovered(r, p) ==> MatchAt(text, p).None?)
  {
    var t := MatchTable(text);
    var r := Spans(text);
    MatchTableValid(text);
    ScanMatches(t, 0);
    ScanOrdered(t, 0);
    forall k | 0 <= k < |r|
      ensures MatchAt(text, r[k].start) == Some(r[k].end)
    {
      assert t[r[k].start] == Some(r[k].end);
    }
    forall p | 0 <= p < |text| && Uncovered(r, p)
      ensures MatchAt(text, p).None?
    {
      ScanComplete(t, 0, p);
      assert t[p] == MatchAt(text, p);
    }
  }

  /** Every extracted range begins with "$" and is a piece of the text. */
  lemma ExtractedRangesAreDollarAmounts(text: string)
    ensures forall m :: m in ExtractCostRanges(text) ==> |m| > 0 && m[0] == '$' && exists i :: OccursAt(text, m, i)
  {
    var spans := Spans(text);
    var r := ExtractCostRanges(text);
    SpansSpec(text);
    forall m | m in r
      ensures |m| > 0 && m[0] == '$' && exists i :: OccursAt(text, m, i)
    {
      var k :| 0 <= k < |r| && r[k] == m;
      MatchedText(text, spans[k].start, spans[k].end);
    }
  }

  lemma MatchedText(text: string, start: nat, end: nat)
    requires start <= |text| && MatchAt(text, start) == Some(end)
    ensures start < end <= |text|
    ensures var m := text[start..end]; |m| > 0 && m[0] == '$' && OccursAt(text, m, start)
  {
  }

  lemma {:induction false} ScanEmpty(t: seq<Option<nat>>, i: nat)
    requires ValidTable(t) && i <= |t|
    requires forall p :: i <= p < |t| ==> t[p].None?
    ensures Scan(t, i) == []
    decreases |t| - i
  {
    if i < |t| {
      ScanEmpty(t, i + 1);
    }
  }

  /** Text without a "$" yields no ranges. */
  lemma NoDollarNoRanges(text: string)
    requires forall k :: 0 <= k < |text| ==> text[k] != '$'
    ensures ExtractCostRanges(text) == []
  {
    MatchTableValid(text);
    ScanEmpty(MatchTable(text), 0);
  }

  /** The pattern matches all of a range written with "to". */
  lemma ToMatch()
    ensures MatchAt("$30,000 to $90,000", 0) == Some(18)
  {
    var s := "$30,000 to $90,000";
    assert Skip(s, 7, Space) == 8;
    assert s[8..10] == "to";
    assert Skip(s, 10, Space) == 11;
    ToAmounts();
  }

  lemma ToAmounts()
    ensures AmountAt("$30,000 to $90,000", 0) == Some(7)
    ensures AmountAt("$30,000 to $90,000", 11) == Some(18)
  {
    var s := "$30,000 to $90,000";
    assert Skip(s, 1, Space) == 1;
    assert Skip(s, 1, DigitOrComma) == 7;
    assert Skip(s, 7, Space) == 8;
    SecondToAmount();
  }

  lemma SecondToAmount()
    ensures AmountAt("$30,000 to $90,000", 11) == Some(18)
  {
    var s := "$30,000 to $90,000";
    assert Skip(s, 12, Space) == 12;
    assert Skip(s, 12, DigitOrComma) == 18;
  }

  /** A spelled-out range is one match, not two. */
  lemma RangeWithToIsOneMatch()
    ensures ExtractCostRanges("$30,000 to $90,000") == ["$30,000 to $90,000"]
  {
    var s := "$30,000 to $90,000";
    ToMatch();
    var t := MatchTable(s);
    MatchTableValid(s);
    assert t[0] == Some(18);
    assert Scan(t, 18) == [];
    assert Spans(s) == [Span(0, 18)];
    assert s[0..18] == s;
  }

  /** The pattern matches all of a hyphenated range with "k" suffixes. */
  lemma DashMatch()
    ensures MatchAt("$30k-$90k", 0) == Some(9)
  {
    var s := "$30k-$90k";
    assert Skip(s, 1, Space) == 1;
    assert Skip(s, 1, DigitOrComma) == 3;
    assert Skip(s, 3, Space) == 3;
    assert AmountAt(s, 0) == Some(4);
    assert Skip(s, 4, Space) == 4;
    assert s[4..6][0] == '-';
    assert s[4..6] != "to";
    assert Skip(s, 5, Space) == 5;
    assert Skip(s, 6, Space) == 6;
    assert Skip(s, 6, DigitOrComma) == 8;
    assert Skip(s, 8, Space) == 8;
    assert AmountAt(s, 5) == Some(9);
  }

  /** A hyphenated range with "k" suffixes is one match, not two. */
  lemma RangeWithDashIsOneMatch()
    ensures ExtractCostRanges("$30k-$90k") == ["$30k-$90k"]
  {
    var s := "$30k-$90k";
    DashMatch();
    var t := MatchTable(s);
    MatchTableValid(s);
    assert t[0] == Some(9);
    assert Scan(t, 9) == [];
    assert Spans(s) == [Span(0, 9)];
    assert s[0..9] == s;
  }

  // ---------------------------------------------------------------------------------------------
  // get_renovation_costs, get_cost_summary, search_renovation_costs

  /** One entry of a response's "results" list; `None` is a key the entry lacks. */
  datatype SearchResult = SearchResult(title: Option<string>, url: Option<string>, content: Option<string>)

  /** A search response; `results` is `None` when the response has no "results" key. */
  datatype SearchResponse = SearchResponse(results: Option<seq<SearchResult>>)

  /** The web search: a query in, a response out, or `None` when the search is unavailable or fails. */
  type SearchClient = string -> Option<SearchResponse>

  /** `result.get("content", "")` */
  function ContentOf(r: SearchResult): string {
    r.content.GetOr("")
  }

  /** The entries the code iterates over: none unless the response exists and has "results". */
  function ResultsOf(response: Option<SearchResponse>): seq<SearchResult> {
    if response.Some? && response.value.results.Some? then response.value.results.value else []
  }

  /** The ranges of each entry's content. */
  function RangeLists(rs: seq<SearchResult>): (r: seq<seq<string>>)
    ensures |r| == |rs|
  {
    seq(|rs|, j requires 0 <= j < |rs| => ExtractCostRanges(ContentOf(rs[j])))
  }

  /** The ranges of every entry's content, entry after entry. */
  function AllCostRanges(rs: seq<SearchResult>): seq<string> {
    Concat(RangeLists(rs))
  }

  /** The query `get_renovation_costs` sends. */
  function RenovationQuery(projectType: string, location: string, extra: string): string {
    "current " + projectType + " renovation cost in " + location + " " + extra
  }

  /** Every collected range begins with "$" and is a piece of the content of some entry. */
  lemma AllCostRangesFromContents(rs: seq<SearchResult>)
    ensures forall m :: m in AllCostRanges(rs) ==>
      |m| > 0 && m[0] == '$' && exists j, i :: 0 <= j < |rs| && OccursAt(ContentOf(rs[j]), m, i)
  {
    var ls := RangeLists(rs);
    ConcatMembers(ls);
    forall m | m in AllCostRanges(rs)
      ensures |m| > 0 && m[0] == '$' && exists j, i :: 0 <= j < |rs| && OccursAt(ContentOf(rs[j]), m, i)
    {
      var j :| 0 <= j < |ls| && m in ls[j];
      ExtractedRangesAreDollarAmounts(ContentOf(rs[j]));
    }
  }

  /** No range is collected when no content contains "$". */
  lemma NoDollarNoCostRanges(rs: seq<SearchResult>)
    requires forall j, k :: 0 <= j < |rs| && 0 <= k < |ContentOf(rs[j])| ==> ContentOf(rs[j])[k] != '$'
    ensures AllCostRanges(rs) == []
  {
    var ls := RangeLists(rs);
    forall j | 0 <= j < |ls|
      ensures ls[j] == []
    {
      NoDollarNoRanges(ContentOf(rs[j]));
    }
    ConcatEmpty(ls);
  }

  /** `get_renovation_costs`: the response to the query, and the ranges of every entry's content. */
  method GetRenovationCosts(search: SearchClient, projectType: string, location: string, extraContext: string)
    returns (results: Option<SearchResponse>, costRanges: seq<string>)
    ensures results == search(RenovationQuery(projectType, location, extraContext))
    ensures costRanges == AllCostRanges(ResultsOf(results))
  {
    var query := "current " + projectType + " renovation cost in " + location + " " + extraContext;
    results := search(query);
    costRanges := [];
    if results.Some? && results.value.results.Some? {
      var rs := results.value.results.value;
      ghost var ls := RangeLists(rs);
      var i := 0;
      while i < |rs|
        invariant 0 <= i <= |rs|
        invariant costRanges == Concat(ls[..i])
      {
        assert ls[..i + 1][..i] == ls[..i];
        assert ls[..i + 1][i] == ExtractCostRanges(ContentOf(rs[i]));
        costRanges := costRanges + ExtractCostRanges(ContentOf(rs[i]));
        i := i + 1;
      }
      assert ls[..|rs|] == ls;
    }
  }

  /** The first 200 characters of a content, newlines turned into spaces, surrounding whitespace
      removed. */
  function Preview(content: string): string {
    Strip(ReplaceChar(content[..Min(200, |content|)], '\n', ' '))
  }

  /** A preview is at most 200 characters, has no newline and no surrounding whitespace, and is a
      piece of the content's first 200 characters with newlines turned into spaces. */
  lemma PreviewSpec(content: string)
    ensures var cut := ReplaceChar(content[..Min(200, |content|)], '\n', ' ');
      var p := Preview(content);
      && |p| <= 200
      && (forall k :: 0 <= k < |p| ==> p[k] != '\n')
      && (p == [] || (!IsSpace(p[0]) && !IsSpace(p[|p| - 1])))
      && exists i :: OccursAt(cut, p, i)
  {
    var cut := ReplaceChar(content[..Min(200, |content|)], '\n', ' ');
    var p := Strip(cut);
    assert Preview(content) == p;
    var i :| OccursAt(cut, p, i);
    PieceAvoids(cut, p, i, '\n');
  }

  /** A piece of a text lacking some character lacks it too. */
  lemma PieceAvoids(s: string, w: string, i: int, c: char)
    requires OccursAt(s, w, i) && forall k :: 0 <= k < |s| ==> s[k] != c
    ensures forall k :: 0 <= k < |w| ==> w[k] != c
  {
    forall k | 0 <= k < |w|
      ensures w[k] != c
    {
      assert w[k] == s[i + k];
    }
  }

  datatype Source = Source(title: string, url: string, preview: string)

  /** One of the top sources: title "Untitled" and url "" when the entry lacks them. */
  function SourceOf(r: SearchResult): Source {
    Source(r.title.GetOr("Untitled"), r.url.GetOr(""), Preview(ContentOf(r)))
  }

  /** The summary dictionary; `None` marks a key the dictionary lacks. */
  datatype CostSummary = CostSummary(
    error: Option<string>,
    query: Option<string>,
    costRanges: seq<string>,
    foundCosts: bool,
    sourceCount: Option<nat>,
    topSources: seq<Source>)

  /** Python's truth value of an optional size (`None` and 0 are false) or quality (`None` and "" are false). */
  predicate SizeGiven(size: Option<int>) {
    size.Some? && size.value != 0
  }

  predicate QualityGiven(quality: Option<string>) {
    quality.Some? && quality.value != ""
  }

  /** `extra_context`: the size part, then the quality part, each only when given. */
  function ExtraContext(size: Option<int>, quality: Option<string>): string {
    (if SizeGiven(size) then " " + IntToString(size.value) + " square feet" else "") +
    (if QualityGiven(quality) then " " + quality.value + " quality" else "")
  }

  /** The extra context in each of the four cases: empty when neither size nor quality is given,
      otherwise the given parts alone, the size part before the quality part. */
  lemma ExtraContextSpec(size: Option<int>, quality: Option<string>)
    ensures ExtraContext(size, quality) == "" <==> !SizeGiven(size) && !QualityGiven(quality)
    ensures SizeGiven(size) && !QualityGiven(quality) ==>
      ExtraContext(size, quality) == " " + IntToString(size.value) + " square feet"
    ensures !SizeGiven(size) && QualityGiven(quality) ==>
      ExtraContext(size, quality) == " " + quality.value + " quality"
    ensures SizeGiven(size) && QualityGiven(quality) ==>
      ExtraContext(size, quality) == " " + IntToString(size.value) + " square feet" + " " + quality.value + " quality"
  {
    assert forall t: string :: t + "" == t && "" + t == t;
  }

  /** The entries a summary is built from. */
  function SummaryResults(search: SearchClient, projectType: string, location: string, size: Option<int>, quality: Option<string>): seq<SearchResult> {
    ResultsOf(search(RenovationQuery(projectType, location, ExtraContext(size, quality))))
  }

  /** All ranges found for a summary, before the first ten are kept. */
  function SummaryRanges(search: SearchClient, projectType: string, location: string, size: Option<int>, quality: Option<string>): seq<string> {
    AllCostRanges(SummaryResults(search, projectType, location, size, quality))
  }

  /** One source for each of the first three entries. */
  function TopSourcesOf(rs: seq<SearchResult>): (r: seq<Source>)
    ensures |r| == Min(3, |rs|)
  {
    seq(Min(3, |rs|), j requires 0 <= j < Min(3, |rs|) => SourceOf(rs[j]))
  }

  /** What `get_cost_summary` promises about its dictionary. */
  predicate IsSummaryOf(summary: CostSummary, search: SearchClient, projectType: string, location: string, size: Option<int>, quality: Option<string>) {
    var rs := SummaryResults(search, projectType, location, size, quality);
    var all := SummaryRanges(search, projectType, location, size, quality);
    && summary.error.None?
    && summary.query == Some(projectType + " renovation in " + location + ExtraContext(size, quality))
    && summary.costRanges == all[..Min(10, |all|)]
    && (summary.foundCosts <==> |all| > 0)
    && summary.sourceCount == Some(|rs|)
    && summary.topSources == TopSourcesOf(rs)
  }

  /** The first lines of `get_cost_summary`, which build the extra context piece by piece. */
  method BuildExtraContext(size: Option<int>, quality: Option<string>) returns (extraContext: string)
    ensures extraContext == ExtraContext(size, quality)
  {
    extraContext := "";
    if size.Some? && size.value != 0 {
      var sizeText := IntToString(size.value);
      extraContext := extraContext + " " + sizeText + " square feet";
      assert extraContext == " " + sizeText + " square feet";
    }
    if quality.Some? && quality.value != "" {
      extraContext := extraContext + " " + quality.value + " quality";
    }
  }

  /** `get_cost_summary` */
  method GetCostSummary(search: SearchClient, projectType: string, location: string, size: Option<int>, quality: Option<string>)
    returns (summary: CostSummary)
    ensures IsSummaryOf(summary, search, projectType, location, size, quality)
  {
    var extraContext := BuildExtraContext(size, quality);
    var results, costRanges := GetRenovationCosts(search, projectType, location, extraContext);
    var rs := ResultsOf(results);
    var topSources := TopSources(rs);
    ghost var all := SummaryRanges(search, projectType, location, size, quality);
    assert rs == SummaryResults(search, projectType, location, size, quality);
    assert costRanges == all;
    summary := CostSummary(
      None,
      Some(projectType + " renovation in " + location + extraContext),
      costRanges[..Min(10, |costRanges|)],
      |costRanges| > 0,
      Some(|rs|),
      topSources);
  }

  /** The top sources of `get_cost_summary`: one for each of the first three entries. */
  method TopSources(rs: seq<SearchResult>) returns (topSources: seq<Source>)
    ensures topSources == TopSourcesOf(rs)
  {
    topSources := [];
    var n := Min(3, |rs|);
    var i := 0;
    while i < n
      invariant 0 <= i <= n
      invariant |topSources| == i
      invariant forall j :: 0 <= j < i ==> topSources[j] == SourceOf(rs[j])
    {
      var r := rs[i];
      var content := r.content.GetOr("");
      var source := Source(r.title.GetOr("Untitled"), r.url.GetOr(""), Preview(content));
      topSources := topSources + [source];
      i := i + 1;
    }
    assert topSources == TopSourcesOf(rs);
  }

  /** The message `search_renovation_costs` reports when the search is unavailable. */
  const UnavailableMessage := "Tavily search is not available. Please check API key and package installation."

  /** `search_renovation_costs`: the summary when the search is available; otherwise an error
      dictionary with no ranges, no sources, no query and no source count. */
  method SearchRenovationCosts(available: bool, search: SearchClient, projectType: string, location: string, size: Option<int>, quality: Option<string>)
    returns (summary: CostSummary)
    ensures available ==> IsSummaryOf(summary, search, projectType, location, size, quality)
    ensures !available ==> summary == CostSummary(Some(UnavailableMessage), None, [], false, None, [])
  {
    if !available {
      return CostSummary(Some(UnavailableMessage), None, [], false, None, []);
    }
    summary := GetCostSummary(search, projectType, location, size, quality);
  }

  /** A summary finds costs exactly when some range was collected, reports at most ten of them,
      and every reported range is a "$"-amount taken from the content of one of its entries. */
  lemma SummaryRangesFromContents(summary: CostSummary, search: SearchClient, projectType: string, location: string, size: Option<int>, quality: Option<string>)
    requires IsSummaryOf(summary, search, projectType, location, size, quality)
    ensures |summary.costRanges| <= 10
    ensures summary.foundCosts <==> summary.costRanges != []
    ensures forall m :: m in summary.costRanges ==> (|m| > 0 && m[0] == '$' &&
      exists j, i :: 0 <= j < |SummaryResults(search, projectType, location, size, quality)| &&
        OccursAt(ContentOf(SummaryResults(search, projectType, location, size, quality)[j]), m, i))
  {
    var rs := SummaryResults(search, projectType, location, size, quality);
    var all := AllCostRanges(rs);
    assert all == SummaryRanges(search, projectType, location, size, quality);
    assert summary.costRanges == all[..Min(10, |all|)];
    AllCostRangesFromContents(rs);
    forall m | m in summary.costRanges
      ensures |m| > 0 && m[0] == '$' && exists j, i :: 0 <= j < |rs| && OccursAt(ContentOf(rs[j]), m, i)
    {
      var k :| 0 <= k < |summary.costRanges| && summary.costRanges[k] == m;
      assert all[k] == m;
    }
  }

  /** Without a "$" in any entry's content a summary finds no costs. */
  lemma SummaryWithoutDollarFindsNothing(summary: CostSummary, search: SearchClient, projectType: string, location: string, size: Option<int>, quality: Option<string>)
    requires IsSummaryOf(summary, search, projectType, location, size, quality)
    requires var rs := SummaryResults(search, projectType, location, size, quality);
      forall j, k :: 0 <= j < |rs| && 0 <= k < |ContentOf(rs[j])| ==> ContentOf(rs[j])[k] != '$'
    ensures !summary.foundCosts && summary.costRanges == []
  {
    NoDollarNoCostRanges(SummaryResults(search, projectType, location, size, quality));
  }
}
