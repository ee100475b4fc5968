# Renovation cost estimator — a verified model of its core

This project models the deterministic core of the renovation cost estimator, a Python
application that prices home renovations:

- **Estimator** (`backend/estimator.py`): `simple_estimate` prices an area from a base rate
  per square foot and multipliers for material grade, timeline and ZIP-code region. It rounds the
  total to the nearest $100, splits it 45/35/10/10 and estimates the weeks from the square root of
  the area. `get_cost_estimate` fills in defaults for missing keys. `search_similar_projects`
  returns a fixed sample.
- **VectorStore** (`backend/vector_store.py`): the mock `similarity_search`. It extracts a
  project type and a material grade from the query, narrows the records by them and by an
  explicit filter, and returns the first `k`.
- **DataLoader** (`utils/data_loader.py`): `format_data_for_vector_store` gives each raw project
  an id, a description text and its metadata. `load_project_data` tries an explicit file, then
  three default paths, then a synthetic generator.
- **TavilySearch** (`backend/tavily_search.py`): `extract_cost_ranges`, the dollar-amount regular
  expression, is modelled as a left-to-right scanner with `re.findall`'s semantics. On top of it
  sit `get_renovation_costs`, `get_cost_summary` and `search_renovation_costs`; the web search
  itself is a parameter.
- **LangsmithExample** (`scripts/langsmith_example.py`): the traced helpers `estimate_timeline`
  and `calculate_cost`.

Shared modules:

- `Wrappers`: `Option`, `Result`, `Min`, `Max`.
- `Text`: Python character classes, `lower`, `in`, `strip`, decimal conversion and zero padding.
- `Sequences`: Python prefix slicing, order-preserving subsequences, list concatenation.
- `Json`: dictionary values and `str()` of a value.
- `PyNumbers`: Python's `round` (half to even) and the rounded square root, both exact on reals.

Python exceptions are modelled as the `Err` side of a `Result`:

- a missing metadata key is `KeyError`, and metadata that is not a dictionary is `TypeError` or
  `AttributeError`, in `similarity_search`;
- a zero area is `ZeroDivisionError`, and a negative area becomes a math domain error from
  `math.sqrt`, in `simple_estimate`.

Outside effects become parameters:

- the web search is a function from query to optional response;
- whether the Tavily provider is available is a boolean;
- the file system is a map from path to what loading that path gives;
- the synthetic-data generator is an optional list (`None` when it cannot be imported).

`simple_estimate` in `backend/estimator.py` raises an exception for a zero or negative area, gives
its timeline in weeks, and computes no total range and no confidence score; the model does the same.

## Model

| member | source | states |
|---|---|---|
| Estimator.BaseCost | backend/estimator.py:35-71 | an unknown project type is priced at the kitchen rate 250; every rate lies in 125..300 |
| Estimator.MaterialMultiplier | backend/estimator.py:45-74 | an unknown grade gets the standard multiplier 1.0; every multiplier lies in 0.8..1.8 |
| Estimator.TimelineMultiplier | backend/estimator.py:53-75 | an unknown timeline gets the standard multiplier 1.0; every multiplier lies in 0.9..1.5 |
| Estimator.RegionMultiplier | backend/estimator.py:62-78 | an empty ZIP code gives 1.0; every region multiplier lies in 0.85..1.3 |
| Estimator.RegionFirstCharOnly | backend/estimator.py:78 | two ZIP codes with the same first character get the same region multiplier |
| Estimator.RegionTable | backend/estimator.py:62-78 | first character 9, 1, 3, 7 and 8 give 1.3, 1.2, 0.9, 0.85 and 0.95; any other first character gives 1.0 |
| Estimator.CostRate | backend/estimator.py:71-81 | the combined rate per square foot is positive for every input |
| Estimator.RoundedTotal | backend/estimator.py:84 | the rounded total is a multiple of 100 within 50 of the unrounded product |
| Estimator.CostBreakdown | backend/estimator.py:90-100 | labor, materials, permits and other are exactly 45%, 35%, 10% and 10% of the total and sum to it |
| Estimator.TimelineWeeks | backend/estimator.py:111-143 | fails exactly on a negative area; otherwise the weeks w are at least one with (base * adjustment)^2 * sqft / 200 <= (w + 1/2)^2, and above one week also (w - 1/2)^2 <= (base * adjustment)^2 * sqft / 200 |
| Estimator.SimpleEstimate | backend/estimator.py:16-109 | a zero area is exactly the division-by-zero failure, a negative area exactly the square-root failure |
| Estimator.SimpleEstimateContract | backend/estimator.py:81-109 | for a positive area: success, total a non-negative multiple of 100 within 50 of the product, exact shares summing to the total, per-sqft within half a cent of total/sqft, USD, weeks >= 1 |
| Estimator.RoundedTotalMonotone | backend/estimator.py:84 | rounding to the nearest 100 preserves order |
| Estimator.ProductNonNegative | backend/estimator.py:81 | the unrounded cost is non-negative for a non-negative area |
| Estimator.EstimateDetermined | backend/estimator.py:71-109 | inputs giving the same combined rate and the same weeks give the same estimate |
| Estimator.TotalMonotoneInArea | backend/estimator.py:81-84 | with the other inputs fixed, a larger positive area never gives a smaller total |
| Estimator.CostMonotone | backend/estimator.py:81 | at a positive rate a larger area costs at least as much |
| Estimator.TotalIsRoundedProduct | backend/estimator.py:81-84 | for a positive area the total is the unrounded product rounded to the nearest 100 |
| Estimator.UnknownTypeIsKitchen | backend/estimator.py:71-131 | an unknown project type gives exactly the kitchen estimate, cost and weeks |
| Estimator.UnknownMaterialIsStandard | backend/estimator.py:74 | an unknown material grade gives exactly the standard-grade estimate |
| Estimator.UnknownTimelineIsStandard | backend/estimator.py:75-137 | an unknown timeline gives exactly the standard-timeline estimate, cost and weeks |
| Estimator.GetCostEstimate | backend/estimator.py:145-156 | succeeds exactly when the area, defaulting to 200, is positive |
| Estimator.GetCostEstimateSpec | backend/estimator.py:145-156 | with every key present its value is passed to `simple_estimate` unchanged; each missing key gives the same estimate as that key present with its default "00000", "kitchen", 200, "standard" or "standard" |
| Estimator.EmptyDetailsEstimate | backend/estimator.py:150-156 | with every key missing the estimate is $50,000, $250.00 per sqft, 22500/17500/5000/5000, USD, 4 weeks |
| Estimator.SearchSimilarProjects | backend/estimator.py:158-202 | for k >= 0 the first min(k, 3) sample projects in order, whatever the query; a negative k drops from the end as Python slicing does |
| PyNumbers.Round | backend/estimator.py:84 | the result is within 1/2 of its argument, and a tie goes to the even neighbour |
| PyNumbers.RoundMonotone | backend/estimator.py:84 | rounding preserves order |
| PyNumbers.RoundCents | backend/estimator.py:87 | `round(x, 2)` is a whole number of cents within half a cent of x, a tie going to an even number of cents |
| PyNumbers.RoundSqrt | backend/estimator.py:134-140 | the result r satisfies (r - 1/2)^2 <= q <= (r + 1/2)^2, a tie going to the even r |
| PyNumbers.RoundSqrtMonotone | backend/estimator.py:134-140 | the rounded square root never decreases as its argument grows |
| Estimator.TimelineWeeksMonotone | backend/estimator.py:132-143 | a larger area never gives fewer timeline weeks |
| VectorStore.ExtractProjectType | backend/vector_store.py:36-45 | "kitchen" if the lower-cased query contains it, else "bathroom" if it contains that, else "addition" if it contains "addition" or "adu", else None; each case as an if-and-only-if |
| VectorStore.ExtractMaterialGrade | backend/vector_store.py:47-56 | "premium" over "luxury" over "standard", each as an if-and-only-if on the lower-cased query; "economy" is never returned |
| VectorStore.MentionContained | backend/vector_store.py:38-39 | a word lower-casing to w anywhere in the query makes the lower-cased query contain w |
| VectorStore.KitchenAnywhere | backend/vector_store.py:38-40 | "kitchen" in any case anywhere in the query always gives "kitchen" |
| VectorStore.PremiumAnywhere | backend/vector_store.py:49-51 | "premium" in any case anywhere in the query always gives "premium" |
| VectorStore.ExtractIgnoresCase | backend/vector_store.py:36-56 | lower-casing the query first changes neither extraction |
| VectorStore.LookCases | backend/vector_store.py:26-31 | a missing "metadata" is a KeyError; non-dictionary metadata is a TypeError for `[]` and an AttributeError for `.get`; a missing field is a KeyError of that name; `.get` reads a missing key as None |
| VectorStore.FirstMetaError | backend/vector_store.py:31 | no error exactly when every record has dictionary metadata |
| VectorStore.FirstErrorGetKey | backend/vector_store.py:31 | `.get` fails on exactly the records without dictionary metadata, whatever the key |
| VectorStore.Keep | backend/vector_store.py:26-31 | a comprehension fails exactly when some lookup fails, with the first lookup error met |
| VectorStore.KeepSpec | backend/vector_store.py:26-28 | a successful comprehension keeps exactly the records whose lookup equals the value, in their original order |
| VectorStore.FilterBySpec | backend/vector_store.py:29-31 | filtering on a key set keeps exactly the records matching every key, in order |
| VectorStore.FilterByNoKeys | backend/vector_store.py:29-31 | filtering on no keys keeps every record |
| VectorStore.FilterStep | backend/vector_store.py:30-31 | one more pass of the filter loop is filtering on one more key |
| VectorStore.SimilaritySearch | backend/vector_store.py:17-34 | the method returns exactly what `Search` specifies, errors included |
| VectorStore.FilterLoop | backend/vector_store.py:29-31 | the loop over the filter's keys, taken in any order, gives the filter stage's result |
| VectorStore.FilterPass | backend/vector_store.py:30-31 | the first pass fails exactly when the filter stage does; later passes narrow by one key |
| VectorStore.NarrowSpec | backend/vector_store.py:20-28 | the keyword stages keep an ordered selection of the records, each of the extracted type and grade |
| VectorStore.ApplyFilterSpec | backend/vector_store.py:29-31 | without a truthy filter the stage keeps every record; with one it keeps an ordered selection holding every record that agrees with every filter entry and no other |
| VectorStore.SearchSubseq | backend/vector_store.py:24-34 | the result is an ordered subsequence of the records, at most min(k, n) long for k >= 0 |
| VectorStore.SearchEmpty | backend/vector_store.py:34 | an empty collection gives an empty result |
| VectorStore.SearchRelevant | backend/vector_store.py:24-34 | every returned record has the extracted type and grade and agrees with every filter entry, a missing key reading as None |
| VectorStore.SearchPlain | backend/vector_store.py:24-34 | with no keyword and no filter the result is exactly the first min(k, n) records |
| VectorStore.SearchWellFormed | backend/vector_store.py:24-31 | records with dictionary metadata holding a type and a grade make the search raise nothing |
| VectorStore.SearchComplete | backend/vector_store.py:24-34 | with k at least the collection size, every relevant record is returned |
| VectorStore.StagesKeepRelevant | backend/vector_store.py:24-31 | when no stage raises, the three stages keep exactly the relevant records, in order and with their repetitions |
| VectorStore.SearchSelects | backend/vector_store.py:17-34 | a successful search returns the first min(k, n) of the relevant records, where n is how many there are |
| Text.LowerIdempotent | backend/vector_store.py:38 | lower-casing twice is lower-casing once |
| Text.Strip | backend/tavily_search.py:166 | `strip()` gives a contiguous piece of the string with no whitespace at either end |
| Text.StripSpec | backend/tavily_search.py:166 | `strip()` gives the piece of the string left when only whitespace is removed before and after it, with no whitespace at either end; it is empty exactly when the string is all whitespace |
| Text.ZeroPad | utils/data_loader.py:102 | `:04d` padding is at least four characters, ends in the digits and has only zeros before them |
| DataLoader.GeneratedIdDecodes | utils/data_loader.py:102 | a generated id is "proj-" and at least four digits that read back as i + 1 |
| DataLoader.GeneratedIdsDistinct | utils/data_loader.py:102 | different positions get different generated ids |
| DataLoader.Description | utils/data_loader.py:110-118 | the text is the base description, followed by " in " and the zip code exactly when the project has a "zip_code" |
| DataLoader.DescriptionDefaults | utils/data_loader.py:105-114 | a project with no keys reads "renovation renovation with 200 square feet using standard materials" |
| DataLoader.FormatEntry | utils/data_loader.py:95-127 | a dict with "id" and "metadata" passes unchanged; any other gets exactly id (own or generated), text and itself as metadata |
| DataLoader.FormatDataForVectorStore | utils/data_loader.py:93-129 | one output per input, in order, each the formatted entry at its position |
| DataLoader.FormatAllIdempotent | utils/data_loader.py:97-99 | formatting already formatted data changes nothing |
| DataLoader.FormatAllIdsDistinct | utils/data_loader.py:102 | two projects without an id get different ids |
| DataLoader.FirstLoadedSpec | utils/data_loader.py:51-60 | nothing is found exactly when no path loads; otherwise the data of a path that loads with none before it loading |
| DataLoader.LoadProjectData | utils/data_loader.py:19-81 | the method returns what `LoadResult` specifies |
| DataLoader.FindFirstLoaded | utils/data_loader.py:51-60 | the loop with `break` finds the first path that loads |
| DataLoader.ExplicitFileWins | utils/data_loader.py:44-58 | an explicit data file that loads non-empty data wins over the default paths |
| DataLoader.FirstDefaultWins | utils/data_loader.py:38-58 | without a data file the first default path that loads wins |
| DataLoader.EmptyFileGivesEmpty | utils/data_loader.py:74-75 | a file loading an empty list gives [] without falling back to the generator |
| DataLoader.NothingLoadedGivesEmpty | utils/data_loader.py:63-75 | no file loading and no usable generator gives [] |
| DataLoader.LoadedFormatted | utils/data_loader.py:77-79 | formatted output has as many records as the unformatted output, the i-th being the i-th loaded project formatted, each with an id and metadata |
| TavilySearch.AmountAt | backend/tavily_search.py:117 | a dollar amount starts with "$" and ends after its start inside the text |
| TavilySearch.MatchAt | backend/tavily_search.py:117 | a match of the pattern starts with "$" and ends after its start inside the text |
| TavilySearch.ScanBounds | backend/tavily_search.py:120 | every span found lies inside the text, after the scan's start |
| TavilySearch.ScanMatches | backend/tavily_search.py:120 | every span found is a match of the pattern |
| TavilySearch.ScanOrdered | backend/tavily_search.py:120 | the spans come left to right without overlap |
| TavilySearch.ScanComplete | backend/tavily_search.py:120 | no match starts at a position the spans leave uncovered |
| TavilySearch.Spans | backend/tavily_search.py:120 | every span lies inside the text |
| TavilySearch.SpansSpec | backend/tavily_search.py:117-120 | `re.findall`: matches left to right, non-overlapping, each a match, none missed |
| TavilySearch.ExtractedRangesAreDollarAmounts | backend/tavily_search.py:117-122 | every extracted range begins with "$" and occurs in the text |
| TavilySearch.NoDollarNoRanges | backend/tavily_search.py:117-122 | a text without "$" yields no ranges |
| TavilySearch.RangeWithToIsOneMatch | backend/tavily_search.py:116-117 | "$30,000 to $90,000" is one match |
| TavilySearch.RangeWithDashIsOneMatch | backend/tavily_search.py:116-117 | "$30k-$90k" is one match |
| Sequences.ConcatMembers | backend/tavily_search.py:96-100 | an element of the extended list comes from one of the lists, and every element of every list is in it |
| TavilySearch.AllCostRangesFromContents | backend/tavily_search.py:96-100 | every collected range begins with "$" and occurs in the content of one of the results |
| TavilySearch.NoDollarNoCostRanges | backend/tavily_search.py:96-100 | no content with "$" means no ranges |
| TavilySearch.GetRenovationCosts | backend/tavily_search.py:74-102 | the response to "current {type} renovation cost in {location} {extra}", and the concatenated ranges of every result's content, in order |
| TavilySearch.PreviewSpec | backend/tavily_search.py:166 | a preview has at most 200 characters, no newline and no surrounding whitespace, and is a piece of the first 200 characters |
| TavilySearch.TopSourcesOf | backend/tavily_search.py:161-168 | one source for each of the first min(3, n) results |
| TavilySearch.TopSources | backend/tavily_search.py:161-168 | the loop builds exactly the top sources: title defaulting to "Untitled", url to "", and the preview |
| TavilySearch.ExtraContextSpec | backend/tavily_search.py:142-146 | empty exactly when neither size nor quality is truthy; otherwise exactly the truthy parts, the size part before the quality part |
| TavilySearch.BuildExtraContext | backend/tavily_search.py:142-146 | the `+=` steps build the extra context |
| TavilySearch.GetCostSummary | backend/tavily_search.py:124-170 | the summary's query, first ten ranges, found flag, source count (0 without a response) and top three sources |
| TavilySearch.SearchRenovationCosts | backend/tavily_search.py:182-205 | unavailable: the error message, no costs found, no ranges, no sources; available: the cost summary |
| TavilySearch.SummaryRangesFromContents | backend/tavily_search.py:152-158 | at most ten ranges; costs found exactly when a range is reported; each is a "$" amount from a result's content |
| TavilySearch.SummaryWithoutDollarFindsNothing | backend/tavily_search.py:154-155 | no "$" in any content means no costs found and no ranges |
| LangsmithExample.BaseWeeks | scripts/langsmith_example.py:39-43 | 4, 8 and 12 exactly for lower-cased "simple", "moderate" and "complex", otherwise 6 |
| LangsmithExample.EstimateTimeline | scripts/langsmith_example.py:30-48 | the extra weeks e over the base satisfy 100e <= square_feet < 100(e + 1), which is floor division |
| LangsmithExample.TimelineMonotone | scripts/langsmith_example.py:46-48 | a larger area never shortens the timeline |
| LangsmithExample.SmallAreaIsBase | scripts/langsmith_example.py:46-48 | under 100 square feet the timeline is the base |
| LangsmithExample.TimelineIgnoresCase | scripts/langsmith_example.py:43 | the complexity is compared without regard to case |
| LangsmithExample.CostAdditive | scripts/langsmith_example.py:21-28 | the cost is additive in the area |
| LangsmithExample.CostMonotone | scripts/langsmith_example.py:21-28 | at a non-negative rate a larger area never costs less |

## Left out

- Floating point: all arithmetic is exact on reals. `round` is half-to-even on the exact value,
  not on the binary float. `per_sqft` is rounded to cents exactly. The timeline's square root is
  stated through squares, without `math.sqrt`.
- `MockVectorStore.__init__` reads a JSON file or calls the generator; the model takes the
  records as a parameter.
- `TavilySearchProvider.__init__`, `search` and `is_available`, the Tavily client and the network
  are left out: the search is a function parameter and availability a boolean.
- Logging, `print` and `time.sleep` have no effect on results and are left out.
- Unicode: `\d`, `isdigit` and `lower()` cover only ASCII characters. Whitespace (`\s`, `strip()`)
  uses Python's full `isspace` set.
- JSON values: booleans, floats and lists are not values of the model, and `str()` of a nested
  dictionary is rendered as "{...}"; this changes description texts only for such values.
- Raw data entries that are not dictionaries are not modelled (the `isinstance` check is always
  true here).
- `load_project_data`: a file holding JSON that is not a list of dictionaries is not modelled.
  A JSON `null` counts as a failed load, because `len(None)` raises inside the `try`. The `count`
  argument only reaches the generator, which is a parameter.
- Tavily results: a "results" or "content" value that is `null`, or not a list or string, is not
  modelled.
- Tavily results: a "title" or "url" that is present but `null` (or not a string) is not modelled;
  the model's `None` stands only for a missing key, which `.get` replaces by "Untitled" or "".
- `get_cost_estimate`: a key present with a `null` value is not modelled; `None` in `ProjectDetails`
  stands for a missing key only, so the `TypeError` that a `None` ZIP code or area raises in
  `simple_estimate` does not arise.
- `similarity_search`: a record that is not a dictionary is not modelled, so the `TypeError` that
  `p["metadata"]` raises on such a record does not arise; records of the model are dictionaries.
- `similarity_search` iterates `filter.items()` in dictionary order; the model takes the keys in
  an unspecified order, and its result is proved independent of that order.
- `LangsmithExample.CalculateCost`: the product of an int and a float is exact on reals, with no
  float rounding.
