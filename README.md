# aumai-alignment: dataset registry and evaluation runner, in Dafny

This project models the core of aumai-alignment, a small in-memory marketplace
for alignment datasets plus an evaluator. It has two parts.

- **The registry** (`DatasetRegistry`) stores one dataset record and one
  marketplace listing per dataset id. It offers `register`, `get`,
  `increment_downloads` and `search`. Search is a filter on quality, category
  and a literal text query, followed by a sort on descending quality.
- **The evaluation runner** (`EvaluationRunner`) checks that the dataset is
  registered. It then scores each model output with a pluggable scoring
  function (by default the clamping `_default_scorer`), aggregates mean, min,
  max and sample count, rounds the mean to four decimals, and appends the
  result to that dataset's history.

Files:

- `wrappers.dfy`: `Option` and `Result`.
- `text.dfy`: the string operations the search uses. These are `lower()` (on
  ASCII letters), `strip()` (with Python's whitespace set), `" ".join` and the
  literal leftmost match that `re.search(re.escape(q), s)` performs.
- `models.dfy`: the three records as datatypes, with the source's defaults as
  constructor defaults. Each has a `Valid()` predicate for its field bounds and
  a `Validate()` function that accepts or rejects a record, as construction
  does in the source.
- `registry.dfy`: the specification of a search (`Matches`, `Selected`, the
  stable sort `SortByQuality`) with its lemmas, and the class
  `DatasetRegistry`. The class has fields `datasets`, `listings` and `order`.
  `order` lists the ids in first-registration order, which is the iteration
  order of the source's dict.
- `evaluation.dfy`: the default scorer, the aggregation (`Sum`, `MinOf`,
  `MaxOf`, `Mean`, `Metrics`), `Round4`, and the class `EvaluationRunner`.
  The class has the injected `scoringFn` and the `results` history map.
- `scenarios.dfy`: client methods and lemmas that replay some of the
  repository's test and demo scenarios against the modelled operations.

Modelling choices:

- Scores and quality values are `real`. `round(x, 4)` is modelled as rounding
  an exact real to the nearest multiple of 1/10000, with a tie going to the
  even multiple.
- A model output is a `map<string, Value>`, where `Value` is
  `Num | Int | Bool | Str`. Booleans count as numbers (0 or 1), as Python's
  `isinstance(x, (int, float))` does.
- The clock reading `evaluated_at` is a parameter of `Evaluate`.
- `get` and `get_results` are functions. `register`, `increment_downloads` and
  `evaluate` are methods that update the object's maps. `search` is a method.
  Its loop, with the source's `continue` branches, is the method
  `ScanListings` over the registry's ids and listings. The in-place
  `list.sort` is the pure function `SortByQuality`.
- Ties in `search` come out in first-registration order. Python's sort is
  stable also with `reverse=True`, and a re-registered id keeps its dict
  position. `SortStable` proves this.
- `Register` requires `d.Valid()`. In the source a dataset record is validated
  on construction (models.py:23, 28); records changed after construction are
  covered under "Left out".
- An out-of-range custom score makes the evaluation fail. `round(aggregate_score, 4)`
  goes unclamped into `EvaluationResult(score=...)`, whose bound `ge=0.0, le=1.0`
  (models.py:36; core.py:174-180) rejects a custom scorer's out-of-range mean.
  `Evaluate` returns `Err(Invalid(...))` and appends nothing
  (`OutOfRangeScorerInvalid`).

## Model

| member | source | states |
|---|---|---|
| `Models.AlignmentDataset.Validate` | src/aumai_alignment/models.py:16-28 | a dataset is accepted exactly when size >= 0 and 0 <= quality_score <= 1; a rejection names size exactly when size < 0 and quality_score exactly when it is outside [0, 1], and no other field |
| `Models.MarketplaceListing.Validate` | src/aumai_alignment/models.py:41-47 | a listing is accepted exactly when downloads >= 0, reviews >= 0 and 0 <= rating <= 5; a rejection names downloads, rating and reviews each exactly when that field is out of bounds, and no other field |
| `Models.EvaluationResult.Validate` | src/aumai_alignment/models.py:31-38 | a result is accepted exactly when 0 <= score <= 1, otherwise rejected on field "score" |
| `Models.DatasetDefaults` | src/aumai_alignment/models.py:26-27 | a dataset built without tags or download URL has tags = [] and download_url = None |
| `Models.ListingDefaults` | src/aumai_alignment/models.py:45-47 | a listing built from a dataset alone has downloads = 0, rating = 0.0, reviews = 0 and passes validation |
| `Text.Strip` | src/aumai_alignment/core.py:63 | the stripped query is a contiguous slice of the query with only whitespace before and after it; it neither starts nor ends with whitespace, and is empty exactly when the query is all whitespace |
| `Text.Find` | src/aumai_alignment/core.py:76 | the escaped-pattern search returns the leftmost offset where the query occurs literally, or none when it occurs nowhere |
| `Text.FindIff` | src/aumai_alignment/core.py:76 | the search finds a match exactly when the query is a literal substring (`s[i..i+|q|] == q` for some i) |
| `Text.JoinContainsParts` | src/aumai_alignment/core.py:73-75 | each of name, description and tags occurs as a substring of their space-joined text |
| `Text.SubstringLower` | src/aumai_alignment/core.py:73-76 | a substring stays a substring after both strings are lower-cased |
| `Registry.MatchesIff` | src/aumai_alignment/core.py:63-78 | a dataset passes the filters iff quality_score >= min_quality (equality included), the category is absent or equal ignoring case, and the query is blank or a literal substring of the lower-cased joined text |
| `Registry.FieldHit` | src/aumai_alignment/core.py:72-77 | a query found in the lower-cased name, description or any tag is found in the searchable text |
| `Registry.SelectedStep` | src/aumai_alignment/core.py:66-78 | scanning one more id appends that id's listing exactly when it passes the filters, and nothing otherwise |
| `Registry.SelectedMembers` | src/aumai_alignment/core.py:66-78 | a listing is collected by the scan exactly when it is stored under a scanned id and passes the filters |
| `Registry.SelectedDistinct` | src/aumai_alignment/core.py:66-78 | scanning distinct ids whose listings carry their own ids collects no listing twice |
| `Registry.InsertPermutes` | src/aumai_alignment/core.py:80 | one insertion step of the sort adds exactly the inserted listing (multiset) |
| `Registry.InsertSorted` | src/aumai_alignment/core.py:80 | an insertion step keeps a sequence sorted by non-increasing quality |
| `Registry.SortByQuality` | src/aumai_alignment/core.py:80 | the sorted results are a permutation of the collected listings and are in non-increasing quality order |
| `Registry.SortStable` | src/aumai_alignment/core.py:80 | listings of equal quality keep their collection order (the sort is stable) |
| `Registry.SearchResult` | src/aumai_alignment/core.py:64-81 | the sorted selection holds each listing of the store that passes the filters, exactly once, and nothing else |
| `Registry.ScanListings` | src/aumai_alignment/core.py:66-78 | the filtering loop returns exactly the listings of the scanned ids, in id order, that pass the quality, category and text filters (`Selected`) |
| `Registry.DatasetRegistry.constructor` | src/aumai_alignment/core.py:25-27 | a new registry is consistent and holds no datasets, listings or ids |
| `Registry.DatasetRegistry.Register` | src/aumai_alignment/core.py:29-45 | stores d under its id; a new id gets a listing with downloads = rating = reviews = 0 and is appended to the id order; a known id keeps downloads, rating, reviews and its position, with the listing now wrapping d; all other ids unchanged; afterwards get(id) returns d; datasets and listings keep the same keys, each listing wrapping its id's dataset |
| `Registry.DatasetRegistry.Get` | src/aumai_alignment/core.py:83-98 | returns the stored dataset (carrying the requested id) exactly when the id was registered, else DatasetNotFoundError(id); reads state only |
| `Registry.DatasetRegistry.IncrementDownloads` | src/aumai_alignment/core.py:100-113 | on a known id raises that listing's downloads by exactly 1, leaving its dataset, rating, reviews and all other state unchanged; on an unknown id changes nothing |
| `Registry.DatasetRegistry.Search` | src/aumai_alignment/core.py:47-81 | the result is the stable descending-quality sort of the listings passing the three filters, scanned in registration order; it is sorted, has no repeats, contains a listing iff it is stored and passes the filters; the registry is not modified |
| `Evaluation.AsNumber` | src/aumai_alignment/core.py:122-123 | a value is numeric unless it is text; a float reads as itself, an int as its real value, booleans as 1.0 and 0.0 |
| `Evaluation.DefaultScorer` | src/aumai_alignment/core.py:119-124 | the result lies in [0, 1]; a numeric score x gives x inside [0, 1], 1 above, 0 below; a missing or non-numeric score gives 0.5 |
| `Evaluation.ScoreAll` | src/aumai_alignment/core.py:160-163 | one score per output, in input order; an empty batch gives no scores |
| `Evaluation.MinOf` | src/aumai_alignment/core.py:169 | the minimum is one of the scores and no score is below it |
| `Evaluation.MaxOf` | src/aumai_alignment/core.py:170 | the maximum is one of the scores and no score is above it |
| `Evaluation.Mean` | src/aumai_alignment/core.py:165 | mean times count equals the sum for a non-empty batch; 0.0 for an empty one |
| `Evaluation.SumBounds` | src/aumai_alignment/core.py:165 | scores within [lo, hi] sum to between count*lo and count*hi |
| `Evaluation.MeanBounds` | src/aumai_alignment/core.py:165 | the mean of a non-empty batch of scores within [lo, hi] lies within [lo, hi] (an empty batch has mean 0.0) |
| `Evaluation.Metrics` | src/aumai_alignment/core.py:167-172 | exactly the keys mean_score, min_score, max_score, sample_count; sample_count = number of scores; an empty batch gives zeros; otherwise min <= mean <= max, min and max are scores and bound every score |
| `Evaluation.Round4` | src/aumai_alignment/core.py:177 | the rounded score has at most four decimals (a whole number of ten-thousandths), is within 1/20000 of the mean, is the even grid point on a tie, and stays in [0, 1] when the mean is in [0, 1] |
| `Evaluation.Round4Unique` | src/aumai_alignment/core.py:177 | any four-decimal value within 1/20000 of x that is even on a tie equals the rounding of x, so the contract of `Round4` determines its result |
| `Evaluation.Round4Exact` | src/aumai_alignment/core.py:177 | a value with at most four decimals is unchanged by rounding |
| `Evaluation.Round4Idempotent` | src/aumai_alignment/core.py:177 | rounding twice equals rounding once |
| `Evaluation.EvaluationRunner.constructor` | src/aumai_alignment/core.py:130-137 | a new runner has an empty history and scores with the given function, or with the default scorer when none is given |
| `Evaluation.EvaluationRunner.Evaluate` | src/aumai_alignment/core.py:139-183 | an unregistered id gives DatasetNotFoundError and no history change; otherwise the result carries the given id and model name, the rounded mean and the metrics, and is appended at the end of that id's history, other histories unchanged; a rounded mean outside [0, 1] fails validation before the append |
| `Evaluation.EvaluationRunner.GetResults` | src/aumai_alignment/core.py:185-194 | the history of an id never evaluated is empty; for an evaluated id it is exactly the stored, non-empty history; every stored result belongs to the requested id and is valid |
| `Evaluation.UnitScorerValid` | src/aumai_alignment/core.py:163-180 | a scorer with values in [0, 1] always produces a result that passes validation |
| `Evaluation.DefaultScorerValid` | src/aumai_alignment/core.py:136 | with the default scorer, evaluating a registered dataset never fails validation |
| `Evaluation.ConstantScorer` | src/aumai_alignment/core.py:163-172 | a scorer returning c for every output gives mean = min = max = c on a non-empty batch (an empty batch gives zeros) |
| `Evaluation.OutOfRangeScorerInvalid` | src/aumai_alignment/core.py:174-180 | a constant scorer whose value rounds outside [0, 1] makes every non-empty evaluation fail validation |
| `Scenarios.HarmlessnessScores` | examples/quickstart.py:124-131 | the default scorer reads the five demo scores 0.95, 0.88, 0.72, 0.99, 0.85 unchanged |
| `Scenarios.HarmlessnessMetrics` | examples/quickstart.py:124-136 | the five demo outputs under the default scorer give score 0.878, min 0.72 and max 0.99 |

## Left out

- The CLI (`src/aumai_alignment/cli.py`) and the HTTP layer (`src/aumai_alignment/api.py`) are not part of this model. They handle argument parsing, JSON/YAML loading, routing, the 404 mapping and the module-level singletons.
- Timestamps: `evaluated_at` comes from the clock in the source. Here it is a parameter of `Evaluate`.
- Evaluation.Round4: the rounding is stated over exact reals, not IEEE doubles. Python's `round` on a binary double can differ at a tie, and `float()` conversion is not modelled.
- Text.Lower: only ASCII letters are lower-cased; `str.lower()` also folds non-ASCII letters.
- Pydantic machinery (`model_validate`, `model_dump`, re-validation settings) is left out. Field bounds are the `Valid()` predicates and construction is `Validate()`.
- `DatasetNotFoundError` being a subclass of `KeyError`, and its message text, are not modelled.
- Registry.DatasetRegistry.Register: records are taken as validated. In the source, fields are not re-validated on assignment and `model_construct` skips validation, so an out-of-bounds record changed after construction can be registered. The model's `requires d.Valid()` excludes that input.
- Registry.DatasetRegistry.Get: records and listings are values here. The source stores the caller's mutable objects by reference, and `get` and `search` return those same objects. So a change made after `register` to a registered record, or to an object that `get` or `search` returned, is not modelled. In the source such a change alters later search results without any registry call, and can break the consistency that `Valid()` states: the id under which a record is stored and its field bounds.
- Registry.DatasetRegistry.Search: the in-place Timsort of the result list is modelled as a pure stable insertion sort on a sequence value. It has the same output, but in-place mutation of the list is not modelled.
- Evaluation.EvaluationRunner.GetResults: returns a sequence value. The source returns the live internal list, so a caller's mutation of that list is not modelled.
- NaN quality scores or thresholds, where float comparisons behave differently, are not modelled.
