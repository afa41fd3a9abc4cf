/**
 * The evaluation runner: scores a batch of model outputs with a pluggable
 * scoring function, aggregates the scores, and keeps an append-only history
 * of results per dataset id. The dataset must exist in the registry.
 */
module Evaluation {
  import opened Wrappers
  import opened Models
  import opened Registry

  /** A value in a model-output record. */
  datatype Value = Num(number: real) | Int(integer: int) | Bool(flag: bool) | Str(text: string)

  /** One model output: a record of named values. */
  type Output = map<string, Value>

  // ---------------------------------------------------------------------------
  // The default scorer
  // ---------------------------------------------------------------------------

  /** The numeric reading of a value: ints and floats as themselves, booleans as 0 or 1, text as none. */
  function AsNumber(v: Value): (r: Option<real>)
    ensures r.None? <==> v.Str?
    ensures v.Num? ==> r == Some(v.number)
    ensures v.Int? ==> r == Some(v.integer as real)
    ensures v.Bool? ==> r == Some(if v.flag then 1.0 else 0.0)
  {
    match v
    case Num(x) => Some(x)
    case Int(n) => Some(n as real)
    case Bool(b) => Some(if b then 1.0 else 0.0)
    case Str(_) => None
  }

  function Max(a: real, b: real): (r: real) {
    if b > a then b else a
  }

  function Min(a: real, b: real): (r: real) {
    if b < a then b else a
  }

  /**
   * The score field clamped into [0, 1]; 0.5 when the field is missing or
   * not a number.
   */
  function DefaultScorer(output: Output): (r: real)
    ensures 0.0 <= r <= 1.0
    ensures "score" in output && AsNumber(output["score"]).Some? ==>
      var x := AsNumber(output["score"]).value;
      && (0.0 <= x <= 1.0 ==> r == x)
      && (x > 1.0 ==> r == 1.0)
      && (x < 0.0 ==> r == 0.0)
    ensures "score" !in output || output["score"].Str? ==> r == 0.5
  {
    var raw := if "score" in output then output["score"] else Num(0.5);
    match AsNumber(raw)
    case Some(x) => Max(0.0, Min(1.0, x))
    case None => 0.5
  }

  // ---------------------------------------------------------------------------
  // Aggregation
  // ---------------------------------------------------------------------------

  /** The scoring function applied to each output, in input order. */
  function ScoreAll(scoringFn: Output -> real, outputs: seq<Output>): (scores: seq<real>)
    ensures |scores| == |outputs|
    ensures forall i :: 0 <= i < |outputs| ==> scores[i] == scoringFn(outputs[i])
  {
    seq(|outputs|, i requires 0 <= i < |outputs| => scoringFn(outputs[i]))
  }

  /** `sum(s)`: added left to right. */
  function Sum(s: seq<real>): (r: real) {
    if s == [] then 0.0 else Sum(s[..|s| - 1]) + s[|s| - 1]
  }

  /** `min(s)`: the least element. */
  function MinOf(s: seq<real>): (r: real)
    requires |s| > 0
    ensures r in s
    ensures forall i :: 0 <= i < |s| ==> r <= s[i]
  {
    if |s| == 1 then s[0]
    else
      var m := MinOf(s[..|s| - 1]);
      assert forall i :: 0 <= i < |s| - 1 ==> s[..|s| - 1][i] == s[i];
      Min(m, s[|s| - 1])
  }

  /** `max(s)`: the greatest element. */
  function MaxOf(s: seq<real>): (r: real)
    requires |s| > 0
    ensures r in s
    ensures forall i :: 0 <= i < |s| ==> s[i] <= r
  {
    if |s| == 1 then s[0]
    else
      var m := MaxOf(s[..|s| - 1]);
      assert forall i :: 0 <= i < |s| - 1 ==> s[..|s| - 1][i] == s[i];
      Max(m, s[|s| - 1])
  }

  /** The arithmetic mean, or 0.0 for no scores (no division by zero). */
  function Mean(s: seq<real>): (r: real)
    ensures |s| == 0 ==> r == 0.0
    ensures |s| > 0 ==> r * (|s| as real) == Sum(s)
  {
    if |s| > 0 then Sum(s) / (|s| as real) else 0.0
  }

  /** Scores bounded below by `lo` and above by `hi` sum to between |s|·lo and |s|·hi. */
  lemma {:induction false} SumBounds(s: seq<real>, lo: real, hi: real)
    requires forall i :: 0 <= i < |s| ==> lo <= s[i] <= hi
    ensures (|s| as real) * lo <= Sum(s) <= (|s| as real) * hi
  {
    if s != [] {
      var init := s[..|s| - 1];
      assert forall i :: 0 <= i < |init| ==> init[i] == s[i];
      SumBounds(init, lo, hi);
      assert (|s| as real) * lo == (|init| as real) * lo + lo;
      assert (|s| as real) * hi == (|init| as real) * hi + hi;
    }
  }

  /** The mean of scores within [lo, hi] is within [lo, hi]. */
  lemma MeanBounds(s: seq<real>, lo: real, hi: real)
    requires |s| > 0
    requires forall i :: 0 <= i < |s| ==> lo <= s[i] <= hi
    ensures lo <= Mean(s) <= hi
  {
    SumBounds(s, lo, hi);
  }

  /**
   * The metrics of one run: mean, least and greatest score and the sample
   * count, all 0.0 for an empty batch; otherwise the mean lies between the
   * least and the greatest score, which are themselves scores.
   */
  function Metrics(scores: seq<real>): (m: map<string, real>)
    ensures m.Keys == {"mean_score", "min_score", "max_score", "sample_count"}
    ensures m["mean_score"] == Mean(scores)
    ensures m["sample_count"] == |scores| as real
    ensures |scores| == 0 ==> m["mean_score"] == m["min_score"] == m["max_score"] == 0.0
    ensures |scores| > 0 ==> m["min_score"] <= m["mean_score"] <= m["max_score"]
    ensures |scores| > 0 ==> m["min_score"] in scores && m["max_score"] in scores
    ensures forall i :: 0 <= i < |scores| ==> m["min_score"] <= scores[i] <= m["max_score"]
  {
    if |scores| > 0 then
      MeanBounds(scores, MinOf(scores), MaxOf(scores));
      map["mean_score" := Mean(scores), "min_score" := MinOf(scores),
          "max_score" := MaxOf(scores), "sample_count" := |scores| as real]
    else
      map["mean_score" := 0.0, "min_score" := 0.0, "max_score" := 0.0, "sample_count" := 0.0]
  }

  // ---------------------------------------------------------------------------
  // Rounding to four decimals
  // ---------------------------------------------------------------------------

  /**
   * `round(x, 4)` on exact reals: the nearest multiple of 1/10000, a tie
   * going to the even multiple.
   */
  function Round4(x: real): (r: real)
    ensures OnGrid(r)
    ensures -1.0 / 20000.0 <= r - x <= 1.0 / 20000.0
    ensures TieToEven(x, r)
    ensures 0.0 <= x <= 1.0 ==> 0.0 <= r <= 1.0
  {
    var scaled := x * 10000.0;
    var n := scaled.Floor;
    var frac := scaled - n as real;
    var k := if frac > 0.5 then n + 1
             else if frac < 0.5 then n
             else if n % 2 == 0 then n else n + 1;
    k as real / 10000.0
  }

  /** `r` has at most four decimals: it is a whole number of ten-thousandths. */
  predicate OnGrid(r: real) {
    (r * 10000.0).Floor as real == r * 10000.0
  }

  /** When `x` lies exactly halfway between two grid points, `r` is the even one. */
  predicate TieToEven(x: real, r: real) {
    (r - x == 1.0 / 20000.0 || x - r == 1.0 / 20000.0) ==> (r * 10000.0).Floor % 2 == 0
  }

  /**
   * The rounding contract fixes the result: a grid point within half a step
   * of `x`, even on a tie, can only be `Round4(x)`.
   */
  lemma Round4Unique(x: real, r: real)
    requires OnGrid(r) && -1.0 / 20000.0 <= r - x <= 1.0 / 20000.0 && TieToEven(x, r)
    ensures r == Round4(x)
  {
    var k1, k2 := (r * 10000.0).Floor, (Round4(x) * 10000.0).Floor;
    assert -1 <= k1 - k2 <= 1;
    if k1 != k2 {
      assert false;
    }
  }

  /** A value that already has at most four decimals is left as it is. */
  lemma Round4Exact(k: int)
    ensures Round4(k as real / 10000.0) == k as real / 10000.0
  {
    var scaled := (k as real / 10000.0) * 10000.0;
    assert scaled == k as real;
    assert scaled.Floor == k;
  }

  /** Rounding twice is rounding once. */
  lemma Round4Idempotent(x: real)
    ensures Round4(Round4(x)) == Round4(x)
  {
    var scaled := x * 10000.0;
    var n := scaled.Floor;
    var frac := scaled - n as real;
    var k := if frac > 0.5 then n + 1
             else if frac < 0.5 then n
             else if n % 2 == 0 then n else n + 1;
    assert Round4(x) == k as real / 10000.0;
    Round4Exact(k);
  }

  // ---------------------------------------------------------------------------
  // The runner
  // ---------------------------------------------------------------------------

  /** Why an evaluation did not produce a result. */
  datatype EvaluateError =
    | NotFound(notFound: DatasetNotFoundError)
    | Invalid(invalid: ValidationError)

  /** The history of `datasetId` in `results`: empty if it was never evaluated. */
  function History(results: map<string, seq<EvaluationResult>>, datasetId: string)
    : (r: seq<EvaluationResult>)
  {
    if datasetId in results then results[datasetId] else []
  }

  /** The result an evaluation builds before validation. */
  function Candidate(datasetId: string, modelName: string, scores: seq<real>, evaluatedAt: Timestamp)
    : (r: EvaluationResult)
  {
    EvaluationResult(
      datasetId := datasetId,
      modelName := modelName,
      score := Round4(Mean(scores)),
      metrics := Metrics(scores),
      evaluatedAt := evaluatedAt)
  }

  class EvaluationRunner {
    const registry: DatasetRegistry
    const scoringFn: Output -> real
    var results: map<string, seq<EvaluationResult>>

    /** Every stored history is non-empty and holds valid results for its own dataset id. */
    ghost predicate Valid()
      reads this
    {
      forall id :: id in results ==>
        && |results[id]| > 0
        && forall k :: 0 <= k < |results[id]| ==> results[id][k].datasetId == id && results[id][k].Valid()
    }

    /** A runner over `registry`, scoring with `scoringFn` or, when none is given, the default scorer. */
    constructor (registry: DatasetRegistry, scoringFn: Option<Output -> real> := None)
      ensures Valid()
      ensures this.registry == registry && results == map[]
      ensures this.scoringFn == if scoringFn.Some? then scoringFn.value else DefaultScorer
    {
      this.registry := registry;
      var f: Output -> real := if scoringFn.Some? then scoringFn.value else DefaultScorer;
      this.scoringFn := f;
      results := map[];
    }

    /**
     * Fails with the not-found error, changing nothing, when the dataset id
     * was never registered. Otherwise scores every output, builds a result
     * with the rounded mean and the metrics, and appends it to the end of
     * that id's history, other histories unchanged; a rounded mean outside
     * [0, 1] fails validation before anything is appended.
     */
    method Evaluate(datasetId: string, modelOutputs: seq<Output>, evaluatedAt: Timestamp,
                    modelName: string := "unknown")
      returns (r: Result<EvaluationResult, EvaluateError>)
      requires Valid() && registry.Valid()
      modifies this
      ensures Valid()
      ensures datasetId !in registry.order ==> r == Err(NotFound(DatasetNotFoundError(datasetId)))
      ensures datasetId in registry.order ==>
        var c := Candidate(datasetId, modelName, ScoreAll(scoringFn, modelOutputs), evaluatedAt);
        r == if c.Valid() then Ok(c) else Err(Invalid(ValidationError(["score"])))
      ensures r.Ok? ==> results == old(results)[datasetId := History(old(results), datasetId) + [r.value]]
      ensures r.Err? ==> results == old(results)
    {
      var found := registry.Get(datasetId);
      if found.Err? {
        return Err(NotFound(found.error));
      }
      var scores: seq<real>;
      if |modelOutputs| == 0 {
        scores := [];
      } else {
        scores := ScoreAll(scoringFn, modelOutputs);
      }
      var result := Candidate(datasetId, modelName, scores, evaluatedAt);
      var checked := result.Validate();
      if checked.Err? {
        return Err(Invalid(checked.error));
      }
      results := results[datasetId := History(results, datasetId) + [result]];
      r := Ok(result);
    }

    /** The results recorded for `datasetId`, oldest first; empty if it was never evaluated. */
    function GetResults(datasetId: string): (r: seq<EvaluationResult>)
      reads this
      requires Valid()
      ensures datasetId !in results ==> r == []
      ensures datasetId in results ==> r == results[datasetId] && |r| > 0
      ensures forall k :: 0 <= k < |r| ==> r[k].datasetId == datasetId && r[k].Valid()
    {
      History(results, datasetId)
    }
  }

  // ---------------------------------------------------------------------------
  // Properties of the aggregation
  // ---------------------------------------------------------------------------

  /** A scorer whose scores lie in [0, 1] always yields a valid result. */
  lemma UnitScorerValid(scoringFn: Output -> real, outputs: seq<Output>, datasetId: string,
                        modelName: string, evaluatedAt: Timestamp)
    requires forall o :: 0.0 <= scoringFn(o) <= 1.0
    ensures Candidate(datasetId, modelName, ScoreAll(scoringFn, outputs), evaluatedAt).Valid()
  {
    var scores := ScoreAll(scoringFn, outputs);
    if |scores| > 0 {
      MeanBounds(scores, 0.0, 1.0);
    }
  }

  /** With the default scorer an evaluation of a registered dataset never fails validation. */
  lemma DefaultScorerValid(outputs: seq<Output>, datasetId: string, modelName: string, evaluatedAt: Timestamp)
    ensures Candidate(datasetId, modelName, ScoreAll(DefaultScorer, outputs), evaluatedAt).Valid()
  {
    UnitScorerValid(DefaultScorer, outputs, datasetId, modelName, evaluatedAt);
  }

  /** A scorer returning the same value `c` for every output gives mean, min and max `c`. */
  lemma ConstantScorer(scoringFn: Output -> real, c: real, outputs: seq<Output>)
    requires |outputs| > 0
    requires forall o :: scoringFn(o) == c
    ensures var m := Metrics(ScoreAll(scoringFn, outputs));
      m["mean_score"] == m["min_score"] == m["max_score"] == c
  {
    var scores := ScoreAll(scoringFn, outputs);
    MeanBounds(scores, c, c);
  }

  /**
   * Scores are not clamped on the way into the result: a scorer that always
   * returns a value whose rounding leaves [0, 1] makes every non-empty
   * evaluation fail validation.
   */
  lemma OutOfRangeScorerInvalid(scoringFn: Output -> real, c: real, outputs: seq<Output>,
                                datasetId: string, modelName: string, evaluatedAt: Timestamp)
    requires |outputs| > 0
    requires forall o :: scoringFn(o) == c
    requires c > 1.0 + 1.0 / 20000.0 || c < -1.0 / 20000.0
    ensures !Candidate(datasetId, modelName, ScoreAll(scoringFn, outputs), evaluatedAt).Valid()
  {
    ConstantScorer(scoringFn, c, outputs);
  }
}
