/**
 * Clients of the registry and the runner, following the repository's test
 * scenarios: what a caller can conclude from the contracts alone.
 */
module Scenarios {
  import opened Wrappers
  import opened Models
  import opened Registry
  import opened Evaluation

  function SafetyPrompts(): AlignmentDataset {
    AlignmentDataset("ds-001", "Safety Prompts v1",
      "A dataset of safety-related prompts for alignment evaluation.",
      "safety", 500, "jsonl", "CC-BY-4.0", ["safety", "harmlessness", "prompts"],
      qualityScore := 0.85)
  }

  function HelpfulnessEval(): AlignmentDataset {
    AlignmentDataset("ds-002", "Helpfulness Eval",
      "Evaluations for helpfulness across diverse tasks.",
      "helpfulness", 1000, "json", "MIT", ["helpfulness", "eval"],
      qualityScore := 0.95)
  }

  function RoughDrafts(): AlignmentDataset {
    AlignmentDataset("ds-003", "Rough Drafts",
      "Unverified community-contributed examples.",
      "safety", 200, "csv", "CC0", ["community"],
      qualityScore := 0.30)
  }

  /** Registration and lookup: a registered id is found, an unknown one is reported. */
  method RegistryScenario() {
    var reg := new DatasetRegistry();
    reg.Register(SafetyPrompts());
    reg.Register(HelpfulnessEval());
    assert reg.Get("ds-001") == Ok(SafetyPrompts());
    assert reg.Get("nonexistent-id").Err?;
  }

  /** A download is counted, an unknown id is ignored, and re-registration keeps the count. */
  method DownloadScenario() {
    var reg := new DatasetRegistry();
    reg.Register(SafetyPrompts());
    reg.IncrementDownloads("ds-001");
    reg.IncrementDownloads("missing-id");
    reg.Register(SafetyPrompts());
    assert reg.listings["ds-001"].downloads == 1;
  }

  /** The quality threshold keeps the low-quality dataset out of a blank search. */
  method SearchScenario() {
    var reg := new DatasetRegistry();
    reg.Register(HelpfulnessEval());
    reg.Register(RoughDrafts());
    var found := reg.Search("", minQuality := 0.5);
    var good, rough := reg.listings["ds-002"], reg.listings["ds-003"];
    assert good.dataset == HelpfulnessEval() && rough.dataset == RoughDrafts();
    assert NormalizeQuery("") == [];
    assert !Matches(rough.dataset, [], None, 0.5);
    assert Matches(good.dataset, [], None, 0.5);
    assert good in reg.listings.Values;
    assert rough !in found;
    assert good in found;
  }

  /** An empty batch scores 0.0 with a zero sample count, and is recorded. */
  method EmptyBatchScenario() {
    var reg := new DatasetRegistry();
    reg.Register(SafetyPrompts());
    var runner := new EvaluationRunner(reg);

    var empty := runner.Evaluate("ds-001", [], 0, "empty-model");
    DefaultScorerValid([], "ds-001", "empty-model", 0);
    assert empty.Ok? && empty.value.score == 0.0;
    assert empty.value.metrics["sample_count"] == 0.0;
    assert runner.GetResults("ds-001") == [empty.value];
  }

  /** An unknown dataset is reported and no history is created for it. */
  method UnknownDatasetScenario() {
    var reg := new DatasetRegistry();
    reg.Register(SafetyPrompts());
    var runner := new EvaluationRunner(reg);

    var missing := runner.Evaluate("nonexistent", [map["score" := Num(0.5)]], 1);
    assert missing == Err(NotFound(DatasetNotFoundError("nonexistent")));
    assert runner.GetResults("nonexistent") == [];
    assert runner.GetResults("ds-001") == [];
  }

  function HarmlessnessOutputs(): seq<Output> {
    [map["score" := Num(0.95), "response" := Str("I cannot help with that request.")],
     map["score" := Num(0.88), "response" := Str("Here is a safe response.")],
     map["score" := Num(0.72), "response" := Str("I'll try to be careful here.")],
     map["score" := Num(0.99), "response" := Str("Refusing as this could cause harm.")],
     map["score" := Num(0.85), "response" := Str("I'll answer in a helpful and safe way.")]]
  }

  /** The default scorer reads each demo output's score unchanged. */
  lemma HarmlessnessScores()
    ensures ScoreAll(DefaultScorer, HarmlessnessOutputs()) == [0.95, 0.88, 0.72, 0.99, 0.85]
  {
    var outs := HarmlessnessOutputs();
    forall i | 0 <= i < 5 ensures DefaultScorer(outs[i]) == [0.95, 0.88, 0.72, 0.99, 0.85][i] {
      assert AsNumber(outs[i]["score"]).Some?;
    }
  }

  /** The demo scores average to 0.878. */
  lemma HarmlessnessMean()
    ensures Mean([0.95, 0.88, 0.72, 0.99, 0.85]) == 0.878
  {
    var s1, s2, s3, s4 := [0.95], [0.95, 0.88], [0.95, 0.88, 0.72], [0.95, 0.88, 0.72, 0.99];
    assert [0.95, 0.88, 0.72, 0.99, 0.85][..4] == s4;
    assert s4[..3] == s3 && s3[..2] == s2 && s2[..1] == s1 && s1[..0] == [];
    assert Sum(s2) == 1.83;
    assert Sum(s4) == 3.54;
    assert Sum([0.95, 0.88, 0.72, 0.99, 0.85]) == 4.39;
  }

  /** The least and greatest demo scores are 0.72 and 0.99. */
  lemma HarmlessnessExtremes()
    ensures Metrics([0.95, 0.88, 0.72, 0.99, 0.85])["min_score"] == 0.72
    ensures Metrics([0.95, 0.88, 0.72, 0.99, 0.85])["max_score"] == 0.99
  {
    var scores := [0.95, 0.88, 0.72, 0.99, 0.85];
    var m := Metrics(scores);
    assert forall x :: x in scores ==> 0.72 <= x <= 0.99;
    assert m["min_score"] <= scores[2] && scores[3] <= m["max_score"];
  }

  /** Five scored outputs under the default scorer: score 0.878, least 0.72, greatest 0.99. */
  lemma HarmlessnessMetrics()
    ensures var scores := ScoreAll(DefaultScorer, HarmlessnessOutputs());
      && Round4(Mean(scores)) == 0.878
      && Metrics(scores)["min_score"] == 0.72
      && Metrics(scores)["max_score"] == 0.99
  {
    HarmlessnessScores();
    HarmlessnessMean();
    HarmlessnessExtremes();
    Round4Exact(8780);
    assert 8780 as real / 10000.0 == 0.878;
  }

  /** The same batch through a runner: the result carries the rounded mean and is appended. */
  method HarmlessnessScenario() {
    var reg := new DatasetRegistry();
    var d := AlignmentDataset("harmlessness-v1", "Harmlessness Evaluation Suite",
      "Tests whether models refuse harmful or dangerous requests.", "harmlessness",
      300, "jsonl", "Apache-2.0", ["harmlessness", "safety", "refusal"], qualityScore := 0.93);
    reg.Register(d);
    var runner := new EvaluationRunner(reg);
    var outs := HarmlessnessOutputs();
    var r := runner.Evaluate("harmlessness-v1", outs, 0, "safety-model-v2");
    var c := Candidate("harmlessness-v1", "safety-model-v2", ScoreAll(DefaultScorer, outs), 0);
    HarmlessnessMetrics();
    assert c.score == 0.878 && c.Valid();
    assert r == Ok(c);
    assert c.metrics["sample_count"] == 5.0;
    assert runner.GetResults("harmlessness-v1") == [c];
  }
}
