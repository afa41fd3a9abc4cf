/**
 * The three records of the marketplace: a dataset, the listing that wraps
 * it, and the result of one evaluation run. Field bounds that the source
 * enforces on construction become `Valid()` predicates; construction itself,
 * which rejects out-of-bound values, is `Validate()`, returning the names of
 * the offending fields on failure.
 */
module Models {
  import opened Wrappers

  /** A clock reading, supplied by the caller (the model has no clock). */
  type Timestamp = int

  /** The names of the fields that failed validation, in declaration order. */
  datatype ValidationError = ValidationError(fields: seq<string>)

  datatype AlignmentDataset = AlignmentDataset(
    datasetId: string,
    name: string,
    description: string,
    category: string,
    size: int,
    format: string,
    license: string,
    tags: seq<string> := [],
    downloadUrl: Option<string> := None,
    nameonly qualityScore: real)
  {
    /** `size` is a non-negative count and `qualityScore` lies in [0, 1]. */
    predicate Valid() {
      size >= 0 && 0.0 <= qualityScore <= 1.0
    }

    function Validate(): (r: Result<AlignmentDataset, ValidationError>)
      ensures r.Ok? <==> Valid()
      ensures r.Ok? ==> r.value == this
      ensures r.Err? ==> ("size" in r.error.fields <==> size < 0)
      ensures r.Err? ==> ("quality_score" in r.error.fields <==> !(0.0 <= qualityScore <= 1.0))
      ensures r.Err? ==> forall f :: f in r.error.fields ==> f == "size" || f == "quality_score"
    {
      var bad := (if size >= 0 then [] else ["size"])
        + (if 0.0 <= qualityScore <= 1.0 then [] else ["quality_score"]);
      if bad == [] then Ok(this) else Err(ValidationError(bad))
    }
  }

  /** Marketplace state around one dataset. */
  datatype MarketplaceListing = MarketplaceListing(
    dataset: AlignmentDataset,
    downloads: int := 0,
    rating: real := 0.0,
    reviews: int := 0)
  {
    /** Counters are non-negative and the rating lies in [0, 5]. */
    predicate Valid() {
      downloads >= 0 && 0.0 <= rating <= 5.0 && reviews >= 0
    }

    function Validate(): (r: Result<MarketplaceListing, ValidationError>)
      ensures r.Ok? <==> Valid()
      ensures r.Ok? ==> r.value == this
      ensures r.Err? ==> ("downloads" in r.error.fields <==> downloads < 0)
      ensures r.Err? ==> ("rating" in r.error.fields <==> !(0.0 <= rating <= 5.0))
      ensures r.Err? ==> ("reviews" in r.error.fields <==> reviews < 0)
      ensures r.Err? ==> forall f :: f in r.error.fields ==> f == "downloads" || f == "rating" || f == "reviews"
    {
      var bad := (if downloads >= 0 then [] else ["downloads"])
        + (if 0.0 <= rating <= 5.0 then [] else ["rating"])
        + (if reviews >= 0 then [] else ["reviews"]);
      if bad == [] then Ok(this) else Err(ValidationError(bad))
    }
  }

  datatype EvaluationResult = EvaluationResult(
    datasetId: string,
    modelName: string,
    score: real,
    metrics: map<string, real> := map[],
    evaluatedAt: Timestamp)
  {
    /** The headline score lies in [0, 1]. */
    predicate Valid() {
      0.0 <= score <= 1.0
    }

    function Validate(): (r: Result<EvaluationResult, ValidationError>)
      ensures r.Ok? <==> Valid()
      ensures r.Ok? ==> r.value == this
      ensures r.Err? ==> r.error.fields == ["score"]
    {
      if Valid() then Ok(this) else Err(ValidationError(["score"]))
    }
  }

  /** A dataset built with only its required fields has no tags and no download location. */
  lemma DatasetDefaults(id: string, name: string, description: string, category: string,
                        size: int, format: string, license: string, quality: real)
    ensures var d := AlignmentDataset(id, name, description, category, size, format, license, qualityScore := quality);
      d.tags == [] && d.downloadUrl == None
  {
  }

  /** A listing built from a dataset alone starts with zero downloads, rating and reviews, and is valid. */
  lemma ListingDefaults(d: AlignmentDataset)
    ensures var l := MarketplaceListing(d);
      l.downloads == 0 && l.rating == 0.0 && l.reviews == 0 && l.Validate() == Ok(l)
  {
  }
}
