/**
 * The dataset registry: an in-memory store of datasets and the marketplace
 * listings that wrap them, keyed by dataset id, with a filtered and sorted
 * search over the listings.
 */
module Registry {
  import opened Wrappers
  import opened Text
  import opened Models

  /** Raised by a lookup of an id that was never registered. */
  datatype DatasetNotFoundError = DatasetNotFoundError(datasetId: string)

  // ---------------------------------------------------------------------------
  // What a search selects
  // ---------------------------------------------------------------------------

  /** Name, description and tags joined by single spaces, lower-cased. */
  function SearchableText(d: AlignmentDataset): (r: string) {
    Lower(JoinWithSpace([d.name, d.description] + d.tags))
  }

  /** The query as the search uses it: lower-cased, then stripped of surrounding whitespace. */
  function NormalizeQuery(query: string): (r: string) {
    Strip(Lower(query))
  }

  /** The three filters of a search, applied to one dataset, with `q` already normalized. */
  predicate Matches(d: AlignmentDataset, q: string, category: Option<string>, minQuality: real) {
    && !(d.qualityScore < minQuality)
    && (category.None? || Lower(d.category) == Lower(category.value))
    && (q == [] || Find(SearchableText(d), q).Some?)
  }

  /** Lower-casing neither creates nor removes whitespace. */
  lemma AllSpaceLower(s: string)
    ensures AllSpace(Lower(s)) <==> AllSpace(s)
  {
    if AllSpace(Lower(s)) {
      forall i | 0 <= i < |s| ensures IsSpace(s[i]) {
        assert IsSpace(Lower(s)[i]);
      }
    }
  }

  /**
   * A dataset passes the filters exactly when its quality reaches the
   * threshold (equality included), its category equals the requested one
   * ignoring case, and the query is blank or occurs literally in its
   * searchable text.
   */
  lemma MatchesIff(d: AlignmentDataset, query: string, category: Option<string>, minQuality: real)
    ensures Matches(d, NormalizeQuery(query), category, minQuality) <==>
      && d.qualityScore >= minQuality
      && (category.None? || Lower(d.category) == Lower(category.value))
      && (AllSpace(query) || IsSubstring(NormalizeQuery(query), SearchableText(d)))
  {
    AllSpaceLower(query);
    FindIff(SearchableText(d), NormalizeQuery(query));
  }

  lemma SubstringTransitive(a: string, b: string, c: string)
    requires IsSubstring(a, b) && IsSubstring(b, c)
    ensures IsSubstring(a, c)
  {
    var i :| OccursAt(a, b, i);
    var j :| OccursAt(b, c, j);
    forall k | 0 <= k < |a| ensures c[j + i + k] == a[k] {
      assert c[j + i + k] == c[j..j + |b|][i + k] == b[i + k];
      assert b[i + k] == b[i..i + |a|][k];
    }
    assert c[j + i..j + i + |a|] == a;
    assert OccursAt(a, c, j + i);
  }

  /**
   * A query found in the name, the description or one of the tags (all
   * lower-cased) is found in the searchable text.
   */
  lemma FieldHit(d: AlignmentDataset, q: string, k: nat)
    requires k < 2 + |d.tags|
    requires IsSubstring(q, Lower(([d.name, d.description] + d.tags)[k]))
    ensures IsSubstring(q, SearchableText(d))
  {
    var parts := [d.name, d.description] + d.tags;
    JoinContainsParts(parts, k);
    SubstringLower(parts[k], JoinWithSpace(parts));
    SubstringTransitive(q, Lower(parts[k]), SearchableText(d));
  }

  /** The listings of `order` (in that order) whose datasets pass the filters. */
  function Selected(order: seq<string>, listings: map<string, MarketplaceListing>,
                    q: string, category: Option<string>, minQuality: real): (r: seq<MarketplaceListing>)
    requires forall k :: 0 <= k < |order| ==> order[k] in listings
  {
    if order == [] then []
    else
      var id := order[|order| - 1];
      Selected(order[..|order| - 1], listings, q, category, minQuality)
        + (if Matches(listings[id].dataset, q, category, minQuality) then [listings[id]] else [])
  }

  /** Scanning one more id appends its listing exactly when that listing passes the filters. */
  lemma SelectedStep(order: seq<string>, i: nat, listings: map<string, MarketplaceListing>,
                     q: string, category: Option<string>, minQuality: real)
    requires i < |order|
    requires forall k :: 0 <= k < |order| ==> order[k] in listings
    ensures Selected(order[..i + 1], listings, q, category, minQuality) ==
      Selected(order[..i], listings, q, category, minQuality)
        + (if Matches(listings[order[i]].dataset, q, category, minQuality) then [listings[order[i]]] else [])
  {
    assert order[..i + 1][..i] == order[..i];
  }

  /** A listing is selected exactly when it sits under an id of `order` and passes the filters. */
  lemma {:induction false} SelectedMembers(order: seq<string>, listings: map<string, MarketplaceListing>,
                                           q: string, category: Option<string>, minQuality: real,
                                           l: MarketplaceListing)
    requires forall k :: 0 <= k < |order| ==> order[k] in listings
    ensures l in Selected(order, listings, q, category, minQuality) <==>
      (exists id :: id in order && listings[id] == l) && Matches(l.dataset, q, category, minQuality)
  {
    if order != [] {
      var init := order[..|order| - 1];
      var id := order[|order| - 1];
      assert order == init + [id];
      SelectedMembers(init, listings, q, category, minQuality, l);
      if (exists id' :: id' in order && listings[id'] == l) {
        var id' :| id' in order && listings[id'] == l;
        if id' != id {
          assert id' in init;
        }
      }
    }
  }

  /** Distinct ids holding listings of distinct datasets give a selection without repeats. */
  lemma {:induction false} SelectedDistinct(order: seq<string>, listings: map<string, MarketplaceListing>,
                                            q: string, category: Option<string>, minQuality: real)
    requires forall k :: 0 <= k < |order| ==> order[k] in listings
    requires forall id :: id in listings ==> listings[id].dataset.datasetId == id
    requires forall i, j :: 0 <= i < j < |order| ==> order[i] != order[j]
    ensures Distinct(Selected(order, listings, q, category, minQuality))
  {
    if order != [] {
      var init := order[..|order| - 1];
      var id := order[|order| - 1];
      SelectedDistinct(init, listings, q, category, minQuality);
      var s := Selected(init, listings, q, category, minQuality);
      if listings[id] in s {
        SelectedMembers(init, listings, q, category, minQuality, listings[id]);
        assert false;
      }
    }
  }

  predicate Distinct<T(==)>(s: seq<T>) {
    forall i, j :: 0 <= i < j < |s| ==> s[i] != s[j]
  }

  // ---------------------------------------------------------------------------
  // Ordering of the results: a stable sort on descending quality
  // ---------------------------------------------------------------------------

  function Quality(l: MarketplaceListing): (r: real) {
    l.dataset.qualityScore
  }

  predicate SortedByQuality(s: seq<MarketplaceListing>) {
    forall i, j :: 0 <= i < j < |s| ==> Quality(s[i]) >= Quality(s[j])
  }

  /** Puts `x` before the first element whose quality does not exceed its own. */
  function InsertByQuality(x: MarketplaceListing, s: seq<MarketplaceListing>): (r: seq<MarketplaceListing>) {
    if s == [] || Quality(x) >= Quality(s[0]) then [x] + s
    else [s[0]] + InsertByQuality(x, s[1..])
  }

  /** One insertion step adds exactly the inserted listing. */
  lemma {:induction false} InsertPermutes(x: MarketplaceListing, s: seq<MarketplaceListing>)
    ensures multiset(InsertByQuality(x, s)) == multiset(s) + multiset{x}
  {
    if s != [] && Quality(x) < Quality(s[0]) {
      InsertPermutes(x, s[1..]);
      assert s == [s[0]] + s[1..];
    }
  }

  /** Inserting a listing no better than `b` into listings no better than `b` keeps that bound. */
  lemma {:induction false} InsertBounded(x: MarketplaceListing, s: seq<MarketplaceListing>, b: real)
    requires Quality(x) <= b
    requires forall i :: 0 <= i < |s| ==> Quality(s[i]) <= b
    ensures forall i :: 0 <= i < |InsertByQuality(x, s)| ==> Quality(InsertByQuality(x, s)[i]) <= b
  {
    if s != [] && Quality(x) < Quality(s[0]) {
      InsertBounded(x, s[1..], b);
    }
  }

  /** One insertion step keeps a sequence sorted by non-increasing quality. */
  lemma {:induction false} InsertSorted(x: MarketplaceListing, s: seq<MarketplaceListing>)
    requires SortedByQuality(s)
    ensures SortedByQuality(InsertByQuality(x, s))
  {
    if s != [] && Quality(x) < Quality(s[0]) {
      InsertSorted(x, s[1..]);
      InsertBounded(x, s[1..], Quality(s[0]));
    }
  }

  /**
   * `list.sort(key=quality, reverse=True)`: descending quality; equal
   * qualities keep their input order (Python's sort is stable, also in
   * reverse).
   */
  function SortByQuality(s: seq<MarketplaceListing>): (r: seq<MarketplaceListing>)
    ensures multiset(r) == multiset(s)
    ensures SortedByQuality(r)
  {
    if s == [] then []
    else
      assert s == [s[0]] + s[1..];
      var t := SortByQuality(s[1..]);
      InsertPermutes(s[0], t);
      InsertSorted(s[0], t);
      InsertByQuality(s[0], t)
  }

  /** The elements of `s` whose quality is exactly `q`, in order. */
  function WithQuality(s: seq<MarketplaceListing>, q: real): (r: seq<MarketplaceListing>) {
    if s == [] then []
    else (if Quality(s[0]) == q then [s[0]] else []) + WithQuality(s[1..], q)
  }

  lemma WithQualityCons(a: MarketplaceListing, t: seq<MarketplaceListing>, q: real)
    ensures WithQuality([a] + t, q) == (if Quality(a) == q then [a] else []) + WithQuality(t, q)
  {
    assert ([a] + t)[1..] == t;
  }

  lemma {:induction false} InsertStable(x: MarketplaceListing, s: seq<MarketplaceListing>, q: real)
    ensures WithQuality(InsertByQuality(x, s), q) == WithQuality([x] + s, q)
  {
    if s != [] && Quality(x) < Quality(s[0]) {
      var s' := s[1..];
      var t := InsertByQuality(x, s');
      assert InsertByQuality(x, s) == [s[0]] + t;
      InsertStable(x, s', q);
      WithQualityCons(s[0], t, q);
      WithQualityCons(x, s', q);
      assert s == [s[0]] + s';
      WithQualityCons(s[0], s', q);
      WithQualityCons(x, s, q);
    }
  }

  /** The sort is stable: listings of equal quality come out in the order they went in. */
  lemma {:induction false} SortStable(s: seq<MarketplaceListing>, q: real)
    ensures WithQuality(SortByQuality(s), q) == WithQuality(s, q)
  {
    if s != [] {
      SortStable(s[1..], q);
      InsertStable(s[0], SortByQuality(s[1..]), q);
      assert ([s[0]] + SortByQuality(s[1..]))[1..] == SortByQuality(s[1..]);
    }
  }

  /** In a sequence without repeats every element occurs once. */
  lemma {:induction false} DistinctCount<T>(s: seq<T>, x: T)
    requires Distinct(s)
    ensures multiset(s)[x] <= 1
  {
    if s != [] {
      assert s == [s[0]] + s[1..];
      DistinctCount(s[1..], x);
      if x == s[0] {
        assert x !in s[1..];
      }
    }
  }

  /** A permutation of a sequence without repeats has none either. */
  lemma DistinctPermutation<T>(s: seq<T>, t: seq<T>)
    requires multiset(s) == multiset(t) && Distinct(s)
    ensures Distinct(t)
  {
    forall i, j | 0 <= i < j < |t| ensures t[i] != t[j] {
      DistinctCount(s, t[i]);
      assert t == t[..j] + t[j..];
      assert t[i] in multiset(t[..j]);
      assert t[j] in multiset(t[j..]);
    }
  }

  /**
   * The sorted selection over a consistent store holds each listing that
   * passes the filters exactly once, and nothing else.
   */
  lemma SearchResult(order: seq<string>, listings: map<string, MarketplaceListing>,
                     q: string, category: Option<string>, minQuality: real)
    requires forall id :: id in order <==> id in listings
    requires forall id :: id in listings ==> listings[id].dataset.datasetId == id
    requires Distinct(order)
    ensures var r := SortByQuality(Selected(order, listings, q, category, minQuality));
      && (forall l :: l in r <==> l in listings.Values && Matches(l.dataset, q, category, minQuality))
      && Distinct(r)
  {
    var sel := Selected(order, listings, q, category, minQuality);
    var r := SortByQuality(sel);
    forall l ensures l in r <==> l in listings.Values && Matches(l.dataset, q, category, minQuality) {
      assert l in r <==> l in multiset(sel);
      SelectedMembers(order, listings, q, category, minQuality, l);
    }
    SelectedDistinct(order, listings, q, category, minQuality);
    DistinctPermutation(sel, r);
  }

  /**
   * The filtering loop of a search: visits the listings in id order and
   * keeps those that pass the quality, category and text filters, skipping
   * the others as soon as one filter fails.
   */
  method ScanListings(order: seq<string>, listings: map<string, MarketplaceListing>,
                      queryLower: string, category: Option<string>, minQuality: real)
    returns (results: seq<MarketplaceListing>)
    requires forall k :: 0 <= k < |order| ==> order[k] in listings
    ensures results == Selected(order, listings, queryLower, category, minQuality)
  {
    results := [];
    for i := 0 to |order|
      invariant results == Selected(order[..i], listings, queryLower, category, minQuality)
    {
      SelectedStep(order, i, listings, queryLower, category, minQuality);
      var listing := listings[order[i]];
      var dataset := listing.dataset;
      if dataset.qualityScore < minQuality {
        continue;
      }
      if category.Some? && Lower(dataset.category) != Lower(category.value) {
        continue;
      }
      if queryLower != [] {
        var searchable := Lower(JoinWithSpace([dataset.name, dataset.description] + dataset.tags));
        if Find(searchable, queryLower).None? {
          continue;
        }
      }
      results := results + [listing];
    }
    assert order[..|order|] == order;
  }

  // ---------------------------------------------------------------------------
  // The registry
  // ---------------------------------------------------------------------------

  class DatasetRegistry {
    var datasets: map<string, AlignmentDataset>
    var listings: map<string, MarketplaceListing>
    /** The ids in first-registration order: the iteration order of the listings. */
    var order: seq<string>

    /**
     * Every id has both a dataset and a listing, the listing wraps exactly
     * that dataset, the dataset carries its own id, all records are within
     * their bounds, and `order` lists each id once.
     */
    ghost predicate Valid()
      reads this
    {
      && datasets.Keys == listings.Keys
      && (forall id :: id in listings ==> listings[id].dataset == datasets[id])
      && (forall id :: id in datasets ==> datasets[id].datasetId == id && datasets[id].Valid())
      && (forall id :: id in listings ==> listings[id].Valid())
      && (forall id :: id in order <==> id in listings)
      && Distinct(order)
    }

    constructor ()
      ensures Valid()
      ensures datasets == map[] && listings == map[] && order == []
    {
      datasets, listings, order := map[], map[], [];
    }

    /**
     * Stores `d` under its id. A new id gets a fresh listing with zero
     * marketplace state; an existing id keeps its downloads, rating and
     * reviews, with the listing now wrapping `d`. No other id changes.
     */
    method Register(d: AlignmentDataset)
      requires Valid() && d.Valid()
      modifies this
      ensures Valid()
      ensures datasets == old(datasets)[d.datasetId := d]
      ensures d.datasetId !in old(listings) ==>
        listings == old(listings)[d.datasetId := MarketplaceListing(d, 0, 0.0, 0)]
      ensures d.datasetId in old(listings) ==>
        listings == old(listings)[d.datasetId := old(listings)[d.datasetId].(dataset := d)]
      ensures order == if d.datasetId in old(order) then old(order) else old(order) + [d.datasetId]
      ensures Get(d.datasetId) == Ok(d)
    {
      var id := d.datasetId;
      datasets := datasets[id := d];
      if id !in listings {
        listings := listings[id := MarketplaceListing(dataset := d)];
        order := order + [id];
      } else {
        var existing := listings[id];
        listings := listings[id := MarketplaceListing(
          dataset := d,
          downloads := existing.downloads,
          rating := existing.rating,
          reviews := existing.reviews)];
      }
    }

    /** The dataset stored under `datasetId`, or the not-found error for an id never registered. */
    function Get(datasetId: string): (r: Result<AlignmentDataset, DatasetNotFoundError>)
      reads this
      requires Valid()
      ensures r.Ok? <==> datasetId in order
      ensures r.Ok? ==> r.value == datasets[datasetId] && r.value.datasetId == datasetId && r.value.Valid()
      ensures r.Err? ==> r.error == DatasetNotFoundError(datasetId)
    {
      if datasetId in datasets then Ok(datasets[datasetId])
      else Err(DatasetNotFoundError(datasetId))
    }

    /**
     * Adds one download to the listing of a known id and changes nothing
     * else; an unknown id is silently ignored.
     */
    method IncrementDownloads(datasetId: string)
      requires Valid()
      modifies this
      ensures Valid()
      ensures datasets == old(datasets) && order == old(order)
      ensures datasetId in old(listings) ==>
        listings == old(listings)[datasetId := old(listings)[datasetId].(downloads := old(listings)[datasetId].downloads + 1)]
      ensures datasetId !in old(listings) ==> listings == old(listings)
    {
      if datasetId in listings {
        var listing := listings[datasetId];
        listings := listings[datasetId := MarketplaceListing(
          dataset := listing.dataset,
          downloads := listing.downloads + 1,
          rating := listing.rating,
          reviews := listing.reviews)];
      }
    }

    /**
     * The listings passing the three filters, each once, sorted by
     * descending quality, ties in first-registration order. Nothing in the
     * registry changes.
     */
    method Search(query: string, category: Option<string> := None, minQuality: real := 0.0)
      returns (r: seq<MarketplaceListing>)
      requires Valid()
      ensures r == SortByQuality(Selected(order, listings, NormalizeQuery(query), category, minQuality))
      ensures SortedByQuality(r)
      ensures forall l :: l in r <==> l in listings.Values && Matches(l.dataset, NormalizeQuery(query), category, minQuality)
      ensures Distinct(r)
    {
      var queryLower := Strip(Lower(query));
      var results := ScanListings(order, listings, queryLower, category, minQuality);
      r := SortByQuality(results);
      SearchResult(order, listings, queryLower, category, minQuality);
    }
  }
}
