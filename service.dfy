/**
 * The three calls the web layer makes into the core: POST /score validates,
 * scores and stores one product; GET /history lists the store; GET
 * /score-summary aggregates it. The store is passed in explicitly.
 */
module Service {
  import opened Wrappers
  import Json
  import opened Validator
  import opened Scorer
  import opened Store
  import opened Aggregator

  /** The 200 response of POST /score. */
  datatype ScoreResponse = ScoreResponse(
    productName: string,
    sustainabilityScore: int,
    rating: string,
    suggestions: seq<string>)

  /**
   * POST /score: a rejected body leaves the store as it was and yields the
   * validator's message; an accepted one is scored and appended as one row.
   */
  method SubmitScore(store: SubmissionStore, raw: map<string, Json.Value>) returns (r: Result<ScoreResponse, string>)
    requires store.Valid()
    modifies store
    ensures store.Valid()
    ensures r.Failure? <==> ValidateInput(raw).Some?
    ensures r.Failure? ==> r.error == ValidateInput(raw).value && store.rows == old(store.rows)
    ensures r.Success? ==> Acceptable(raw)
    ensures r.Success? ==>
      var p := ReadInput(raw);
      && r.value == ScoreResponse(p.productName, ScoreOf(p), Rating(ScoreOf(p)), SuggestionsOf(p))
      && |store.rows| == |old(store.rows)| + 1
      && store.rows[..|old(store.rows)|] == old(store.rows)
      && store.Entries() == old(store.Entries()) + [Entry(p.productName, ScoreOf(p), Rating(ScoreOf(p)), SuggestionsOf(p))]
  {
    var error := ValidateInput(raw);
    if error.Some? {
      return Failure(error.value);
    }
    ValidateAcceptsExactly(raw);
    var p := ReadInput(raw);
    var score, rating, suggestions := Score(p);
    var _ := store.Add(p.productName, score, rating, suggestions);
    r := Success(ScoreResponse(p.productName, score, rating, suggestions));
  }

  /** GET /score-summary over the current contents of the store. */
  method ScoreSummaryOf(store: SubmissionStore) returns (s: Summary)
    requires store.Valid()
    ensures s.totalProducts == |store.rows|
    ensures |store.rows| == 0 ==> s == Summary(0, 0.0, map["A" := 0, "B" := 0, "C" := 0, "D" := 0], [])
    ensures |store.rows| > 0 ==> s.averageScore * |store.rows| as real == TotalScore(store.Entries()) as real
    ensures s.ratings.Keys == Letters
    ensures forall letter :: letter in Letters ==> s.ratings[letter] == RatingCount(store.Entries(), letter)
    ensures IsMostCommon(Issues(store.Entries()), 3, s.topIssues)
  {
    var entries := store.History();
    s := ScoreSummary(entries);
  }

  /** The request bodies of the repository's summary test. */
  function SummaryOneBody(): map<string, Json.Value>
  {
    map["product_name" := Json.Str("Summary 1"), "materials" := Json.Arr([Json.Str("recycled")]),
        "weight_grams" := Json.Num(100.0), "transport" := Json.Str("rail"), "packaging" := Json.Str("recyclable")]
  }

  function SummaryTwoBody(): map<string, Json.Value>
  {
    map["product_name" := Json.Str("Summary 2"), "materials" := Json.Arr([Json.Str("plastic")]),
        "weight_grams" := Json.Num(800.0), "transport" := Json.Str("air"), "packaging" := Json.Str("non-recyclable")]
  }

  lemma SummaryBodiesRead()
    ensures Acceptable(SummaryOneBody()) && Acceptable(SummaryTwoBody())
    ensures ReadInput(SummaryOneBody()) == ProductInput("Summary 1", ["recycled"], 100.0, "rail", "recyclable")
    ensures ReadInput(SummaryTwoBody()) == ProductInput("Summary 2", ["plastic"], 800.0, "air", "non-recyclable")
  {
    assert StringItems([Json.Str("recycled")]) == ["recycled"];
    assert StringItems([Json.Str("plastic")]) == ["plastic"];
  }

  /** A fresh store after the two submissions of the repository's summary test. */
  method SummaryTestStore() returns (store: SubmissionStore)
    ensures fresh(store) && store.Valid()
    ensures store.Entries() == [
      Entry("Summary 1", 125, "A", []),
      Entry("Summary 2", 70, "C", [AvoidPlastic, AvoidAir, BetterPackaging, ReduceWeight])]
  {
    store := new SubmissionStore();
    SummaryBodiesRead();
    RecycledRailScenario();
    HeavyPlasticAirScenario();
    ValidateAcceptsExactly(SummaryOneBody());
    var r1 := SubmitScore(store, SummaryOneBody());
    assert r1.Success?;
    assert store.Entries() == [Entry("Summary 1", 125, "A", [])];
    ValidateAcceptsExactly(SummaryTwoBody());
    var r2 := SubmitScore(store, SummaryTwoBody());
    assert r2.Success?;
  }

  /** The summary the repository's summary test asks for. */
  method SummaryScenario() returns (s: Summary)
    ensures s == Summary(2, 97.5, map["A" := 1, "B" := 0, "C" := 1, "D" := 0], [AvoidPlastic, AvoidAir, BetterPackaging])
  {
    var store := SummaryTestStore();
    var flagged := [AvoidPlastic, AvoidAir, BetterPackaging, ReduceWeight];
    ghost var entries := store.Entries();
    s := ScoreSummaryOf(store);
    TwoEntrySummary(entries[0], entries[1]);
    assert s.totalProducts == 2 && s.averageScore == 97.5;
    assert s.ratings["A"] == 1 && s.ratings["B"] == 0 && s.ratings["C"] == 1 && s.ratings["D"] == 0;
    assert Issues(entries) == [] + flagged == flagged;
    MessagesDistinct();
    AllTiedKeepFirstOccurrence(AvoidPlastic, AvoidAir, BetterPackaging, ReduceWeight);
    MostCommonUnique(flagged, 3, s.topIssues, [AvoidPlastic, AvoidAir, BetterPackaging]);
    assert s.topIssues == [AvoidPlastic, AvoidAir, BetterPackaging];
  }
}
