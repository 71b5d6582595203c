# Durability Score API — a verified model of its rule engine

The Durability Score API rates a physical product by its sustainability. A
client posts the product's name, materials, weight, transport mode and
packaging. The service then:

- validates the body against a fixed schema;
- computes a score from a base of 100 with six additive rules;
- maps the score to a letter A–D;
- builds an ordered list of improvement suggestions;
- stores the result as a `Submission` row.

It can also list the stored rows (the history) and summarise them: count,
mean score, rating histogram and the three most frequent suggestions.

This project models that core in Dafny, in `app.py`'s own shape:

- `json.dfy` (`Json`): the decoded JSON value handed to the validator. It also holds the
  text encoding of a suggestion list kept in the `suggestions` column, with a
  decoder and a proved round trip.
- `validator.dfy` (`Validator`): `validate_input` as a recursive function over the fixed
  field list with early returns, with the exact error messages. It also reads a validated
  body into a typed `ProductInput`.
- `scorer.dfy` (`Scorer`): the scoring block of `score()` as a method that updates the score
  and appends suggestions step by step. It is proved against a closed-form score, the rating
  thresholds and a specification of the suggestions as the rule catalogue filtered by the rules
  that fire.
- `store.dfy` (`Store`): the `Submission` table as a class holding a sequence of rows. Ids run
  1, 2, 3, … in insertion order, and suggestions are stored JSON-encoded and decoded on read.
- `aggregator.dfy` (`Aggregator`): `score_summary`. Its loop tallies the ratings and
  concatenates the suggestion lists, and `Counter(...).most_common(n)` is modelled as a
  selection loop whose result is proved to be the unique list meeting the description of
  `most_common`.
- `service.dfy` (`Service`): the POST /score flow (validate, score, store) and the summary over
  a store, plus the repository's summary test replayed against the contracts.
- `wrappers.dfy` (`Wrappers`): `Option` and `Result`.

Scores are integers: every rule delta is an integer, so `round(score, 2)` is the identity.
Weights are reals, because Python accepts `int` or `float` there. Python's `bool` passes the
`(int, float)` check, and the model accepts it too, reading `True` as 1 and `False` as 0.

## Model

| member | source | states |
|---|---|---|
| `Validator.ValidateInput` | app.py:54-77 | every error it returns names a field that really fails: a required field that is absent, a field of the wrong type (with the exact message for each), a transport outside air/rail/sea/road or a packaging outside the three allowed kinds |
| `Validator.CheckFields` | app.py:55-67 | the presence/type loop finds no error exactly when every field in the list is present with its declared type, and any error it finds is the missing or wrong-type message of a field that fails |
| `Validator.ValidateAcceptsExactly` | app.py:54-77 | `validate_input` returns `None` exactly when all five fields are present and well-typed, transport is one of air/rail/sea/road and packaging is one of recyclable/biodegradable/non-recyclable |
| `Validator.ValidateReportsFirstBadField` | app.py:63-67 | when every field before position i passes and field i is missing or mistyped, the result is "'<field>' is required" or "'<field>' must be of type <repr>" for that field, and the message names it |
| `Validator.ValidateChecksChoicesLast` | app.py:69-75 | once every field passes the presence and type checks, a bad transport gives the transport message, and otherwise a bad packaging gives the packaging message; each message names its field |
| `Validator.MissingTransportRejected` | test_app.py:67-76 | a body without `transport` is rejected with "'transport' is required" |
| `Validator.BareStringMaterialsRejected` | test_app.py:78-88 | `materials` given as a bare string is rejected with the message for `materials` and its expected type, `list` |
| `Validator.UnknownChoicesRejected` | test_app.py:90-112 | transport "spaceship" and packaging "unwrapped" are rejected with the messages naming those fields |
| `Validator.StringItems` | app.py:133-142 | `"m" in materials` holds for a JSON list exactly when the string `m` is one of its elements |
| `Validator.ReadInput` | app.py:123-127 | the typed input carries the body's name, materials (same string membership), weight, and a transport and packaging from the allowed sets |
| `Scorer.ScoreOf` | app.py:129-158 | the score lies in 70..130 for every input, with no clamping |
| `Scorer.Score` | app.py:129-167 | the step-by-step computation yields the closed-form score, `Rating` of that score, and the catalogue of suggestions filtered by the rules that fire |
| `Scorer.AnyRuleOrderGivesScore` | app.py:129-158 | applying the six rule deltas in any order gives the same total |
| `Scorer.SumPermutation` | app.py:129-158 | the sum of the deltas does not depend on the order they are added in |
| `Scorer.Rating` | app.py:160-167 | every score gets one of the four letters A–D; A exactly from 90 and D exactly below 60 |
| `Scorer.RatingMonotone` | app.py:160-167 | a higher score never gets a worse letter, in the order A > B > C > D |
| `Scorer.ScoredRatingNeverD` | app.py:129-167 | a computed score is never rated D; it is rated C exactly when it is below 75 |
| `Scorer.SuggestionRules` | app.py:133-158 | each of the five messages appears exactly when its rule fires: plastic; aluminum without recycled; air; packaging not recyclable or biodegradable; weight > 500 |
| `Scorer.SuggestionsInRuleOrder` | app.py:130-158 | the suggestions are a subsequence of the catalogue in rule-evaluation order, so none appears twice |
| `Scorer.FiredMembers` | app.py:133-158 | a message is emitted exactly when it is in the catalogue and its rule fires |
| `Scorer.TestBottleScenario` | test_app.py:14-21 | plastic, 300 g, air, non-recyclable gives 75, rating B, and the plastic, air and packaging suggestions |
| `Scorer.RecycledRailScenario` | test_app.py:45-51 | recycled, 100 g, rail, recyclable gives 125, rating A, and no suggestions |
| `Scorer.HeavyPlasticAirScenario` | test_app.py:52-58 | plastic, 800 g, air, non-recyclable gives 70, rating C, and four suggestions in rule order |
| `Json.EncodeStrings` | app.py:175 | the stored text is a bracketed list, and it is `[]` exactly for the empty list |
| `Json.DecodeStrings` | app.py:206 | reads only the encoder's own layout: a result needs text opening with `[`, and the empty list is read exactly from `[]` |
| `Json.DecodeEncode` | app.py:175 | decoding the encoded suggestion list gives back the same list (`json.loads` after `json.dumps`) |
| `Json.EncodeInjective` | app.py:175 | two different suggestion lists are never stored as the same text |
| `Store.Load` | app.py:202-206 | a history item keeps its row's name, score and rating, and a suggestions column holding the JSON text of a list reads back as exactly that list |
| `Store.LoadAllStored` | app.py:169-207 | the rows that entries e1..ek leave when stored one by one have ids 1..k, and they read back as exactly e1..ek |
| `Store.SubmissionStore.AddAll` | app.py:169-176 | a new store given e1..ek by one `Add` per entry holds exactly those rows, and its history is e1..ek |
| `Store.AddedEntryReadsBack` | app.py:171-178 | after a row is appended, the history is the old history followed by exactly the stored name, score, rating and suggestions |
| `Store.SubmissionStore.Add` | app.py:171-178 | appends exactly one row with the next id and the JSON-encoded suggestions; earlier rows are unchanged; the ids stay 1..n |
| `Store.SubmissionStore.History` | app.py:199-207 | returns every stored submission in insertion order with its suggestions decoded |
| `Aggregator.SumScores` | app.py:231 | the loop's total is the sum of the entries' scores |
| `Aggregator.Tally` | app.py:234-240 | the loop yields a histogram keyed by exactly A–D, each letter counting the entries with that rating, and the suggestion lists of all entries concatenated in entry order |
| `Aggregator.ScoreSummary` | app.py:221-248 | no entries gives 0, 0, zero-filled A–D and no issues. Otherwise: the count of entries; a mean that times the count equals the score sum; each letter's count of entries; the top three issues as `most_common(3)` describes them |
| `Aggregator.MostCommon` | app.py:242 | at most n distinct suggestions from the flattened list, in non-increasing frequency with ties in first-occurrence order; anything left out ranks below them all, and fewer than n are returned only when nothing is left out |
| `Aggregator.OutranksTotal` | app.py:242 | of two distinct suggestions in the list, one always outranks the other: by count, or on a tie by first occurrence |
| `Aggregator.MostCommonUnique` | app.py:242 | that description leaves exactly one possible result |
| `Aggregator.RatingCountsBounded` | app.py:234-239 | the four letter counts add up to at most the number of entries, and to exactly that number when every rating is a letter A–D |
| `Aggregator.AverageWithinBounds` | app.py:230-232 | when every score lies in lo..hi, so does the mean |
| `Aggregator.IssuesAreSuggestions` | app.py:235-240 | a suggestion is in the flattened issue list exactly when some entry carries it |
| `Aggregator.AllTiedKeepFirstOccurrence` | app.py:242 | four distinct suggestions seen once each: `most_common(3)` is the first three, in the order they appeared |
| `Aggregator.FrequencyBeforeOrder` | app.py:242 | for the list `[a, b, b]`, the twice-seen `b` ranks before `a`, which appeared earlier: `most_common(1)` is `[b]` and `most_common(2)` is `[b, a]` |
| `Aggregator.TwoEntrySummary` | app.py:230-240 | with two entries, the score sum, each letter's count and the flattened issues are those of the two entries together |
| `Service.SubmitScore` | app.py:118-186 | a rejected body returns the validator's message and leaves the store unchanged. An accepted body returns the name, score, rating and suggestions of the scoring rules, and appends exactly that one entry to the history |
| `Service.ScoreSummaryOf` | app.py:221-248 | an empty store gives 0 products, mean 0, zero-filled A–D and no issues; otherwise the summary describes the store's history: its count, mean, letter counts and top three issues |
| `Service.SummaryTestStore` | test_app.py:44-58 | over a fresh store holding only the summary test's two bodies, the history holds the entries (125, A, no suggestions) and (70, C, four suggestions) |
| `Service.SummaryScenario` | test_app.py:44-65 | over a fresh store holding only the summary test's two bodies (the test itself checks only the keys), the summary reports 2 products, mean 97.5, one A and one C, and the top issues plastic, air and packaging, the first three of four equally frequent suggestions |

## Left out

- Flask routing, `request.get_json`, the `OrderedDict`/`Response` key order of the JSON
  responses, the home route and the Swagger docstrings: web plumbing. The core is reached
  through plain method calls.
- A request body that is not a JSON object: the validator is modelled on a map from field
  names to values.
- SQLAlchemy sessions, `db.create_all`, the file-backed SQLite database and the `__main__`
  bootstrap: a storage failure (the 500 path) cannot happen in the in-memory store.
  `sustainability_score` is stored as an integer, not as a float column.
- Aggregator.ScoreSummary: the mean is exact (a `real`); the 2-decimal `round` of `average_score` is floating point and not modelled.
- Json.EncodeStrings: only `"` and `\` are escaped. `json.dumps` also writes control and non-ASCII characters as escapes.
  Every suggestion text is printable ASCII, so the stored text is the same.
- Json.DecodeStrings: it reads exactly the encoder's layout, not all of JSON. `json.loads` also accepts whitespace
  around and inside the brackets (`" []"`, `"[ ]"`) and returns non-list values for text such as `"x"` or `1`;
  the model returns `None` for all of these. The store only ever holds text the encoder wrote.
- Shared test state: in the repository's test file all tests share one app and database, so the summary test
  also sees rows from earlier tests. The scenarios here start from a fresh store.
- JSON `NaN`/`Infinity` weights, which Python's `json` accepts, are not representable. Numbers are finite reals.
- Concurrent inserts: the store is single-threaded, and ids come from the row count, not
  from SQLite's auto-increment.
