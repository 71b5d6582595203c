/**
 * The sustainability rules of POST /score: a score that starts at 100 and is
 * adjusted by six additive rules, a letter rating by thresholds, and the
 * improvement suggestions the rules emit.
 */
module Scorer {
  import opened Validator

  const AvoidPlastic: string := "Avoid using plastic"
  const RecycledAluminum: string := "Consider using recycled aluminum"
  const AvoidAir: string := "Avoid air transport"
  const BetterPackaging: string := "Use recyclable or biodegradable packaging"
  const ReduceWeight: string := "Reduce product weight"

  /** The packaging kinds that earn the packaging bonus and emit no packaging suggestion. */
  const GreenPackaging: seq<string> := ["recyclable", "biodegradable"]

  /** Every suggestion the rules can emit, in rule-evaluation order. */
  const Catalogue: seq<string> := [AvoidPlastic, RecycledAluminum, AvoidAir, BetterPackaging, ReduceWeight]

  // The contribution of each rule to the score.

  function PlasticDelta(p: ProductInput): int { if "plastic" in p.materials then -10 else 0 }
  function RecycledDelta(p: ProductInput): int { if "recycled" in p.materials then 10 else 0 }
  function AluminumDelta(p: ProductInput): int { if "aluminum" in p.materials then 5 else 0 }

  function TransportDelta(p: ProductInput): int
  {
    if p.transport == "air" then -15
    else if p.transport in ["rail", "sea"] then 5
    else 0
  }

  function PackagingDelta(p: ProductInput): int
  {
    if p.packaging in GreenPackaging then 10 else 0
  }

  function WeightDelta(p: ProductInput): int { if p.weightGrams > 500.0 then -5 else 0 }

  /** The six rule contributions, in the order the rules are evaluated. */
  function Deltas(p: ProductInput): seq<int>
  {
    [PlasticDelta(p), RecycledDelta(p), AluminumDelta(p), TransportDelta(p), PackagingDelta(p), WeightDelta(p)]
  }

  /** The final score: the base of 100 plus every rule's contribution; never clamped. */
  function ScoreOf(p: ProductInput): (r: int)
    ensures 70 <= r <= 130
  {
    100 + PlasticDelta(p) + RecycledDelta(p) + AluminumDelta(p) + TransportDelta(p) + PackagingDelta(p) + WeightDelta(p)
  }

  function Sum(xs: seq<int>): int
  {
    if xs == [] then 0 else xs[0] + Sum(xs[1..])
  }

  /** The letter for a score: A from 90, B from 75, C from 60, D below. */
  function Rating(score: int): (r: string)
    ensures r == "A" || r == "B" || r == "C" || r == "D"
    ensures r == "A" <==> score >= 90
    ensures r == "D" <==> score < 60
  {
    if score >= 90 then "A"
    else if score >= 75 then "B"
    else if score >= 60 then "C"
    else "D"
  }

  /** The order A > B > C > D, as a number. */
  function Rank(letter: string): int
  {
    if letter == "A" then 3 else if letter == "B" then 2 else if letter == "C" then 1 else 0
  }

  /** Message `m` is emitted for product `p`. */
  predicate Triggers(p: ProductInput, m: string)
  {
    || (m == AvoidPlastic && "plastic" in p.materials)
    || (m == RecycledAluminum && "aluminum" in p.materials && "recycled" !in p.materials)
    || (m == AvoidAir && p.transport == "air")
    || (m == BetterPackaging && p.packaging !in GreenPackaging)
    || (m == ReduceWeight && p.weightGrams > 500.0)
  }

  /** `[m]` when the rule fires, nothing otherwise. */
  function Emit(fires: bool, m: string): seq<string>
  {
    if fires then [m] else []
  }

  /** The messages of `ms` that `p` triggers, in the order of `ms`. */
  function Fired(p: ProductInput, ms: seq<string>): seq<string>
  {
    if ms == [] then []
    else Emit(Triggers(p, ms[0]), ms[0]) + Fired(p, ms[1..])
  }

  /** The suggestions for `p`: the catalogue, filtered by the rules that fire. */
  function SuggestionsOf(p: ProductInput): seq<string>
  {
    Fired(p, Catalogue)
  }

  /** The body of `score()` between reading the input and storing the result. */
  method Score(p: ProductInput) returns (score: int, rating: string, suggestions: seq<string>)
    ensures score == ScoreOf(p)
    ensures rating == Rating(score)
    ensures suggestions == SuggestionsOf(p)
  {
    score := 100;
    suggestions := [];
    ghost var e0 := Emit("plastic" in p.materials, AvoidPlastic);
    ghost var e1 := Emit("aluminum" in p.materials && "recycled" !in p.materials, RecycledAluminum);
    ghost var e2 := Emit(p.transport == "air", AvoidAir);
    ghost var e3 := Emit(p.packaging !in GreenPackaging, BetterPackaging);
    ghost var e4 := Emit(p.weightGrams > 500.0, ReduceWeight);

    if "plastic" in p.materials {
      score := score - 10;
      suggestions := suggestions + [AvoidPlastic];
    }
    assert score == 100 + PlasticDelta(p) && suggestions == e0;
    if "recycled" in p.materials {
      score := score + 10;
    }
    if "aluminum" in p.materials {
      score := score + 5;
      if "recycled" !in p.materials {
        suggestions := suggestions + [RecycledAluminum];
      }
    }
    assert score == 100 + PlasticDelta(p) + RecycledDelta(p) + AluminumDelta(p) && suggestions == e0 + e1;
    if p.transport == "air" {
      score := score - 15;
      suggestions := suggestions + [AvoidAir];
    } else if p.transport in ["rail", "sea"] {
      score := score + 5;
    }
    assert suggestions == e0 + e1 + e2;
    if p.packaging in GreenPackaging {
      score := score + 10;
    } else {
      suggestions := suggestions + [BetterPackaging];
    }
    assert suggestions == e0 + e1 + e2 + e3;
    if p.weightGrams > 500.0 {
      score := score - 5;
      suggestions := suggestions + [ReduceWeight];
    }
    assert suggestions == e0 + e1 + e2 + e3 + e4;

    if score >= 90 {
      rating := "A";
    } else if score >= 75 {
      rating := "B";
    } else if score >= 60 {
      rating := "C";
    } else {
      rating := "D";
    }

    SuggestionsUnfold(p);
  }

  lemma TriggersEach(p: ProductInput)
    ensures Triggers(p, AvoidPlastic) == ("plastic" in p.materials)
    ensures Triggers(p, RecycledAluminum) == ("aluminum" in p.materials && "recycled" !in p.materials)
    ensures Triggers(p, AvoidAir) == (p.transport == "air")
    ensures Triggers(p, BetterPackaging) == (p.packaging !in GreenPackaging)
    ensures Triggers(p, ReduceWeight) == (p.weightGrams > 500.0)
  {
    MessageTextsDiffer();
  }

  /** The five suggestion texts differ: by length, and the two of length 19 at position 6. */
  lemma MessageTextsDiffer()
    ensures AvoidPlastic != RecycledAluminum && AvoidPlastic != AvoidAir && AvoidPlastic != BetterPackaging
    ensures AvoidPlastic != ReduceWeight && RecycledAluminum != AvoidAir && RecycledAluminum != BetterPackaging
    ensures RecycledAluminum != ReduceWeight && AvoidAir != BetterPackaging && AvoidAir != ReduceWeight
    ensures BetterPackaging != ReduceWeight
  {
    assert |AvoidPlastic| == 19 && |RecycledAluminum| == 32 && |AvoidAir| == 19;
    assert |BetterPackaging| == 41 && |ReduceWeight| == 21;
    assert AvoidPlastic[6] != AvoidAir[6];
  }

  lemma FiredOne(p: ProductInput, m: string)
    ensures Fired(p, [m]) == Emit(Triggers(p, m), m)
  {
    assert [m][1..] == [];
  }

  lemma {:induction false} FiredAppend(p: ProductInput, xs: seq<string>, ys: seq<string>)
    ensures Fired(p, xs + ys) == Fired(p, xs) + Fired(p, ys)
  {
    if xs != [] {
      assert (xs + ys)[1..] == xs[1..] + ys;
      FiredAppend(p, xs[1..], ys);
    } else {
      assert xs + ys == ys;
    }
  }

  lemma SuggestionsUnfold(p: ProductInput)
    ensures SuggestionsOf(p) ==
      Emit("plastic" in p.materials, AvoidPlastic) +
      Emit("aluminum" in p.materials && "recycled" !in p.materials, RecycledAluminum) +
      Emit(p.transport == "air", AvoidAir) +
      Emit(p.packaging !in GreenPackaging, BetterPackaging) +
      Emit(p.weightGrams > 500.0, ReduceWeight)
  {
    FiredCatalogue(p);
    TriggersEach(p);
  }

  lemma FiredCatalogue(p: ProductInput)
    ensures Fired(p, Catalogue) ==
      Emit(Triggers(p, AvoidPlastic), AvoidPlastic) +
      Emit(Triggers(p, RecycledAluminum), RecycledAluminum) +
      Emit(Triggers(p, AvoidAir), AvoidAir) +
      Emit(Triggers(p, BetterPackaging), BetterPackaging) +
      Emit(Triggers(p, ReduceWeight), ReduceWeight)
  {
    FiredFive(p, AvoidPlastic, RecycledAluminum, AvoidAir, BetterPackaging, ReduceWeight);
  }

  lemma FiredFive(p: ProductInput, m0: string, m1: string, m2: string, m3: string, m4: string)
    ensures Fired(p, [m0, m1, m2, m3, m4]) ==
      Emit(Triggers(p, m0), m0) + Emit(Triggers(p, m1), m1) + Emit(Triggers(p, m2), m2) +
      Emit(Triggers(p, m3), m3) + Emit(Triggers(p, m4), m4)
  {
    assert [m0, m1, m2, m3, m4] == [m0] + [m1] + [m2] + [m3] + [m4];
    FiredAppend(p, [m0] + [m1] + [m2] + [m3], [m4]);
    FiredAppend(p, [m0] + [m1] + [m2], [m3]);
    FiredAppend(p, [m0] + [m1], [m2]);
    FiredAppend(p, [m0], [m1]);
    FiredOne(p, m0);
    FiredOne(p, m1);
    FiredOne(p, m2);
    FiredOne(p, m3);
    FiredOne(p, m4);
  }

  lemma {:induction false} SumRemove(xs: seq<int>, k: nat)
    requires k < |xs|
    ensures Sum(xs) == xs[k] + Sum(xs[..k] + xs[k + 1..])
  {
    if k > 0 {
      SumRemove(xs[1..], k - 1);
      assert xs[1..][..k - 1] + xs[1..][k..] == (xs[..k] + xs[k + 1..])[1..];
    } else {
      assert xs[..0] + xs[1..] == xs[1..];
    }
  }

  lemma MultisetRemove(ys: seq<int>, k: nat)
    requires k < |ys|
    ensures multiset(ys[..k] + ys[k + 1..]) == multiset(ys) - multiset{ys[k]}
  {
    assert ys == ys[..k] + [ys[k]] + ys[k + 1..];
  }

  /** Reordering the summands does not change the sum. */
  lemma {:induction false} SumPermutation(xs: seq<int>, ys: seq<int>)
    requires multiset(xs) == multiset(ys)
    ensures Sum(xs) == Sum(ys)
  {
    if xs != [] {
      assert xs[0] in multiset(ys);
      var k :| 0 <= k < |ys| && ys[k] == xs[0];
      MultisetRemove(ys, k);
      MultisetRemove(xs, 0);
      assert xs[..0] + xs[1..] == xs[1..];
      SumPermutation(xs[1..], ys[..k] + ys[k + 1..]);
      SumRemove(ys, k);
    }
  }

  lemma SumOfSix(a: int, b: int, c: int, d: int, e: int, f: int)
    ensures Sum([a, b, c, d, e, f]) == a + b + c + d + e + f
  {
    assert [a, b, c, d, e, f][1..] == [b, c, d, e, f];
    assert [b, c, d, e, f][1..] == [c, d, e, f];
    assert [c, d, e, f][1..] == [d, e, f];
    assert [d, e, f][1..] == [e, f];
    assert [e, f][1..] == [f];
    assert [f][1..] == [];
    assert Sum([f]) == f;
    assert Sum([e, f]) == e + f;
    assert Sum([d, e, f]) == d + e + f;
    assert Sum([c, d, e, f]) == c + d + e + f;
    assert Sum([b, c, d, e, f]) == b + c + d + e + f;
  }

  /** The rules are additive: evaluating them in any order gives the same score. */
  lemma AnyRuleOrderGivesScore(p: ProductInput, order: seq<int>)
    requires multiset(order) == multiset(Deltas(p))
    ensures 100 + Sum(order) == ScoreOf(p)
  {
    SumPermutation(order, Deltas(p));
    SumOfSix(PlasticDelta(p), RecycledDelta(p), AluminumDelta(p), TransportDelta(p), PackagingDelta(p), WeightDelta(p));
  }

  /** The rating never improves when the score drops. */
  lemma RatingMonotone(s1: int, s2: int)
    requires s1 <= s2
    ensures Rank(Rating(s1)) <= Rank(Rating(s2))
  {
  }

  /** With scores confined to 70..130, no product is ever rated D. */
  lemma ScoredRatingNeverD(p: ProductInput)
    ensures Rating(ScoreOf(p)) in {"A", "B", "C"}
    ensures Rating(ScoreOf(p)) == "C" <==> ScoreOf(p) < 75
  {
  }

  lemma {:induction false} FiredMembers(p: ProductInput, ms: seq<string>, m: string)
    ensures m in Fired(p, ms) <==> m in ms && Triggers(p, m)
  {
    if ms != [] {
      FiredMembers(p, ms[1..], m);
      assert m in ms <==> m == ms[0] || m in ms[1..];
    }
  }

  /** Each suggestion is emitted exactly when its rule fires. */
  lemma SuggestionRules(p: ProductInput)
    ensures AvoidPlastic in SuggestionsOf(p) <==> "plastic" in p.materials
    ensures RecycledAluminum in SuggestionsOf(p) <==> "aluminum" in p.materials && "recycled" !in p.materials
    ensures AvoidAir in SuggestionsOf(p) <==> p.transport == "air"
    ensures BetterPackaging in SuggestionsOf(p) <==> p.packaging !in GreenPackaging
    ensures ReduceWeight in SuggestionsOf(p) <==> p.weightGrams > 500.0
    ensures forall m :: m in SuggestionsOf(p) ==> m in Catalogue
  {
    FiredMembers(p, Catalogue, AvoidPlastic);
    FiredMembers(p, Catalogue, RecycledAluminum);
    FiredMembers(p, Catalogue, AvoidAir);
    FiredMembers(p, Catalogue, BetterPackaging);
    FiredMembers(p, Catalogue, ReduceWeight);
    forall m | m in SuggestionsOf(p) ensures m in Catalogue {
      FiredMembers(p, Catalogue, m);
    }
  }

  /** `s` is `t` with some elements left out. */
  predicate Subsequence(s: seq<string>, t: seq<string>)
  {
    if s == [] then true
    else if t == [] then false
    else if s[0] == t[0] then Subsequence(s[1..], t[1..])
    else Subsequence(s, t[1..])
  }

  predicate NoDuplicates(s: seq<string>)
  {
    forall i, j :: 0 <= i < j < |s| ==> s[i] != s[j]
  }

  lemma {:induction false} FiredSubsequence(p: ProductInput, ms: seq<string>)
    ensures Subsequence(Fired(p, ms), ms)
    ensures NoDuplicates(ms) ==> NoDuplicates(Fired(p, ms))
  {
    if ms != [] {
      FiredSubsequence(p, ms[1..]);
      var f := Fired(p, ms);
      if Triggers(p, ms[0]) {
        assert f == [ms[0]] + Fired(p, ms[1..]);
        assert f[1..] == Fired(p, ms[1..]);
        if NoDuplicates(ms) {
          assert NoDuplicates(ms[1..]) by {
            forall i, j | 0 <= i < j < |ms[1..]| ensures ms[1..][i] != ms[1..][j] {
              assert ms[1..][i] == ms[i + 1] && ms[1..][j] == ms[j + 1];
            }
          }
          forall j | 0 < j < |f| ensures f[0] != f[j] {
            FiredMembers(p, ms[1..], f[j]);
            assert f[j] in Fired(p, ms[1..]);
          }
        }
      } else {
        assert f == Fired(p, ms[1..]);
        SubsequenceSkip(f, ms);
        if NoDuplicates(ms) {
          assert NoDuplicates(ms[1..]) by {
            forall i, j | 0 <= i < j < |ms[1..]| ensures ms[1..][i] != ms[1..][j] {
              assert ms[1..][i] == ms[i + 1] && ms[1..][j] == ms[j + 1];
            }
          }
        }
      }
    }
  }

  lemma {:induction false} SubsequenceSkip(s: seq<string>, t: seq<string>)
    requires t != [] && Subsequence(s, t[1..])
    ensures Subsequence(s, t)
  {
    if s != [] && s[0] == t[0] {
      assert t[1..] != [];
      SubsequenceTail(s, t[1..]);
    }
  }

  lemma {:induction false} SubsequenceTail(s: seq<string>, t: seq<string>)
    requires s != [] && Subsequence(s, t)
    ensures Subsequence(s[1..], t)
  {
    if t != [] {
      if s[0] == t[0] {
        SubsequenceSkip(s[1..], t);
      } else {
        SubsequenceTail(s, t[1..]);
        SubsequenceSkip(s[1..], t);
      }
    }
  }

  /** Suggestions follow rule-evaluation order, and none appears twice. */
  lemma SuggestionsInRuleOrder(p: ProductInput)
    ensures Subsequence(SuggestionsOf(p), Catalogue)
    ensures NoDuplicates(SuggestionsOf(p))
  {
    FiredSubsequence(p, Catalogue);
  }

  /** The request body of the repository's scoring test. */
  lemma TestBottleScenario()
    ensures var p := ProductInput("Test Bottle", ["plastic"], 300.0, "air", "non-recyclable");
      && ScoreOf(p) == 75
      && Rating(ScoreOf(p)) == "B"
      && SuggestionsOf(p) == [AvoidPlastic, AvoidAir, BetterPackaging]
  {
    var p := ProductInput("Test Bottle", ["plastic"], 300.0, "air", "non-recyclable");
    SuggestionsUnfold(p);
  }

  /** Plastic, air, non-recyclable packaging and heavy: every penalty but aluminum's. */
  lemma HeavyPlasticAirScenario()
    ensures var p := ProductInput("Summary 2", ["plastic"], 800.0, "air", "non-recyclable");
      && ScoreOf(p) == 70
      && Rating(ScoreOf(p)) == "C"
      && SuggestionsOf(p) == [AvoidPlastic, AvoidAir, BetterPackaging, ReduceWeight]
  {
    var p := ProductInput("Summary 2", ["plastic"], 800.0, "air", "non-recyclable");
    SuggestionsUnfold(p);
  }

  /** The five suggestion texts are pairwise different. */
  lemma MessagesDistinct()
    ensures NoDuplicates(Catalogue)
  {
    MessageTextsDiffer();
  }

  /** Recycled material, rail, recyclable packaging, light: the top score, no suggestions. */
  lemma RecycledRailScenario()
    ensures var p := ProductInput("Summary 1", ["recycled"], 100.0, "rail", "recyclable");
      && ScoreOf(p) == 125
      && Rating(ScoreOf(p)) == "A"
      && SuggestionsOf(p) == []
  {
    var p := ProductInput("Summary 1", ["recycled"], 100.0, "rail", "recyclable");
    SuggestionsUnfold(p);
  }
}
