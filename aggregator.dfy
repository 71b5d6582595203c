/**
 * GET /score-summary: the number of stored products, their mean score, a
 * histogram of the four rating letters and the most frequent suggestions.
 */
module Aggregator {
  import opened Store

  const Letters: set<string> := {"A", "B", "C", "D"}

  /** The response of GET /score-summary; the mean is exact (no 2-decimal rounding). */
  datatype Summary = Summary(
    totalProducts: nat,
    averageScore: real,
    ratings: map<string, nat>,
    topIssues: seq<string>)

  /** The sum of the stored scores. */
  function TotalScore(es: seq<Entry>): int
  {
    if es == [] then 0 else TotalScore(es[..|es| - 1]) + es[|es| - 1].sustainabilityScore
  }

  /** How many entries carry the rating `letter`. */
  function RatingCount(es: seq<Entry>, letter: string): nat
  {
    if es == [] then 0
    else RatingCount(es[..|es| - 1], letter) + (if es[|es| - 1].rating == letter then 1 else 0)
  }

  /** Every entry's suggestions, one entry after the other. */
  function Issues(es: seq<Entry>): seq<string>
  {
    if es == [] then [] else Issues(es[..|es| - 1]) + es[|es| - 1].suggestions
  }

  /** The position of the first `x` in `s`, or `|s|` when there is none. */
  function FirstIndex(s: seq<string>, x: string): (r: nat)
    ensures r <= |s|
    ensures r < |s| <==> x in s
    ensures r < |s| ==> s[r] == x
    ensures forall q :: 0 <= q < r ==> s[q] != x
  {
    if s == [] then 0
    else if s[0] == x then 0
    else
      var r := FirstIndex(s[1..], x);
      assert forall q :: 1 <= q < |s| ==> s[q] == s[1..][q - 1];
      1 + r
  }

  function Occurrences(s: seq<string>, x: string): nat
  {
    multiset(s)[x]
  }

  /**
   * `x` comes before `y` in `Counter(s).most_common()`: it is more frequent,
   * or as frequent and seen first.
   */
  predicate Outranks(s: seq<string>, x: string, y: string)
  {
    || Occurrences(s, x) > Occurrences(s, y)
    || (Occurrences(s, x) == Occurrences(s, y) && FirstIndex(s, x) < FirstIndex(s, y))
  }

  /** `top` is `Counter(s).most_common(n)`, keys only. */
  ghost predicate IsMostCommon(s: seq<string>, n: nat, top: seq<string>)
  {
    && |top| <= n
    && (forall a :: 0 <= a < |top| ==> top[a] in s)
    && (forall a, b :: 0 <= a < b < |top| ==> Outranks(s, top[a], top[b]))
    && (forall x :: x in s && x !in top ==> |top| == n && forall a :: 0 <= a < |top| ==> Outranks(s, top[a], x))
  }

  /** The `n` most frequent elements of `s`, ties broken by first occurrence. */
  method MostCommon(s: seq<string>, n: nat) returns (top: seq<string>)
    ensures IsMostCommon(s, n, top)
  {
    top := [];
    while |top| < n
      invariant |top| <= n
      invariant forall a :: 0 <= a < |top| ==> top[a] in s
      invariant forall a, b :: 0 <= a < b < |top| ==> Outranks(s, top[a], top[b])
      invariant forall x :: x in s && x !in top ==> forall a :: 0 <= a < |top| ==> Outranks(s, top[a], x)
      decreases n - |top|
    {
      // Scan for the best element not yet taken.
      var found := false;
      var best := "";
      var p := 0;
      while p < |s|
        invariant 0 <= p <= |s|
        invariant found ==> best in s && best !in top && FirstIndex(s, best) < p
        invariant found ==> forall q :: 0 <= q < p && s[q] !in top ==> s[q] == best || Outranks(s, best, s[q])
        invariant !found ==> forall q :: 0 <= q < p ==> s[q] in top
      {
        var x := s[p];
        if x !in top && (!found || Occurrences(s, x) > Occurrences(s, best)) {
          best, found := x, true;
        } else if found && x !in top && x != best {
          ghost var fx := FirstIndex(s, x);
          if fx < p {
            assert s[fx] == x;
          }
        }
        p := p + 1;
      }
      if !found {
        forall x | x in s ensures x in top {
          assert s[FirstIndex(s, x)] == x;
        }
        break;
      }
      forall x | x in s && x !in top + [best] ensures Outranks(s, best, x) {
        assert s[FirstIndex(s, x)] == x;
      }
      top := top + [best];
    }
  }

  /** `sum(e.sustainability_score for e in entries)`. */
  method SumScores(entries: seq<Entry>) returns (total: int)
    ensures total == TotalScore(entries)
  {
    total := 0;
    var i := 0;
    while i < |entries|
      invariant 0 <= i <= |entries|
      invariant total == TotalScore(entries[..i])
    {
      assert entries[..i + 1][..i] == entries[..i];
      total := total + entries[i].sustainabilityScore;
      i := i + 1;
    }
    assert entries[..|entries|] == entries;
  }

  /**
   * The loop of `score_summary`: counts each known rating letter and
   * concatenates every entry's suggestions.
   */
  method Tally(entries: seq<Entry>) returns (counter: map<string, nat>, issues: seq<string>)
    ensures counter.Keys == Letters
    ensures forall letter :: letter in Letters ==> counter[letter] == RatingCount(entries, letter)
    ensures issues == Issues(entries)
  {
    counter := map["A" := 0, "B" := 0, "C" := 0, "D" := 0];
    issues := [];
    var i := 0;
    while i < |entries|
      invariant 0 <= i <= |entries|
      invariant counter.Keys == Letters
      invariant forall letter :: letter in Letters ==> counter[letter] == RatingCount(entries[..i], letter)
      invariant issues == Issues(entries[..i])
    {
      assert entries[..i + 1][..i] == entries[..i];
      var e := entries[i];
      if e.rating in counter {
        counter := counter[e.rating := counter[e.rating] + 1];
      }
      issues := issues + e.suggestions;
      i := i + 1;
    }
    assert entries[..|entries|] == entries;
  }

  /** The response fields of GET /score-summary for the stored entries. */
  method ScoreSummary(entries: seq<Entry>) returns (r: Summary)
    ensures r.totalProducts == |entries|
    ensures |entries| == 0 ==> r == Summary(0, 0.0, map["A" := 0, "B" := 0, "C" := 0, "D" := 0], [])
    ensures |entries| > 0 ==> r.averageScore * |entries| as real == TotalScore(entries) as real
    ensures r.ratings.Keys == Letters
    ensures forall letter :: letter in Letters ==> r.ratings[letter] == RatingCount(entries, letter)
    ensures IsMostCommon(Issues(entries), 3, r.topIssues)
  {
    if |entries| == 0 {
      return Summary(0, 0.0, map["A" := 0, "B" := 0, "C" := 0, "D" := 0], []);
    }

    var total := |entries|;
    var totalScore := SumScores(entries);
    var average := totalScore as real / total as real;

    var counter, issues := Tally(entries);
    var top := MostCommon(issues, 3);
    r := Summary(total, average, counter, top);
  }

  /** Ratings outside A-D are not counted, so the histogram never exceeds the total. */
  lemma {:induction false} RatingCountsBounded(es: seq<Entry>)
    ensures RatingCount(es, "A") + RatingCount(es, "B") + RatingCount(es, "C") + RatingCount(es, "D") <= |es|
    ensures (forall i :: 0 <= i < |es| ==> es[i].rating in Letters) ==>
      RatingCount(es, "A") + RatingCount(es, "B") + RatingCount(es, "C") + RatingCount(es, "D") == |es|
  {
    if es != [] {
      var init := es[..|es| - 1];
      RatingCountsBounded(init);
      assert forall i :: 0 <= i < |init| ==> init[i] == es[i];
    }
  }

  lemma {:induction false} TotalScoreBounds(es: seq<Entry>, lo: int, hi: int)
    requires forall i :: 0 <= i < |es| ==> lo <= es[i].sustainabilityScore <= hi
    ensures |es| * lo <= TotalScore(es) <= |es| * hi
  {
    if es != [] {
      var init := es[..|es| - 1];
      assert forall i :: 0 <= i < |init| ==> init[i] == es[i];
      TotalScoreBounds(init, lo, hi);
      assert |es| * lo == |init| * lo + lo;
      assert |es| * hi == |init| * hi + hi;
    }
  }

  /** The mean lies between the smallest and the largest possible score. */
  lemma AverageWithinBounds(es: seq<Entry>, lo: int, hi: int, average: real)
    requires |es| > 0
    requires forall i :: 0 <= i < |es| ==> lo <= es[i].sustainabilityScore <= hi
    requires average * |es| as real == TotalScore(es) as real
    ensures lo as real <= average <= hi as real
  {
    TotalScoreBounds(es, lo, hi);
    CastProduct(|es|, lo);
    CastProduct(|es|, hi);
    MeanBetween(|es| as real, TotalScore(es) as real, lo as real, hi as real, average);
  }

  lemma MeanBetween(n: real, total: real, lo: real, hi: real, average: real)
    requires n > 0.0 && n * lo <= total <= n * hi && average * n == total
    ensures lo <= average <= hi
  {
    ScaleCancel(n, lo, average);
    ScaleCancel(n, average, hi);
  }

  lemma {:induction false} CastProduct(k: nat, m: int)
    ensures (k * m) as real == k as real * m as real
  {
    if k > 0 {
      CastProduct(k - 1, m);
      assert k * m == (k - 1) * m + m;
      assert k as real * m as real == (k - 1) as real * m as real + m as real;
    }
  }

  lemma ScaleCancel(n: real, x: real, y: real)
    requires n > 0.0 && n * x <= n * y
    ensures x <= y
  {
  }

  /** A top issue is a suggestion of one of the entries, and every suggestion is an issue. */
  lemma {:induction false} IssuesAreSuggestions(es: seq<Entry>, x: string)
    ensures x in Issues(es) <==> exists i :: 0 <= i < |es| && x in es[i].suggestions
  {
    if es != [] {
      var init := es[..|es| - 1];
      IssuesAreSuggestions(init, x);
      assert forall i :: 0 <= i < |init| ==> init[i] == es[i];
      if x in es[|es| - 1].suggestions {
        assert x in Issues(es);
      }
    }
  }

  /** The statistics of two entries. */
  lemma TwoEntrySummary(e1: Entry, e2: Entry)
    ensures TotalScore([e1, e2]) == e1.sustainabilityScore + e2.sustainabilityScore
    ensures forall letter :: (RatingCount([e1, e2], letter) ==
      (if e1.rating == letter then 1 else 0) + (if e2.rating == letter then 1 else 0))
    ensures Issues([e1, e2]) == e1.suggestions + e2.suggestions
  {
    assert [e1, e2][..1] == [e1];
    assert [e1][..0] == [];
    assert TotalScore([e1]) == e1.sustainabilityScore;
    assert Issues([e1]) == e1.suggestions;
    forall letter ensures RatingCount([e1], letter) == if e1.rating == letter then 1 else 0 {
    }
  }

  lemma FirstIndexOfFour(a: string, b: string, c: string, d: string)
    requires a != b && a != c && a != d && b != c && b != d && c != d
    ensures FirstIndex([a, b, c, d], a) == 0 && FirstIndex([a, b, c, d], b) == 1
    ensures FirstIndex([a, b, c, d], c) == 2 && FirstIndex([a, b, c, d], d) == 3
  {
    var s := [a, b, c, d];
    assert s[0] == a && s[1] == b && s[2] == c && s[3] == d;
  }

  lemma OccurrencesOfFour(a: string, b: string, c: string, d: string)
    requires a != b && a != c && a != d && b != c && b != d && c != d
    ensures Occurrences([a, b, c, d], a) == 1 && Occurrences([a, b, c, d], b) == 1
    ensures Occurrences([a, b, c, d], c) == 1 && Occurrences([a, b, c, d], d) == 1
  {
    assert multiset([a, b, c, d]) == multiset{a, b, c, d};
  }

  /** Four distinct suggestions seen once each: the top three are the first three, in order. */
  lemma AllTiedKeepFirstOccurrence(a: string, b: string, c: string, d: string)
    requires a != b && a != c && a != d && b != c && b != d && c != d
    ensures IsMostCommon([a, b, c, d], 3, [a, b, c])
  {
    var s := [a, b, c, d];
    var top := [a, b, c];
    FirstIndexOfFour(a, b, c, d);
    OccurrencesOfFour(a, b, c, d);
    assert Outranks(s, a, b) && Outranks(s, a, c) && Outranks(s, b, c);
    assert Outranks(s, a, d) && Outranks(s, b, d) && Outranks(s, c, d);
    assert forall x :: x in s && x !in top ==> x == d;
  }

  /** In `[a, b, b]` the twice-seen `b` ranks before `a`, which appeared earlier. */
  lemma FrequencyBeforeOrder(a: string, b: string)
    requires a != b
    ensures IsMostCommon([a, b, b], 1, [b])
    ensures IsMostCommon([a, b, b], 2, [b, a])
  {
    var s := [a, b, b];
    assert multiset(s)[a] == 1 && multiset(s)[b] == 2;
  }

  lemma OutranksAsymmetric(s: seq<string>, x: string, y: string)
    ensures !(Outranks(s, x, y) && Outranks(s, y, x))
  {
  }

  /** Two distinct suggestions of the list are always ranked one before the other. */
  lemma OutranksTotal(s: seq<string>, x: string, y: string)
    requires x in s && y in s && x != y
    ensures Outranks(s, x, y) || Outranks(s, y, x)
  {
    var fx, fy := FirstIndex(s, x), FirstIndex(s, y);
    assert s[fx] == x && s[fy] == y;
  }

  /** `most_common(n)` is determined: two results that meet its description are equal. */
  lemma MostCommonUnique(s: seq<string>, n: nat, t1: seq<string>, t2: seq<string>)
    requires IsMostCommon(s, n, t1) && IsMostCommon(s, n, t2)
    ensures t1 == t2
  {
    var k := 0;
    while k < |t1| && k < |t2|
      invariant 0 <= k <= |t1| && k <= |t2|
      invariant t1[..k] == t2[..k]
    {
      if t1[k] != t2[k] {
        var x, y := t1[k], t2[k];
        DistinctRanked(s, t1, y, k);
        DistinctRanked(s, t2, x, k);
        OutranksAsymmetric(s, x, y);
        assert false;
      }
      assert t1[..k + 1] == t1[..k] + [t1[k]];
      assert t2[..k + 1] == t2[..k] + [t2[k]];
      k := k + 1;
    }
    if |t1| <= |t2| {
      RankedPrefixIsWhole(s, n, t1, t2);
    } else {
      RankedPrefixIsWhole(s, n, t2, t1);
    }
  }

  /** A list meeting the description of `most_common(n)` leaves nothing ranked after it. */
  lemma RankedPrefixIsWhole(s: seq<string>, n: nat, t1: seq<string>, t2: seq<string>)
    requires IsMostCommon(s, n, t1) && IsMostCommon(s, n, t2)
    requires |t1| <= |t2| && t1 == t2[..|t1|]
    ensures |t1| == |t2|
  {
    RankedHasNoRepeats(s, t2);
  }

  /** Nothing in a ranked list repeats an earlier element, since nothing outranks itself. */
  lemma RankedHasNoRepeats(s: seq<string>, t: seq<string>)
    requires forall a, b :: 0 <= a < b < |t| ==> Outranks(s, t[a], t[b])
    ensures forall m :: 0 <= m < |t| ==> t[m] !in t[..m]
  {
    forall m, j | 0 <= j < m < |t| ensures t[..m][j] != t[m] {
      assert Outranks(s, t[j], t[m]);
    }
  }

  /** In a ranked list, an element at position `k` is outranked by nothing after it. */
  lemma DistinctRanked(s: seq<string>, t: seq<string>, y: string, k: nat)
    requires forall a, b :: 0 <= a < b < |t| ==> Outranks(s, t[a], t[b])
    requires forall x :: x in s && x !in t ==> forall a :: 0 <= a < |t| ==> Outranks(s, t[a], x)
    requires k < |t| && y in s && y != t[k] && y !in t[..k]
    ensures Outranks(s, t[k], y)
  {
    if y in t {
      var j :| 0 <= j < |t| && t[j] == y;
      assert j > k;
    }
  }
}
