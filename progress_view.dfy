/** The progress screen: points per exercise category, each shown as a share of the
    largest total (at least 500), and the five most recent activities, newest first. */
module ProgressView {
  import opened Types

  /** The categories the mastery chart tracks, in the order it lists them; scale-table
      activity is not among them. */
  const Tracked: seq<ExerciseCategory> := [Notes, Scales, Harmony, Intervals]

  /** The points scored in `category` over the whole history. */
  function CategoryTotal(history: seq<HistoryEntry>, category: ExerciseCategory): int {
    if history == [] then 0
    else
      var last := history[|history| - 1];
      CategoryTotal(history[..|history| - 1], category) + (if last.category == category then last.score else 0)
  }

  /** Activity in a category adds to that category's total alone. */
  lemma {:induction false} TotalAfter(history: seq<HistoryEntry>, entry: HistoryEntry, category: ExerciseCategory)
    ensures CategoryTotal(history + [entry], category)
         == CategoryTotal(history, category) + (if entry.category == category then entry.score else 0)
  {
    assert (history + [entry])[..|history|] == history;
  }

  /** With no negative scores, no total is negative. */
  lemma {:induction false} TotalNotNegative(history: seq<HistoryEntry>, category: ExerciseCategory)
    requires forall k :: 0 <= k < |history| ==> history[k].score >= 0
    ensures CategoryTotal(history, category) >= 0
  {
    if history != [] {
      TotalNotNegative(history[..|history| - 1], category);
    }
  }

  /** Sums the history's points per tracked category, in one pass; entries of other
      categories are passed over. */
  method Totals(history: seq<HistoryEntry>) returns (totals: map<ExerciseCategory, int>)
    ensures totals.Keys == {Notes, Scales, Harmony, Intervals}
    ensures forall c :: c in totals ==> totals[c] == CategoryTotal(history, c)
  {
    totals := map[Notes := 0, Scales := 0, Harmony := 0, Intervals := 0];
    var i := 0;
    while i < |history|
      invariant i <= |history|
      invariant totals.Keys == {Notes, Scales, Harmony, Intervals}
      invariant forall c :: c in totals ==> totals[c] == CategoryTotal(history[..i], c)
    {
      var h := history[i];
      assert history[..i + 1] == history[..i] + [h];
      forall c | c in totals {
        TotalAfter(history[..i], h, c);
      }
      if h.category in totals {
        totals := totals[h.category := totals[h.category] + h.score];
      }
      i := i + 1;
    }
    assert history[..i] == history;
  }

  /** `Math.max(...values, floor)`. */
  function MaxOf(values: seq<int>, floor: int): (m: int)
    ensures m >= floor && forall k :: 0 <= k < |values| ==> values[k] <= m
    ensures m == floor || exists k :: 0 <= k < |values| && values[k] == m
  {
    if values == [] then floor
    else
      var rest := MaxOf(values[1..], floor);
      if values[0] > rest then values[0] else rest
  }

  /** The tracked totals, in chart order. */
  function TrackedTotals(history: seq<HistoryEntry>): (r: seq<int>)
    ensures |r| == 4 && forall i :: 0 <= i < 4 ==> r[i] == CategoryTotal(history, Tracked[i])
  {
    [CategoryTotal(history, Notes), CategoryTotal(history, Scales),
     CategoryTotal(history, Harmony), CategoryTotal(history, Intervals)]
  }

  /** The total a full bar stands for: the largest tracked total, and at least 500. */
  function MaxScore(history: seq<HistoryEntry>): int {
    MaxOf(TrackedTotals(history), 500)
  }

  /** `Math.min(score / maxScore * 100, 100)`, in exact arithmetic. */
  function Percentage(score: int, maxScore: int): real
    requires maxScore > 0
  {
    var p := score as real / maxScore as real * 100.0;
    if p < 100.0 then p else 100.0
  }

  /** One bar of the chart. */
  datatype Mastery = Mastery(name: ExerciseCategory, score: int, percentage: real)

  /** The chart: a bar per tracked category, in order, with its total and its share. */
  method CategoryMastery(history: seq<HistoryEntry>) returns (mastery: seq<Mastery>)
    ensures |mastery| == 4
    ensures forall i :: 0 <= i < 4 ==>
              mastery[i].name == Tracked[i] && mastery[i].score == CategoryTotal(history, Tracked[i])
              && mastery[i].percentage == Percentage(mastery[i].score, MaxScore(history))
  {
    var totals := Totals(history);
    var maxScore := MaxOf([totals[Notes], totals[Scales], totals[Harmony], totals[Intervals]], 500);
    assert [totals[Notes], totals[Scales], totals[Harmony], totals[Intervals]] == TrackedTotals(history);
    mastery := [];
    var i := 0;
    while i < |Tracked|
      invariant i <= |Tracked| && |mastery| == i
      invariant forall j :: 0 <= j < i ==>
                  mastery[j].name == Tracked[j] && mastery[j].score == CategoryTotal(history, Tracked[j])
                  && mastery[j].percentage == Percentage(mastery[j].score, maxScore)
    {
      var cat := Tracked[i];
      var score := totals[cat];
      mastery := mastery + [Mastery(cat, score, Percentage(score, maxScore))];
      i := i + 1;
    }
  }

  /** The full bar stands for at least 500 points and for no less than any tracked total. */
  lemma MaxScoreBounds(history: seq<HistoryEntry>, category: ExerciseCategory)
    requires category in Tracked
    ensures MaxScore(history) >= 500 && MaxScore(history) >= CategoryTotal(history, category)
  {
    var totals := TrackedTotals(history);
    assert category == Tracked[0] || category == Tracked[1] || category == Tracked[2] || category == Tracked[3];
  }

  /** A score no greater than the full bar takes its exact share of 100, below the cap. */
  lemma ShareBelowCap(score: int, maxScore: int)
    requires 0 < maxScore && score <= maxScore
    ensures Percentage(score, maxScore) == score as real / maxScore as real * 100.0
    ensures Percentage(score, maxScore) <= 100.0
    ensures score >= 0 ==> Percentage(score, maxScore) >= 0.0
  {
    var q := score as real / maxScore as real;
    assert q * maxScore as real == score as real;
  }

  /** A share is the exact percentage of the full bar: the cap at 100 never comes into
      play, and with no negative scores a share lies between 0 and 100. */
  lemma PercentageOfTotal(history: seq<HistoryEntry>, category: ExerciseCategory)
    requires category in Tracked
    ensures var m := MaxScore(history); var s := CategoryTotal(history, category);
      m > 0 && Percentage(s, m) == s as real / m as real * 100.0 && Percentage(s, m) <= 100.0
    ensures (forall k :: 0 <= k < |history| ==> history[k].score >= 0) ==>
              Percentage(CategoryTotal(history, category), MaxScore(history)) >= 0.0
  {
    MaxScoreBounds(history, category);
    ShareBelowCap(CategoryTotal(history, category), MaxScore(history));
    if forall k :: 0 <= k < |history| ==> history[k].score >= 0 {
      TotalNotNegative(history, category);
    }
  }

  /** A scale-table activity leaves every bar of the chart as it was. */
  lemma ScaleTableNotCharted(history: seq<HistoryEntry>, entry: HistoryEntry)
    requires entry.category == ScaleTable
    ensures TrackedTotals(history + [entry]) == TrackedTotals(history)
    ensures MaxScore(history + [entry]) == MaxScore(history)
  {
    TotalAfter(history, entry, Notes);
    TotalAfter(history, entry, Scales);
    TotalAfter(history, entry, Harmony);
    TotalAfter(history, entry, Intervals);
  }

  /** `s.reverse()`. */
  function Reverse(s: seq<HistoryEntry>): (r: seq<HistoryEntry>)
    ensures |r| == |s|
  {
    if s == [] then [] else Reverse(s[1..]) + [s[0]]
  }

  /** Reversing puts the element `i` places from the end at position `i`. */
  lemma {:induction false} ReverseAt(s: seq<HistoryEntry>, i: nat)
    requires i < |s|
    ensures Reverse(s)[i] == s[|s| - 1 - i]
  {
    if i < |s| - 1 {
      ReverseAt(s[1..], i);
    }
  }

  /** `history.slice(-5).reverse()`: the recent activity list. */
  function Recent(history: seq<HistoryEntry>): seq<HistoryEntry> {
    var n := if |history| < 5 then |history| else 5;
    Reverse(history[|history| - n..])
  }

  /** The recent list holds the last five activities, or all of them when there are
      fewer, the newest first. */
  lemma RecentIsNewestFirst(history: seq<HistoryEntry>)
    ensures |Recent(history)| == if |history| < 5 then |history| else 5
    ensures forall i :: 0 <= i < |Recent(history)| ==> Recent(history)[i] == history[|history| - 1 - i]
  {
    var n := if |history| < 5 then |history| else 5;
    forall i | 0 <= i < n
      ensures Recent(history)[i] == history[|history| - 1 - i]
    {
      ReverseAt(history[|history| - n..], i);
    }
  }
}
