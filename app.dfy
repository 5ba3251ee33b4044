/** The application shell: which screen is shown, which exercise is running, and the
    user's statistics, which every completed exercise updates. */
module App {
  import opened Wrappers
  import opened Types
  import opened Text
  import opened ProgressView

  /** The statistics a new user starts with. */
  function BlankStats(): UserStats {
    UserStats(Some(""), 0, 1, 0, [])
  }

  /** `Math.floor(xp / 100) + 1`: a level per hundred points, from level 1. */
  function LevelFor(xp: int): (level: int)
    ensures 100 * (level - 1) <= xp < 100 * level
    ensures xp >= 0 ==> level >= 1
  {
    xp / 100 + 1
  }

  /** More experience never means a lower level. */
  lemma LevelMonotone(a: int, b: int)
    requires a <= b
    ensures LevelFor(a) <= LevelFor(b)
  {
  }

  /** `now.split('T')[0]`: the `YYYY-MM-DD` day of an ISO time stamp. */
  function DayOf(now: string): (day: string)
    ensures StartsWith(now, day)
  {
    FirstField(now, 'T')
  }

  /** Some recorded activity is dated on `today`. */
  predicate ActiveOn(history: seq<HistoryEntry>, today: string) {
    exists k :: 0 <= k < |history| && StartsWith(history[k].date, today)
  }

  /** The statistics after an exercise of `category` scores `score` at time `now`. */
  function CompleteExercise(stats: UserStats, score: int, now: string, category: ExerciseCategory): UserStats {
    var newXp := stats.xp + score;
    stats.(xp := newXp,
           level := LevelFor(newXp),
           streak := if ActiveOn(stats.history, DayOf(now)) then stats.streak else stats.streak + 1,
           history := stats.history + [HistoryEntry(now, score, category)])
  }

  /** A completion adds the score to the experience, sets the level from the new
      experience, appends one entry and keeps the earlier ones, and keeps the name. */
  lemma CompletionRecordsScore(stats: UserStats, score: int, now: string, category: ExerciseCategory)
    ensures var r := CompleteExercise(stats, score, now, category);
      && r.xp == stats.xp + score
      && 100 * (r.level - 1) <= r.xp < 100 * r.level
      && |r.history| == |stats.history| + 1
      && r.history[..|stats.history|] == stats.history
      && r.history[|stats.history|] == HistoryEntry(now, score, category)
      && r.name == stats.name
  {
    var r := CompleteExercise(stats, score, now, category);
    assert r.history[..|stats.history|] == stats.history;
  }

  /** A non-negative score never lowers the level of consistent statistics. */
  lemma LevelNeverDrops(stats: UserStats, score: int, now: string, category: ExerciseCategory)
    requires stats.level == LevelFor(stats.xp) && score >= 0
    ensures CompleteExercise(stats, score, now, category).level >= stats.level
  {
    LevelMonotone(stats.xp, stats.xp + score);
  }

  /** The streak grows by one on the first completion of a day and stays otherwise. */
  lemma StreakCountsDays(stats: UserStats, score: int, now: string, category: ExerciseCategory)
    ensures var r := CompleteExercise(stats, score, now, category);
      && (r.streak == stats.streak <==> ActiveOn(stats.history, DayOf(now)))
      && (r.streak == stats.streak + 1 <==> !ActiveOn(stats.history, DayOf(now)))
  {
  }

  /** A second completion on the same day keeps the streak. */
  lemma SameDayKeepsStreak(stats: UserStats, a: int, now1: string, c1: ExerciseCategory,
                           b: int, now2: string, c2: ExerciseCategory)
    requires DayOf(now1) == DayOf(now2)
    ensures var once := CompleteExercise(stats, a, now1, c1);
      CompleteExercise(once, b, now2, c2).streak == once.streak
  {
    var once := CompleteExercise(stats, a, now1, c1);
    var k := |stats.history|;
    assert once.history[k].date == now1;
    assert StartsWith(once.history[k].date, DayOf(now2));
  }

  /** The points of every recorded exercise. */
  function ScoreTotal(history: seq<HistoryEntry>): int {
    if history == [] then 0 else ScoreTotal(history[..|history| - 1]) + history[|history| - 1].score
  }

  /** The experience is the sum of the recorded scores and the level follows from it. */
  predicate Consistent(stats: UserStats) {
    stats.xp == ScoreTotal(stats.history) && stats.level == LevelFor(stats.xp)
  }

  /** A new user's statistics are consistent, and every completion keeps them so. */
  lemma {:induction false} CompletionKeepsConsistent(stats: UserStats, score: int, now: string, category: ExerciseCategory)
    ensures Consistent(BlankStats())
    ensures Consistent(stats) ==> Consistent(CompleteExercise(stats, score, now, category))
  {
    var h := stats.history + [HistoryEntry(now, score, category)];
    assert h[..|h| - 1] == stats.history;
  }

  /** The experience the progress chart accounts for: every point except those of the
      scale-table exercise, which the chart does not track. */
  lemma {:induction false} ChartAccountsForScores(history: seq<HistoryEntry>)
    ensures ScoreTotal(history)
         == CategoryTotal(history, Notes) + CategoryTotal(history, Scales) + CategoryTotal(history, Harmony)
            + CategoryTotal(history, Intervals) + CategoryTotal(history, ScaleTable)
  {
    if history != [] {
      ChartAccountsForScores(history[..|history| - 1]);
    }
  }

  /** The state of the shell that the exercise flow touches. */
  class Shell {
    var currentView: ViewState
    var activeCategory: Option<ExerciseCategory>
    var stats: UserStats

    /** Start-up: the study screen, no exercise running, blank statistics. */
    constructor ()
      ensures currentView == Study && activeCategory == None && stats == BlankStats()
    {
      currentView := Study;
      activeCategory := None;
      stats := BlankStats();
    }

    /** Starting an exercise of `category` shows the exercise screen. */
    method StartExercise(category: ExerciseCategory)
      modifies this
      ensures activeCategory == Some(category) && currentView == ExerciseScreen
      ensures stats == old(stats)
    {
      activeCategory := Some(category);
      currentView := ExerciseScreen;
    }

    /** Finishing the running exercise with `score` at time `now`: the statistics record
        it, and the study screen returns with no exercise running. */
    method HandleExerciseComplete(score: int, now: string)
      requires activeCategory.Some?
      modifies this
      ensures stats == CompleteExercise(old(stats), score, now, old(activeCategory).value)
      ensures currentView == Study && activeCategory == None
      ensures Consistent(old(stats)) ==> Consistent(stats)
    {
      CompletionKeepsConsistent(stats, score, now, activeCategory.value);
      stats := CompleteExercise(stats, score, now, activeCategory.value);
      currentView := Study;
      activeCategory := None;
    }
  }
}
