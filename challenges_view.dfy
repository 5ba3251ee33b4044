/** The daily challenges: three fixed goals whose progress is recomputed from today's
    entries of the history whenever the history changes. */
module ChallengesView {
  import opened Types
  import opened Text

  /** A daily goal: practise `category` until the progress reaches `target`. */
  datatype DailyChallenge = DailyChallenge(
    id: string,
    title: string,
    description: string,
    category: ExerciseCategory,
    target: int,
    current: int,
    xpReward: int,
    completed: bool)

  /** The three goals the screen starts with, none begun. */
  function InitialChallenges(): seq<DailyChallenge> {
    [DailyChallenge("1", "Mestre das Notas", "Identifique 5 notas corretamente no pentagrama.",
                    Notes, 5, 0, 50, false),
     DailyChallenge("2", "Explorador de Escalas", "Complete uma tabela de escala sem erros.",
                    Scales, 1, 0, 100, false),
     DailyChallenge("3", "Ouvido Absoluto", "Pratique intervalos por 3 minutos.",
                    Intervals, 3, 0, 75, false)]
  }

  /** `history.filter(keep)`. */
  function Filter(history: seq<HistoryEntry>, keep: HistoryEntry -> bool): (r: seq<HistoryEntry>)
    ensures |r| <= |history|
  {
    if history == [] then []
    else (if keep(history[0]) then [history[0]] else []) + Filter(history[1..], keep)
  }

  /** Filtering keeps exactly the entries that pass. */
  lemma {:induction false} FilterMembers(history: seq<HistoryEntry>, keep: HistoryEntry -> bool)
    ensures forall e :: e in Filter(history, keep) <==> e in history && keep(e)
  {
    if history != [] {
      FilterMembers(history[1..], keep);
      assert history == [history[0]] + history[1..];
    }
  }

  /** Entries dated on `today`, a `YYYY-MM-DD` prefix of their time stamp. */
  function OnDay(today: string): HistoryEntry -> bool {
    (e: HistoryEntry) => StartsWith(e.date, today)
  }

  /** Entries of one category. */
  function OfCategory(category: ExerciseCategory): HistoryEntry -> bool {
    (e: HistoryEntry) => e.category == category
  }

  /** The progress today's activity makes toward a goal: for the notes goal the number
      of today's notes exercises, for any other goal 1 if there was one of its category
      today and 0 otherwise. */
  function RawProgress(challenge: DailyChallenge, todayHistory: seq<HistoryEntry>): int {
    var relevant := Filter(todayHistory, OfCategory(challenge.category));
    if challenge.category == Notes then |relevant| else if |relevant| > 0 then 1 else 0
  }

  /** A goal with its progress recomputed: capped at the target, and complete once the
      target is reached. */
  function Refresh(challenge: DailyChallenge, todayHistory: seq<HistoryEntry>): DailyChallenge {
    var raw := RawProgress(challenge, todayHistory);
    challenge.(current := if raw < challenge.target then raw else challenge.target,
               completed := raw >= challenge.target)
  }

  /** Every goal refreshed from the entries of `today`. */
  function Recompute(prev: seq<DailyChallenge>, history: seq<HistoryEntry>, today: string): seq<DailyChallenge> {
    var todayHistory := Filter(history, OnDay(today));
    seq(|prev|, i requires 0 <= i < |prev| => Refresh(prev[i], todayHistory))
  }

  /** Recomputing keeps the goals themselves; the progress is today's raw progress capped
      at the target, and the goal is complete exactly when the raw progress reaches the
      target, that is, exactly when the recorded progress equals the target. */
  lemma RecomputeKeepsGoals(prev: seq<DailyChallenge>, history: seq<HistoryEntry>, today: string, i: nat)
    requires i < |prev|
    ensures var r := Recompute(prev, history, today);
      && |r| == |prev|
      && r[i].id == prev[i].id && r[i].title == prev[i].title && r[i].description == prev[i].description
      && r[i].category == prev[i].category && r[i].target == prev[i].target && r[i].xpReward == prev[i].xpReward
      && r[i].current <= r[i].target
      && (r[i].completed <==> r[i].current == r[i].target)
      && (prev[i].target >= 0 ==> r[i].current >= 0)
    ensures var raw := RawProgress(prev[i], Filter(history, OnDay(today)));
      var r := Recompute(prev, history, today);
      && r[i].current == (if raw < prev[i].target then raw else prev[i].target)
      && (r[i].completed <==> raw >= prev[i].target)
  {
  }

  /** A goal other than the notes goal is complete exactly when one of today's entries
      has its category, provided its target is 1. */
  lemma {:induction false} PresenceGoal(prev: seq<DailyChallenge>, history: seq<HistoryEntry>, today: string, i: nat)
    requires i < |prev| && prev[i].category != Notes && prev[i].target == 1
    ensures Recompute(prev, history, today)[i].completed
        <==> exists k :: 0 <= k < |history| && history[k].category == prev[i].category
                                            && StartsWith(history[k].date, today)
  {
    var todayHistory := Filter(history, OnDay(today));
    var relevant := Filter(todayHistory, OfCategory(prev[i].category));
    FilterMembers(history, OnDay(today));
    FilterMembers(todayHistory, OfCategory(prev[i].category));
    if |relevant| > 0 {
      assert relevant[0] in relevant;
      var k :| 0 <= k < |history| && history[k] == relevant[0];
    }
    if exists k :: 0 <= k < |history| && history[k].category == prev[i].category && StartsWith(history[k].date, today) {
      var k :| 0 <= k < |history| && history[k].category == prev[i].category && StartsWith(history[k].date, today);
      assert history[k] in relevant;
    }
  }

  /** The scales goal is met exactly on a day with a scales exercise. */
  lemma ScalesGoalMetByOneExercise(history: seq<HistoryEntry>, today: string)
    ensures Recompute(InitialChallenges(), history, today)[1].completed
        <==> exists k :: 0 <= k < |history| && history[k].category == Scales && StartsWith(history[k].date, today)
  {
    PresenceGoal(InitialChallenges(), history, today, 1);
  }

  /** A goal other than the notes goal counts at most 1, so with a target above 1 it is
      never complete. */
  lemma PresenceGoalAboveOneNeverMet(prev: seq<DailyChallenge>, history: seq<HistoryEntry>, today: string, i: nat)
    requires i < |prev| && prev[i].category != Notes && prev[i].target > 1
    ensures Recompute(prev, history, today)[i].current <= 1
    ensures !Recompute(prev, history, today)[i].completed
  {
  }

  /** The intervals goal, three minutes of practice, can never be met: any number of
      interval exercises today counts as 1. */
  lemma IntervalsGoalNeverMet(history: seq<HistoryEntry>, today: string)
    ensures !Recompute(InitialChallenges(), history, today)[2].completed
  {
    PresenceGoalAboveOneNeverMet(InitialChallenges(), history, today, 2);
  }

  /** The notes goal counts today's notes exercises up to 5 and is met at the fifth. */
  lemma NotesGoalCountsExercises(history: seq<HistoryEntry>, today: string)
    ensures var n := |Filter(Filter(history, OnDay(today)), OfCategory(Notes))|;
      var r := Recompute(InitialChallenges(), history, today)[0];
      r.current == (if n < 5 then n else 5) && (r.completed <==> n >= 5)
  {
  }

  /** Activity on another day does not change any goal's progress. */
  lemma {:induction false} OtherDaysIgnored(prev: seq<DailyChallenge>, history: seq<HistoryEntry>,
                                            entry: HistoryEntry, today: string)
    requires !StartsWith(entry.date, today)
    ensures Recompute(prev, history + [entry], today) == Recompute(prev, history, today)
  {
    FilterAppend(history, [entry], OnDay(today));
    assert Filter([entry], OnDay(today)) == [];
    assert Filter(history, OnDay(today)) + [] == Filter(history, OnDay(today));
  }

  /** Filtering distributes over concatenation. */
  lemma {:induction false} FilterAppend(a: seq<HistoryEntry>, b: seq<HistoryEntry>, keep: HistoryEntry -> bool)
    ensures Filter(a + b, keep) == Filter(a, keep) + Filter(b, keep)
  {
    if a == [] {
      assert a + b == b;
    } else {
      assert (a + b)[0] == a[0] && (a + b)[1..] == a[1..] + b;
      FilterAppend(a[1..], b, keep);
      var head := if keep(a[0]) then [a[0]] else [];
      calc {
        Filter(a + b, keep);
        head + Filter(a[1..] + b, keep);
        head + (Filter(a[1..], keep) + Filter(b, keep));
        (head + Filter(a[1..], keep)) + Filter(b, keep);
      }
    }
  }

  /** Recomputing twice from the same history is recomputing once: progress depends only
      on the goal and today's entries. */
  lemma RecomputeIdempotent(prev: seq<DailyChallenge>, history: seq<HistoryEntry>, today: string)
    ensures Recompute(Recompute(prev, history, today), history, today) == Recompute(prev, history, today)
  {
  }
}
