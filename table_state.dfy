/** The state both fill-in tables keep: the learner's entries, a row of seven cells per
    key, and the verdicts shown so far, a row of seven flags per key judged. */
module TableState {
  import opened Wrappers
  import opened Types

  /** The learner's entries, a row per key. */
  type Table = map<NoteName, seq<string>>

  /** The verdicts shown so far, a row per key judged. */
  type Feedback = map<NoteName, seq<bool>>

  predicate RowsOfSeven(table: Table) {
    forall r :: r in table ==> |table[r]| == 7
  }

  /** Every row has seven cells, and feedback is kept only for keys of the table, seven
      flags each. */
  predicate Shaped(table: Table, feedback: Feedback) {
    RowsOfSeven(table) && forall r :: r in feedback ==> r in table && |feedback[r]| == 7
  }

  /** The table after `text` is stored in cell (root, index) of a key that has a row. */
  function Store(table: Table, root: NoteName, index: nat, text: string): Table
    requires RowsOfSeven(table) && index < 7
  {
    if root in table then table[root := table[root][index := text]] else table
  }

  /** Storing keeps the keys and the row lengths, puts the text in its cell when the key
      has a row, and changes no other cell. */
  lemma StoreChangesOneCell(table: Table, root: NoteName, index: nat, text: string)
    requires RowsOfSeven(table) && index < 7
    ensures var t := Store(table, root, index, text);
      && (forall r :: r in t <==> r in table)
      && RowsOfSeven(t)
      && (root in table ==> t[root][index] == text)
      && (forall r, k :: r in t && 0 <= k < 7 && (r != root || k != index) ==> t[r][k] == table[r][k])
  {
  }

  /** The flags recorded for a key, or seven `false` for a key not judged yet. */
  function FeedbackRow(feedback: Feedback, root: NoteName): seq<bool> {
    if root in feedback then feedback[root] else [false, false, false, false, false, false, false]
  }

  /** The feedback after the flag of cell (root, index) is set to `verdict`, a key judged
      for the first time getting a row of `false` first. */
  function Flag(feedback: Feedback, root: NoteName, index: nat, verdict: bool): Feedback
    requires index < 7 && (root in feedback ==> |feedback[root]| == 7)
  {
    feedback[root := FeedbackRow(feedback, root)[index := verdict]]
  }

  /** Setting a flag adds the key if it was missing, sets that one flag, leaves the key's
      other flags as they were (or `false` for a new key), and leaves other keys alone. */
  lemma FlagSetsOneFlag(feedback: Feedback, root: NoteName, index: nat, verdict: bool)
    requires index < 7 && (root in feedback ==> |feedback[root]| == 7)
    ensures var f := Flag(feedback, root, index, verdict);
      && (forall r :: r in f <==> r in feedback || r == root)
      && |f[root]| == 7
      && f[root][index] == verdict
      && (forall k :: 0 <= k < 7 && k != index ==> f[root][k] == (root in feedback && feedback[root][k]))
      && (forall r :: r in feedback && r != root ==> f[r] == feedback[r])
  {
  }

  /** The right cells among positions 1 to `j - 1` of a row, a cell being right when it
      `matches` the answer at its position; position 0, degree I, is given and never
      counted. */
  function RowScore<T>(row: seq<string>, answers: seq<T>, matches: (string, T) -> bool, j: nat): (n: nat)
    requires j <= |row| && j <= |answers|
    ensures n <= if j == 0 then 0 else j - 1
  {
    if j == 0 then 0
    else RowScore(row, answers, matches, j - 1) + (if j - 1 != 0 && matches(row[j - 1], answers[j - 1]) then 1 else 0)
  }

  /** A row counts all its open cells exactly when each of them is right. */
  lemma {:induction false} RowScoreFull<T>(row: seq<string>, answers: seq<T>, matches: (string, T) -> bool, j: nat)
    requires 1 <= j <= |row| && j <= |answers|
    ensures RowScore(row, answers, matches, j) == j - 1 <==> forall k :: 1 <= k < j ==> matches(row[k], answers[k])
  {
    if j > 1 {
      RowScoreFull(row, answers, matches, j - 1);
      var prev := RowScore(row, answers, matches, j - 1);
      var hit := matches(row[j - 1], answers[j - 1]);
      assert RowScore(row, answers, matches, j) == prev + (if hit then 1 else 0);
      assert (forall k :: 1 <= k < j ==> matches(row[k], answers[k]))
         <==> (forall k :: 1 <= k < j - 1 ==> matches(row[k], answers[k])) && hit;
    }
  }

  /** A row none of whose open cells is right counts nothing. */
  lemma {:induction false} RowScoreNothing<T>(row: seq<string>, answers: seq<T>, matches: (string, T) -> bool, j: nat)
    requires j <= |row| && j <= |answers|
    requires forall k :: 1 <= k < j ==> !matches(row[k], answers[k])
    ensures RowScore(row, answers, matches, j) == 0
  {
    if j > 0 {
      RowScoreNothing(row, answers, matches, j - 1);
    }
  }

  /** Every open cell of a row is right, the answers being a row of seven. */
  predicate RowRight<T>(row: seq<string>, answers: Option<seq<T>>, matches: (string, T) -> bool)
    requires |row| == 7
  {
    answers.Some? && |answers.value| == 7 && forall k :: 1 <= k < 7 ==> matches(row[k], answers.value[k])
  }

  /** The right cells of one key's row, `answers` being the key's answers as looked up; a
      key without a row or without answers counts none. */
  function RootScore<T>(table: Table, root: NoteName, answers: Option<seq<T>>, matches: (string, T) -> bool): (n: nat)
    requires RowsOfSeven(table)
    ensures n <= 6
    ensures n == 6 <==> root in table && RowRight(table[root], answers, matches)
  {
    if root in table && answers.Some? && |answers.value| == 7 then
      RowScoreFull(table[root], answers.value, matches, 7);
      RowScore(table[root], answers.value, matches, 7)
    else
      0
  }

  /** The right cells of the rows of the first `i` keys of `roots`, each key's answers
      looked up in `key`. */
  function TableScore<T>(table: Table, roots: seq<NoteName>, key: NoteName -> Option<seq<T>>,
                         matches: (string, T) -> bool, i: nat): (n: nat)
    requires RowsOfSeven(table) && i <= |roots|
    ensures n <= 6 * i
  {
    if i == 0 then 0
    else TableScore(table, roots, key, matches, i - 1) + RootScore(table, roots[i - 1], key(roots[i - 1]), matches)
  }

  /** The first `i` rows score six each exactly when every one of them is right. */
  lemma {:induction false} TableScoreFull<T>(table: Table, roots: seq<NoteName>, key: NoteName -> Option<seq<T>>,
                                             matches: (string, T) -> bool, i: nat)
    requires RowsOfSeven(table) && i <= |roots|
    ensures TableScore(table, roots, key, matches, i) == 6 * i
        <==> forall k :: 0 <= k < i ==> roots[k] in table && RowRight(table[roots[k]], key(roots[k]), matches)
  {
    if i > 0 {
      TableScoreFull(table, roots, key, matches, i - 1);
      var r := roots[i - 1];
      var rowRight := r in table && RowRight(table[r], key(r), matches);
      assert TableScore(table, roots, key, matches, i)
          == TableScore(table, roots, key, matches, i - 1) + RootScore(table, r, key(r), matches);
      assert (forall k :: 0 <= k < i ==> roots[k] in table && RowRight(table[roots[k]], key(roots[k]), matches))
         <==> (forall k :: 0 <= k < i - 1 ==> roots[k] in table && RowRight(table[roots[k]], key(roots[k]), matches)) && rowRight;
    }
  }

  /** An instance of the hypothesis that no open cell could be right. */
  lemma CellNeverRight<T>(table: Table, matches: (string, T) -> bool, r: NoteName, k: nat, a: T)
    requires RowsOfSeven(table)
    requires forall r, k, a :: r in table && 1 <= k < 7 ==> !matches(table[r][k], a)
    requires r in table && 1 <= k < 7
    ensures !matches(table[r][k], a)
  {
  }

  /** A table no open cell of which could be right scores nothing. */
  lemma {:induction false} TableScoreNothing<T>(table: Table, roots: seq<NoteName>, key: NoteName -> Option<seq<T>>,
                                                matches: (string, T) -> bool, i: nat)
    requires RowsOfSeven(table) && i <= |roots|
    requires forall r, k, a :: r in table && 1 <= k < 7 ==> !matches(table[r][k], a)
    ensures TableScore(table, roots, key, matches, i) == 0
  {
    if i > 0 {
      TableScoreNothing(table, roots, key, matches, i - 1);
      var r, answers := roots[i - 1], key(roots[i - 1]);
      if r in table && answers.Some? && |answers.value| == 7 {
        forall k | 1 <= k < 7
          ensures !matches(table[r][k], answers.value[k])
        {
          CellNeverRight(table, matches, r, k, answers.value[k]);
        }
        RowScoreNothing(table[r], answers.value, matches, 7);
      }
    }
  }
}
