/** The scale table drill: one row per key of the chosen mode, degree I given, degrees
    II to VII typed in by the learner. Each edit is judged at once; checking the whole
    table counts the right cells and scores 100 only when all 72 are right. */
module ScaleTableExercise {
  import opened Wrappers
  import opened Types
  import opened Constants
  import opened Text
  import opened TableState

  /** The verdict on an entry: it spells the expected degree, letter case aside. */
  predicate Matches(entry: string, expected: NoteName) {
    Upper(entry) == Upper(Spelling(expected))
  }

  /** The verdict on a typed value: its trimmed text matches the expected degree. */
  predicate Verdict(value: string, expected: NoteName) {
    Matches(Trim(value), expected)
  }

  /** An upper-cased spelling is its letter followed by its upper-cased sign. */
  lemma UpperSpelling(n: NoteName)
    ensures Upper(Spelling(n)) == [Letter(n)] + Upper(Sign(AccidentalOf(n)))
  {
    SpellingParts(n);
    UpperConcat([Letter(n)], Sign(AccidentalOf(n)));
  }

  /** Upper-casing keeps the three accidental signs apart. */
  lemma UpperSignsDiffer(x: Accidental, y: Accidental)
    requires Upper(Sign(x)) == Upper(Sign(y))
    ensures x == y
  {
    assert Upper("") == "";
    assert Upper("#") == "#";
    assert Upper("b") == "B";
  }

  /** Ignoring letter case never confuses two notes: the spelling of a note matches the
      expected degree exactly when it is that degree. */
  lemma {:induction false} SpellingsMatchOnlyTheirNote(n: NoteName, expected: NoteName)
    ensures Matches(Spelling(n), expected) <==> n == expected
  {
    if Matches(Spelling(n), expected) {
      UpperSpelling(n);
      UpperSpelling(expected);
      var u := Upper(Spelling(n));
      assert Letter(n) == u[0] == Letter(expected);
      assert Upper(Sign(AccidentalOf(n))) == u[1..] == Upper(Sign(AccidentalOf(expected)));
      UpperSignsDiffer(AccidentalOf(n), AccidentalOf(expected));
      PartsDetermineNote(n, expected);
    }
  }

  /** The letter case of an entry does not affect its verdict: "db", "DB" and "Db" are
      judged alike. */
  lemma CaseIsIgnored(entry: string, expected: NoteName)
    ensures Matches(Lower(entry), expected) <==> Matches(entry, expected)
    ensures Matches(Upper(entry), expected) <==> Matches(entry, expected)
  {
    UpperForgetsCase(entry);
  }

  /** An entry of white space alone trims to nothing, which matches no degree. */
  lemma BlankNeverMatches(value: string, expected: NoteName)
    requires AllSpace(value)
    ensures !Matches(Trim(value), expected)
  {
    TrimAllSpace(value);
    SpellingStartsWithLetter(expected);
  }

  /** The row a key starts with: its own name as degree I, the six other cells empty. */
  function BlankRow(root: NoteName): seq<string> {
    [Spelling(root), "", "", "", "", "", ""]
  }

  /** The table as set up for a mode: a blank row for each of its keys and nothing else. */
  predicate Initial(table: Table, mode: Mode) {
    (forall r :: r in table <==> r in Keys(mode))
    && (forall r :: r in table ==> table[r] == BlankRow(r))
  }

  /** Degree `index` of the key's scale in the mode, when the key is tabulated. */
  function Expected(mode: Mode, root: NoteName, index: nat): Option<NoteName> {
    match ScaleOf(mode, root)
    case None => None
    case Some(scale) => if index < |scale| then Some(scale[index]) else None
  }

  /** For every key the table lists, each of its seven degrees can be looked up. */
  lemma LookupNeverFails(mode: Mode, root: NoteName, index: nat)
    requires root in Keys(mode) && index < 7
    ensures ScaleOf(mode, root).Some? && |ScaleOf(mode, root).value| == 7
    ensures Expected(mode, root, index) == Some(ScaleOf(mode, root).value[index])
  {
    KeysAreTabulated(mode, root);
    ScaleRowsFollowPattern(mode, root, index);
  }

  /** The feedback after typing `value` into cell (root, index), `expected` being the
      degree looked up for that cell: for a key with a row, a degree that was found and
      a non-empty value, the cell's flag becomes the verdict on the value. */
  function Judge(table: Table, feedback: Feedback, root: NoteName, index: nat, value: string,
                 expected: Option<NoteName>): Feedback
    requires Shaped(table, feedback) && index < 7
  {
    if root in table && |value| > 0 && expected.Some? then
      Flag(feedback, root, index, Verdict(value, expected.value))
    else
      feedback
  }

  /** Typing a note's spelling, in any letter case and with any padding, into a cell of
      a key with a row marks the cell right exactly when that note is the degree looked
      up for the cell. */
  lemma EntryJudgedByNote(table: Table, feedback: Feedback, root: NoteName, index: nat,
                          value: string, n: NoteName, degree: NoteName)
    requires Shaped(table, feedback) && index < 7
    requires root in table && Upper(Trim(value)) == Upper(Spelling(n))
    ensures var f := Judge(table, feedback, root, index, value, Some(degree));
      root in f && |f[root]| == 7 && (f[root][index] <==> n == degree)
  {
    assert |value| > 0 by {
      SpellingStartsWithLetter(n);
      assert |Trim(value)| > 0;
    }
    FlagSetsOneFlag(feedback, root, index, Verdict(value, degree));
    SpellingsMatchOnlyTheirNote(n, degree);
  }

  /** Typing white space alone into a cell of a key with a row marks it wrong, whatever
      degree is looked up. */
  lemma BlankEntryMarkedWrong(table: Table, feedback: Feedback, root: NoteName, index: nat,
                              value: string, degree: NoteName)
    requires Shaped(table, feedback) && index < 7
    requires root in table && |value| > 0 && AllSpace(value)
    ensures var f := Judge(table, feedback, root, index, value, Some(degree));
      root in f && |f[root]| == 7 && !f[root][index]
  {
    FlagSetsOneFlag(feedback, root, index, Verdict(value, degree));
    BlankNeverMatches(value, degree);
  }

  /** Clearing a cell leaves its flag as it was. */
  lemma EmptyEntryKeepsFlag(table: Table, feedback: Feedback, root: NoteName, index: nat,
                            expected: Option<NoteName>)
    requires Shaped(table, feedback) && index < 7
    ensures Judge(table, feedback, root, index, "", expected) == feedback
  {
  }

  /** The scale table of a mode, as a lookup by key. */
  function AnswerKey(mode: Mode): NoteName -> Option<seq<NoteName>> {
    r => ScaleOf(mode, r)
  }

  /** A freshly set-up table has no right cell. */
  lemma BlankTableScoresNothing(table: Table, mode: Mode)
    requires Initial(table, mode)
    ensures RowsOfSeven(table)
    ensures TableScore(table, Keys(mode), AnswerKey(mode), Matches, |Keys(mode)|) == 0
  {
    forall r, k, a | r in table && 1 <= k < 7
      ensures !Matches(table[r][k], a)
    {
      SpellingStartsWithLetter(a);
    }
    TableScoreNothing(table, Keys(mode), AnswerKey(mode), Matches, |Keys(mode)|);
  }

  /** Counts the right cells among degrees II to VII of a row. */
  method CountRow(row: seq<string>, scale: seq<NoteName>) returns (n: nat)
    requires |row| == 7 && |scale| == 7
    ensures n == RowScore(row, scale, Matches, 7)
  {
    n := 0;
    var j := 0;
    while j < |row|
      invariant j <= |row|
      invariant n == RowScore(row, scale, Matches, j)
    {
      if j != 0 && Upper(row[j]) == Upper(Spelling(scale[j])) {
        n := n + 1;
      }
      j := j + 1;
    }
  }

  /** Counts the right cells of the rows of the keys `roots`, each key's scale looked up
      in `scales`; a key without a row or without a scale counts none. */
  method CountTable(table: Table, roots: seq<NoteName>, scales: NoteName -> Option<seq<NoteName>>) returns (n: nat)
    requires RowsOfSeven(table)
    ensures n == TableScore(table, roots, scales, Matches, |roots|)
  {
    n := 0;
    var i := 0;
    while i < |roots|
      invariant i <= |roots|
      invariant n == TableScore(table, roots, scales, Matches, i)
    {
      var r := roots[i];
      var scale := scales(r);
      if scale.Some? && |scale.value| == 7 && r in table {
        var count := CountRow(table[r], scale.value);
        n := n + count;
      }
      i := i + 1;
    }
  }

  /** The state of the scale table screen. */
  class ScaleTable {
    var mode: Mode
    var table: Table
    var feedback: Feedback

    /** Every row has seven cells, and feedback exists only for keys with a row. */
    ghost predicate Valid()
      reads this
    {
      Shaped(table, feedback)
    }

    /** The table has a row for exactly the keys of the mode: set up by every reset, and
        kept by every edit, whose new table is a `Store` into the old one. */
    ghost predicate Keyed()
      reads this
    {
      forall r :: r in table <==> r in Keys(mode)
    }

    /** Mounting the screen: the major table, freshly set up. */
    constructor ()
      ensures Valid() && Keyed()
      ensures mode == Major && Initial(table, Major) && feedback == map[]
    {
      mode := Major;
      table := map[];
      feedback := map[];
      new;
      Reset();
    }

    /** The set-up effect: a blank row for each key of the mode, and no feedback. */
    method Reset()
      modifies this
      ensures Valid() && Keyed()
      ensures mode == old(mode) && Initial(table, mode) && feedback == map[]
    {
      var roots := Keys(mode);
      var initial: Table := map[];
      var i := 0;
      while i < |roots|
        invariant i <= |roots|
        invariant forall r :: r in initial <==> r in roots[..i]
        invariant forall r :: r in initial ==> initial[r] == BlankRow(r)
      {
        assert roots[..i + 1] == roots[..i] + [roots[i]];
        initial := initial[roots[i] := BlankRow(roots[i])];
        i := i + 1;
      }
      assert roots[..i] == roots;
      table := initial;
      feedback := map[];
    }

    /** Choosing a mode: a different mode sets the table up afresh; choosing the current
        one changes nothing. */
    method SetMode(m: Mode)
      requires Valid() && Keyed()
      modifies this
      ensures Valid() && Keyed() && mode == m
      ensures m == old(mode) ==> table == old(table) && feedback == old(feedback)
      ensures m != old(mode) ==> Initial(table, m) && feedback == map[]
    {
      if m != mode {
        mode := m;
        Reset();
      }
    }

    /** Storing an entry: the trimmed value goes into cell (root, index) of a known key. */
    method StoreEntry(root: NoteName, index: nat, value: string)
      requires Valid() && index < 7 && root in table
      modifies this
      ensures Valid() && mode == old(mode) && feedback == old(feedback)
      ensures table == Store(old(table), root, index, Trim(value))
    {
      StoreChangesOneCell(table, root, index, Trim(value));
      table := Store(table, root, index, Trim(value));
    }

    /** Recording a verdict: the flag of cell (root, index) is set, a key without flags
        getting a row of `false` first. */
    method SetFlag(root: NoteName, index: nat, flag: bool)
      requires Valid() && index < 7 && root in table
      modifies this
      ensures Valid() && mode == old(mode) && table == old(table)
      ensures feedback == Flag(old(feedback), root, index, flag)
    {
      var row := if root in feedback then feedback[root] else [false, false, false, false, false, false, false];
      feedback := feedback[root := row[index := flag]];
    }

    /** Typing `value` into cell (root, index): the table and the feedback become the
        edited and judged ones, and a right entry sounds the expected degree. */
    method HandleInputChange(root: NoteName, index: nat, value: string) returns (sounded: Option<NoteName>)
      requires Valid() && index < 7
      modifies this
      ensures Valid() && mode == old(mode)
      ensures table == Store(old(table), root, index, Trim(value))
      ensures feedback == Judge(old(table), old(feedback), root, index, value, Expected(mode, root, index))
      ensures var e := Expected(mode, root, index);
        sounded == if root in old(table) && e.Some? && |value| > 0 && Verdict(value, e.value) then e else None
    {
      sounded := None;
      if root in table {
        StoreEntry(root, index, value);
        var expected := Expected(mode, root, index);
        if expected.Some? && |value| > 0 {
          var isCorrect := Verdict(value, expected.value);
          if isCorrect {
            sounded := expected;
          }
          SetFlag(root, index, isCorrect);
        }
      }
    }

    /** Checking the table: counts the right cells of degrees II to VII over all keys.
        All 72 right (every row right) reports a score of 100; otherwise only the count
        is given. Nothing changes. */
    method CheckAll() returns (correctCount: nat, completed: Option<nat>)
      requires Valid()
      ensures correctCount == TableScore(table, Keys(mode), AnswerKey(mode), Matches, |Keys(mode)|)
      ensures correctCount <= 72
      ensures correctCount == 72 <==>
                forall r :: r in Keys(mode) ==> r in table && RowRight(table[r], ScaleOf(mode, r), Matches)
      ensures completed.Some? <==> correctCount == 72
      ensures completed.Some? ==> completed.value == 100
    {
      var roots := Keys(mode);
      var scales := AnswerKey(mode);
      var totalFields := |roots| * 6;
      correctCount := CountTable(table, roots, scales);
      TableScoreFull(table, roots, scales, Matches, |roots|);
      assert (forall k :: 0 <= k < |roots| ==> roots[k] in table && RowRight(table[roots[k]], scales(roots[k]), Matches))
         <==> (forall r :: r in roots ==> r in table && RowRight(table[r], ScaleOf(mode, r), Matches));
      if correctCount == totalFields {
        completed := Some(100);
      } else {
        completed := None;
      }
    }
  }
}
