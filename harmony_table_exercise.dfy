/** The harmonic field drill: one row per key of the chosen mode, the chord on degree I
    given, the chords on degrees II to VII typed in by the learner. Each edit is judged
    at once, a right chord sounding its root; checking the whole table counts the right
    cells and scores 100 only when all 72 are right. */
module HarmonyTableExercise {
  import opened Wrappers
  import opened Types
  import opened Constants
  import opened Text
  import opened TableState

  /** A text names the expected chord, letter case aside. */
  predicate SameChord(text: string, expected: Chord) {
    Lower(text) == Lower(ChordSymbol(expected))
  }

  /** The verdict on a typed value: its trimmed text names the expected chord. Entries are
      stored as typed, so the check trims them too. */
  predicate Matches(value: string, expected: Chord) {
    SameChord(Trim(value), expected)
  }

  /** A lower-cased chord symbol is its lower-cased letter, its lower-cased accidental sign
      and its quality suffix. */
  lemma LowerChordSymbol(ch: Chord)
    ensures Lower(ChordSymbol(ch)) == [LowerChar(Letter(ch.root))] + (Lower(Sign(AccidentalOf(ch.root))) + Suffix(ch))
  {
    SpellingParts(ch.root);
    LowerConcat(Spelling(ch.root), Suffix(ch));
    LowerConcat([Letter(ch.root)], Sign(AccidentalOf(ch.root)));
    assert Lower(Suffix(ch)) == Suffix(ch) by {
      assert Lower("") == "" && Lower("m") == "m" && Lower("md") == "md";
    }
  }

  /** Accidental signs are written in lower case already. */
  lemma SignIsLowerCase(x: Accidental)
    ensures Lower(Sign(x)) == Sign(x)
  {
    assert Lower("") == "" && Lower("#") == "#" && Lower("b") == "b";
  }

  /** The accidental a sign-and-suffix tail starts with. */
  function TailAccidental(tail: string): Accidental {
    if |tail| > 0 && tail[0] == '#' then Sharp
    else if |tail| > 0 && tail[0] == 'b' then Flat
    else Natural
  }

  /** A sign followed by a quality suffix is read back as that sign, since no suffix
      starts with "#" or "b". */
  lemma TailAccidentalOf(x: Accidental, ch: Chord)
    ensures TailAccidental(Sign(x) + Suffix(ch)) == x
  {
  }

  /** What follows the letter, lower-cased, tells the accidental and the quality apart. */
  lemma TailsDiffer(a: Chord, b: Chord)
    requires Lower(Sign(AccidentalOf(a.root))) + Suffix(a) == Lower(Sign(AccidentalOf(b.root))) + Suffix(b)
    ensures AccidentalOf(a.root) == AccidentalOf(b.root) && Suffix(a) == Suffix(b)
  {
    var x, y := AccidentalOf(a.root), AccidentalOf(b.root);
    SignIsLowerCase(x);
    SignIsLowerCase(y);
    TailAccidentalOf(x, a);
    TailAccidentalOf(y, b);
    var t := Sign(x) + Suffix(a);
    assert Suffix(a) == t[|Sign(x)|..] == Suffix(b);
  }

  /** Ignoring letter case never confuses two chords: the symbol of a chord names the
      expected chord exactly when it is that chord. */
  lemma {:induction false} SymbolsMatchOnlyTheirChord(ch: Chord, expected: Chord)
    ensures SameChord(ChordSymbol(ch), expected) <==> ch == expected
  {
    if SameChord(ChordSymbol(ch), expected) {
      LowerChordSymbol(ch);
      LowerChordSymbol(expected);
      var u := Lower(ChordSymbol(ch));
      assert LowerChar(Letter(ch.root)) == u[0] == LowerChar(Letter(expected.root));
      assert Lower(Sign(AccidentalOf(ch.root))) + Suffix(ch) == u[1..]
          == Lower(Sign(AccidentalOf(expected.root))) + Suffix(expected);
      TailsDiffer(ch, expected);
      PartsDetermineNote(ch.root, expected.root);
    }
  }

  /** The letter case of an entry does not affect its verdict: "dm", "DM" and "Dm" are
      judged alike. */
  lemma CaseIsIgnored(text: string, expected: Chord)
    ensures SameChord(Upper(text), expected) <==> SameChord(text, expected)
    ensures SameChord(Lower(text), expected) <==> SameChord(text, expected)
  {
    LowerForgetsCase(text);
  }

  /** The chord whose symbol a key's row starts with: degree I of the key's harmonic
      field, or of the table's first key, C, for a key the table lacks. */
  function FirstChord(mode: Mode, root: NoteName): Option<Chord> {
    var field := if FieldOf(mode, root).Some? then FieldOf(mode, root) else FieldOf(mode, C);
    if field.Some? && |field.value| > 0 then Some(field.value[0]) else None
  }

  /** The row a key starts with: the symbol of its first chord, the six other cells empty. */
  function BlankRow(mode: Mode, root: NoteName): seq<string> {
    var first := FirstChord(mode, root);
    [if first.Some? then ChordSymbol(first.value) else ""] + ["", "", "", "", "", ""]
  }

  /** Every key of the mode has its own harmonic field, so a row never falls back to the
      first key's, and degree I is the key's tonic triad: major in a major key, minor in a
      minor one. */
  lemma FirstChordIsTonic(mode: Mode, root: NoteName)
    requires root in Keys(mode)
    ensures FirstChord(mode, root) == Some(if mode == Major then Maj(root) else Min(root))
    ensures BlankRow(mode, root)[0] == Spelling(root) + (if mode == Major then "" else "m")
  {
    KeysAreTabulated(mode, root);
    ChordsFollowScales(mode, root, 0);
    ScaleRowsFollowPattern(mode, root, 0);
    var ch := FieldOf(mode, root).value[0];
    assert ch.root == root && Suffix(ch) == SuffixPattern(mode)[0];
  }

  /** The table as set up for a mode: a row for each of its keys and nothing else. */
  predicate Initial(table: Table, mode: Mode) {
    (forall r :: r in table <==> r in Keys(mode))
    && (forall r :: r in table ==> table[r] == BlankRow(mode, r))
  }

  /** The chord on degree `index` of the key's harmonic field, when the key is tabulated. */
  function Expected(mode: Mode, root: NoteName, index: nat): Option<Chord> {
    match FieldOf(mode, root)
    case None => None
    case Some(field) => if index < |field| then Some(field[index]) else None
  }

  /** For every key the table lists, each of its seven chords can be looked up, and it is
      the chord built on the same degree of the key's scale, with the mode's quality for
      that degree. */
  lemma LookupNeverFails(mode: Mode, root: NoteName, index: nat)
    requires root in Keys(mode) && index < 7
    ensures ScaleOf(mode, root).Some? && |ScaleOf(mode, root).value| == 7
    ensures Expected(mode, root, index).Some?
    ensures Expected(mode, root, index).value.root == ScaleOf(mode, root).value[index]
    ensures Suffix(Expected(mode, root, index).value) == SuffixPattern(mode)[index]
  {
    KeysAreTabulated(mode, root);
    ChordsFollowScales(mode, root, index);
    assert Expected(mode, root, index) == Some(FieldOf(mode, root).value[index]);
  }

  /** The feedback after typing `value` into cell (root, index), `expected` being the
      chord looked up for that cell: for a key with a row, a chord that was found and a
      value that is not blank once trimmed, the cell's flag becomes the verdict. */
  function Judge(table: Table, feedback: Feedback, root: NoteName, index: nat, value: string,
                 expected: Option<Chord>): Feedback
    requires Shaped(table, feedback) && index < 7
  {
    if root in table && expected.Some? && |Trim(value)| > 0 then
      Flag(feedback, root, index, Matches(value, expected.value))
    else
      feedback
  }

  /** Typing a chord's symbol, in any letter case and with any padding, into a cell of a
      key with a row marks the cell right exactly when that chord is the one looked up. */
  lemma EntryJudgedByChord(table: Table, feedback: Feedback, root: NoteName, index: nat,
                           value: string, ch: Chord, expected: Chord)
    requires Shaped(table, feedback) && index < 7
    requires root in table && Lower(Trim(value)) == Lower(ChordSymbol(ch))
    ensures var f := Judge(table, feedback, root, index, value, Some(expected));
      root in f && |f[root]| == 7 && (f[root][index] <==> ch == expected)
  {
    assert |Trim(value)| > 0 by {
      SpellingStartsWithLetter(ch.root);
      assert |ChordSymbol(ch)| > 0;
    }
    FlagSetsOneFlag(feedback, root, index, Matches(value, expected));
    SymbolsMatchOnlyTheirChord(ch, expected);
  }

  /** Typing white space alone leaves the cell's flag as it was: unlike the scale table,
      blank entries are not judged. */
  lemma BlankEntryKeepsFlag(table: Table, feedback: Feedback, root: NoteName, index: nat,
                            value: string, expected: Option<Chord>)
    requires Shaped(table, feedback) && index < 7
    requires AllSpace(value)
    ensures Judge(table, feedback, root, index, value, expected) == feedback
  {
    TrimAllSpace(value);
  }

  /** The note sounded for a right entry: the expected symbol with its first "m" and then
      its first "d" removed. */
  function SoundedRoot(symbol: string): string {
    RemoveFirst(RemoveFirst(symbol, 'm'), 'd')
  }

  /** Spellings are written with the letters A to G, "#" and "b" only. */
  lemma SpellingHasNoQualityLetter(n: NoteName)
    ensures 'm' !in Spelling(n) && 'd' !in Spelling(n)
  {
    SpellingParts(n);
  }

  /** Stripping the quality from a chord symbol leaves the spelling of its root, so the
      note sounded is the chord's root. */
  lemma SoundedRootIsChordRoot(ch: Chord)
    ensures SoundedRoot(ChordSymbol(ch)) == Spelling(ch.root)
  {
    var sp := Spelling(ch.root);
    SpellingHasNoQualityLetter(ch.root);
    RemoveFirstSkips(sp, Suffix(ch), 'm');
    var s1 := sp + RemoveFirst(Suffix(ch), 'm');
    assert RemoveFirst(Suffix(ch), 'm') == (if ch.Dim? then "d" else "");
    RemoveFirstSkips(sp, RemoveFirst(Suffix(ch), 'm'), 'd');
    assert RemoveFirst(RemoveFirst(Suffix(ch), 'm'), 'd') == "";
    assert sp + "" == sp;
  }

  /** For every key the table lists, the note a right entry sounds is the scale degree
      its chord is built on. */
  lemma SoundedRootIsScaleDegree(mode: Mode, root: NoteName, index: nat)
    requires root in Keys(mode) && index < 7
    ensures Expected(mode, root, index).Some? && ScaleOf(mode, root).Some? && |ScaleOf(mode, root).value| == 7
    ensures SoundedRoot(ChordSymbol(Expected(mode, root, index).value)) == Spelling(ScaleOf(mode, root).value[index])
  {
    LookupNeverFails(mode, root, index);
    SoundedRootIsChordRoot(Expected(mode, root, index).value);
  }

  /** The harmonic fields of a mode, as a lookup by key. */
  function AnswerKey(mode: Mode): NoteName -> Option<seq<Chord>> {
    r => FieldOf(mode, r)
  }

  /** A freshly set-up table has no right cell. */
  lemma BlankTableScoresNothing(table: Table, mode: Mode)
    requires Initial(table, mode)
    ensures RowsOfSeven(table)
    ensures TableScore(table, Keys(mode), AnswerKey(mode), Matches, |Keys(mode)|) == 0
  {
    forall r, k, a | r in table && 1 <= k < 7
      ensures !Matches(table[r][k], a)
    {
      assert table[r][k] == "";
      assert Trim("") == "" && Lower("") == "";
      SpellingStartsWithLetter(a.root);
      assert |ChordSymbol(a)| > 0;
    }
    TableScoreNothing(table, Keys(mode), AnswerKey(mode), Matches, |Keys(mode)|);
  }

  /** Counts the right cells among degrees II to VII of a row. */
  method CountRow(row: seq<string>, field: seq<Chord>) returns (n: nat)
    requires |row| == 7 && |field| == 7
    ensures n == RowScore(row, field, Matches, 7)
  {
    n := 0;
    var j := 0;
    while j < |row|
      invariant j <= |row|
      invariant n == RowScore(row, field, Matches, j)
    {
      var right := j != 0 && Lower(Trim(row[j])) == Lower(ChordSymbol(field[j]));
      assert right == (j != 0 && Matches(row[j], field[j]));
      if right {
        n := n + 1;
      }
      j := j + 1;
    }
  }

  /** Counts the right cells of the rows of the keys `roots`, each key's chords looked up
      in `fields`; a key without a row or without chords counts none. */
  method CountTable(table: Table, roots: seq<NoteName>, fields: NoteName -> Option<seq<Chord>>) returns (n: nat)
    requires RowsOfSeven(table)
    ensures n == TableScore(table, roots, fields, Matches, |roots|)
  {
    n := 0;
    var i := 0;
    while i < |roots|
      invariant i <= |roots|
      invariant n == TableScore(table, roots, fields, Matches, i)
    {
      var r := roots[i];
      var field := fields(r);
      if field.Some? && |field.value| == 7 && r in table {
        var count := CountRow(table[r], field.value);
        n := n + count;
      }
      i := i + 1;
    }
  }

  /** The state of the harmonic field screen. */
  class HarmonyTable {
    var mode: Mode
    var table: Table
    var feedback: Feedback

    /** Every row has seven cells, and feedback exists only for keys with a row. */
    ghost predicate Valid()
      reads this
    {
      Shaped(table, feedback)
    }

    /** The table has a row for exactly the keys of the mode: set up by every reset, and
        kept by every edit, whose new table is a `Store` into the old one. */
    ghost predicate Keyed()
      reads this
    {
      forall r :: r in table <==> r in Keys(mode)
    }

    /** Mounting the screen: the major table, freshly set up. */
    constructor ()
      ensures Valid() && Keyed()
      ensures mode == Major && Initial(table, Major) && feedback == map[]
    {
      mode := Major;
      table := map[];
      feedback := map[];
      new;
      Reset();
    }

    /** The set-up effect: a row for each key of the mode, and no feedback. */
    method Reset()
      modifies this
      ensures Valid() && Keyed()
      ensures mode == old(mode) && Initial(table, mode) && feedback == map[]
    {
      var roots := Keys(mode);
      var initial: Table := map[];
      var i := 0;
      while i < |roots|
        invariant i <= |roots|
        invariant forall r :: r in initial <==> r in roots[..i]
        invariant forall r :: r in initial ==> initial[r] == BlankRow(mode, r)
      {
        assert roots[..i + 1] == roots[..i] + [roots[i]];
        initial := initial[roots[i] := BlankRow(mode, roots[i])];
        i := i + 1;
      }
      assert roots[..i] == roots;
      table := initial;
      feedback := map[];
    }

    /** Choosing a mode: a different mode sets the table up afresh; choosing the current
        one changes nothing. */
    method SetMode(m: Mode)
      requires Valid() && Keyed()
      modifies this
      ensures Valid() && Keyed() && mode == m
      ensures m == old(mode) ==> table == old(table) && feedback == old(feedback)
      ensures m != old(mode) ==> Initial(table, m) && feedback == map[]
    {
      if m != mode {
        mode := m;
        Reset();
      }
    }

    /** Storing an entry: the value, as typed, goes into cell (root, index) of a known key. */
    method StoreEntry(root: NoteName, index: nat, value: string)
      requires Valid() && index < 7 && root in table
      modifies this
      ensures Valid() && mode == old(mode) && feedback == old(feedback)
      ensures table == Store(old(table), root, index, value)
    {
      StoreChangesOneCell(table, root, index, value);
      table := Store(table, root, index, value);
    }

    /** Recording a verdict: the flag of cell (root, index) is set, a key without flags
        getting a row of `false` first. */
    method SetFlag(root: NoteName, index: nat, flag: bool)
      requires Valid() && index < 7 && root in table
      modifies this
      ensures Valid() && mode == old(mode) && table == old(table)
      ensures feedback == Flag(old(feedback), root, index, flag)
    {
      var row := if root in feedback then feedback[root] else [false, false, false, false, false, false, false];
      feedback := feedback[root := row[index := flag]];
    }

    /** Typing `value` into cell (root, index): the table and the feedback become the
        edited and judged ones, and a right entry sounds the root of the expected chord. */
    method HandleInputChange(root: NoteName, index: nat, value: string) returns (sounded: Option<string>)
      requires Valid() && index < 7
      modifies this
      ensures Valid() && mode == old(mode)
      ensures table == Store(old(table), root, index, value)
      ensures feedback == Judge(old(table), old(feedback), root, index, value, Expected(mode, root, index))
      ensures var e := Expected(mode, root, index);
        sounded == if root in old(table) && e.Some? && |Trim(value)| > 0 && Matches(value, e.value)
                   then Some(Spelling(e.value.root)) else None
    {
      sounded := None;
      if root in table {
        StoreEntry(root, index, value);
        var expected := Expected(mode, root, index);
        if expected.Some? && |Trim(value)| > 0 {
          var isCorrect := Matches(value, expected.value);
          if isCorrect {
            SoundedRootIsChordRoot(expected.value);
            sounded := Some(SoundedRoot(ChordSymbol(expected.value)));
          }
          SetFlag(root, index, isCorrect);
        }
      }
    }

    /** Checking the table: counts the right cells of degrees II to VII over all keys.
        All 72 right (every row right) reports a score of 100; otherwise only the count
        is given. Nothing changes. */
    method CheckAll() returns (correctCount: nat, completed: Option<nat>)
      requires Valid()
      ensures correctCount == TableScore(table, Keys(mode), AnswerKey(mode), Matches, |Keys(mode)|)
      ensures correctCount <= 72
      ensures correctCount == 72 <==>
                forall r :: r in Keys(mode) ==> r in table && RowRight(table[r], FieldOf(mode, r), Matches)
      ensures completed.Some? <==> correctCount == 72
      ensures completed.Some? ==> completed.value == 100
    {
      var roots := Keys(mode);
      var fields := AnswerKey(mode);
      var totalFields := |roots| * 6;
      correctCount := CountTable(table, roots, fields);
      TableScoreFull(table, roots, fields, Matches, |roots|);
      assert (forall k :: 0 <= k < |roots| ==> roots[k] in table && RowRight(table[roots[k]], fields(roots[k]), Matches))
         <==> (forall r :: r in roots ==> r in table && RowRight(table[r], FieldOf(mode, r), Matches));
      if correctCount == totalFields {
        completed := Some(100);
      } else {
        completed := None;
      }
    }
  }
}
