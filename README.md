# Harmonix: a verified model of the music-theory trainer's core

Harmonix is a web trainer for music theory. A student practises in short drills:
- a five-question note drill;
- a five-question interval drill;
- two fill-in tables, one of scales and one of harmonic fields.

Every finished drill adds its score to the student's experience. The score also moves the
level, the daily streak and the activity history. From that history the app draws:
- the daily challenges;
- the per-category mastery chart;
- the recent-activity list.

This project models that core in Dafny:

- **The reference tables.** These are the twelve chromatic notes, the note frequencies,
  the interval names, the major and natural-minor scales, both modes' harmonic fields and
  the tone/semitone patterns (module `Constants`). It is proved that every tabulated scale
  walks out its mode's pattern from its key, that it uses each letter A to G once, and
  that every harmonic-field row stacks the mode's chord qualities on that scale's degrees.
- **The note drill** (`ExerciseEngine`). Routing sends the scale, harmony and interval
  categories to their specialised screens. A question has four distinct options, one of
  them the answer. A session scores 10 per right first answer and reports its score after
  the fifth question.
- **The interval drill** (`IntervalExercise`). The question notes and the option names are
  drawn at random, a right answer scores 20, and the drill ends after five questions.
- **The scale table and the harmony table** (`ScaleTableExercise`, `HarmonyTableExercise`,
  sharing `TableState`). Each typed cell is stored and judged against the table. The
  right answer is sounded. "Check all" counts the right cells and completes with 100
  exactly when all 72 are right.
- **The application shell** (`App`). It covers starting an exercise and recording a
  completed one: experience, level, streak and history.
- **The daily challenges** (`ChallengesView`), recomputed from today's history.
- **The progress screen** (`ProgressView`). It holds the mastery chart and the five most
  recent activities.

**Modelling conventions.**
- Random draws (`Math.random()`) and the clock (`new Date()`) are parameters.
- Audio playback is the `sounded` result of a table's input handler.
- The React state a component updates in place is a Dafny `class` whose methods reassign
  its fields.
- `Text` models the JavaScript string operations the exercises use: `trim`, `toUpperCase`,
  `toLowerCase`, `replace` and `split`.
- `Draws` models the random picks, the option-drawing loop and the shuffle.

## Model

| member | source | states |
|---|---|---|
| Types.ParseNote | types.ts:2 | a text parses to a note only if it is that note's spelling |
| Types.SpellingRoundTrip | types.ts:2 | every one of the 21 spellings parses back to its note |
| Constants.PitchClass | constants.tsx:5 | every spelling has a pitch class from 0 to 11 |
| Constants.ChromaticPitchClasses | constants.tsx:5 | the note list holds pitch class i at position i |
| Constants.ChromaticStep | constants.tsx:7-15 | each chromatic note sounds higher than the one before |
| Constants.ChromaticAscends | constants.tsx:5-15 | the chromatic list's frequencies rise strictly with position |
| Constants.FrequencyOf | constants.tsx:7-15 | a text has a frequency exactly when it is one of the 21 spellings, and it is that spelling's table entry |
| Constants.FrequencyTableComplete | constants.tsx:7-15 | the frequency table has an entry for every spelling |
| Constants.EnharmonicSpellingsShareFrequency | constants.tsx:7-15 | two spellings of one pitch class (other than Cb) share a frequency |
| Constants.SharesChromaticFrequency | constants.tsx:7-15 | every spelling but Cb sounds at its pitch class's chromatic note |
| Constants.CFlatIsOctaveBelowB | constants.tsx:14 | Cb has B's pitch class but is tabulated an octave lower |
| Constants.IntervalNamesDistinct | constants.tsx:17-30 | interval names exist exactly for 1 to 12 semitones and are pairwise different |
| Constants.IntervalNameListMatches | constants.tsx:17-30 | the list of names holds the name of v semitones at position v - 1 |
| Constants.PatternSpansOctave | constants.tsx:94-97 | both step patterns have seven steps that add up to an octave |
| Constants.LetterIndex | constants.tsx:33-62 | a spelling's letter is one of seven positions |
| Constants.Letter | constants.tsx:33-62 | every spelling is written with a letter from A to G |
| Constants.SpellingStartsWithLetter | constants.tsx:33-62 | a spelling starts with its letter |
| Constants.SpellingParts | constants.tsx:33-62 | a spelling is its letter followed by its accidental sign |
| Constants.PartsDetermineNote | constants.tsx:33-62 | the letter and the accidental single out the spelling |
| Constants.WalksAt | constants.tsx:94-97 | in a row that walks a pattern, each degree and the next lie that step apart |
| Constants.StepAt | constants.tsx:94-97 | in a scale row that follows its pattern, degree i and the next (the octave after the seventh) lie step i apart |
| Constants.LetterAfter | constants.tsx:33-62 | in a row with ascending letters, the letter k places on is k letters on |
| Constants.LettersDistinct | constants.tsx:33-62 | seven notes with ascending letters use seven different letters |
| Constants.StepsWithinWeekDiffer | constants.tsx:33-62 | counting fewer than seven letters from one letter never lands twice on the same letter |
| Constants.LettersOfIndices | constants.tsx:33-62 | notes at different letter positions have different letters |
| Constants.LettersCovered | constants.tsx:33-62 | seven notes with ascending letters use all seven letters |
| Constants.Triad | constants.tsx:64-92 | the chord on a degree has that degree's note as root and the mode's quality for the degree |
| Constants.Harmonize | constants.tsx:64-92 | harmonising a scale gives seven chords, chord i being the triad on degree i |
| Constants.MajorC | constants.tsx:34 | the C major row walks T T ST T T T ST from C with each letter once, and its field row harmonises it |
| Constants.MajorDFlat | constants.tsx:35 | the same for Db major |
| Constants.MajorD | constants.tsx:36 | the same for D major |
| Constants.MajorEFlat | constants.tsx:37 | the same for Eb major |
| Constants.MajorE | constants.tsx:38 | the same for E major |
| Constants.MajorF | constants.tsx:39 | the same for F major |
| Constants.MajorFSharp | constants.tsx:40 | the same for F# major |
| Constants.MajorG | constants.tsx:41 | the same for G major |
| Constants.MajorAFlat | constants.tsx:42 | the same for Ab major |
| Constants.MajorA | constants.tsx:43 | the same for A major |
| Constants.MajorBFlat | constants.tsx:44 | the same for Bb major |
| Constants.MajorB | constants.tsx:45 | the same for B major |
| Constants.MinorC | constants.tsx:50 | the C minor row walks T ST T T ST T T from C with each letter once, and its field row harmonises it |
| Constants.MinorCSharp | constants.tsx:51 | the same for C# minor |
| Constants.MinorD | constants.tsx:52 | the same for D minor |
| Constants.MinorEFlat | constants.tsx:53 | the same for Eb minor |
| Constants.MinorE | constants.tsx:54 | the same for E minor |
| Constants.MinorF | constants.tsx:55 | the same for F minor |
| Constants.MinorFSharp | constants.tsx:56 | the same for F# minor |
| Constants.MinorG | constants.tsx:57 | the same for G minor |
| Constants.MinorGSharp | constants.tsx:58 | the same for G# minor |
| Constants.MinorA | constants.tsx:59 | the same for A minor |
| Constants.MinorBFlat | constants.tsx:60 | the same for Bb minor |
| Constants.MinorB | constants.tsx:61 | the same for B minor |
| Constants.TablesChecked | constants.tsx:33-92 | for every mode and key, the scale row (if any) walks the mode's pattern with each letter once, and the field row harmonises it |
| Constants.KeysAreTabulated | constants.tsx:33-62 | a key has a scale row exactly when it is one of the mode's twelve keys |
| Constants.ScaleRowsFollowPattern | constants.tsx:33-62 | every scale row starts at its key and climbs by the mode's pattern, step by step |
| Constants.ScaleRowsUseEachLetterOnce | constants.tsx:33-62 | every scale row uses each of the seven letters exactly once |
| Constants.ChordsFollowScales | constants.tsx:64-92 | a key has a field row exactly when it has a scale row, and chord i is rooted on degree i with the mode's quality |
| Constants.HarmonizedAt | constants.tsx:64-92 | in a harmonised row, chord i is rooted on degree i with the mode's quality for i |
| Text.TrimStart | components/ScaleTableExercise.tsx:48 | trimming the start never lengthens the text |
| Text.TrimEnd | components/ScaleTableExercise.tsx:48 | trimming the end never lengthens the text |
| Text.Trim | components/ScaleTableExercise.tsx:48 | trimming never lengthens the text |
| Text.TrimStartSpec | components/ScaleTableExercise.tsx:48 | trimming the start cuts a white-space prefix, leaving a text that does not start with white space |
| Text.TrimEndSpec | components/ScaleTableExercise.tsx:48 | trimming the end cuts a white-space suffix, leaving a text that does not end with white space |
| Text.TrimInfix | components/ScaleTableExercise.tsx:48 | the trimmed text is an infix with only white space cut on either side |
| Text.TrimUnpaddedResult | components/ScaleTableExercise.tsx:48 | the trimmed text neither starts nor ends with white space |
| Text.TrimSpec | components/ScaleTableExercise.tsx:48 | the trimmed text is the unpadded infix, with only white space cut away |
| Text.TrimUnpadded | components/ScaleTableExercise.tsx:48 | an unpadded text trims to itself |
| Text.TrimAllSpace | components/HarmonyTableExercise.tsx:72 | a text of white space alone trims to the empty text |
| Text.TrimIdempotent | components/ScaleTableExercise.tsx:48 | trimming twice is trimming once |
| Text.Upper | components/ScaleTableExercise.tsx:56 | upper-casing keeps the length |
| Text.Lower | components/HarmonyTableExercise.tsx:70 | lower-casing keeps the length |
| Text.UpperAt | components/ScaleTableExercise.tsx:56 | upper-casing maps each character on its own |
| Text.LowerAt | components/HarmonyTableExercise.tsx:70 | lower-casing maps each character on its own |
| Text.UpperConcat | components/ScaleTableExercise.tsx:56 | upper-casing distributes over concatenation |
| Text.LowerConcat | components/HarmonyTableExercise.tsx:70 | lower-casing distributes over concatenation |
| Text.UpperForgetsCase | components/ScaleTableExercise.tsx:56 | upper-casing gives the same result whatever the earlier case |
| Text.LowerForgetsCase | components/HarmonyTableExercise.tsx:70 | lower-casing gives the same result whatever the earlier case |
| Text.RemoveFirst | components/HarmonyTableExercise.tsx:74 | replacing a character removes its first occurrence, or leaves a text without it unchanged |
| Text.RemoveFirstSkips | components/HarmonyTableExercise.tsx:74 | removing the first occurrence passes over a prefix that does not contain it |
| Text.FirstField | App.tsx:82 | the first field of a split is a prefix without the separator, and the separator follows it if anything does |
| Draws.ScaledDraw | components/ExerciseEngine.tsx:67 | a draw scaled by n lies in [0, n) |
| Draws.Index | components/ExerciseEngine.tsx:67 | the floor of a scaled draw is a valid index |
| Draws.Pick | components/ExerciseEngine.tsx:67 | a random pick is an element of the pool |
| Draws.PicksGrow | components/ExerciseEngine.tsx:68-72 | more draws never pick fewer notes |
| Draws.DistinctCardinality | components/ExerciseEngine.tsx:68-72 | a repetition-free list has as many elements as its length |
| Draws.SubsetCardinality | components/ExerciseEngine.tsx:68-72 | a subset is no larger than its superset |
| Draws.DrawOptions | components/ExerciseEngine.tsx:68-72 | the loop collects four distinct options, the answer first and the rest drawn from the pool |
| Draws.Below | components/ExerciseEngine.tsx:73 | the positions below n number n |
| Draws.OrderIsOnto | components/ExerciseEngine.tsx:73 | a shuffle order reaches every position |
| Draws.Permute | components/ExerciseEngine.tsx:73 | a shuffle keeps the length and the elements, and keeps them distinct |
| ExerciseEngine.GeneratesExactlyForNoteDrill | components/ExerciseEngine.tsx:85-90 | the engine generates its own questions exactly for the categories it does not route elsewhere (notes and scale table); scales go to the scale table |
| ExerciseEngine.NewQuestion | components/ExerciseEngine.tsx:63-83 | a question has four distinct chromatic options containing the randomly picked answer, with the answer as its audio hint |
| ExerciseEngine.Session.constructor | components/ExerciseEngine.tsx:22-28 | a session opens on the briefing at step 0 with score 0, holding a question exactly when the category is not specialised |
| ExerciseEngine.Session.Start | components/ExerciseEngine.tsx:150 | starting closes the briefing and changes nothing else |
| ExerciseEngine.Session.Generate | components/ExerciseEngine.tsx:63-83 | a new question clears the selection and keeps step and score |
| ExerciseEngine.Session.HandleOptionClick | components/ExerciseEngine.tsx:92-104 | the first click records the option and adds 10 when it is the answer; later clicks are ignored |
| ExerciseEngine.Session.HandleNext | components/ExerciseEngine.tsx:106-113 | before the fifth question it advances to a fresh question, and after it it reports the score, which is 10 per right answer and at most 50 |
| IntervalExercise.IntervalValue | components/IntervalExercise.tsx:38 | the interval drawn is 1 to 12 semitones |
| IntervalExercise.QuestionNotes | components/IntervalExercise.tsx:34-39 | the first note is always C, because the base range is empty, and the second lies the interval above it, except that it is missing for the octave |
| IntervalExercise.NewQuestion | components/IntervalExercise.tsx:29-53 | a question has four distinct interval names containing the right one, with notes as above |
| IntervalExercise.Session.constructor | components/IntervalExercise.tsx:55-57 | the drill opens at step 0 with score 0 and a well-formed question: base C, second note the interval above it (missing for the octave), four different names including the right one |
| IntervalExercise.Session.Generate | components/IntervalExercise.tsx:29-53 | a new well-formed question for the drawn interval replaces the old one, and the selection is cleared with step and score kept; the session invariant keeps the current question well formed |
| IntervalExercise.Session.HandleOptionClick | components/IntervalExercise.tsx:64-74 | the first click adds 20 when it names the interval; later clicks are ignored |
| IntervalExercise.Session.HandleNext | components/IntervalExercise.tsx:76-83 | before the fifth question it advances to a fresh well-formed question, and after it it reports the score, which is 20 per right answer and at most 100 |
| TableState.StoreChangesOneCell | components/ScaleTableExercise.tsx:46-49 | storing an entry changes that one cell and keeps the rows and their length |
| TableState.FlagSetsOneFlag | components/ScaleTableExercise.tsx:58-67 | setting a flag changes that one flag, filling a missing row with false |
| TableState.RowScore | components/ScaleTableExercise.tsx:79-83 | a row counts at most one per cell after the first |
| TableState.RowScoreFull | components/ScaleTableExercise.tsx:79-83 | a row counts its maximum exactly when every cell after the first is right |
| TableState.RowScoreNothing | components/ScaleTableExercise.tsx:79-83 | a row with no right cell counts nothing |
| TableState.RootScore | components/ScaleTableExercise.tsx:79-83 | a key's row counts at most 6, and 6 exactly when the row is present and all right |
| TableState.TableScore | components/ScaleTableExercise.tsx:71-92 | the table counts at most 6 per key |
| TableState.TableScoreFull | components/ScaleTableExercise.tsx:71-92 | the table counts 6 per key exactly when every key's row is all right |
| TableState.CellNeverRight | components/ScaleTableExercise.tsx:79-83 | a cell that matches no answer is not right |
| TableState.TableScoreNothing | components/ScaleTableExercise.tsx:71-92 | a table none of whose cells matches counts nothing |
| ScaleTableExercise.UpperSpelling | components/ScaleTableExercise.tsx:56 | an upper-cased spelling is its letter followed by its upper-cased sign |
| ScaleTableExercise.UpperSignsDiffer | components/ScaleTableExercise.tsx:56 | upper-casing keeps the three accidental signs apart |
| ScaleTableExercise.SpellingsMatchOnlyTheirNote | components/ScaleTableExercise.tsx:55-56 | a typed spelling is right for exactly its own note, so enharmonic spellings are wrong |
| ScaleTableExercise.CaseIsIgnored | components/ScaleTableExercise.tsx:55-56 | the comparison ignores letter case |
| ScaleTableExercise.BlankNeverMatches | components/ScaleTableExercise.tsx:55-56 | white space is never a right note |
| ScaleTableExercise.LookupNeverFails | components/ScaleTableExercise.tsx:52-53 | every key the table shows has a seven-note scale, and the expected note is its degree |
| ScaleTableExercise.EntryJudgedByNote | components/ScaleTableExercise.tsx:55-67 | a typed spelling is flagged right exactly when it is the expected degree |
| ScaleTableExercise.BlankEntryMarkedWrong | components/ScaleTableExercise.tsx:58-67 | a non-empty all-blank entry is flagged wrong |
| ScaleTableExercise.EmptyEntryKeepsFlag | components/ScaleTableExercise.tsx:58 | clearing a cell leaves its flag as it was |
| ScaleTableExercise.BlankTableScoresNothing | components/ScaleTableExercise.tsx:34-43 | a freshly reset table counts nothing |
| ScaleTableExercise.CountRow | components/ScaleTableExercise.tsx:79-83 | the loop counts the right cells after the key |
| ScaleTableExercise.CountTable | components/ScaleTableExercise.tsx:71-85 | the loop adds up the rows of every key |
| ScaleTableExercise.ScaleTable.constructor | components/ScaleTableExercise.tsx:30-43 | the table opens in major, each row holding its key and six blanks, with no flags |
| ScaleTableExercise.ScaleTable.Reset | components/ScaleTableExercise.tsx:34-43 | resetting refills the current mode's blank rows and clears the flags |
| ScaleTableExercise.ScaleTable.SetMode | components/ScaleTableExercise.tsx:14 | switching mode resets the table for the new mode, and choosing the same mode changes nothing |
| ScaleTableExercise.ScaleTable.StoreEntry | components/ScaleTableExercise.tsx:46-49 | the trimmed entry is stored in its cell |
| ScaleTableExercise.ScaleTable.SetFlag | components/ScaleTableExercise.tsx:58-67 | one flag is set |
| ScaleTableExercise.ScaleTable.HandleInputChange | components/ScaleTableExercise.tsx:45-69 | the trimmed entry is stored, a non-empty entry is flagged against the expected degree, and the degree sounds exactly when the entry is right |
| ScaleTableExercise.ScaleTable.CheckAll | components/ScaleTableExercise.tsx:71-92 | the count is the table's score, at most 72, and 72 exactly when every row is right, which completes the drill with 100 |
| HarmonyTableExercise.LowerChordSymbol | components/HarmonyTableExercise.tsx:70 | a lower-cased chord symbol is its lower-cased letter, sign and suffix |
| HarmonyTableExercise.SignIsLowerCase | components/HarmonyTableExercise.tsx:70 | accidental signs are already lower case |
| HarmonyTableExercise.TailAccidentalOf | components/HarmonyTableExercise.tsx:70 | the accidental can be read back from a symbol's tail |
| HarmonyTableExercise.TailsDiffer | components/HarmonyTableExercise.tsx:70 | two equal symbol tails have the same accidental and the same quality |
| HarmonyTableExercise.SymbolsMatchOnlyTheirChord | components/HarmonyTableExercise.tsx:70 | a typed chord symbol is right for exactly its own chord |
| HarmonyTableExercise.CaseIsIgnored | components/HarmonyTableExercise.tsx:70 | the comparison ignores letter case |
| HarmonyTableExercise.FirstChordIsTonic | components/HarmonyTableExercise.tsx:51-59 | each row opens with the key's tonic chord, major or minor by mode |
| HarmonyTableExercise.LookupNeverFails | components/HarmonyTableExercise.tsx:67-68 | every key the table shows has a field, whose chord i is rooted on scale degree i with the mode's quality |
| HarmonyTableExercise.EntryJudgedByChord | components/HarmonyTableExercise.tsx:70-82 | a typed symbol is flagged right exactly when it is the expected chord |
| HarmonyTableExercise.BlankEntryKeepsFlag | components/HarmonyTableExercise.tsx:72 | a blank entry leaves its flag as it was |
| HarmonyTableExercise.SpellingHasNoQualityLetter | components/HarmonyTableExercise.tsx:74 | no note spelling contains the letters of a chord quality |
| HarmonyTableExercise.SoundedRootIsChordRoot | components/HarmonyTableExercise.tsx:74-75 | stripping the quality letters from a symbol leaves its root's spelling |
| HarmonyTableExercise.SoundedRootIsScaleDegree | components/HarmonyTableExercise.tsx:74-75 | the note sounded for a right chord is the scale degree it stands on |
| HarmonyTableExercise.BlankTableScoresNothing | components/HarmonyTableExercise.tsx:51-59 | a freshly reset table counts nothing |
| HarmonyTableExercise.CountRow | components/HarmonyTableExercise.tsx:92-97 | the loop counts the right cells after the tonic |
| HarmonyTableExercise.CountTable | components/HarmonyTableExercise.tsx:86-99 | the loop adds up the rows of every key |
| HarmonyTableExercise.HarmonyTable.constructor | components/HarmonyTableExercise.tsx:48-59 | the table opens in major, each row holding its tonic chord and six blanks, with no flags |
| HarmonyTableExercise.HarmonyTable.Reset | components/HarmonyTableExercise.tsx:51-59 | resetting refills the current mode's blank rows and clears the flags |
| HarmonyTableExercise.HarmonyTable.SetMode | components/HarmonyTableExercise.tsx:14 | switching mode resets the table for the new mode, and choosing the same mode changes nothing |
| HarmonyTableExercise.HarmonyTable.StoreEntry | components/HarmonyTableExercise.tsx:64 | the raw entry is stored in its cell |
| HarmonyTableExercise.HarmonyTable.SetFlag | components/HarmonyTableExercise.tsx:77-82 | one flag is set |
| HarmonyTableExercise.HarmonyTable.HandleInputChange | components/HarmonyTableExercise.tsx:61-84 | the raw entry is stored, a non-blank entry is flagged against the expected chord, and the chord's root sounds exactly when the entry is right |
| HarmonyTableExercise.HarmonyTable.CheckAll | components/HarmonyTableExercise.tsx:86-106 | the count is the table's score, at most 72, and 72 exactly when every row is right, which completes the drill with 100 |
| App.LevelFor | App.tsx:79 | the level is the hundreds of experience plus one |
| App.LevelMonotone | App.tsx:79 | more experience never means a lower level |
| App.DayOf | App.tsx:82 | the day is the time stamp's prefix before the T |
| App.CompletionRecordsScore | App.tsx:77-100 | a completion adds the score to the experience, sets the level from it, appends one entry and keeps the name and the earlier entries |
| App.LevelNeverDrops | App.tsx:78-79 | a non-negative score never lowers the level |
| App.StreakCountsDays | App.tsx:82-89 | the streak grows by one exactly on the first completion of a day |
| App.SameDayKeepsStreak | App.tsx:82-89 | a second completion on the same day keeps the streak |
| App.CompletionKeepsConsistent | App.tsx:14-26 | the experience stays the sum of the recorded scores with the level following from it |
| App.ChartAccountsForScores | App.tsx:90-94 | the experience is the sum of the five category totals |
| App.Shell.constructor | App.tsx:14-26 | the app opens on the study screen with no exercise and blank statistics |
| App.Shell.StartExercise | App.tsx:102-105 | starting an exercise records its category and shows the exercise screen |
| App.Shell.HandleExerciseComplete | App.tsx:77-100 | the statistics record the completion, the study screen returns, and consistent statistics stay consistent |
| ChallengesView.Filter | views/ChallengesView.tsx:57-58 | filtering never lengthens the history |
| ChallengesView.FilterMembers | views/ChallengesView.tsx:57-62 | filtering keeps exactly the entries that pass |
| ChallengesView.FilterAppend | views/ChallengesView.tsx:57-58 | filtering distributes over concatenation |
| ChallengesView.RecomputeKeepsGoals | views/ChallengesView.tsx:56-69 | recomputing keeps each goal; its progress is today's raw progress capped at the target, and it is complete exactly when the raw progress reaches the target, which is exactly when the progress equals the target |
| ChallengesView.PresenceGoal | views/ChallengesView.tsx:61-66 | a target-1 goal other than notes is complete exactly when today has an entry of its category |
| ChallengesView.ScalesGoalMetByOneExercise | views/ChallengesView.tsx:22-66 | the scales goal is met exactly on a day with a scales exercise |
| ChallengesView.PresenceGoalAboveOneNeverMet | views/ChallengesView.tsx:61-66 | a goal other than notes with a target above 1 progresses at most 1 and is never met |
| ChallengesView.IntervalsGoalNeverMet | views/ChallengesView.tsx:22-66 | the intervals goal (target 3) can never be met |
| ChallengesView.NotesGoalCountsExercises | views/ChallengesView.tsx:22-66 | the notes goal counts today's notes exercises up to 5 and is met at the fifth |
| ChallengesView.OtherDaysIgnored | views/ChallengesView.tsx:57-58 | activity on another day changes no goal |
| ChallengesView.RecomputeIdempotent | views/ChallengesView.tsx:56-69 | recomputing again from the same history changes nothing |
| ProgressView.TotalAfter | views/ProgressView.tsx:34-38 | an entry adds its score to its own category's total alone |
| ProgressView.TotalNotNegative | views/ProgressView.tsx:34-38 | without negative scores no total is negative |
| ProgressView.Totals | views/ProgressView.tsx:27-38 | the loop gives each of the four tracked categories its total over the history, and tracks no other category |
| ProgressView.MaxOf | views/ProgressView.tsx:40 | the maximum is at least the floor and every value, and is the floor or one of the values |
| ProgressView.TrackedTotals | views/ProgressView.tsx:40 | the four totals in chart order |
| ProgressView.CategoryMastery | views/ProgressView.tsx:26-46 | four bars in chart order, each with its category's total and its capped share of the full bar |
| ProgressView.MaxScoreBounds | views/ProgressView.tsx:40 | the full bar is at least 500 and at least every tracked total |
| ProgressView.ShareBelowCap | views/ProgressView.tsx:44 | a score within the full bar gets its exact share, at most 100 |
| ProgressView.PercentageOfTotal | views/ProgressView.tsx:40-45 | a tracked share is never capped, and lies between 0 and 100 without negative scores |
| ProgressView.ScaleTableNotCharted | views/ProgressView.tsx:27-38 | scale-table activity leaves every bar as it was |
| ProgressView.Reverse | views/ProgressView.tsx:126 | reversing keeps the length |
| ProgressView.ReverseAt | views/ProgressView.tsx:126 | reversing puts the element i from the end at position i |
| ProgressView.RecentIsNewestFirst | views/ProgressView.tsx:126 | the recent list holds the last five activities (or all, if fewer), newest first |

## Left out

- Network calls are not modelled: the account sync, the sign-in check and the AI insights.
- Sound output is not modelled. Playing a note is the `sounded` result of the table input handlers.
- Rendering, styling, headers and the briefing texts are not modelled. Neither are the alert shown on completion, nor the question id and explanation fields.
- The time stamp of `new Date()` is a `now` parameter, and the random draws of `Math.random()` are real parameters in [0, 1).
- `Draws.DrawOptions`: the drawing loop is given a finite list of draws and requires that they offer four distinct options. The source loops until it finds them, and always terminates only with probability 1.
- `Draws.Permute`: the random-comparator sort is any permutation, given as an order parameter. The bias of that shuffle is not modelled.
- Upper and lower case are mapped on ASCII letters only. The entries that matter, note and chord names, are ASCII.
- `ProgressView.Percentage` is exact real arithmetic rather than floating point. Frequencies are whole hundredths of a hertz.
- The tables are maps that the methods reassign. The source mutates a shared row array in place before copying it, and that aliasing is not modelled.
- `ScaleTableExercise.ScaleTable.HandleInputChange` and `HarmonyTableExercise.HarmonyTable.HandleInputChange` require a column below 7, as the rendered inputs are. They do not state key preservation directly; it follows from `TableState.StoreChangesOneCell`.
- `ExerciseEngine.Session.HandleOptionClick` compares note names, because the engine's options are note names.
- The scale table's reset computes a starting note it never uses; that value is not modelled.
- `App.Shell.HandleExerciseComplete`: the source computes the new experience from the statistics captured when the handler was created, but the streak and history from the latest state. The model has one state, so the two agree. It requires a running exercise. The source only marks this with a non-null assertion (`activeCategory!`), which nothing checks at run time. It holds because the exercise screen, the only caller of the completion handler, is rendered only while a category is active.
- `App.Shell.HandleExerciseComplete`: the source reads the clock twice, once for today's date in the streak check and once for the new entry's time stamp. The model takes both reads as one instant `now`, so a completion that straddles midnight is not modelled.
- The shell's other views, loading and sync flags, and the navigation and piano components are not part of this model.
