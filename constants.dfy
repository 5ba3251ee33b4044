/** The music-theory reference tables: the chromatic note list, the note frequencies,
    the interval names, the major and natural-minor scales, the harmonic fields of both
    modes and the tone/semitone patterns, with the invariants that tie them together. */
module Constants {
  import opened Wrappers
  import opened Types

  /** The twelve chromatic notes, sharps spelled, starting at C. */
  const Chromatic: seq<NoteName> := [C, CSharp, D, DSharp, E, F, FSharp, G, GSharp, A, ASharp, B]

  /** Note frequencies in hundredths of a hertz (261.63 Hz is 26163). */
  const NoteFrequencies: map<NoteName, nat> := map[
    C := 26163, CSharp := 27718, DFlat := 27718,
    D := 29366, DSharp := 31113, EFlat := 31113,
    E := 32963, FFlat := 32963, ESharp := 34923,
    F := 34923, FSharp := 36999, GFlat := 36999,
    G := 39200, GSharp := 41530, AFlat := 41530,
    A := 44000, ASharp := 46616, BFlat := 46616,
    B := 49388, CFlat := 24694, BSharp := 26163]

  /** Interval names for 1 to 12 semitones. */
  const IntervalNames: map<int, string> := map[
    1 := "Segunda Menor",
    2 := "Segunda Maior",
    3 := "Terça Menor",
    4 := "Terça Maior",
    5 := "Quarta Justa",
    6 := "Trítono",
    7 := "Quinta Justa",
    8 := "Sexta Menor",
    9 := "Sexta Maior",
    10 := "Sétima Menor",
    11 := "Sétima Maior",
    12 := "Oitava Justa"]

  /** The major scale of a key, degrees I to VII; None for a key the table lacks. */
  function MajorScales(key: NoteName): Option<seq<NoteName>> {
    match key
    case C => Some([C, D, E, F, G, A, B])
    case DFlat => Some([DFlat, EFlat, F, GFlat, AFlat, BFlat, C])
    case D => Some([D, E, FSharp, G, A, B, CSharp])
    case EFlat => Some([EFlat, F, G, AFlat, BFlat, C, D])
    case E => Some([E, FSharp, GSharp, A, B, CSharp, DSharp])
    case F => Some([F, G, A, BFlat, C, D, E])
    case FSharp => Some([FSharp, GSharp, ASharp, B, CSharp, DSharp, ESharp])
    case G => Some([G, A, B, C, D, E, FSharp])
    case AFlat => Some([AFlat, BFlat, C, DFlat, EFlat, F, G])
    case A => Some([A, B, CSharp, D, E, FSharp, GSharp])
    case BFlat => Some([BFlat, C, D, EFlat, F, G, A])
    case B => Some([B, CSharp, DSharp, E, FSharp, GSharp, ASharp])
    case _ => None
  }

  /** The natural-minor scale of a key, degrees I to VII; None for a key the table lacks. */
  function MinorScales(key: NoteName): Option<seq<NoteName>> {
    match key
    case C => Some([C, D, EFlat, F, G, AFlat, BFlat])
    case CSharp => Some([CSharp, DSharp, E, FSharp, GSharp, A, B])
    case D => Some([D, E, F, G, A, BFlat, C])
    case EFlat => Some([EFlat, F, GFlat, AFlat, BFlat, CFlat, DFlat])
    case E => Some([E, FSharp, G, A, B, C, D])
    case F => Some([F, G, AFlat, BFlat, C, DFlat, EFlat])
    case FSharp => Some([FSharp, GSharp, A, B, CSharp, D, E])
    case G => Some([G, A, BFlat, C, D, EFlat, F])
    case GSharp => Some([GSharp, ASharp, B, CSharp, DSharp, E, FSharp])
    case A => Some([A, B, C, D, E, F, G])
    case BFlat => Some([BFlat, C, DFlat, EFlat, F, GFlat, AFlat])
    case B => Some([B, CSharp, D, E, FSharp, G, A])
    case _ => None
  }

  /** A diatonic chord: its root and its quality. */
  datatype Chord = Maj(root: NoteName) | Min(root: NoteName) | Dim(root: NoteName)

  /** The quality suffix of a chord symbol: none for major, "m" for minor, "md" for diminished. */
  function Suffix(ch: Chord): string {
    match ch
    case Maj(_) => ""
    case Min(_) => "m"
    case Dim(_) => "md"
  }

  /** The chord symbol as the tables write it, such as "Dm" or "C#md". */
  function ChordSymbol(ch: Chord): string {
    Spelling(ch.root) + Suffix(ch)
  }

  /** The chords on degrees I to VII of a major key; None for a key the table lacks. */
  function HarmonicFields(key: NoteName): Option<seq<Chord>> {
    match key
    case C => Some([Maj(C), Min(D), Min(E), Maj(F), Maj(G), Min(A), Dim(B)])
    case DFlat => Some([Maj(DFlat), Min(EFlat), Min(F), Maj(GFlat), Maj(AFlat), Min(BFlat), Dim(C)])
    case D => Some([Maj(D), Min(E), Min(FSharp), Maj(G), Maj(A), Min(B), Dim(CSharp)])
    case EFlat => Some([Maj(EFlat), Min(F), Min(G), Maj(AFlat), Maj(BFlat), Min(C), Dim(D)])
    case E => Some([Maj(E), Min(FSharp), Min(GSharp), Maj(A), Maj(B), Min(CSharp), Dim(DSharp)])
    case F => Some([Maj(F), Min(G), Min(A), Maj(BFlat), Maj(C), Min(D), Dim(E)])
    case FSharp => Some([Maj(FSharp), Min(GSharp), Min(ASharp), Maj(B), Maj(CSharp), Min(DSharp), Dim(ESharp)])
    case G => Some([Maj(G), Min(A), Min(B), Maj(C), Maj(D), Min(E), Dim(FSharp)])
    case AFlat => Some([Maj(AFlat), Min(BFlat), Min(C), Maj(DFlat), Maj(EFlat), Min(F), Dim(G)])
    case A => Some([Maj(A), Min(B), Min(CSharp), Maj(D), Maj(E), Min(FSharp), Dim(GSharp)])
    case BFlat => Some([Maj(BFlat), Min(C), Min(D), Maj(EFlat), Maj(F), Min(G), Dim(A)])
    case B => Some([Maj(B), Min(CSharp), Min(DSharp), Maj(E), Maj(FSharp), Min(GSharp), Dim(ASharp)])
    case _ => None
  }

  /** The chords on degrees I to VII of a natural-minor key; None for a key the table lacks. */
  function HarmonicFieldsMinor(key: NoteName): Option<seq<Chord>> {
    match key
    case C => Some([Min(C), Dim(D), Maj(EFlat), Min(F), Min(G), Maj(AFlat), Maj(BFlat)])
    case CSharp => Some([Min(CSharp), Dim(DSharp), Maj(E), Min(FSharp), Min(GSharp), Maj(A), Maj(B)])
    case D => Some([Min(D), Dim(E), Maj(F), Min(G), Min(A), Maj(BFlat), Maj(C)])
    case EFlat => Some([Min(EFlat), Dim(F), Maj(GFlat), Min(AFlat), Min(BFlat), Maj(CFlat), Maj(DFlat)])
    case E => Some([Min(E), Dim(FSharp), Maj(G), Min(A), Min(B), Maj(C), Maj(D)])
    case F => Some([Min(F), Dim(G), Maj(AFlat), Min(BFlat), Min(C), Maj(DFlat), Maj(EFlat)])
    case FSharp => Some([Min(FSharp), Dim(GSharp), Maj(A), Min(B), Min(CSharp), Maj(D), Maj(E)])
    case G => Some([Min(G), Dim(A), Maj(BFlat), Min(C), Min(D), Maj(EFlat), Maj(F)])
    case GSharp => Some([Min(GSharp), Dim(ASharp), Maj(B), Min(CSharp), Min(DSharp), Maj(E), Maj(FSharp)])
    case A => Some([Min(A), Dim(B), Maj(C), Min(D), Min(E), Maj(F), Maj(G)])
    case BFlat => Some([Min(BFlat), Dim(C), Maj(DFlat), Min(EFlat), Min(F), Maj(GFlat), Maj(AFlat)])
    case B => Some([Min(B), Dim(CSharp), Maj(D), Min(E), Min(FSharp), Maj(G), Maj(A)])
    case _ => None
  }

  /** A step of a scale pattern: a tone (two semitones) or a semitone. */
  datatype Step = T | ST

  /** The two scale modes the tables cover. */
  datatype Mode = Major | Minor

  const MajorPattern: seq<Step> := [T, T, ST, T, T, T, ST]
  const MinorPattern: seq<Step> := [T, ST, T, T, ST, T, T]

  function IntervalPattern(mode: Mode): seq<Step> {
    if mode == Major then MajorPattern else MinorPattern
  }

  /** The scale table of a mode, looked up by key. */
  function ScaleOf(mode: Mode, key: NoteName): Option<seq<NoteName>> {
    if mode == Major then MajorScales(key) else MinorScales(key)
  }

  /** The harmonic-field table of a mode, looked up by key. */
  function FieldOf(mode: Mode, key: NoteName): Option<seq<Chord>> {
    if mode == Major then HarmonicFields(key) else HarmonicFieldsMinor(key)
  }

  /** The keys of a mode's tables, in the order the tables list them. */
  function Keys(mode: Mode): seq<NoteName> {
    if mode == Major then [C, DFlat, D, EFlat, E, F, FSharp, G, AFlat, A, BFlat, B]
    else [C, CSharp, D, EFlat, E, F, FSharp, G, GSharp, A, BFlat, B]
  }

  /** The pitch class of a spelling, 0 for C up to 11 for B. */
  function PitchClass(n: NoteName): (pc: nat)
    ensures pc < 12
  {
    match n
    case C => 0       case BSharp => 0
    case CSharp => 1  case DFlat => 1
    case D => 2
    case DSharp => 3  case EFlat => 3
    case E => 4       case FFlat => 4
    case F => 5       case ESharp => 5
    case FSharp => 6  case GFlat => 6
    case G => 7
    case GSharp => 8  case AFlat => 8
    case A => 9
    case ASharp => 10 case BFlat => 10
    case B => 11      case CFlat => 11
  }

  /** The position of a spelling's letter in C D E F G A B, ignoring its accidental. */
  function LetterIndex(n: NoteName): (d: nat)
    ensures d < 7
  {
    match n
    case C => 0  case CSharp => 0  case CFlat => 0
    case D => 1  case DSharp => 1  case DFlat => 1
    case E => 2  case EFlat => 2   case ESharp => 2
    case F => 3  case FSharp => 3  case FFlat => 3
    case G => 4  case GSharp => 4  case GFlat => 4
    case A => 5  case ASharp => 5  case AFlat => 5
    case B => 6  case BFlat => 6   case BSharp => 6
  }

  /** The letter A to G that a spelling is written with. */
  function Letter(n: NoteName): (c: char)
    ensures 'A' <= c <= 'G'
  {
    "CDEFGAB"[LetterIndex(n)]
  }

  /** A spelling is its letter followed by its accidental, if any. */
  lemma SpellingStartsWithLetter(n: NoteName)
    ensures |Spelling(n)| >= 1 && Spelling(n)[0] == Letter(n)
  {
  }

  /** The accidental a spelling carries. */
  datatype Accidental = Natural | Sharp | Flat

  function AccidentalOf(n: NoteName): Accidental {
    match n
    case C => Natural  case CSharp => Sharp  case CFlat => Flat
    case D => Natural  case DSharp => Sharp  case DFlat => Flat
    case E => Natural  case ESharp => Sharp  case EFlat => Flat
    case F => Natural  case FSharp => Sharp  case FFlat => Flat
    case G => Natural  case GSharp => Sharp  case GFlat => Flat
    case A => Natural  case ASharp => Sharp  case AFlat => Flat
    case B => Natural  case BSharp => Sharp  case BFlat => Flat
  }

  /** How an accidental is written after the letter. */
  function Sign(acc: Accidental): string {
    match acc
    case Natural => ""
    case Sharp => "#"
    case Flat => "b"
  }

  /** Every spelling is its letter followed by the sign of its accidental. */
  lemma SpellingParts(n: NoteName)
    ensures Spelling(n) == [Letter(n)] + Sign(AccidentalOf(n))
  {
    match n
    case C => case CSharp => case D => case DSharp => case E => case F => case FSharp =>
    case G => case GSharp => case A => case ASharp => case B => case BFlat => case EFlat =>
    case AFlat => case DFlat => case GFlat => case CFlat => case FFlat => case BSharp => case ESharp =>
  }

  /** The letter and the accidental together single out the spelling: the 21 spellings
      are the seven letters, each natural, sharp and flat. */
  lemma PartsDetermineNote(a: NoteName, b: NoteName)
    requires Letter(a) == Letter(b) && AccidentalOf(a) == AccidentalOf(b)
    ensures a == b
  {
    assert LetterIndex(a) == LetterIndex(b);
    match a
    case C => case CSharp => case D => case DSharp => case E => case F => case FSharp =>
    case G => case GSharp => case A => case ASharp => case B => case BFlat => case EFlat =>
    case AFlat => case DFlat => case GFlat => case CFlat => case FFlat => case BSharp => case ESharp =>
  }

  function Semitones(s: Step): nat {
    if s == T then 2 else 1
  }

  function PatternSpan(p: seq<Step>): nat {
    if p == [] then 0 else Semitones(p[0]) + PatternSpan(p[1..])
  }

  /** The frequency of a spelled note, failing (None) on a text outside the 21 spellings. */
  function FrequencyOf(s: string): (r: Option<nat>)
    ensures r.Some? <==> ParseNote(s).Some?
    ensures r.Some? ==> r.value == NoteFrequencies[ParseNote(s).value]
  {
    match ParseNote(s)
    case Some(n) => Some(NoteFrequencies[n])
    case None => None
  }

  /** The frequency table has an entry for every one of the 21 spellings. */
  lemma FrequencyTableComplete(n: NoteName)
    ensures n in NoteFrequencies
  {
  }

  /** Two spellings of the same pitch class sound at the same frequency, except Cb. */
  lemma EnharmonicSpellingsShareFrequency(a: NoteName, b: NoteName)
    requires PitchClass(a) == PitchClass(b) && a != CFlat && b != CFlat
    ensures NoteFrequencies[a] == NoteFrequencies[b]
  {
    SharesChromaticFrequency(a);
    SharesChromaticFrequency(b);
  }

  /** Every spelling but Cb sounds at the frequency of the chromatic note of its pitch class. */
  lemma SharesChromaticFrequency(n: NoteName)
    requires n != CFlat
    ensures NoteFrequencies[n] == NoteFrequencies[Chromatic[PitchClass(n)]]
  {
    match n
    case C => case CSharp => case D => case DSharp => case E => case F => case FSharp =>
    case G => case GSharp => case A => case ASharp => case B => case BFlat => case EFlat =>
    case AFlat => case DFlat => case GFlat => case FFlat => case BSharp => case ESharp =>
  }

  /** Cb is tabulated an octave below B rather than at B's frequency. */
  lemma CFlatIsOctaveBelowB()
    ensures PitchClass(CFlat) == PitchClass(B)
    ensures 2 * NoteFrequencies[CFlat] == NoteFrequencies[B]
  {
  }

  /** The chromatic list holds pitch class i at position i, so its frequencies rise strictly. */
  lemma {:induction false} ChromaticAscends(i: nat, j: nat)
    requires i < j < |Chromatic|
    ensures |Chromatic| == 12 && PitchClass(Chromatic[i]) == i && PitchClass(Chromatic[j]) == j
    ensures NoteFrequencies[Chromatic[i]] < NoteFrequencies[Chromatic[j]]
  {
    ChromaticPitchClasses(i);
    ChromaticPitchClasses(j);
    if i + 1 < j {
      ChromaticAscends(i, j - 1);
    }
    ChromaticStep(j - 1);
  }

  /** Position `i` of the chromatic list holds pitch class `i`. */
  lemma ChromaticPitchClasses(i: nat)
    requires i < |Chromatic|
    ensures PitchClass(Chromatic[i]) == i
  {
  }

  /** Each chromatic note sounds higher than the one before it. */
  lemma ChromaticStep(i: nat)
    requires i + 1 < |Chromatic|
    ensures NoteFrequencies[Chromatic[i]] < NoteFrequencies[Chromatic[i + 1]]
  {
  }

  /** The interval names are defined exactly on 1..12 and are pairwise distinct. */
  lemma IntervalNamesDistinct(i: int, j: int)
    ensures i in IntervalNames <==> 1 <= i <= 12
    ensures i in IntervalNames && j in IntervalNames && i != j ==> IntervalNames[i] != IntervalNames[j]
  {
  }

  /** The interval names in key order, as `Object.values` lists them. */
  const IntervalNameList: seq<string> := [
    "Segunda Menor", "Segunda Maior", "Terça Menor", "Terça Maior", "Quarta Justa", "Trítono",
    "Quinta Justa", "Sexta Menor", "Sexta Maior", "Sétima Menor", "Sétima Maior", "Oitava Justa"]

  /** The list holds the name of `v` semitones at position `v - 1`, and nothing else. */
  lemma IntervalNameListMatches(v: int)
    requires 1 <= v <= 12
    ensures |IntervalNameList| == 12 && v in IntervalNames && IntervalNameList[v - 1] == IntervalNames[v]
  {
  }

  /** Both patterns have seven steps spanning one octave. */
  lemma PatternSpansOctave(mode: Mode)
    ensures |IntervalPattern(mode)| == 7 && PatternSpan(IntervalPattern(mode)) == 12
  {
  }

  /** From degree `i` on, each next note of `row` lies the next step of `pattern` above
      the note before it, the note after the last one being `key` an octave up. */
  predicate WalksFrom(key: NoteName, row: seq<NoteName>, pattern: seq<Step>, i: nat)
    requires |pattern| == |row|
    decreases |row| - i
  {
    i >= |row|
    || (PitchClass(if i + 1 < |row| then row[i + 1] else key)
          == (PitchClass(row[i]) + Semitones(pattern[i])) % 12
        && WalksFrom(key, row, pattern, i + 1))
  }

  /** The walk, stated degree by degree. */
  lemma {:induction false} WalksAt(key: NoteName, row: seq<NoteName>, pattern: seq<Step>, i: nat, j: nat)
    requires |pattern| == |row| && WalksFrom(key, row, pattern, i) && i <= j < |row|
    ensures PitchClass(if j + 1 < |row| then row[j + 1] else key) == (PitchClass(row[j]) + Semitones(pattern[j])) % 12
    decreases j - i
  {
    if i < j {
      WalksAt(key, row, pattern, i + 1, j);
    }
  }

  /** A scale row of seven notes that starts at its key and, closed by the key an octave
      up, is walked out by the seven steps of the pattern. */
  predicate FollowsPattern(key: NoteName, row: seq<NoteName>, pattern: seq<Step>) {
    |row| == 7 && |pattern| == 7 && row[0] == key && WalksFrom(key, row, pattern, 0)
  }

  /** In a row that follows the pattern, degree `i` and the next one lie step `i` apart. */
  lemma StepAt(key: NoteName, row: seq<NoteName>, pattern: seq<Step>, i: nat)
    requires FollowsPattern(key, row, pattern) && i < 7
    ensures |row| == 7 && row[0] == key
    ensures PitchClass(if i < 6 then row[i + 1] else key) == (PitchClass(row[i]) + Semitones(pattern[i])) % 12
  {
    WalksAt(key, row, pattern, 0, i);
  }

  /** A tabulated scale row, if present, is walked out from `key` by `pattern`. */
  predicate WalkedOut(key: NoteName, row: Option<seq<NoteName>>, pattern: seq<Step>) {
    row.Some? ==> FollowsPattern(key, row.value, pattern)
  }

  /** From position `i` on, each next note of `row` is written with the letter after the
      previous note's letter, G wrapping round to A. */
  predicate LettersAscend(row: seq<NoteName>, i: nat)
    decreases |row| - i
  {
    i + 1 >= |row|
    || (LetterIndex(row[i + 1]) == (LetterIndex(row[i]) + 1) % 7 && LettersAscend(row, i + 1))
  }

  /** In an ascending row, the letter `j - i` places on from position `i` is `j - i` letters on. */
  lemma {:induction false} LetterAfter(row: seq<NoteName>, i: nat, j: nat)
    requires LettersAscend(row, i) && i <= j < |row|
    ensures LetterIndex(row[j]) == (LetterIndex(row[i]) + (j - i)) % 7
    decreases j - i
  {
    if i < j {
      LetterAfter(row, i + 1, j);
    }
  }

  /** The letters, by position in C D E F G A B, that the notes of `row` are written with. */
  function LetterSet(row: seq<NoteName>): set<nat> {
    set i | 0 <= i < |row| :: LetterIndex(row[i])
  }

  /** Seven notes with ascending letters are written with seven different letters. */
  lemma LettersDistinct(row: seq<NoteName>)
    requires |row| == 7 && LettersAscend(row, 0)
    ensures forall i, j :: 0 <= i < j < 7 ==> Letter(row[i]) != Letter(row[j])
  {
    forall i, j | 0 <= i < j < 7
      ensures Letter(row[i]) != Letter(row[j])
    {
      LetterAfter(row, 0, i);
      LetterAfter(row, 0, j);
      StepsWithinWeekDiffer(LetterIndex(row[0]), i, j);
      LettersOfIndices(row[i], row[j]);
    }
  }

  /** Less than seven letters on from the same letter, two different counts land on
      different letters. */
  lemma StepsWithinWeekDiffer(first: nat, i: nat, j: nat)
    requires first < 7 && i < j < 7
    ensures (first + i) % 7 != (first + j) % 7
  {
  }

  /** Notes at different letter positions are written with different letters. */
  lemma LettersOfIndices(a: NoteName, b: NoteName)
    requires LetterIndex(a) != LetterIndex(b)
    ensures Letter(a) != Letter(b)
  {
  }

  /** Seven notes with ascending letters use every one of the seven letters. */
  lemma LettersCovered(row: seq<NoteName>)
    requires |row| == 7 && LettersAscend(row, 0)
    ensures LetterSet(row) == {0, 1, 2, 3, 4, 5, 6}
  {
    forall d | d in {0, 1, 2, 3, 4, 5, 6}
      ensures d in LetterSet(row)
    {
      var first := LetterIndex(row[0]);
      var i := if first <= d then d - first else d + 7 - first;
      LetterAfter(row, 0, i);
    }
  }

  /** A tabulated scale row, if present, has seven notes with ascending letters. */
  predicate LetteredOnce(row: Option<seq<NoteName>>) {
    row.Some? ==> |row.value| == 7 && LettersAscend(row.value, 0)
  }

  /** The quality suffix of each degree, fixed per mode. */
  function SuffixPattern(mode: Mode): seq<string> {
    if mode == Major then ["", "m", "m", "", "", "m", "md"] else ["m", "md", "", "m", "m", "", ""]
  }

  /** The chord a key of `mode` builds on degree `degree` (0 for I) when that degree is
      `root`: rooted there, with the mode's suffix for the degree. */
  function Triad(mode: Mode, degree: nat, root: NoteName): (ch: Chord)
    requires degree < 7
    ensures ch.root == root && Suffix(ch) == SuffixPattern(mode)[degree]
  {
    var s := SuffixPattern(mode)[degree];
    if s == "" then Maj(root) else if s == "m" then Min(root) else Dim(root)
  }

  /** The seven chords a scale of `mode` builds on its degrees. */
  function Harmonize(scale: seq<NoteName>, mode: Mode): (r: seq<Chord>)
    requires |scale| == 7
    ensures |r| == 7 && forall i :: 0 <= i < 7 ==> r[i] == Triad(mode, i, scale[i])
  {
    [Triad(mode, 0, scale[0]), Triad(mode, 1, scale[1]), Triad(mode, 2, scale[2]), Triad(mode, 3, scale[3]),
     Triad(mode, 4, scale[4]), Triad(mode, 5, scale[5]), Triad(mode, 6, scale[6])]
  }

  /** A harmonic-field row is tabulated exactly when the scale row is, and it is the
      harmonisation of that scale. */
  predicate Harmonized(field: Option<seq<Chord>>, scale: Option<seq<NoteName>>, mode: Mode) {
    (field.Some? <==> scale.Some?)
    && (scale.Some? ==> |scale.value| == 7 && field.value == Harmonize(scale.value, mode))
  }

  // The rows of the four tables, checked key by key.

  lemma MajorC()
    ensures WalkedOut(C, MajorScales(C), MajorPattern)
    ensures LetteredOnce(MajorScales(C))
    ensures Harmonized(HarmonicFields(C), MajorScales(C), Major)
  {
  }

  lemma MajorDFlat()
    ensures WalkedOut(DFlat, MajorScales(DFlat), MajorPattern)
    ensures LetteredOnce(MajorScales(DFlat))
    ensures Harmonized(HarmonicFields(DFlat), MajorScales(DFlat), Major)
  {
  }

  lemma MajorD()
    ensures WalkedOut(D, MajorScales(D), MajorPattern)
    ensures LetteredOnce(MajorScales(D))
    ensures Harmonized(HarmonicFields(D), MajorScales(D), Major)
  {
  }

  lemma MajorEFlat()
    ensures WalkedOut(EFlat, MajorScales(EFlat), MajorPattern)
    ensures LetteredOnce(MajorScales(EFlat))
    ensures Harmonized(HarmonicFields(EFlat), MajorScales(EFlat), Major)
  {
  }

  lemma MajorE()
    ensures WalkedOut(E, MajorScales(E), MajorPattern)
    ensures LetteredOnce(MajorScales(E))
    ensures Harmonized(HarmonicFields(E), MajorScales(E), Major)
  {
  }

  lemma MajorF()
    ensures WalkedOut(F, MajorScales(F), MajorPattern)
    ensures LetteredOnce(MajorScales(F))
    ensures Harmonized(HarmonicFields(F), MajorScales(F), Major)
  {
  }

  lemma MajorFSharp()
    ensures WalkedOut(FSharp, MajorScales(FSharp), MajorPattern)
    ensures LetteredOnce(MajorScales(FSharp))
    ensures Harmonized(HarmonicFields(FSharp), MajorScales(FSharp), Major)
  {
  }

  lemma MajorG()
    ensures WalkedOut(G, MajorScales(G), MajorPattern)
    ensures LetteredOnce(MajorScales(G))
    ensures Harmonized(HarmonicFields(G), MajorScales(G), Major)
  {
  }

  lemma MajorAFlat()
    ensures WalkedOut(AFlat, MajorScales(AFlat), MajorPattern)
    ensures LetteredOnce(MajorScales(AFlat))
    ensures Harmonized(HarmonicFields(AFlat), MajorScales(AFlat), Major)
  {
  }

  lemma MajorA()
    ensures WalkedOut(A, MajorScales(A), MajorPattern)
    ensures LetteredOnce(MajorScales(A))
    ensures Harmonized(HarmonicFields(A), MajorScales(A), Major)
  {
  }

  lemma MajorBFlat()
    ensures WalkedOut(BFlat, MajorScales(BFlat), MajorPattern)
    ensures LetteredOnce(MajorScales(BFlat))
    ensures Harmonized(HarmonicFields(BFlat), MajorScales(BFlat), Major)
  {
  }

  lemma MajorB()
    ensures WalkedOut(B, MajorScales(B), MajorPattern)
    ensures LetteredOnce(MajorScales(B))
    ensures Harmonized(HarmonicFields(B), MajorScales(B), Major)
  {
  }

  lemma MinorC()
    ensures WalkedOut(C, MinorScales(C), MinorPattern)
    ensures LetteredOnce(MinorScales(C))
    ensures Harmonized(HarmonicFieldsMinor(C), MinorScales(C), Minor)
  {
  }

  lemma MinorCSharp()
    ensures WalkedOut(CSharp, MinorScales(CSharp), MinorPattern)
    ensures LetteredOnce(MinorScales(CSharp))
    ensures Harmonized(HarmonicFieldsMinor(CSharp), MinorScales(CSharp), Minor)
  {
  }

  lemma MinorD()
    ensures WalkedOut(D, MinorScales(D), MinorPattern)
    ensures LetteredOnce(MinorScales(D))
    ensures Harmonized(HarmonicFieldsMinor(D), MinorScales(D), Minor)
  {
  }

  lemma MinorEFlat()
    ensures WalkedOut(EFlat, MinorScales(EFlat), MinorPattern)
    ensures LetteredOnce(MinorScales(EFlat))
    ensures Harmonized(HarmonicFieldsMinor(EFlat), MinorScales(EFlat), Minor)
  {
  }

  lemma MinorE()
    ensures WalkedOut(E, MinorScales(E), MinorPattern)
    ensures LetteredOnce(MinorScales(E))
    ensures Harmonized(HarmonicFieldsMinor(E), MinorScales(E), Minor)
  {
  }

  lemma MinorF()
    ensures WalkedOut(F, MinorScales(F), MinorPattern)
    ensures LetteredOnce(MinorScales(F))
    ensures Harmonized(HarmonicFieldsMinor(F), MinorScales(F), Minor)
  {
  }

  lemma MinorFSharp()
    ensures WalkedOut(FSharp, MinorScales(FSharp), MinorPattern)
    ensures LetteredOnce(MinorScales(FSharp))
    ensures Harmonized(HarmonicFieldsMinor(FSharp), MinorScales(FSharp), Minor)
  {
  }

  lemma MinorG()
    ensures WalkedOut(G, MinorScales(G), MinorPattern)
    ensures LetteredOnce(MinorScales(G))
    ensures Harmonized(HarmonicFieldsMinor(G), MinorScales(G), Minor)
  {
  }

  lemma MinorGSharp()
    ensures WalkedOut(GSharp, MinorScales(GSharp), MinorPattern)
    ensures LetteredOnce(MinorScales(GSharp))
    ensures Harmonized(HarmonicFieldsMinor(GSharp), MinorScales(GSharp), Minor)
  {
  }

  lemma MinorA()
    ensures WalkedOut(A, MinorScales(A), MinorPattern)
    ensures LetteredOnce(MinorScales(A))
    ensures Harmonized(HarmonicFieldsMinor(A), MinorScales(A), Minor)
  {
  }

  lemma MinorBFlat()
    ensures WalkedOut(BFlat, MinorScales(BFlat), MinorPattern)
    ensures LetteredOnce(MinorScales(BFlat))
    ensures Harmonized(HarmonicFieldsMinor(BFlat), MinorScales(BFlat), Minor)
  {
  }

  lemma MinorB()
    ensures WalkedOut(B, MinorScales(B), MinorPattern)
    ensures LetteredOnce(MinorScales(B))
    ensures Harmonized(HarmonicFieldsMinor(B), MinorScales(B), Minor)
  {
  }

  /** Every row of the four tables passes the three checks above. */
  lemma TablesChecked(mode: Mode, key: NoteName)
    ensures WalkedOut(key, ScaleOf(mode, key), IntervalPattern(mode))
    ensures LetteredOnce(ScaleOf(mode, key))
    ensures Harmonized(FieldOf(mode, key), ScaleOf(mode, key), mode)
  {
    match key
    case C => MajorC(); MinorC();
    case CSharp => MinorCSharp();
    case D => MajorD(); MinorD();
    case DSharp => {}
    case E => MajorE(); MinorE();
    case F => MajorF(); MinorF();
    case FSharp => MajorFSharp(); MinorFSharp();
    case G => MajorG(); MinorG();
    case GSharp => MinorGSharp();
    case A => MajorA(); MinorA();
    case ASharp => {}
    case B => MajorB(); MinorB();
    case BFlat => MajorBFlat(); MinorBFlat();
    case EFlat => MajorEFlat(); MinorEFlat();
    case AFlat => MajorAFlat();
    case DFlat => MajorDFlat();
    case GFlat => {}
    case CFlat => {}
    case FFlat => {}
    case BSharp => {}
    case ESharp => {}
  }

  /** The scale table of a mode holds a row exactly for the keys it lists. */
  lemma KeysAreTabulated(mode: Mode, key: NoteName)
    ensures ScaleOf(mode, key).Some? <==> key in Keys(mode)
  {
    match key
    case C => case CSharp => case D => case DSharp => case E => case F => case FSharp =>
    case G => case GSharp => case A => case ASharp => case B => case BFlat => case EFlat =>
    case AFlat => case DFlat => case GFlat => case CFlat => case FFlat => case BSharp => case ESharp =>
  }

  /** Each scale row has seven degrees, degree I is its key, and each next degree lies the
      mode's next step above the one before it (degree VII stepping back to the key). */
  lemma ScaleRowsFollowPattern(mode: Mode, key: NoteName, i: nat)
    requires ScaleOf(mode, key).Some? && i < 7
    ensures |ScaleOf(mode, key).value| == 7 && ScaleOf(mode, key).value[0] == key
    ensures PitchClass(if i < 6 then ScaleOf(mode, key).value[i + 1] else key)
         == (PitchClass(ScaleOf(mode, key).value[i]) + Semitones(IntervalPattern(mode)[i])) % 12
  {
    TablesChecked(mode, key);
    StepAt(key, ScaleOf(mode, key).value, IntervalPattern(mode), i);
  }

  /** Each scale row writes its seven degrees with seven different letters, so it uses
      each of the letters A to G exactly once. */
  lemma ScaleRowsUseEachLetterOnce(mode: Mode, key: NoteName)
    requires ScaleOf(mode, key).Some?
    ensures |ScaleOf(mode, key).value| == 7
    ensures forall i, j :: 0 <= i < j < 7 ==> Letter(ScaleOf(mode, key).value[i]) != Letter(ScaleOf(mode, key).value[j])
    ensures LetterSet(ScaleOf(mode, key).value) == {0, 1, 2, 3, 4, 5, 6}
  {
    TablesChecked(mode, key);
    LettersDistinct(ScaleOf(mode, key).value);
    LettersCovered(ScaleOf(mode, key).value);
  }

  /** The harmonic fields of a mode are tabulated for exactly the keys of its scales, the
      chord on degree N of a key is rooted on degree N of its scale, and its quality suffix
      is the mode's fixed one for degree N. */
  lemma ChordsFollowScales(mode: Mode, key: NoteName, i: nat)
    requires i < 7
    ensures FieldOf(mode, key).Some? <==> ScaleOf(mode, key).Some?
    ensures FieldOf(mode, key).Some? ==>
              |FieldOf(mode, key).value| == 7 && |ScaleOf(mode, key).value| == 7
              && FieldOf(mode, key).value[i].root == ScaleOf(mode, key).value[i]
              && Suffix(FieldOf(mode, key).value[i]) == SuffixPattern(mode)[i]
  {
    TablesChecked(mode, key);
    HarmonizedAt(FieldOf(mode, key), ScaleOf(mode, key), mode, i);
  }

  /** In a harmonised row, chord `i` is rooted on degree `i` with the mode's quality. */
  lemma HarmonizedAt(field: Option<seq<Chord>>, scale: Option<seq<NoteName>>, mode: Mode, i: nat)
    requires Harmonized(field, scale, mode) && i < 7
    ensures field.Some? <==> scale.Some?
    ensures field.Some? ==>
              |field.value| == 7 && |scale.value| == 7
              && field.value[i].root == scale.value[i] && Suffix(field.value[i]) == SuffixPattern(mode)[i]
  {
  }
}
