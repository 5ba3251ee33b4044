/** The shared vocabulary of the application: note spellings, exercise categories,
    the user's statistics and the views of the application shell. */
module Types {
  import opened Wrappers

  /** The 21 spellings a note may take: the twelve chromatic notes, the five flats
      and the theoretical spellings Cb, Fb, B# and E#. */
  datatype NoteName =
    | C | CSharp | D | DSharp | E | F | FSharp | G | GSharp | A | ASharp | B
    | BFlat | EFlat | AFlat | DFlat | GFlat | CFlat | FFlat | BSharp | ESharp

  /** The text the application shows and stores for a note. */
  function Spelling(n: NoteName): string {
    match n
    case C => "C"        case CSharp => "C#"  case D => "D"        case DSharp => "D#"
    case E => "E"        case F => "F"        case FSharp => "F#"  case G => "G"
    case GSharp => "G#"  case A => "A"        case ASharp => "A#"  case B => "B"
    case BFlat => "Bb"   case EFlat => "Eb"   case AFlat => "Ab"   case DFlat => "Db"
    case GFlat => "Gb"   case CFlat => "Cb"   case FFlat => "Fb"   case BSharp => "B#"
    case ESharp => "E#"
  }

  /** The note a text names, if it is one of the 21 spellings. */
  function ParseNote(s: string): (r: Option<NoteName>)
    ensures r.Some? ==> Spelling(r.value) == s
  {
    if s == "C" then Some(C) else if s == "C#" then Some(CSharp)
    else if s == "D" then Some(D) else if s == "D#" then Some(DSharp)
    else if s == "E" then Some(E) else if s == "F" then Some(F)
    else if s == "F#" then Some(FSharp) else if s == "G" then Some(G)
    else if s == "G#" then Some(GSharp) else if s == "A" then Some(A)
    else if s == "A#" then Some(ASharp) else if s == "B" then Some(B)
    else if s == "Bb" then Some(BFlat) else if s == "Eb" then Some(EFlat)
    else if s == "Ab" then Some(AFlat) else if s == "Db" then Some(DFlat)
    else if s == "Gb" then Some(GFlat) else if s == "Cb" then Some(CFlat)
    else if s == "Fb" then Some(FFlat) else if s == "B#" then Some(BSharp)
    else if s == "E#" then Some(ESharp) else None
  }

  /** Every spelling is read back as the note it spells, so no two notes share a spelling. */
  lemma SpellingRoundTrip(n: NoteName)
    ensures ParseNote(Spelling(n)) == Some(n)
  {
  }

  /** The exercise categories of the application. */
  datatype ExerciseCategory = Notes | Intervals | Scales | Harmony | ScaleTable

  /** One completed exercise in the user's history. */
  datatype HistoryEntry = HistoryEntry(date: string, score: int, category: ExerciseCategory)

  /** The user's persistent statistics. */
  datatype UserStats = UserStats(
    name: Option<string>,
    xp: int,
    level: int,
    streak: int,
    history: seq<HistoryEntry>)

  /** A multiple-choice note question: its category, its prompt, the options offered,
      the right answer and the notes played as a hint. */
  datatype Exercise = Exercise(
    category: ExerciseCategory,
    question: string,
    options: seq<NoteName>,
    correctAnswer: NoteName,
    audioHint: seq<NoteName>)

  /** The screens of the application shell. */
  datatype ViewState = Login | Study | Challenges | Progress | Profile | ExerciseScreen | PianoFree
}
