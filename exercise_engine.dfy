/** The exercise screen: the briefing shown first, the routing of a category to its drill,
    and the five-step note-identification drill that every other category gets. */
module ExerciseEngine {
  import opened Wrappers
  import opened Types
  import opened Constants
  import opened Draws

  /** The drill a category is shown. */
  datatype Drill = ScaleTableDrill | HarmonyTableDrill | IntervalDrill | NoteDrill

  /** The categories whose screens are rendered by a drill of their own. */
  predicate Specialized(category: ExerciseCategory) {
    category == Scales || category == Harmony || category == Intervals
  }

  /** The screen the exercise view renders for a category once the briefing is closed. */
  function Route(category: ExerciseCategory): Drill {
    match category
    case Scales => ScaleTableDrill
    case Harmony => HarmonyTableDrill
    case Intervals => IntervalDrill
    case Notes => NoteDrill
    case ScaleTable => NoteDrill
  }

  /** A note question is generated on mount exactly for the categories the view renders
      as a note drill; those are NOTES and SCALE_TABLE, the latter never reaching the
      scale table. */
  lemma GeneratesExactlyForNoteDrill(category: ExerciseCategory)
    ensures !Specialized(category) <==> Route(category) == NoteDrill
    ensures Route(category) == NoteDrill <==> category == Notes || category == ScaleTable
    ensures Route(category) == ScaleTableDrill <==> category == Scales
  {
  }

  const NoteQuestion := "Qual nota está representada no pentagrama?"

  /** A note question: four different chromatic notes, the right one among them, and the
      right one played as the hint. */
  predicate WellFormedQuestion(e: Exercise, category: ExerciseCategory) {
    e.category == category && e.question == NoteQuestion
    && |e.options| == 4 && Distinct(e.options)
    && (forall i :: 0 <= i < 4 ==> e.options[i] in Chromatic)
    && e.correctAnswer in e.options
    && e.audioHint == [e.correctAnswer]
  }

  /** Builds a question from the draws: `u` picks the right note, `draws` feed the options
      loop and `order` is how the random-comparator sort leaves the four options. */
  method NewQuestion(category: ExerciseCategory, u: real, draws: seq<real>, order: seq<nat>) returns (e: Exercise)
    requires UnitDraw(u) && UnitDraws(draws) && IsOrder(order, 4)
    requires |{Pick(Chromatic, u)} + Picks(Chromatic, draws, |draws|)| >= 4
    ensures WellFormedQuestion(e, category)
    ensures e.correctAnswer == Pick(Chromatic, u)
    ensures Elements(e.options) <= {e.correctAnswer} + Picks(Chromatic, draws, |draws|)
  {
    var randomNote := Pick(Chromatic, u);
    var options := DrawOptions(Chromatic, randomNote, draws);
    var shuffled := Permute(options, order);
    assert randomNote in shuffled by {
      assert options[0] == randomNote;
    }
    assert Elements(shuffled) <= Elements(options) by {
      forall x | x in shuffled
        ensures x in options
      {
        var i :| 0 <= i < |shuffled| && shuffled[i] == x;
      }
    }
    e := Exercise(category, NoteQuestion, shuffled, randomNote, [randomNote]);
  }

  /** The state of one exercise screen. `correctAnswers` counts the right answers given
      so far; it is not shown, it only explains the score. */
  class Session {
    const category: ExerciseCategory
    var showBriefing: bool
    var currentStep: nat
    var exercise: Option<Exercise>
    var selectedOption: Option<NoteName>
    var isCorrect: Option<bool>
    var score: nat
    ghost var correctAnswers: nat

    /** The score is ten per right answer, at most one answer is counted per step, an
        answer is given exactly when its verdict is, and a question is well formed. */
    ghost predicate Valid()
      reads this
    {
      currentStep <= 4
      && score == 10 * correctAnswers
      && correctAnswers <= currentStep + (if isCorrect == Some(true) then 1 else 0)
      && (selectedOption.Some? <==> isCorrect.Some?)
      && (exercise.Some? ==> WellFormedQuestion(exercise.value, category))
    }

    /** Mounting the screen: the briefing is shown, nothing is scored yet, and a note
        question is generated unless the category has a drill of its own. */
    constructor (category: ExerciseCategory, u: real, draws: seq<real>, order: seq<nat>)
      requires !Specialized(category) ==>
                 UnitDraw(u) && UnitDraws(draws) && IsOrder(order, 4)
                 && |{Pick(Chromatic, u)} + Picks(Chromatic, draws, |draws|)| >= 4
      ensures Valid()
      ensures this.category == category && showBriefing && currentStep == 0 && score == 0
      ensures selectedOption == None && isCorrect == None
      ensures exercise.Some? <==> !Specialized(category)
    {
      this.category := category;
      showBriefing := true;
      currentStep := 0;
      exercise := None;
      selectedOption := None;
      isCorrect := None;
      score := 0;
      correctAnswers := 0;
      new;
      if !Specialized(category) {
        Generate(u, draws, order);
      }
    }

    /** Closing the briefing; the drill itself is untouched. */
    method Start()
      requires Valid()
      modifies this
      ensures Valid()
      ensures !showBriefing
      ensures currentStep == old(currentStep) && score == old(score) && exercise == old(exercise)
      ensures selectedOption == old(selectedOption) && isCorrect == old(isCorrect)
      ensures correctAnswers == old(correctAnswers)
    {
      showBriefing := false;
    }

    /** A fresh question: the previous answer and verdict are cleared. */
    method Generate(u: real, draws: seq<real>, order: seq<nat>)
      requires Valid() && correctAnswers <= currentStep
      requires UnitDraw(u) && UnitDraws(draws) && IsOrder(order, 4)
      requires |{Pick(Chromatic, u)} + Picks(Chromatic, draws, |draws|)| >= 4
      modifies this
      ensures Valid()
      ensures selectedOption == None && isCorrect == None
      ensures exercise.Some? && exercise.value.correctAnswer == Pick(Chromatic, u)
      ensures Elements(exercise.value.options) <= {Pick(Chromatic, u)} + Picks(Chromatic, draws, |draws|)
      ensures showBriefing == old(showBriefing) && currentStep == old(currentStep) && score == old(score)
      ensures correctAnswers == old(correctAnswers)
    {
      selectedOption := None;
      isCorrect := None;
      var e := NewQuestion(category, u, draws, order);
      exercise := Some(e);
    }

    /** Answering: the first answer is judged against the right note and scores 10 when
        right; once an answer is given, further clicks change nothing. */
    method HandleOptionClick(option: NoteName)
      requires Valid()
      modifies this
      ensures Valid()
      ensures old(selectedOption).Some? ==>
                selectedOption == old(selectedOption) && isCorrect == old(isCorrect)
                && score == old(score) && correctAnswers == old(correctAnswers)
      ensures old(selectedOption).None? ==>
                var correct := old(exercise).Some? && option == old(exercise).value.correctAnswer;
                selectedOption == Some(option) && isCorrect == Some(correct)
                && score == old(score) + (if correct then 10 else 0)
      ensures exercise == old(exercise) && currentStep == old(currentStep) && showBriefing == old(showBriefing)
    {
      if selectedOption.Some? {
        return;
      }
      selectedOption := Some(option);
      var correct := exercise.Some? && option == exercise.value.correctAnswer;
      isCorrect := Some(correct);
      if correct {
        score := score + 10;
        correctAnswers := correctAnswers + 1;
      }
    }

    /** Moving on: on the fifth step the score is reported (`Some(score)`) and nothing
        changes; before it, the step advances and a new question replaces the old one.
        A reported score is ten per right answer, so at most 50. */
    method HandleNext(u: real, draws: seq<real>, order: seq<nat>) returns (completed: Option<nat>)
      requires Valid()
      requires currentStep < 4 ==>
                 UnitDraw(u) && UnitDraws(draws) && IsOrder(order, 4)
                 && |{Pick(Chromatic, u)} + Picks(Chromatic, draws, |draws|)| >= 4
      modifies this
      ensures Valid()
      ensures old(currentStep) >= 4 ==>
                completed == Some(old(score)) && currentStep == old(currentStep)
                && exercise == old(exercise) && selectedOption == old(selectedOption)
                && isCorrect == old(isCorrect)
      ensures old(currentStep) < 4 ==>
                completed == None && currentStep == old(currentStep) + 1
                && selectedOption == None && isCorrect == None && exercise.Some?
      ensures score == old(score) && showBriefing == old(showBriefing)
      ensures completed.Some? ==> completed.value == 10 * correctAnswers && completed.value <= 50
    {
      if currentStep >= 4 {
        completed := Some(score);
      } else {
        currentStep := currentStep + 1;
        Generate(u, draws, order);
        completed := None;
      }
    }
  }
}
