/** The five-step interval drill: each question sounds two notes, asks for the interval
    between them among four names, scores 20 for a right first answer and reports the
    total after the fifth step. */
module IntervalExercise {
  import opened Wrappers
  import opened Types
  import opened Constants
  import opened Draws

  /** A question: the two notes, the interval in semitones and the names offered. The
      second note is None when its index runs past the chromatic list, where indexing
      past the end of the list yields `undefined`. */
  datatype Question = Question(note1: NoteName, note2: Option<NoteName>, intervalValue: int, options: seq<string>)

  /** The interval a draw selects: `Math.floor(u * 12) + 1`. */
  function IntervalValue(u: real): (v: int)
    requires UnitDraw(u)
    ensures 1 <= v <= 12
  {
    Index(u, 12) + 1
  }

  /** The two notes of a question: `NOTES[note1Index]` and `NOTES[note1Index + v]` for
      the base index `Math.floor(u1 * (NOTES.length - 12))`. That range is empty, so the
      base is always C; the second note lies `v` semitones above it, except for the
      octave, whose index 12 is past the end of the list. */
  function QuestionNotes(u1: real, v: int): (r: (NoteName, Option<NoteName>))
    requires UnitDraw(u1) && 1 <= v <= 12
    ensures r.0 == C
    ensures r.1.None? <==> v == 12
    ensures r.1.Some? ==> PitchClass(r.1.value) - PitchClass(r.0) == v
  {
    var note1Index := Index(u1, |Chromatic| - 12);
    var note2 := if note1Index + v < |Chromatic| then Some(Chromatic[note1Index + v]) else None;
    if v < 12 then
      ChromaticAscends(0, v);
      (Chromatic[note1Index], note2)
    else
      (Chromatic[note1Index], note2)
  }

  /** The draws feed the options loop enough names besides the right one. */
  predicate OptionDrawsSuffice(u2: real, draws: seq<real>)
    requires UnitDraw(u2)
  {
    IntervalNameListMatches(IntervalValue(u2));
    UnitDraws(draws)
    && |{IntervalNames[IntervalValue(u2)]} + Picks(IntervalNameList, draws, |draws|)| >= 4
  }

  /** A question as the drill builds it: the base note is C, the second note lies the
      interval above it (missing for the octave), and the four options are different
      interval names, the right one among them. */
  predicate WellFormedQuestion(q: Question) {
    && q.note1 == C
    && 1 <= q.intervalValue <= 12
    && (q.note2.None? <==> q.intervalValue == 12)
    && (q.note2.Some? ==> PitchClass(q.note2.value) - PitchClass(q.note1) == q.intervalValue)
    && |q.options| == 4 && Distinct(q.options)
    && q.intervalValue in IntervalNames && IntervalNames[q.intervalValue] in q.options
    && (forall i :: 0 <= i < 4 ==> q.options[i] in IntervalNameList)
  }

  /** Builds a question from the draws: the notes as above, and four different interval
      names as options, the right one among them. */
  method NewQuestion(u1: real, u2: real, draws: seq<real>, order: seq<nat>) returns (q: Question)
    requires UnitDraw(u1) && UnitDraw(u2) && OptionDrawsSuffice(u2, draws) && IsOrder(order, 4)
    ensures q.note1 == C
    ensures q.intervalValue == IntervalValue(u2) && 1 <= q.intervalValue <= 12
    ensures q.note2.None? <==> q.intervalValue == 12
    ensures q.note2.Some? ==> PitchClass(q.note2.value) - PitchClass(q.note1) == q.intervalValue
    ensures |q.options| == 4 && Distinct(q.options)
    ensures q.intervalValue in IntervalNames && IntervalNames[q.intervalValue] in q.options
    ensures forall i :: 0 <= i < 4 ==> q.options[i] in IntervalNameList
  {
    var intervalValue := IntervalValue(u2);
    var (note1, note2) := QuestionNotes(u1, intervalValue);
    IntervalNameListMatches(intervalValue);
    var correctAnswer := IntervalNames[intervalValue];
    var options := DrawOptions(IntervalNameList, correctAnswer, draws);
    var shuffled := Permute(options, order);
    assert correctAnswer in shuffled by {
      assert options[0] == correctAnswer;
    }
    assert correctAnswer in IntervalNameList;
    q := Question(note1, note2, intervalValue, shuffled);
  }

  /** The state of the interval drill. `correctAnswers` counts the right answers given so
      far; it only explains the score. */
  class Session {
    var currentStep: nat
    var score: nat
    var question: Option<Question>
    var selectedOption: Option<string>
    var isCorrect: Option<bool>
    ghost var correctAnswers: nat

    /** The score is twenty per right answer, at most one answer is counted per step, and
        an answer is given exactly when its verdict is. */
    ghost predicate Valid()
      reads this
    {
      currentStep <= 4
      && score == 20 * correctAnswers
      && correctAnswers <= currentStep + (if isCorrect == Some(true) then 1 else 0)
      && (selectedOption.Some? <==> isCorrect.Some?)
      && (question.Some? ==> WellFormedQuestion(question.value))
    }

    /** Mounting the drill generates the first question. */
    constructor (u1: real, u2: real, draws: seq<real>, order: seq<nat>)
      requires UnitDraw(u1) && UnitDraw(u2) && OptionDrawsSuffice(u2, draws) && IsOrder(order, 4)
      ensures Valid()
      ensures currentStep == 0 && score == 0 && question.Some? && WellFormedQuestion(question.value)
      ensures selectedOption == None && isCorrect == None
    {
      currentStep := 0;
      score := 0;
      question := None;
      selectedOption := None;
      isCorrect := None;
      correctAnswers := 0;
      new;
      Generate(u1, u2, draws, order);
    }

    /** A fresh question: the previous answer and verdict are cleared. */
    method Generate(u1: real, u2: real, draws: seq<real>, order: seq<nat>)
      requires Valid() && correctAnswers <= currentStep
      requires UnitDraw(u1) && UnitDraw(u2) && OptionDrawsSuffice(u2, draws) && IsOrder(order, 4)
      modifies this
      ensures Valid()
      ensures selectedOption == None && isCorrect == None
      ensures question.Some? && question.value.intervalValue == IntervalValue(u2)
      ensures WellFormedQuestion(question.value)
      ensures currentStep == old(currentStep) && score == old(score) && correctAnswers == old(correctAnswers)
    {
      selectedOption := None;
      isCorrect := None;
      var q := NewQuestion(u1, u2, draws, order);
      question := Some(q);
    }

    /** Answering: ignored once an answer is given or while no question exists;
        otherwise the answer is right exactly when it is the name of the question's
        interval, and a right answer scores 20. */
    method HandleOptionClick(option: string)
      requires Valid()
      modifies this
      ensures Valid()
      ensures old(selectedOption).Some? || old(question).None? ==>
                selectedOption == old(selectedOption) && isCorrect == old(isCorrect)
                && score == old(score) && correctAnswers == old(correctAnswers)
      ensures old(selectedOption).None? && old(question).Some? ==>
                var correct := option == IntervalNames[old(question).value.intervalValue];
                selectedOption == Some(option) && isCorrect == Some(correct)
                && score == old(score) + (if correct then 20 else 0)
      ensures question == old(question) && currentStep == old(currentStep)
    {
      if selectedOption.Some? || question.None? {
        return;
      }
      selectedOption := Some(option);
      IntervalNameListMatches(question.value.intervalValue);
      var correct := option == IntervalNames[question.value.intervalValue];
      isCorrect := Some(correct);
      if correct {
        score := score + 20;
        correctAnswers := correctAnswers + 1;
      }
    }

    /** Moving on: on the fifth step the score is reported and nothing changes; before
        it, the step advances and a new question replaces the old one. A reported score
        is twenty per right answer, so at most 100. */
    method HandleNext(u1: real, u2: real, draws: seq<real>, order: seq<nat>) returns (completed: Option<nat>)
      requires Valid()
      requires currentStep < 4 ==>
                 UnitDraw(u1) && UnitDraw(u2) && OptionDrawsSuffice(u2, draws) && IsOrder(order, 4)
      modifies this
      ensures Valid()
      ensures old(currentStep) >= 4 ==>
                completed == Some(old(score)) && currentStep == old(currentStep)
                && question == old(question) && selectedOption == old(selectedOption)
                && isCorrect == old(isCorrect)
      ensures old(currentStep) < 4 ==>
                completed == None && currentStep == old(currentStep) + 1
                && selectedOption == None && isCorrect == None
                && question.Some? && WellFormedQuestion(question.value)
      ensures score == old(score)
      ensures completed.Some? ==> completed.value == 20 * correctAnswers && completed.value <= 100
    {
      if currentStep >= 4 {
        completed := Some(score);
      } else {
        currentStep := currentStep + 1;
        Generate(u1, u2, draws, order);
        completed := None;
      }
    }
  }
}
