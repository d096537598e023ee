/** The server side of the grammar quiz (moduleD.py): a fixed bank of
    fill-in-the-blank questions, a quiz drawn from it, and the grading of a
    submission against the stored quiz. */
module QuizGrading {
  import opened Text

  datatype BankEntry = BankEntry(sentence: string, answer: string, category: string)

  const QuestionsBank: seq<BankEntry> := [
    BankEntry("She ___ going to the market.", "is", "be_verb"),
    BankEntry("They have been friends ___ childhood.", "since", "preposition"),
    BankEntry("He runs faster ___ anyone else.", "than", "comparison"),
    BankEntry("I have lived here ___ five years.", "for", "preposition"),
    BankEntry("This is the ___ book I have ever read.", "best", "superlative"),
    BankEntry("I am looking forward ___ meeting you.", "to", "phrasal_verb"),
    BankEntry("Neither the teacher nor the students ___ ready.", "are", "subject_verb"),
    BankEntry("She has been working here ___ last year.", "since", "preposition"),
    BankEntry("We went to the park ___ it was raining.", "although", "conjunction"),
    BankEntry("I don't like tea, and ___ do I.", "neither", "negative"),
    BankEntry("By the time we arrived, the train ___.", "had left", "past_perfect"),
    BankEntry("There ___ a lot of people at the party.", "were", "be_verb"),
    BankEntry("She speaks English ___ than her brother.", "better", "comparison"),
    BankEntry("If I ___ you, I would take the job.", "were", "conditional"),
    BankEntry("He hasn't called me ___ last week.", "since", "preposition"),
    BankEntry("We stayed at a hotel ___ had a beautiful view.", "that", "relative_pronoun"),
    BankEntry("The book was so interesting that I couldn't ___ it down.", "put", "phrasal_verb"),
    BankEntry("You should not judge a book ___ its cover.", "by", "preposition"),
    BankEntry("I will call you when I ___ home.", "get", "time_clause"),
    BankEntry("She prefers coffee ___ tea.", "to", "preference"),
    BankEntry("The children ___ playing in the garden.", "are", "present_continuous"),
    BankEntry("I wish I ___ speak French fluently.", "could", "wish"),
    BankEntry("The meeting has been ___ until next week.", "postponed", "passive"),
    BankEntry("Either you or your brother ___ to help.", "has", "either_or"),
    BankEntry("She made me ___ for an hour.", "wait", "causative")
  ]

  /** A question as the client receives it: no answer, an id and a 1-based number. */
  datatype QuizQuestion = QuizQuestion(id: nat, sentence: string, category: string, number: nat)

  datatype QuizResponse =
    | QuizGenerated(questions: seq<QuizQuestion>, totalQuestions: nat, quizId: string)
    | QuizFailed(error: string)

  /** The submitted answers: a list, or an object keyed by question index. */
  datatype Answers = AnswerList(items: seq<string>) | AnswerMap(entries: map<string, string>)

  datatype ReviewItem = ReviewItem(questionNumber: nat, sentence: string, userAnswer: string,
                                   correctAnswer: string, correct: bool)

  datatype Grading =
    | Graded(score: nat, correctCount: nat, total: nat, review: seq<ReviewItem>)
    | GradingFailed(error: string)

  const NO_ACTIVE_QUIZ: string := "No active quiz found. Please start a new quiz."
  const NO_ANSWER: string := "(no answer)"
  /** What `random.sample` raises for a negative count, behind get_quiz's prefix. */
  const SAMPLE_FAILURE: string := "Failed to generate quiz: Sample larger than population or is negative"

  function Min(a: int, b: int): int { if a <= b then a else b }

  lemma StrInjectiveAll()
    ensures forall a: nat, b: nat :: Str(a) == Str(b) ==> a == b
  {
    forall a: nat, b: nat ensures Str(a) == Str(b) ==> a == b {
      StrInjective(a, b);
    }
  }

  /** `{str(i): ans for i, ans in enumerate(answers)}`. */
  function ListAsDict(items: seq<string>): (d: map<string, string>)
    ensures forall i :: 0 <= i < |items| ==> Str(i) in d && d[Str(i)] == items[i]
  {
    StrInjectiveAll();
    map i | 0 <= i < |items| :: Str(i) := items[i]
  }

  function AsDict(answers: Answers): map<string, string>
  {
    match answers
    case AnswerList(items) => ListAsDict(items)
    case AnswerMap(entries) => entries
  }

  /** `d.get(k, "")`. */
  function Lookup(d: map<string, string>, k: string): string
  {
    if k in d then d[k] else ""
  }

  /** The raw answer the server reads for question `idx`. */
  function AnswerFor(answers: Answers, idx: nat): string
  {
    Lookup(AsDict(answers), Str(idx))
  }

  /** A list answers question i with its i-th element, and the questions
      past its end with "". */
  lemma LookupList(items: seq<string>, idx: nat)
    ensures AnswerFor(AnswerList(items), idx) == if idx < |items| then items[idx] else ""
  {
    if idx >= |items| {
      forall i | 0 <= i < |items|
        ensures Str(i) != Str(idx)
      {
        StrInjective(i, idx);
      }
    }
  }

  /** `answer.strip().lower()`. */
  function Normalize(s: string): string
  {
    Lower(Trim(s, Python))
  }

  predicate Correct(quiz: seq<BankEntry>, answers: Answers, idx: nat)
    requires idx < |quiz|
  {
    Normalize(AnswerFor(answers, idx)) == Lower(quiz[idx].answer)
  }

  /** The verdict on each question, in quiz order. */
  function Verdicts(quiz: seq<BankEntry>, answers: Answers): (v: seq<bool>)
    ensures |v| == |quiz| && forall i :: 0 <= i < |quiz| ==> (v[i] <==> Correct(quiz, answers, i))
  {
    seq(|quiz|, i requires 0 <= i < |quiz| => Correct(quiz, answers, i))
  }

  function CountTrue(marks: seq<bool>): (c: nat)
    ensures c <= |marks|
  {
    if marks == [] then 0
    else CountTrue(marks[..|marks| - 1]) + if marks[|marks| - 1] then 1 else 0
  }

  /** The number of questions answered correctly. */
  function Score(quiz: seq<BankEntry>, answers: Answers): nat
  {
    CountTrue(Verdicts(quiz, answers))
  }

  lemma {:induction false} AllTrueIff(marks: seq<bool>)
    ensures CountTrue(marks) == |marks| <==> forall i :: 0 <= i < |marks| ==> marks[i]
    decreases |marks|
  {
    if marks != [] {
      var init := marks[..|marks| - 1];
      AllTrueIff(init);
      assert forall i :: 0 <= i < |init| ==> init[i] == marks[i];
    }
  }

  lemma {:induction false} NoneTrueIff(marks: seq<bool>)
    ensures CountTrue(marks) == 0 <==> forall i :: 0 <= i < |marks| ==> !marks[i]
    decreases |marks|
  {
    if marks != [] {
      var init := marks[..|marks| - 1];
      NoneTrueIff(init);
      assert forall i :: 0 <= i < |init| ==> init[i] == marks[i];
    }
  }

  function ReviewEntry(quiz: seq<BankEntry>, answers: Answers, idx: nat): ReviewItem
    requires idx < |quiz|
  {
    var given := Normalize(AnswerFor(answers, idx));
    ReviewItem(idx + 1, quiz[idx].sentence, if given == "" then NO_ANSWER else given,
               quiz[idx].answer, given == Lower(quiz[idx].answer))
  }

  /** One review item per question, in quiz order. */
  function Review(quiz: seq<BankEntry>, answers: Answers): (review: seq<ReviewItem>)
    ensures |review| == |quiz|
    ensures forall i :: 0 <= i < |quiz| ==>
      && review[i].questionNumber == i + 1
      && review[i].sentence == quiz[i].sentence
      && review[i].correctAnswer == quiz[i].answer
      && (review[i].correct <==> Correct(quiz, answers, i))
      && (Normalize(AnswerFor(answers, i)) == "" ==> review[i].userAnswer == NO_ANSWER)
      && (Normalize(AnswerFor(answers, i)) != "" ==> review[i].userAnswer == Normalize(AnswerFor(answers, i)))
  {
    seq(|quiz|, i requires 0 <= i < |quiz| => ReviewEntry(quiz, answers, i))
  }

  /** The `correct` flags of a review. */
  function Marks(review: seq<ReviewItem>): seq<bool>
  {
    seq(|review|, i requires 0 <= i < |review| => review[i].correct)
  }

  /** The score is the number of review items marked correct. */
  lemma ScoreMatchesReview(quiz: seq<BankEntry>, answers: Answers)
    ensures Score(quiz, answers) == CountTrue(Marks(Review(quiz, answers)))
  {
    assert Marks(Review(quiz, answers)) == Verdicts(quiz, answers);
  }

  /** Full marks exactly when every question is answered correctly. */
  lemma FullMarksIff(quiz: seq<BankEntry>, answers: Answers)
    ensures Score(quiz, answers) == |quiz| <==> forall i :: 0 <= i < |quiz| ==> Correct(quiz, answers, i)
  {
    AllTrueIff(Verdicts(quiz, answers));
  }

  /** Zero exactly when no question is answered correctly. */
  lemma ZeroMarksIff(quiz: seq<BankEntry>, answers: Answers)
    ensures Score(quiz, answers) == 0 <==> forall i :: 0 <= i < |quiz| ==> !Correct(quiz, answers, i)
  {
    NoneTrueIff(Verdicts(quiz, answers));
  }

  /** A question the list does not reach is reported as unanswered and
      wrong, its expected answer being non-empty. */
  lemma MissingAnswerIsWrong(quiz: seq<BankEntry>, items: seq<string>, idx: nat)
    requires idx < |quiz| && |items| <= idx && quiz[idx].answer != ""
    ensures Review(quiz, AnswerList(items))[idx].userAnswer == NO_ANSWER
    ensures !Review(quiz, AnswerList(items))[idx].correct
  {
    LookupList(items, idx);
    assert Trim("", Python) == "";
    assert |Lower(quiz[idx].answer)| > 0;
  }

  /** An answer without surrounding whitespace is compared lower-cased. */
  lemma NormalizeClean(s: string)
    requires NoBorderSpace(s, Python)
    ensures Normalize(s) == Lower(s)
  {
    TrimKeepsClean(s, Python);
  }

  function ExpectedAnswers(quiz: seq<BankEntry>): seq<string>
  {
    seq(|quiz|, i requires 0 <= i < |quiz| => quiz[i].answer)
  }

  /** Submitting the expected answers, in any letter case the bank uses,
      scores full marks. */
  lemma ExpectedAnswersFullMarks(quiz: seq<BankEntry>)
    requires forall i :: 0 <= i < |quiz| ==> NoBorderSpace(quiz[i].answer, Python)
    ensures Score(quiz, AnswerList(ExpectedAnswers(quiz))) == |quiz|
  {
    var answers := AnswerList(ExpectedAnswers(quiz));
    forall i | 0 <= i < |quiz|
      ensures Correct(quiz, answers, i)
    {
      LookupList(ExpectedAnswers(quiz), i);
      NormalizeClean(quiz[i].answer);
    }
    FullMarksIff(quiz, answers);
  }

  /** Non-empty, beginning and ending with a lower-case ASCII letter. */
  predicate LetterEnds(s: string)
  {
    s != [] && 'a' <= s[0] <= 'z' && 'a' <= s[|s| - 1] <= 'z'
  }

  lemma LetterEndsClean(s: string)
    requires LetterEnds(s)
    ensures s != "" && NoBorderSpace(s, Python)
  {
  }

  lemma BankLetterEnds()
    ensures forall i :: 0 <= i < |QuestionsBank| ==> LetterEnds(QuestionsBank[i].answer)
  {
  }

  /** Every bank answer is non-empty and has no surrounding whitespace, so
      the expected answers themselves score full marks. */
  lemma BankAnswersClean()
    ensures forall i :: 0 <= i < |QuestionsBank| ==>
      QuestionsBank[i].answer != "" && NoBorderSpace(QuestionsBank[i].answer, Python)
  {
    BankLetterEnds();
    forall i | 0 <= i < |QuestionsBank|
      ensures QuestionsBank[i].answer != "" && NoBorderSpace(QuestionsBank[i].answer, Python)
    {
      LetterEndsClean(QuestionsBank[i].answer);
    }
  }

  /** The quiz `random.sample` draws: the bank entries at distinct positions. */
  predicate IsSample(picks: seq<nat>, k: int)
  {
    && |picks| == k
    && (forall i :: 0 <= i < |picks| ==> picks[i] < |QuestionsBank|)
    && (forall i, j :: 0 <= i < j < |picks| ==> picks[i] != picks[j])
  }

  function Selected(picks: seq<nat>): seq<BankEntry>
    requires forall i :: 0 <= i < |picks| ==> picks[i] < |QuestionsBank|
  {
    seq(|picks|, i requires 0 <= i < |picks| => QuestionsBank[picks[i]])
  }

  /** Whatever quiz is drawn from the bank, submitting its expected answers
      scores full marks, and leaving every answer blank scores zero. */
  lemma DrawnQuizMarks(picks: seq<nat>)
    requires forall i :: 0 <= i < |picks| ==> picks[i] < |QuestionsBank|
    ensures Score(Selected(picks), AnswerList(ExpectedAnswers(Selected(picks)))) == |picks|
    ensures Score(Selected(picks), AnswerList([])) == 0
  {
    var quiz := Selected(picks);
    BankAnswersClean();
    ExpectedAnswersFullMarks(quiz);
    forall i | 0 <= i < |quiz|
      ensures !Correct(quiz, AnswerList([]), i)
    {
      MissingAnswerIsWrong(quiz, [], i);
    }
    ZeroMarksIff(quiz, AnswerList([]));
  }

  /** The client's view of a quiz: entry i has id i and number i + 1. */
  predicate NumberedAs(questions: seq<QuizQuestion>, quiz: seq<BankEntry>)
  {
    && |questions| == |quiz|
    && forall i :: 0 <= i < |quiz| ==>
         questions[i] == QuizQuestion(i, quiz[i].sentence, quiz[i].category, i + 1)
  }

  /** The `enumerate` loop of `get_quiz`. */
  method NumberQuestions(quiz: seq<BankEntry>) returns (questions: seq<QuizQuestion>)
    ensures NumberedAs(questions, quiz)
  {
    questions := [];
    var i := 0;
    while i < |quiz|
      invariant i <= |quiz| && |questions| == i
      invariant forall j :: 0 <= j < i ==>
        questions[j] == QuizQuestion(j, quiz[j].sentence, quiz[j].category, j + 1)
    {
      questions := questions + [QuizQuestion(i, quiz[i].sentence, quiz[i].category, i + 1)];
      i := i + 1;
    }
  }

  /** Grading question `idx` extends the score and the review of the
      questions before it by that question's verdict and entry. */
  lemma GradeStep(quiz: seq<BankEntry>, answers: Answers, idx: nat)
    requires idx < |quiz|
    ensures CountTrue(Verdicts(quiz, answers)[..idx + 1])
         == CountTrue(Verdicts(quiz, answers)[..idx]) + if Correct(quiz, answers, idx) then 1 else 0
    ensures Review(quiz, answers)[..idx + 1] == Review(quiz, answers)[..idx] + [ReviewEntry(quiz, answers, idx)]
  {
    var v := Verdicts(quiz, answers);
    assert v[..idx + 1][..idx] == v[..idx];
    var review := Review(quiz, answers);
    assert review[..idx + 1] == review[..idx] + [review[idx]];
  }

  lemma GradeDone(quiz: seq<BankEntry>, answers: Answers)
    ensures Verdicts(quiz, answers)[..|quiz|] == Verdicts(quiz, answers)
    ensures Review(quiz, answers)[..|quiz|] == Review(quiz, answers)
  {
  }

  /** The module-level `current_quiz` and the two entry points over it. */
  class QuizSession {
    var currentQuiz: seq<BankEntry>

    constructor ()
      ensures currentQuiz == []
    {
      currentQuiz := [];
    }

    /** `get_quiz(num_questions)`: `min(num_questions, 25)` distinct bank
        entries, drawn by the caller as `picks`, become the current quiz and
        are returned numbered; `quizTag` is the `randint(1000, 9999)` of the
        quiz id. A negative count makes the sampling raise, which is reported
        and leaves the current quiz as it was. */
    method GetQuiz(numQuestions: int, picks: seq<nat>, quizTag: int) returns (response: QuizResponse)
      requires numQuestions >= 0 ==> IsSample(picks, Min(numQuestions, |QuestionsBank|))
      requires 1000 <= quizTag <= 9999
      modifies this`currentQuiz
      ensures numQuestions < 0 ==> response == QuizFailed(SAMPLE_FAILURE) && currentQuiz == old(currentQuiz)
      ensures numQuestions >= 0 ==>
        && currentQuiz == Selected(picks)
        && |currentQuiz| == Min(numQuestions, |QuestionsBank|)
        && response.QuizGenerated?
        && NumberedAs(response.questions, currentQuiz)
        && response.totalQuestions == |currentQuiz|
        && response.quizId == "quiz_" + Str(quizTag)
    {
      if numQuestions < 0 {
        return QuizFailed(SAMPLE_FAILURE);
      }
      currentQuiz := Selected(picks);
      var questions := NumberQuestions(currentQuiz);
      response := QuizGenerated(questions, |currentQuiz|, "quiz_" + Str(quizTag));
    }

    /** `submit_answers(answers)`: grades the answers against the current
        quiz, which must not be empty. */
    method SubmitAnswers(answers: Answers) returns (result: Grading)
      ensures result.GradingFailed? <==> currentQuiz == []
      ensures result.GradingFailed? ==> result.error == NO_ACTIVE_QUIZ
      ensures result.Graded? ==>
        && result.total == |currentQuiz|
        && result.score == result.correctCount == Score(currentQuiz, answers)
        && result.review == Review(currentQuiz, answers)
    {
      var quiz := currentQuiz;
      if quiz == [] {
        return GradingFailed(NO_ACTIVE_QUIZ);
      }
      var answersDict := AsDict(answers);
      var score := 0;
      var results: seq<ReviewItem> := [];
      var idx := 0;
      while idx < |quiz|
        invariant idx <= |quiz| && |results| == idx
        invariant score == CountTrue(Verdicts(quiz, answers)[..idx])
        invariant results == Review(quiz, answers)[..idx]
      {
        var userAnswer := Normalize(Lookup(answersDict, Str(idx)));
        var correctAnswer := Lower(quiz[idx].answer);
        var isCorrect := userAnswer == correctAnswer;
        GradeStep(quiz, answers, idx);
        if isCorrect {
          score := score + 1;
        }
        var item := ReviewItem(idx + 1, quiz[idx].sentence,
                               if userAnswer == "" then NO_ANSWER else userAnswer,
                               quiz[idx].answer, isCorrect);
        results := results + [item];
        idx := idx + 1;
      }
      GradeDone(quiz, answers);
      result := Graded(score, score, |quiz|, results);
    }
  }
}
