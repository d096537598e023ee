/** Sessions on the quiz page, alone and against the server. */
module QuizScenarios {
  import opened Text
  import opened QuizGrading
  import opened QuizNavigation

  function SampleQuestions(): seq<QuizQuestion>
  {
    [ QuizQuestion(0, "She ___ going to the market.", "be_verb", 1),
      QuizQuestion(1, "He runs faster ___ anyone else.", "comparison", 2),
      QuizQuestion(2, "I have lived here ___ five years.", "preposition", 3) ]
  }

  lemma FirstOfThree()
    ensures Joined(1, '/', 3) == "1/3"
  {
    assert Str(1) == "1" && Str(3) == "3";
  }

  lemma TrimSpaces()
    ensures Trim(" is ", JavaScript) == "is"
    ensures Trim(" Is", JavaScript) == "Is"
    ensures Trim("than ", JavaScript) == "than"
  {
    assert TrimStart(" is ", JavaScript) == TrimStart("is ", JavaScript) == "is ";
    assert TrimEnd("is ", JavaScript) == TrimEnd("is", JavaScript) == "is";
    assert TrimStart(" Is", JavaScript) == TrimStart("Is", JavaScript) == "Is";
    assert TrimEnd("Is", JavaScript) == "Is";
    assert TrimStart("than ", JavaScript) == "than ";
    assert TrimEnd("than ", JavaScript) == TrimEnd("than", JavaScript) == "than";
  }

  /** Typing `t` on the first question, moving on and coming back: the box
      shows `t` trimmed and the page is back at the first position. */
  method Revisit(questions: seq<QuizQuestion>, t: string) returns (page: QuizPage, sent: Option<seq<string>>)
    requires |questions| >= 2
    ensures page.inputValue == Trim(t, JavaScript) && page.prevDisabled && sent.None?
    ensures page.progress == Joined(1, '/', |questions|)
  {
    page := new QuizPage();
    var notice := page.LoadQuiz(LoadReply(None, questions));
    page.RecordAnswer(t);
    sent, notice := page.NextQuestion(SubmitNetworkError);
    page.PreviousQuestion();
  }

  /** Coming back to a question shows the answer typed there, trimmed. */
  method AnswerThenRevisit() returns (shown: string, prevOff: bool, pill: string, sent: Option<seq<string>>)
    ensures shown == "is" && prevOff && pill == "1/3" && sent.None?
  {
    var page;
    page, sent := Revisit(SampleQuestions(), " is ");
    shown, prevOff, pill := page.inputValue, page.prevDisabled, page.progress;
    TrimSpaces();
    FirstOfThree();
  }

  lemma DrawnPair()
    ensures Selected([0, 2]) == [QuestionsBank[0], QuestionsBank[2]]
    ensures QuestionsBank[0].answer == "is" && QuestionsBank[2].answer == "than"
  {
  }

  lemma LowerSamples()
    ensures Lower("Is") == "is" == Lower("is")
    ensures Lower("than") == "than"
  {
    assert Lower("Is")[0] == 'i';
  }

  lemma CleanSamples()
    ensures Normalize("Is") == Lower("Is") && Normalize("than") == Lower("than")
  {
    NormalizeClean("Is");
    NormalizeClean("than");
  }

  /** The answers "Is" and "than" to bank questions 0 and 2 earn full marks. */
  lemma TwoAnswersFullMarks()
    ensures Score(Selected([0, 2]), AnswerList(["Is", "than"])) == 2
  {
    var quiz := Selected([0, 2]);
    var answers := AnswerList(["Is", "than"]);
    LookupList(["Is", "than"], 0);
    LookupList(["Is", "than"], 1);
    DrawnPair();
    LowerSamples();
    CleanSamples();
    assert Correct(quiz, answers, 0) && Correct(quiz, answers, 1);
    FullMarksIff(quiz, answers);
  }

  /** The answers typed on a two-question page, as a dense list. */
  lemma TypedPair(arr: seq<string>, a: string, b: string)
    requires DenseOf(arr, map[0 := a][1 := b], 2)
    ensures arr == [a, b]
  {
  }

  /** What the page posts after " Is" and "than " were typed. */
  lemma PostedPair(arr: seq<string>)
    requires DenseOf(arr, map[0 := Trim(" Is", JavaScript)][1 := Trim("than ", JavaScript)], 2)
    ensures arr == ["Is", "than"]
  {
    TrimSpaces();
    TypedPair(arr, "Is", "than");
  }

  /** Any two questions loaded on the page and answered `a` and `b`. */
  method AnswerTwo(questions: seq<QuizQuestion>, a: string, b: string) returns (page: QuizPage)
    requires |questions| == 2
    ensures fresh(page) && page.Valid()
    ensures page.quiz == Some(questions) && page.index == 1 && page.results.None?
    ensures page.userAnswers == map[0 := Trim(a, JavaScript)][1 := Trim(b, JavaScript)]
  {
    page := new QuizPage();
    var notice := page.LoadQuiz(LoadReply(Some(true), questions));
    page.RecordAnswer(a);
    var sent;
    sent, notice := page.NextQuestion(SubmitNetworkError);
    page.RecordAnswer(b);
  }

  /** The server draws bank questions 0 and 2. */
  method DrawPair() returns (session: QuizSession, questions: seq<QuizQuestion>)
    ensures fresh(session) && session.currentQuiz == Selected([0, 2]) && |questions| == 2
  {
    session := new QuizSession();
    var response := session.GetQuiz(2, [0, 2], 1234);
    questions := response.questions;
  }

  /** The server grades "Is" and "than" against that draw. */
  method GradePair(session: QuizSession, arr: seq<string>) returns (grading: Grading)
    requires session.currentQuiz == Selected([0, 2]) && arr == ["Is", "than"]
    ensures grading.Graded? && grading.score == 2 && grading.total == 2
  {
    TwoAnswersFullMarks();
    grading := session.SubmitAnswers(AnswerList(arr));
  }

  /** A two-question quiz drawn by the server, answered on the page with
      stray spaces and a capital letter, posted and graded: full marks, and
      the page shows the grading. */
  method QuizRoundTrip() returns (grading: Grading, sent: Option<seq<string>>, shown: Option<Grading>)
    ensures grading.Graded? && grading.score == 2 && grading.total == 2
    ensures sent == Some(["Is", "than"]) && shown == Some(grading)
  {
    var session, questions := DrawPair();
    var page := AnswerTwo(questions, " Is", "than ");
    var arr := page.BuildAnswers();
    PostedPair(arr);
    grading := GradePair(session, arr);
    var notice;
    sent, notice := page.NextQuestion(SubmitReplied(grading));
    PostedPair(sent.value);
    shown := page.results;
  }
}
