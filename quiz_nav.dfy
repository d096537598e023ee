/** The grammar quiz page (static/moduleD.js): it loads a quiz once, walks an
    index over its questions, keeps the typed answers in a map keyed by
    question index, and posts them as a dense list when the last question is
    passed. */
module QuizNavigation {
  import opened Text
  import opened QuizGrading

  /** What `GET /api/moduleD/quiz` yields: a 401, a JSON body with an optional
      `success` flag and a (possibly empty or missing) question list, or a
      failure of the request or of the JSON decoding. */
  datatype QuizLoad =
    | LoadUnauthorized
    | LoadReply(success: Option<bool>, questions: seq<QuizQuestion>)
    | LoadNetworkError

  /** What `POST /api/moduleD/submit` yields. */
  datatype SubmitReply =
    | SubmitUnauthorized
    | SubmitReplied(grading: Grading)
    | SubmitNetworkError

  datatype Location = Here | Login | Report

  /** The text of the question element. */
  datatype QuestionText = Blank | ShownSentence(sentence: string) | InvalidDataMessage | NetworkMessage

  datatype QuizNotice = InvalidQuizData | QuizNetworkFailure | SubmitRefused(reason: string) | SubmitNetworkFailure

  const SUBMIT_LABEL: string := "Submit Quiz"
  const NEXT_LABEL: string := "Next Quiz"
  const UNKNOWN_ERROR: string := "Unknown error"

  /** `data.success !== false && data.questions && data.questions.length > 0`. */
  predicate Accepted(success: Option<bool>, questions: seq<QuizQuestion>)
  {
    success != Some(false) && |questions| > 0
  }

  /** `arr` lists, for each of the `n` questions in order, its stored answer,
      or "" when the question has none (`userAnswers[i] || ''`). */
  predicate DenseOf(arr: seq<string>, userAnswers: map<nat, string>, n: nat)
  {
    && |arr| == n
    && forall i :: 0 <= i < n ==> arr[i] == if i in userAnswers then userAnswers[i] else ""
  }

  /** The server reads for question i exactly the answer the page stored for
      it, and "" for a question left blank or beyond the quiz. */
  lemma ServerReadsStoredAnswers(arr: seq<string>, userAnswers: map<nat, string>, n: nat, i: nat)
    requires DenseOf(arr, userAnswers, n)
    ensures AnswerFor(AnswerList(arr), i) == if i < n && i in userAnswers then userAnswers[i] else ""
  {
    LookupList(arr, i);
  }

  /** A stored answer has no JavaScript whitespace at either end. */
  lemma StoredAnswerIsTrimmed(text: string)
    ensures NoBorderSpace(Trim(text, JavaScript), JavaScript)
    ensures Trim(Trim(text, JavaScript), JavaScript) == Trim(text, JavaScript)
  {
    TrimClean(text, JavaScript);
    TrimIdempotent(text, JavaScript);
  }

  /** How `submitQuiz` treats the reply to the posted answers: a 401 goes to
      the login page, a grading is shown, anything else is reported and
      changes nothing. */
  predicate Handled(reply: SubmitReply, results0: Option<Grading>, location0: Location,
                    results: Option<Grading>, location: Location, notice: Option<QuizNotice>)
  {
    match reply
    case SubmitUnauthorized =>
      location == Login && results == results0 && notice.None?
    case SubmitReplied(grading) =>
      if grading.Graded? then
        results == Some(grading) && location == location0 && notice.None?
      else
        && notice == Some(SubmitRefused(if grading.error == "" then UNKNOWN_ERROR else grading.error))
        && results == results0 && location == location0
    case SubmitNetworkError =>
      notice == Some(SubmitNetworkFailure) && results == results0 && location == location0
  }

  class QuizPage {
    var quiz: Option<seq<QuizQuestion>>
    var index: nat
    var userAnswers: map<nat, string>
    var questionText: QuestionText
    var inputValue: string
    var prevDisabled: bool
    var nextLabel: string
    var progress: string
    var results: Option<Grading>
    var location: Location

    /** The index stays on a question of the loaded quiz, and only such
        questions have stored answers. */
    predicate IndexKept()
      reads this`quiz, this`index, this`userAnswers
    {
      && (quiz.None? ==> index == 0 && userAnswers == map[])
      && (quiz.Some? ==>
            && |quiz.value| > 0 && index < |quiz.value|
            && forall k :: k in userAnswers ==> k < |quiz.value|)
    }

    predicate AnswersClean()
      reads this`userAnswers
    {
      forall k :: k in userAnswers ==> NoBorderSpace(userAnswers[k], JavaScript)
    }

    /** The answer box trims to the stored answer of the current question,
        and is empty when there is none. */
    predicate InputKept()
      reads this`index, this`userAnswers, this`inputValue
    {
      if index in userAnswers then Trim(inputValue, JavaScript) == userAnswers[index] else inputValue == ""
    }

    /** The question, the navigation buttons and the progress pill show the
        current position. */
    predicate ScreenKept()
      reads this`quiz, this`index, this`questionText, this`prevDisabled, this`nextLabel, this`progress
    {
      quiz.Some? && index < |quiz.value| ==>
        && questionText == ShownSentence(quiz.value[index].sentence)
        && (prevDisabled <==> index == 0)
        && nextLabel == (if index == |quiz.value| - 1 then SUBMIT_LABEL else NEXT_LABEL)
        && progress == Joined(index + 1, '/', |quiz.value|)
    }

    /** What the box shows when question i is displayed. */
    function Stored(i: nat): string
      reads this`userAnswers
    {
      if i in userAnswers then userAnswers[i] else ""
    }

    predicate Valid()
      reads this
    {
      IndexKept() && AnswersClean() && InputKept() && ScreenKept()
    }

    constructor ()
      ensures quiz.None? && index == 0 && userAnswers == map[]
      ensures questionText == Blank && inputValue == "" && results.None? && location == Here
      ensures Valid()
    {
      quiz := None;
      index := 0;
      userAnswers := map[];
      questionText := Blank;
      inputValue := "";
      prevDisabled := false;
      nextLabel := NEXT_LABEL;
      progress := "";
      results := None;
      location := Here;
    }

    /** The pill reads back as the 1-based position and the quiz length. */
    lemma ProgressShowsPosition()
      requires ScreenKept() && quiz.Some? && index < |quiz.value|
      ensures ParsePair(progress, '/') == Some((index + 1, |quiz.value|))
    {
      JoinedRoundTrip(index + 1, '/', |quiz.value|);
    }

    /** The Previous button is disabled exactly on the first question, and the
        Next button reads "Submit Quiz" exactly on the last. */
    lemma ButtonsShowPosition()
      requires ScreenKept() && quiz.Some? && index < |quiz.value|
      ensures prevDisabled <==> index == 0
      ensures nextLabel == SUBMIT_LABEL <==> index == |quiz.value| - 1
    {
      assert SUBMIT_LABEL[0] != NEXT_LABEL[0];
    }

    /** `updateNavigationButtons`. */
    method UpdateNavigationButtons()
      requires quiz.Some?
      modifies this`prevDisabled, this`nextLabel
      ensures prevDisabled <==> index == 0
      ensures nextLabel == if index == |quiz.value| - 1 then SUBMIT_LABEL else NEXT_LABEL
    {
      prevDisabled := index == 0;
      if index == |quiz.value| - 1 {
        nextLabel := SUBMIT_LABEL;
      } else {
        nextLabel := NEXT_LABEL;
      }
    }

    /** `updateProgressUI`. */
    method UpdateProgressUI()
      requires quiz.Some?
      modifies this`progress
      ensures progress == Joined(index + 1, '/', |quiz.value|)
    {
      progress := Joined(index + 1, '/', |quiz.value|);
    }

    /** `displayQuestion`: the sentence, the stored answer in the box, and the
        buttons. */
    method DisplayQuestion()
      requires quiz.Some? && index < |quiz.value|
      modifies this`questionText, this`inputValue, this`prevDisabled, this`nextLabel
      ensures questionText == ShownSentence(quiz.value[index].sentence)
      ensures inputValue == Stored(index)
      ensures prevDisabled <==> index == 0
      ensures nextLabel == if index == |quiz.value| - 1 then SUBMIT_LABEL else NEXT_LABEL
    {
      questionText := ShownSentence(quiz.value[index].sentence);
      if index in userAnswers && userAnswers[index] != "" {
        inputValue := userAnswers[index];
      } else {
        inputValue := "";
      }
      UpdateNavigationButtons();
    }

    /** Showing the current question restores the box from the stored answer. */
    lemma RedisplayKeepsInput()
      requires AnswersClean()
      requires inputValue == Stored(index)
      ensures InputKept()
    {
      if index in userAnswers {
        TrimKeepsClean(userAnswers[index], JavaScript);
      }
    }

    /** `loadQuiz`, run once when the page has loaded. An accepted quiz is
        kept, the index set to 0 and the answers cleared; anything else leaves
        no quiz and an error message in place of the question. */
    method LoadQuiz(load: QuizLoad) returns (notice: Option<QuizNotice>)
      requires Valid() && quiz.None?
      modifies this`quiz, this`index, this`userAnswers, this`questionText, this`inputValue,
               this`prevDisabled, this`nextLabel, this`progress, this`location
      ensures Valid()
      ensures load.LoadUnauthorized? ==>
        && location == Login && notice.None?
        && quiz.None? && questionText == old(questionText)
      ensures load.LoadReply? && Accepted(load.success, load.questions) ==>
        && quiz == Some(load.questions) && index == 0 && userAnswers == map[]
        && inputValue == "" && notice.None? && location == old(location)
      ensures load.LoadReply? && !Accepted(load.success, load.questions) ==>
        && quiz.None? && questionText == InvalidDataMessage
        && notice == Some(InvalidQuizData) && location == old(location)
      ensures load.LoadNetworkError? ==>
        && quiz.None? && questionText == NetworkMessage
        && notice == Some(QuizNetworkFailure) && location == old(location)
    {
      notice := None;
      match load
      case LoadUnauthorized =>
        location := Login;
      case LoadReply(success, questions) =>
        if Accepted(success, questions) {
          quiz := Some(questions);
          index := 0;
          userAnswers := map[];
          UpdateProgressUI();
          DisplayQuestion();
          RedisplayKeepsInput();
        } else {
          notice := Some(InvalidQuizData);
          questionText := InvalidDataMessage;
        }
      case LoadNetworkError =>
        notice := Some(QuizNetworkFailure);
        questionText := NetworkMessage;
    }

    /** The `input` listener: the trimmed box text becomes the stored answer
        of the current question. */
    method RecordAnswer(text: string)
      requires Valid() && quiz.Some?
      modifies this`userAnswers, this`inputValue
      ensures Valid()
      ensures userAnswers == old(userAnswers)[index := Trim(text, JavaScript)]
      ensures inputValue == text
    {
      inputValue := text;
      userAnswers := userAnswers[index := Trim(text, JavaScript)];
      StoredAnswerIsTrimmed(text);
    }

    /** `previousQuestion`: one step back, or nothing on the first question. */
    method PreviousQuestion()
      requires Valid()
      modifies this`index, this`questionText, this`inputValue, this`prevDisabled, this`nextLabel, this`progress
      ensures Valid()
      ensures old(index) > 0 ==> index == old(index) - 1 && inputValue == Stored(index)
      ensures old(index) == 0 ==>
        unchanged(this`index, this`questionText, this`inputValue, this`prevDisabled, this`nextLabel, this`progress)
    {
      if index > 0 {
        index := index - 1;
        DisplayQuestion();
        RedisplayKeepsInput();
        UpdateProgressUI();
      }
    }

    /** `submitQuiz` after the answers have been posted. */
    method ShowSubmission(reply: SubmitReply) returns (notice: Option<QuizNotice>)
      modifies this`results, this`location
      ensures Handled(reply, old(results), old(location), results, location, notice)
    {
      notice := None;
      match reply
      case SubmitUnauthorized =>
        location := Login;
      case SubmitReplied(grading) =>
        if grading.Graded? {
          results := Some(grading);
        } else {
          var error := grading.error;
          notice := Some(SubmitRefused(if error == "" then UNKNOWN_ERROR else error));
        }
      case SubmitNetworkError =>
        notice := Some(SubmitNetworkFailure);
    }

    /** The loop of `submitQuiz` that turns the answer map into a list. */
    method BuildAnswers() returns (arr: seq<string>)
      requires quiz.Some?
      ensures DenseOf(arr, userAnswers, |quiz.value|)
    {
      arr := [];
      var i := 0;
      while i < |quiz.value|
        invariant i <= |quiz.value|
        invariant DenseOf(arr, userAnswers, i)
      {
        if i in userAnswers && userAnswers[i] != "" {
          arr := arr + [userAnswers[i]];
        } else {
          arr := arr + [""];
        }
        i := i + 1;
      }
    }

    /** `nextQuestion` (also the Enter key): one step forward, or on the last
        question the submission of the answers in `sent`; nothing without a
        quiz. */
    method NextQuestion(reply: SubmitReply) returns (sent: Option<seq<string>>, notice: Option<QuizNotice>)
      requires Valid()
      modifies this`index, this`questionText, this`inputValue, this`prevDisabled, this`nextLabel, this`progress,
               this`results, this`location
      ensures Valid()
      ensures old(quiz).None? ==>
        && sent.None? && notice.None?
        && unchanged(this`index, this`questionText, this`inputValue, this`prevDisabled, this`nextLabel, this`progress)
        && unchanged(this`results, this`location)
      ensures quiz.Some? && old(index) < |quiz.value| - 1 ==>
        && index == old(index) + 1 && inputValue == Stored(index) && sent.None? && notice.None?
        && unchanged(this`results, this`location)
      ensures quiz.Some? && old(index) == |quiz.value| - 1 ==>
        && sent.Some? && DenseOf(sent.value, userAnswers, |quiz.value|)
        && Handled(reply, old(results), old(location), results, location, notice)
        && unchanged(this`index, this`questionText, this`inputValue, this`prevDisabled, this`nextLabel, this`progress)
    {
      sent, notice := None, None;
      if quiz.None? {
        return;
      }
      if index < |quiz.value| - 1 {
        index := index + 1;
        DisplayQuestion();
        RedisplayKeepsInput();
        UpdateProgressUI();
      } else {
        var arr := BuildAnswers();
        sent := Some(arr);
        notice := ShowSubmission(reply);
      }
    }

    /** `completeQuiz`: on to the performance report. */
    method CompleteQuiz()
      modifies this`location
      ensures location == Report
    {
      location := Report;
    }
  }
}
