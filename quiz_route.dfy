/**
 * `POST /api/quiz`: check the form fields, upload the optional image under
 * a sanitised name, check every question, and build the quiz record with
 * its questions, options and feedback. The JSON text of the questions is
 * parsed outside the model: its outcome is an input. The storage upload,
 * its base URL and the clock are inputs too.
 */
module QuizRoute {
  import opened Wrappers
  import JsText
  import FileName
  import QuizParser

  /**
   * One element of the parsed `questions` array. A field JSON leaves out
   * is `None`; `options` is `None` when it is not an array and
   * `correctAnswer` is `None` when it is not a number (a JSON number may
   * have a fraction, so it is a `real`).
   */
  datatype QuestionData = QuestionData(
    question: Option<string>,
    options: Option<seq<string>>,
    correctAnswer: Option<real>,
    difficulty: Option<int>,
    explanation: Option<string>)

  /** What `JSON.parse(questions)` gave: a syntax error, a value that is not an array, or an array. */
  datatype Parsed = SyntaxError | NotArray | Array(items: seq<QuestionData>)

  /** The form fields; a missing field is `None`, and `image` is the uploaded file's name. */
  datatype Form = Form(
    fileId: Option<string>, title: Option<string>, description: Option<string>,
    questions: Option<string>, image: Option<string>)

  datatype OptionRecord = OptionRecord(text: string, isCorrect: bool)
  datatype QuestionRecord = QuestionRecord(text: string, difficulty: int, options: seq<OptionRecord>, feedback: string)
  datatype QuizRecord = QuizRecord(
    title: string, description: string, imagePath: Option<string>, generatedByAI: bool,
    fileId: int, questions: seq<QuestionRecord>)

  /** Why the request failed on the server side. */
  datatype Failure = UploadFailed | InvalidQuestion(number: nat)

  datatype Response = BadRequest | ServerError(failure: Failure) | Created(quiz: QuizRecord)

  /** The feedback stored when a question has no explanation. */
  const NoExplanation: string := "解説はありません。"

  /**
   * The per-question check: a non-empty text, an array of at least four
   * options, and a number from 1 to the number of options as the answer.
   */
  predicate ValidQuestion(q: QuestionData) {
    && JsText.Truthy(q.question)
    && q.options.Some? && |q.options.value| >= 4
    && q.correctAnswer.Some? && 1.0 <= q.correctAnswer.value <= |q.options.value| as real
  }

  /**
   * The stored question: the option texts in order, each marked correct
   * when its 1-based position equals the answer; difficulty 1 when it is
   * missing or 0; the default feedback when the explanation is missing or empty.
   */
  function MapQuestion(q: QuestionData): (r: QuestionRecord)
    requires ValidQuestion(q)
    ensures r.text == q.question.value
    ensures |r.options| == |q.options.value|
    ensures forall i :: 0 <= i < |r.options| ==> r.options[i].text == q.options.value[i]
    ensures r.difficulty == if q.difficulty.None? || q.difficulty.value == 0 then 1 else q.difficulty.value
    ensures r.feedback == if JsText.Truthy(q.explanation) then q.explanation.value else NoExplanation
  {
    var options := q.options.value;
    QuestionRecord(
      q.question.value,
      if q.difficulty.None? || q.difficulty.value == 0 then 1 else q.difficulty.value,
      seq(|options|, i requires 0 <= i < |options| => OptionRecord(options[i], (i + 1) as real == q.correctAnswer.value)),
      if JsText.Truthy(q.explanation) then q.explanation.value else NoExplanation)
  }

  /** The number of options marked correct. */
  function CorrectCount(options: seq<OptionRecord>): (count: nat) {
    if options == [] then 0
    else CorrectCount(options[..|options| - 1]) + (if options[|options| - 1].isCorrect then 1 else 0)
  }

  /** With a whole-number answer, exactly one option is correct: the one at that position. */
  lemma ExactlyOneCorrect(q: QuestionData)
    requires ValidQuestion(q) && q.correctAnswer.value == q.correctAnswer.value.Floor as real
    ensures var r := MapQuestion(q);
      && (forall i :: 0 <= i < |r.options| ==> (r.options[i].isCorrect <==> i == q.correctAnswer.value.Floor - 1))
      && CorrectCount(r.options) == 1
  {
    var r := MapQuestion(q);
    OnlyOneMarked(r.options, q.correctAnswer.value.Floor - 1);
  }

  /** A list with exactly one marked position has a count of one. */
  lemma {:induction false} OnlyOneMarked(options: seq<OptionRecord>, k: int)
    requires 0 <= k < |options|
    requires forall i :: 0 <= i < |options| ==> (options[i].isCorrect <==> i == k)
    ensures CorrectCount(options) == 1
  {
    var init := options[..|options| - 1];
    if k == |options| - 1 {
      NoneMarked(init);
    } else {
      OnlyOneMarked(init, k);
    }
  }

  /** A list with no marked position has a count of zero. */
  lemma {:induction false} NoneMarked(options: seq<OptionRecord>)
    requires forall i :: 0 <= i < |options| ==> !options[i].isCorrect
    ensures CorrectCount(options) == 0
  {
    if options != [] {
      NoneMarked(options[..|options| - 1]);
    }
  }

  /** An answer with a fraction passes the check but marks no option correct. */
  lemma FractionalAnswerMarksNone(q: QuestionData)
    requires ValidQuestion(q) && q.correctAnswer.value != q.correctAnswer.value.Floor as real
    ensures CorrectCount(MapQuestion(q).options) == 0
  {
    NoneMarked(MapQuestion(q).options);
  }

  /**
   * The route. Checks in order: `fileId` a number (400), title and
   * description (400), the questions text (400), the parsed value a
   * non-empty array (400), the upload when an image is sent (500), every
   * question (500, naming the first bad one from 1); then the quiz is
   * created. `publicBase` is the storage's public URL prefix.
   */
  function Post(form: Form, parsed: Parsed, uploadOk: bool, now: int, publicBase: string): (r: Response)
    ensures r.BadRequest? <==>
      || JsText.ParseInt(JsText.FieldText(form.fileId)).None?
      || !JsText.Truthy(form.title) || !JsText.Truthy(form.description) || !JsText.Truthy(form.questions)
      || !parsed.Array? || parsed.items == []
    ensures r.ServerError? && r.failure == UploadFailed <==> !r.BadRequest? && form.image.Some? && !uploadOk
    ensures r.ServerError? && r.failure.InvalidQuestion? ==>
      && 1 <= r.failure.number <= |parsed.items|
      && !ValidQuestion(parsed.items[r.failure.number - 1])
      && forall i :: 0 <= i < r.failure.number - 1 ==> ValidQuestion(parsed.items[i])
    ensures r.Created? <==>
      && !(JsText.ParseInt(JsText.FieldText(form.fileId)).None?)
      && JsText.Truthy(form.title) && JsText.Truthy(form.description) && JsText.Truthy(form.questions)
      && parsed.Array? && parsed.items != [] && (form.image.None? || uploadOk)
      && forall i :: 0 <= i < |parsed.items| ==> ValidQuestion(parsed.items[i])
    ensures r.Created? ==>
      && r.quiz.title == form.title.value && r.quiz.description == form.description.value
      && r.quiz.fileId == JsText.ParseInt(JsText.FieldText(form.fileId)).value
      && r.quiz.generatedByAI
      && (r.quiz.imagePath.Some? <==> form.image.Some?)
      && (form.image.Some? ==> r.quiz.imagePath == Some(publicBase + FileName.UploadPath(now, form.image.value)))
      && |r.quiz.questions| == |parsed.items|
      && forall i :: 0 <= i < |parsed.items| ==>
           ValidQuestion(parsed.items[i]) && r.quiz.questions[i] == MapQuestion(parsed.items[i])
  {
    var fileId := JsText.ParseInt(JsText.FieldText(form.fileId));
    if fileId.None? then BadRequest
    else if !JsText.Truthy(form.title) || !JsText.Truthy(form.description) then BadRequest
    else if !JsText.Truthy(form.questions) then BadRequest
    else if !parsed.Array? || parsed.items == [] then BadRequest
    else if form.image.Some? && !uploadOk then ServerError(UploadFailed)
    else
      var imagePath := if form.image.Some? then Some(publicBase + FileName.UploadPath(now, form.image.value)) else None;
      Create(form.title.value, form.description.value, imagePath, fileId.value, parsed.items)
  }

  /** The create step: the quiz with every question mapped, or the first question the check rejects. */
  function Create(title: string, description: string, imagePath: Option<string>, fileId: int,
                  items: seq<QuestionData>): (r: Response)
    ensures !r.BadRequest? && (r.ServerError? ==> r.failure.InvalidQuestion?)
    ensures r.ServerError? ==>
      && 1 <= r.failure.number <= |items|
      && !ValidQuestion(items[r.failure.number - 1])
      && forall i :: 0 <= i < r.failure.number - 1 ==> ValidQuestion(items[i])
    ensures r.Created? <==> forall i :: 0 <= i < |items| ==> ValidQuestion(items[i])
    ensures r.Created? ==>
      && r.quiz == QuizRecord(title, description, imagePath, true, fileId, r.quiz.questions)
      && |r.quiz.questions| == |items|
      && forall i :: 0 <= i < |items| ==> ValidQuestion(items[i]) && r.quiz.questions[i] == MapQuestion(items[i])
  {
    var mapped := MapValid(items);
    match Collect(mapped)
    case Err(k) => ServerError(InvalidQuestion(k))
    case Ok(questions) => Created(QuizRecord(title, description, imagePath, true, fileId, questions))
  }

  /** Each question mapped, or `None` where the check throws. */
  function MapValid(items: seq<QuestionData>): (rs: seq<Option<QuestionRecord>>)
    ensures |rs| == |items|
    ensures forall i :: 0 <= i < |items| ==>
      (rs[i].Some? <==> ValidQuestion(items[i])) && (rs[i].Some? ==> rs[i].value == MapQuestion(items[i]))
  {
    seq(|items|, i requires 0 <= i < |items| => if ValidQuestion(items[i]) then Some(MapQuestion(items[i])) else None)
  }

  /** What the new-quiz form sends for one parsed question, as `JSON.parse` reads it back. */
  function FromForm(p: QuizParser.ParsedQuestion): (q: QuestionData)
    ensures q.options == Some(p.options) && q.correctAnswer == Some(p.correctAnswer as real)
  {
    QuestionData(Some(p.question), Some(p.options), Some(p.correctAnswer as real), Some(p.difficulty as int), p.explanation)
  }

  /**
   * A question the form's parser accepted passes the route's check exactly
   * when its answer is at most the number of options (the parser does not
   * compare the two); it is then stored with its text, its difficulty, the
   * option at the answer's position marked correct, and its explanation or
   * the default feedback.
   */
  lemma FormQuestionStored(p: QuizParser.ParsedQuestion)
    requires p.question != [] && |p.options| >= 4 && p.difficulty != 0
    ensures ValidQuestion(FromForm(p)) <==> 1 <= p.correctAnswer <= |p.options|
    ensures ValidQuestion(FromForm(p)) ==>
      var r := MapQuestion(FromForm(p));
      && r.text == p.question && r.difficulty == p.difficulty
      && (forall i :: 0 <= i < |r.options| ==> r.options[i].text == p.options[i] && (r.options[i].isCorrect <==> i + 1 == p.correctAnswer))
      && CorrectCount(r.options) == 1
      && r.feedback == if p.explanation.Some? && p.explanation.value != [] then p.explanation.value else NoExplanation
  {
    if ValidQuestion(FromForm(p)) {
      ExactlyOneCorrect(FromForm(p));
    }
  }
}
