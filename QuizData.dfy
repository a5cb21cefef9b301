/** The records the dashboard reads: saved quiz results and learning
    objectives, with their enumerated string fields as datatypes. */
module QuizData {
  import opened Wrappers

  const QuickQuizName: string := "Hızlı Sınav"
  const PersonalizedQuizName: string := "Kişiselleştirilmiş Sınav"

  /** The `quizType` of a saved quiz; any other string is kept as is. */
  datatype QuizType = Quick | Personalized | OtherQuizType(name: string)

  function QuizTypeName(t: QuizType): string {
    match t
    case Quick => QuickQuizName
    case Personalized => PersonalizedQuizName
    case OtherQuizType(n) => n
  }

  /** Reads a stored `quizType` string. */
  function ParseQuizType(s: string): (t: QuizType)
    ensures QuizTypeName(t) == s
    ensures t.OtherQuizType? <==> s != QuickQuizName && s != PersonalizedQuizName
  {
    if s == QuickQuizName then Quick
    else if s == PersonalizedQuizName then Personalized
    else OtherQuizType(s)
  }

  /** An `OtherQuizType` never holds one of the recognised names. */
  predicate ValidQuizType(t: QuizType) {
    t.OtherQuizType? ==> t.name != QuickQuizName && t.name != PersonalizedQuizName
  }

  lemma ParseQuizTypeName(t: QuizType)
    requires ValidQuizType(t)
    ensures ParseQuizType(QuizTypeName(t)) == t
  {
  }

  /** The `personalizedQuizType` of a personalised quiz. */
  datatype PersonalizedType = Comprehensive | NewTopics | WeakTopics | OtherPersonalizedType(name: string)

  function PersonalizedTypeName(t: PersonalizedType): string {
    match t
    case Comprehensive => "comprehensive"
    case NewTopics => "new_topics"
    case WeakTopics => "weak_topics"
    case OtherPersonalizedType(n) => n
  }

  function ParsePersonalizedType(s: string): (t: PersonalizedType)
    ensures PersonalizedTypeName(t) == s
    ensures t.OtherPersonalizedType? <==> s != "comprehensive" && s != "new_topics" && s != "weak_topics"
  {
    if s == "comprehensive" then Comprehensive
    else if s == "new_topics" then NewTopics
    else if s == "weak_topics" then WeakTopics
    else OtherPersonalizedType(s)
  }

  predicate ValidPersonalizedType(t: PersonalizedType) {
    t.OtherPersonalizedType? ==> t.name != "comprehensive" && t.name != "new_topics" && t.name != "weak_topics"
  }

  lemma ParsePersonalizedTypeName(t: PersonalizedType)
    requires ValidPersonalizedType(t)
    ensures ParsePersonalizedType(PersonalizedTypeName(t)) == t
  {
  }

  /** One completed quiz as stored. `savedAt` is in epoch milliseconds;
      a missing `personalizedQuizType` or `pdfName` is `None`. */
  datatype SavedQuiz = SavedQuiz(
    id: string,
    courseId: string,
    quizType: QuizType,
    personalizedType: Option<PersonalizedType>,
    score: int,
    totalQuestions: int,
    savedAt: int,
    pdfName: Option<string>)

  /** A learning objective's `status`; any other string is kept as is. */
  datatype Status = Pending | Success | Failure | Intermediate | OtherStatus(name: string)

  function StatusName(s: Status): string {
    match s
    case Pending => "pending"
    case Success => "success"
    case Failure => "failure"
    case Intermediate => "intermediate"
    case OtherStatus(n) => n
  }

  function ParseStatus(s: string): (st: Status)
    ensures StatusName(st) == s
    ensures st.OtherStatus? <==> s != "pending" && s != "success" && s != "failure" && s != "intermediate"
  {
    if s == "pending" then Pending
    else if s == "success" then Success
    else if s == "failure" then Failure
    else if s == "intermediate" then Intermediate
    else OtherStatus(s)
  }

  predicate ValidStatus(s: Status) {
    s.OtherStatus? ==> s.name != "pending" && s.name != "success" && s.name != "failure" && s.name != "intermediate"
  }

  lemma ParseStatusName(s: Status)
    requires ValidStatus(s)
    ensures ParseStatus(StatusName(s)) == s
  {
  }

  datatype LearningObjective = LearningObjective(id: string, courseId: string, status: Status)

  /** The score of a quiz in percent, exact over the reals; a quiz without
      questions scores 0 instead of dividing by zero. */
  function Percentage(q: SavedQuiz): (p: real)
    ensures q.totalQuestions <= 0 ==> p == 0.0
  {
    if q.totalQuestions > 0 then (q.score as real / q.totalQuestions as real) * 100.0 else 0.0
  }

  /** The percentage times the number of questions is 100 times the score. */
  lemma PercentageScaled(q: SavedQuiz)
    requires q.totalQuestions > 0
    ensures Percentage(q) * q.totalQuestions as real == 100.0 * q.score as real
  {
  }

  lemma PercentageNonNegative(q: SavedQuiz)
    requires q.score >= 0
    ensures Percentage(q) >= 0.0
  {
  }

  /** `Math.round`: the nearest integer, halves rounded up. */
  function Round(x: real): (r: int)
    ensures r as real <= x + 0.5 < r as real + 1.0
  {
    (x + 0.5).Floor
  }

  /** The pass mark is a fixed 60 percent. */
  predicate Passed(q: SavedQuiz) {
    Percentage(q) >= 60.0
  }

  predicate Failed(q: SavedQuiz) {
    Percentage(q) < 60.0
  }

  /** Passing in integers: a quiz with questions passes when
      100 * score >= 60 * totalQuestions; one without questions fails. */
  lemma PassedIff(q: SavedQuiz)
    ensures Passed(q) <==> q.totalQuestions > 0 && 100 * q.score >= 60 * q.totalQuestions
    ensures Failed(q) <==> !Passed(q)
  {
    if q.totalQuestions > 0 {
      var t := q.totalQuestions as real;
      PercentageScaled(q);
      assert Percentage(q) * t == 100.0 * q.score as real;
      assert Percentage(q) >= 60.0 <==> Percentage(q) * t >= 60.0 * t;
    }
  }

  /** The short type label on a quiz's badge and chart bar. */
  function TypeLabel(t: QuizType): (text: string)
    ensures text == "Kişisel" <==> t == Personalized
    ensures text == "Hızlı" <==> t != Personalized
  {
    if t == Personalized then "Kişisel" else "Hızlı"
  }
}
