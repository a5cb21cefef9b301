/** The statistics behind the performance-analysis page: the quiz and
    learning-objective filters, overall and per-type score aggregates, the
    learning-objective status histogram, the chronological chart series and
    the score colour band. The three selectors hold the raw strings of the
    page's drop-downs; `now` is the clock reading. */
module PerformanceAnalysis {
  import opened Wrappers
  import opened Seqs
  import opened Sorting
  import opened QuizData

  // ---------------------------------------------------------------------
  // Quiz filter

  predicate CourseMatches(q: SavedQuiz, course: string) {
    course == "all" || q.courseId == course
  }

  /** Each specific selector rejects the quizzes that do not fit it; any
      selector it does not recognise rejects nothing. */
  predicate TypeMatches(q: SavedQuiz, typeSelector: string) {
    typeSelector == "all" ||
    (&& (typeSelector == "quick" ==> q.quizType == Quick)
     && (typeSelector == "personalized_all" ==> q.quizType == Personalized)
     && (typeSelector == "personalized_comprehensive" ==>
           q.quizType == Personalized && q.personalizedType == Some(Comprehensive))
     && (typeSelector == "personalized_new_topics" ==>
           q.quizType == Personalized && q.personalizedType == Some(NewTopics))
     && (typeSelector == "personalized_weak_topics" ==>
           q.quizType == Personalized && q.personalizedType == Some(WeakTopics)))
  }

  /** The look-back window of a time selector, in milliseconds; the month
      is a fixed 30 days. */
  function TimeWindow(timeSelector: string): (w: Option<int>)
    ensures timeSelector == "last_hour" ==> w == Some(3_600_000)
    ensures timeSelector == "last_day" ==> w == Some(86_400_000)
    ensures timeSelector == "last_3_days" ==> w == Some(259_200_000)
    ensures timeSelector == "last_week" ==> w == Some(604_800_000)
    ensures timeSelector == "last_month" ==> w == Some(2_592_000_000)
    ensures w.None? <==> timeSelector !in {"last_hour", "last_day", "last_3_days", "last_week", "last_month"}
  {
    if timeSelector == "last_hour" then Some(60 * 60 * 1000)
    else if timeSelector == "last_day" then Some(24 * 60 * 60 * 1000)
    else if timeSelector == "last_3_days" then Some(3 * 24 * 60 * 60 * 1000)
    else if timeSelector == "last_week" then Some(7 * 24 * 60 * 60 * 1000)
    else if timeSelector == "last_month" then Some(30 * 24 * 60 * 60 * 1000)
    else None
  }

  /** A quiz is too old only when it is strictly older than the window. */
  predicate TimeMatches(q: SavedQuiz, timeSelector: string, now: int) {
    timeSelector == "all" ||
    match TimeWindow(timeSelector)
    case None => true
    case Some(w) => now - q.savedAt <= w
  }

  /** The single per-quiz predicate: course, type and time, combined with AND. */
  predicate Keep(q: SavedQuiz, course: string, typeSelector: string, timeSelector: string, now: int) {
    CourseMatches(q, course) && TypeMatches(q, typeSelector) && TimeMatches(q, timeSelector, now)
  }

  function KeepFn(course: string, typeSelector: string, timeSelector: string, now: int): SavedQuiz -> bool {
    q => Keep(q, course, typeSelector, timeSelector, now)
  }

  /** `filteredQuizzes`: the saved quizzes that pass all three selectors,
      in their stored order. */
  function FilterQuizzes(saved: Option<seq<SavedQuiz>>, course: string, typeSelector: string,
                         timeSelector: string, now: int): (r: seq<SavedQuiz>)
    ensures IsSubsequence(r, Elements(saved))
    ensures forall i :: 0 <= i < |r| ==> r[i] in Elements(saved) && Keep(r[i], course, typeSelector, timeSelector, now)
    ensures forall q :: q in Elements(saved) && Keep(q, course, typeSelector, timeSelector, now) ==> q in r
    ensures forall q :: multiset(r)[q] == if Keep(q, course, typeSelector, timeSelector, now) then multiset(Elements(saved))[q] else 0
  {
    var all := Elements(saved);
    var p := KeepFn(course, typeSelector, timeSelector, now);
    FilterIsSubsequence(all, p);
    FilterMembers(all, p);
    forall q ensures multiset(Filter(all, p))[q] == if p(q) then multiset(all)[q] else 0 {
      FilterMultiplicity(all, p, q);
    }
    Filter(all, p)
  }

  /** With every selector at 'all', nothing is filtered out. */
  lemma FilterAllKeepsEverything(saved: seq<SavedQuiz>, now: int)
    ensures FilterQuizzes(Some(saved), "all", "all", "all", now) == saved
  {
    FilterKeepsAll(saved, KeepFn("all", "all", "all", now));
  }

  /** Filtering again with the same selectors and clock changes nothing. */
  lemma FilterQuizzesIdempotent(saved: Option<seq<SavedQuiz>>, course: string, typeSelector: string,
                                timeSelector: string, now: int)
    ensures var once := FilterQuizzes(saved, course, typeSelector, timeSelector, now);
            FilterQuizzes(Some(once), course, typeSelector, timeSelector, now) == once
  {
    FilterIdempotent(Elements(saved), KeepFn(course, typeSelector, timeSelector, now));
  }

  /** What each type selector keeps. */
  lemma TypeSelectorMeaning(q: SavedQuiz, typeSelector: string)
    ensures TypeMatches(q, "quick") <==> q.quizType == Quick
    ensures TypeMatches(q, "personalized_all") <==> q.quizType == Personalized
    ensures TypeMatches(q, "personalized_comprehensive") <==>
              q.quizType == Personalized && q.personalizedType == Some(Comprehensive)
    ensures TypeMatches(q, "personalized_new_topics") <==>
              q.quizType == Personalized && q.personalizedType == Some(NewTopics)
    ensures TypeMatches(q, "personalized_weak_topics") <==>
              q.quizType == Personalized && q.personalizedType == Some(WeakTopics)
    ensures typeSelector !in {"quick", "personalized_all", "personalized_comprehensive",
                              "personalized_new_topics", "personalized_weak_topics"}
            ==> TypeMatches(q, typeSelector)
  {
  }

  /** The time window is inclusive, and an unknown selector keeps every quiz. */
  lemma TimeSelectorMeaning(q: SavedQuiz, timeSelector: string, now: int)
    ensures TimeMatches(q, "last_hour", now) <==> now - q.savedAt <= 3_600_000
    ensures TimeMatches(q, "last_day", now) <==> now - q.savedAt <= 86_400_000
    ensures TimeMatches(q, "last_3_days", now) <==> now - q.savedAt <= 259_200_000
    ensures TimeMatches(q, "last_week", now) <==> now - q.savedAt <= 604_800_000
    ensures TimeMatches(q, "last_month", now) <==> now - q.savedAt <= 2_592_000_000
    ensures timeSelector !in {"last_hour", "last_day", "last_3_days", "last_week", "last_month"}
            ==> TimeMatches(q, timeSelector, now)
  {
  }

  // ---------------------------------------------------------------------
  // Learning-objective filter

  function OfCourse(course: string): LearningObjective -> bool {
    (lo: LearningObjective) => lo.courseId == course
  }

  /** `filteredLearningObjectives`: the list itself for 'all', otherwise the
      objectives of the selected course in their stored order. */
  function FilterObjectives(objectives: Option<seq<LearningObjective>>, course: string): (r: seq<LearningObjective>)
    ensures course == "all" ==> r == Elements(objectives)
    ensures IsSubsequence(r, Elements(objectives))
    ensures forall i :: 0 <= i < |r| ==> r[i] in Elements(objectives) && (course == "all" || r[i].courseId == course)
    ensures forall lo :: lo in Elements(objectives) && (course == "all" || lo.courseId == course) ==> lo in r
    ensures forall lo :: multiset(r)[lo] ==
              if course == "all" || lo.courseId == course then multiset(Elements(objectives))[lo] else 0
  {
    if course == "all" then
      IsSubsequenceReflexive(Elements(objectives));
      Elements(objectives)
    else
      FilterIsSubsequence(Elements(objectives), OfCourse(course));
      FilterMembers(Elements(objectives), OfCourse(course));
      forall lo ensures multiset(Filter(Elements(objectives), OfCourse(course)))[lo] ==
                        if OfCourse(course)(lo) then multiset(Elements(objectives))[lo] else 0 {
        FilterMultiplicity(Elements(objectives), OfCourse(course), lo);
      }
      Filter(Elements(objectives), OfCourse(course))
  }

  // ---------------------------------------------------------------------
  // Overall statistics

  datatype OverallStats = OverallStats(
    totalQuizzes: int,
    averageScore: int,
    highestScore: int,
    lowestScore: int,
    totalQuestionsAnswered: int,
    totalCorrectAnswers: int,
    passedQuizzes: int,
    failedQuizzes: int)

  function SumPercentages(qs: seq<SavedQuiz>): real {
    SumOf(qs, Percentage)
  }

  function SumTotalQuestions(qs: seq<SavedQuiz>): int {
    if qs == [] then 0 else SumTotalQuestions(qs[..|qs| - 1]) + qs[|qs| - 1].totalQuestions
  }

  function SumScores(qs: seq<SavedQuiz>): int {
    if qs == [] then 0 else SumScores(qs[..|qs| - 1]) + qs[|qs| - 1].score
  }

  function RealMax(a: real, b: real): real { if a >= b then a else b }

  function RealMin(a: real, b: real): real { if a <= b then a else b }

  /** The largest percentage: no quiz scores more, and some quiz scores it. */
  function MaxPercentage(qs: seq<SavedQuiz>): (m: real)
    requires qs != []
    ensures forall i :: 0 <= i < |qs| ==> Percentage(qs[i]) <= m
    ensures exists i :: 0 <= i < |qs| && Percentage(qs[i]) == m
  {
    if |qs| == 1 then Percentage(qs[0])
    else RealMax(MaxPercentage(qs[..|qs| - 1]), Percentage(qs[|qs| - 1]))
  }

  /** The smallest percentage: no quiz scores less, and some quiz scores it. */
  function MinPercentage(qs: seq<SavedQuiz>): (m: real)
    requires qs != []
    ensures forall i :: 0 <= i < |qs| ==> m <= Percentage(qs[i])
    ensures exists i :: 0 <= i < |qs| && Percentage(qs[i]) == m
  {
    if |qs| == 1 then Percentage(qs[0])
    else RealMin(MinPercentage(qs[..|qs| - 1]), Percentage(qs[|qs| - 1]))
  }

  /** The page's running maximum: it starts at 0 and is replaced by any
      larger percentage. */
  function RunningHighest(qs: seq<SavedQuiz>): real {
    if qs == [] then 0.0
    else
      var h := RunningHighest(qs[..|qs| - 1]);
      if Percentage(qs[|qs| - 1]) > h then Percentage(qs[|qs| - 1]) else h
  }

  /** The page's running minimum: it starts at 100 and is replaced by any
      smaller percentage. */
  function RunningLowest(qs: seq<SavedQuiz>): real {
    if qs == [] then 100.0
    else
      var l := RunningLowest(qs[..|qs| - 1]);
      if Percentage(qs[|qs| - 1]) < l then Percentage(qs[|qs| - 1]) else l
  }

  lemma {:induction false} RunningHighestIsMax(qs: seq<SavedQuiz>)
    requires qs != []
    ensures RunningHighest(qs) == RealMax(0.0, MaxPercentage(qs))
  {
    if |qs| > 1 {
      RunningHighestIsMax(qs[..|qs| - 1]);
    }
  }

  lemma {:induction false} RunningLowestIsMin(qs: seq<SavedQuiz>)
    requires qs != []
    ensures RunningLowest(qs) == RealMin(100.0, MinPercentage(qs))
  {
    if |qs| > 1 {
      RunningLowestIsMin(qs[..|qs| - 1]);
    }
  }

  /** How each aggregate grows when one more quiz is appended. */
  lemma OverallSnoc(qs: seq<SavedQuiz>, q: SavedQuiz)
    ensures (qs + [q])[..|qs|] == qs
    ensures SumPercentages(qs + [q]) == SumPercentages(qs) + Percentage(q)
    ensures SumTotalQuestions(qs + [q]) == SumTotalQuestions(qs) + q.totalQuestions
    ensures SumScores(qs + [q]) == SumScores(qs) + q.score
    ensures RunningHighest(qs + [q]) == if Percentage(q) > RunningHighest(qs) then Percentage(q) else RunningHighest(qs)
    ensures RunningLowest(qs + [q]) == if Percentage(q) < RunningLowest(qs) then Percentage(q) else RunningLowest(qs)
    ensures |Filter(qs + [q], Passed)| == |Filter(qs, Passed)| + if Passed(q) then 1 else 0
    ensures |Filter(qs + [q], Failed)| == |Filter(qs, Failed)| + if Failed(q) then 1 else 0
  {
    assert (qs + [q])[..|qs|] == qs;
    SumOfSnoc(qs, q, Percentage);
    FilterSnoc(qs, q, Passed);
    FilterSnoc(qs, q, Failed);
  }

  /** The overall statistics of a filtered set, stated over the whole set:
      zero everywhere when it is empty; otherwise the rounded mean, the
      rounded maximum (never below 0, where the running maximum starts) and
      minimum percentage, the question and correct-answer totals, and the
      counts of quizzes at or above and below the pass mark. */
  function OverallStatsOf(qs: seq<SavedQuiz>): OverallStats {
    if qs == [] then OverallStats(0, 0, 0, 0, 0, 0, 0, 0)
    else OverallStats(
      |qs|,
      Round(SumPercentages(qs) / |qs| as real),
      Round(RealMax(0.0, MaxPercentage(qs))),
      Round(MinPercentage(qs)),
      SumTotalQuestions(qs),
      SumScores(qs),
      |Filter(qs, Passed)|,
      |Filter(qs, Failed)|)
  }

  /** `overallStats`: one pass with running accumulators, as the page does,
      followed by the recomputation of the minimum when the running minimum
      never dropped below its starting value of 100. */
  method ComputeOverallStats(filtered: seq<SavedQuiz>) returns (stats: OverallStats)
    ensures stats == OverallStatsOf(filtered)
    ensures stats.passedQuizzes + stats.failedQuizzes == stats.totalQuizzes
    ensures filtered == [] ==> stats == OverallStats(0, 0, 0, 0, 0, 0, 0, 0)
  {
    if |filtered| == 0 {
      return OverallStats(0, 0, 0, 0, 0, 0, 0, 0);
    }
    var totalScoreSum := 0.0;
    var highestScore := 0.0;
    var lowestScore := 100.0;
    var totalQuestionsAnswered := 0;
    var totalCorrectAnswers := 0;
    var passedQuizzes := 0;
    var failedQuizzes := 0;
    var i := 0;
    while i < |filtered|
      invariant 0 <= i <= |filtered|
      invariant totalScoreSum == SumPercentages(filtered[..i])
      invariant totalQuestionsAnswered == SumTotalQuestions(filtered[..i])
      invariant totalCorrectAnswers == SumScores(filtered[..i])
      invariant passedQuizzes == |Filter(filtered[..i], Passed)|
      invariant failedQuizzes == |Filter(filtered[..i], Failed)|
      invariant highestScore == RunningHighest(filtered[..i])
      invariant lowestScore == RunningLowest(filtered[..i])
    {
      var quiz := filtered[i];
      var percentage := Percentage(quiz);
      assert filtered[..i + 1] == filtered[..i] + [quiz];
      OverallSnoc(filtered[..i], quiz);
      totalScoreSum := totalScoreSum + percentage;
      totalQuestionsAnswered := totalQuestionsAnswered + quiz.totalQuestions;
      totalCorrectAnswers := totalCorrectAnswers + quiz.score;
      if percentage >= 60.0 {
        passedQuizzes := passedQuizzes + 1;
      } else {
        failedQuizzes := failedQuizzes + 1;
      }
      if percentage > highestScore {
        highestScore := percentage;
      }
      if percentage < lowestScore {
        lowestScore := percentage;
      }
      i := i + 1;
    }
    assert filtered[..i] == filtered;
    RunningHighestIsMax(filtered);
    RunningLowestIsMin(filtered);
    FilterComplement(filtered, Passed, Failed);
    var lowest := if lowestScore == 100.0 then MinPercentage(filtered) else lowestScore;
    stats := OverallStats(
      |filtered|,
      Round(totalScoreSum / |filtered| as real),
      Round(highestScore),
      Round(lowest),
      totalQuestionsAnswered,
      totalCorrectAnswers,
      passedQuizzes,
      failedQuizzes);
  }

  /** Every quiz either passes or fails. */
  lemma OverallPassFailPartition(qs: seq<SavedQuiz>)
    ensures OverallStatsOf(qs).passedQuizzes + OverallStatsOf(qs).failedQuizzes == OverallStatsOf(qs).totalQuizzes
  {
    FilterComplement(qs, Passed, Failed);
  }

  /** A quiz without questions counts as 0 percent, so it fails. */
  lemma NoQuestionsFails(q: SavedQuiz)
    requires q.totalQuestions == 0
    ensures Percentage(q) == 0.0 && Failed(q) && !Passed(q)
  {
  }

  /** With non-negative scores the highest score is the rounded maximum
      percentage. */
  lemma HighestIsMaximum(qs: seq<SavedQuiz>)
    requires qs != []
    requires forall i :: 0 <= i < |qs| ==> qs[i].score >= 0
    ensures OverallStatsOf(qs).highestScore == Round(MaxPercentage(qs))
  {
    PercentageNonNegative(qs[0]);
  }

  /** The example of two quick quizzes scoring 8/10 and 3/10. */
  lemma TwoQuizExample(t1: int, t2: int)
    ensures var qs := [SavedQuiz("a", "c", Quick, None, 8, 10, t1, None),
                       SavedQuiz("b", "c", Quick, None, 3, 10, t2, None)];
            var s := OverallStatsOf(qs);
            s.totalQuizzes == 2 && s.averageScore == 55 && s.highestScore == 80 &&
            s.lowestScore == 30 && s.passedQuizzes == 1 && s.failedQuizzes == 1 &&
            s.totalQuestionsAnswered == 20 && s.totalCorrectAnswers == 11
  {
    var qs := [SavedQuiz("a", "c", Quick, None, 8, 10, t1, None),
               SavedQuiz("b", "c", Quick, None, 3, 10, t2, None)];
    assert Percentage(qs[0]) == 80.0;
    assert Percentage(qs[1]) == 30.0;
    OverallSnoc([], qs[0]);
    OverallSnoc([qs[0]], qs[1]);
    assert [qs[0]] + [qs[1]] == qs;
    assert [] + [qs[0]] == [qs[0]];
    assert MaxPercentage(qs) == 80.0;
    assert MinPercentage(qs) == 30.0;
    assert SumPercentages(qs) == 110.0;
    assert Filter(qs, Passed) == [qs[0]];
    assert Filter(qs, Failed) == [qs[1]];
  }

  // ---------------------------------------------------------------------
  // Per-type statistics

  /** The five buckets of the per-type table. */
  datatype Bucket = QuickBucket | ComprehensiveBucket | NewTopicsBucket | WeakTopicsBucket | OtherPersonalizedBucket

  /** The bucket a quiz lands in: quick quizzes in one, personalised quizzes
      by sub-type with a catch-all for a missing or unrecognised sub-type,
      and a quiz of any other category in none. */
  function BucketOf(q: SavedQuiz): Option<Bucket> {
    match q.quizType
    case Quick => Some(QuickBucket)
    case Personalized =>
      (match q.personalizedType
       case Some(Comprehensive) => Some(ComprehensiveBucket)
       case Some(NewTopics) => Some(NewTopicsBucket)
       case Some(WeakTopics) => Some(WeakTopicsBucket)
       case _ => Some(OtherPersonalizedBucket))
    case OtherQuizType(_) => None
  }

  function InBucket(b: Bucket): SavedQuiz -> bool {
    q => BucketOf(q) == Some(b)
  }

  /** A bucket's running count and percentage total. */
  datatype Tally = Tally(count: int, totalScore: real)

  /** The tally of the quizzes that land in bucket `b`. */
  function TallyOf(qs: seq<SavedQuiz>, b: Bucket): Tally {
    var members := Filter(qs, InBucket(b));
    Tally(|members|, SumPercentages(members))
  }

  /** `calculateAvg`: the rounded mean, or 0 for an empty bucket. */
  function AverageOf(t: Tally): int {
    if t.count > 0 then Round(t.totalScore / t.count as real) else 0
  }

  datatype TypeStat = TypeStat(count: int, averageScore: int)

  datatype QuizTypeStats = QuizTypeStats(
    quick: TypeStat,
    comprehensive: TypeStat,
    newTopics: TypeStat,
    weakTopics: TypeStat,
    otherPersonalized: TypeStat,
    totalPersonalized: int,
    averagePersonalizedScore: int)

  function StatOf(t: Tally): TypeStat {
    TypeStat(t.count, AverageOf(t))
  }

  /** The per-type table built from the five bucket tallies: each bucket's
      count and rounded mean, and the four personalised buckets taken
      together. */
  function Summarise(quick: Tally, c: Tally, n: Tally, w: Tally, o: Tally): QuizTypeStats {
    QuizTypeStats(
      StatOf(quick), StatOf(c), StatOf(n), StatOf(w), StatOf(o),
      c.count + n.count + w.count + o.count,
      AverageOf(Tally(c.count + n.count + w.count + o.count,
                      c.totalScore + n.totalScore + w.totalScore + o.totalScore)))
  }

  /** The per-type table of a filtered set. */
  function QuizTypeStatsOf(qs: seq<SavedQuiz>): QuizTypeStats {
    Summarise(TallyOf(qs, QuickBucket), TallyOf(qs, ComprehensiveBucket), TallyOf(qs, NewTopicsBucket),
              TallyOf(qs, WeakTopicsBucket), TallyOf(qs, OtherPersonalizedBucket))
  }

  function AddTo(t: Tally, percentage: real): Tally {
    Tally(t.count + 1, t.totalScore + percentage)
  }

  lemma TallySnoc(qs: seq<SavedQuiz>, q: SavedQuiz, b: Bucket)
    ensures TallyOf(qs + [q], b) == if BucketOf(q) == Some(b) then AddTo(TallyOf(qs, b), Percentage(q)) else TallyOf(qs, b)
  {
    FilterSnoc(qs, q, InBucket(b));
    var m := Filter(qs, InBucket(b));
    if BucketOf(q) == Some(b) {
      assert InBucket(b)(q);
      assert Filter(qs + [q], InBucket(b)) == m + [q];
      OverallSnoc(m, q);
    } else {
      assert !InBucket(b)(q);
      assert Filter(qs + [q], InBucket(b)) == m + [];
      assert m + [] == m;
    }
  }

  /** One loop step: adding `q` to its bucket (if any) turns the table of
      `qs` into the table of `qs + [q]`. */
  lemma RecordStep(stats: map<Bucket, Tally>, next: map<Bucket, Tally>, qs: seq<SavedQuiz>, q: SavedQuiz)
    requires forall b :: b in stats && stats[b] == TallyOf(qs, b)
    requires BucketOf(q).Some? ==>
               next == stats[BucketOf(q).value := AddTo(stats[BucketOf(q).value], Percentage(q))]
    requires BucketOf(q).None? ==> next == stats
    ensures forall b :: b in next && next[b] == TallyOf(qs + [q], b)
  {
    forall b ensures b in next && next[b] == TallyOf(qs + [q], b) {
      TallySnoc(qs, q, b);
    }
  }

  /** `quizTypeStats`: one pass that adds each quiz's percentage to its
      bucket of the five-entry table, then the averages. */
  method ComputeQuizTypeStats(filtered: seq<SavedQuiz>) returns (result: QuizTypeStats)
    ensures result == QuizTypeStatsOf(filtered)
  {
    var stats: map<Bucket, Tally> := map[
      QuickBucket := Tally(0, 0.0),
      ComprehensiveBucket := Tally(0, 0.0),
      NewTopicsBucket := Tally(0, 0.0),
      WeakTopicsBucket := Tally(0, 0.0),
      OtherPersonalizedBucket := Tally(0, 0.0)];
    forall b ensures b in stats && stats[b] == TallyOf([], b) {
      assert b.QuickBucket? || b.ComprehensiveBucket? || b.NewTopicsBucket? || b.WeakTopicsBucket? || b.OtherPersonalizedBucket?;
    }
    assert filtered[..0] == [];
    var i := 0;
    while i < |filtered|
      invariant 0 <= i <= |filtered|
      invariant forall b :: b in stats && stats[b] == TallyOf(filtered[..i], b)
    {
      var quiz := filtered[i];
      var percentage := Percentage(quiz);
      assert filtered[..i + 1] == filtered[..i] + [quiz];
      ghost var before := stats;
      if quiz.quizType == Quick {
        stats := stats[QuickBucket := AddTo(stats[QuickBucket], percentage)];
      } else if quiz.quizType == Personalized {
        var pType := quiz.personalizedType;
        if pType == Some(Comprehensive) {
          stats := stats[ComprehensiveBucket := AddTo(stats[ComprehensiveBucket], percentage)];
        } else if pType == Some(NewTopics) {
          stats := stats[NewTopicsBucket := AddTo(stats[NewTopicsBucket], percentage)];
        } else if pType == Some(WeakTopics) {
          stats := stats[WeakTopicsBucket := AddTo(stats[WeakTopicsBucket], percentage)];
        } else {
          stats := stats[OtherPersonalizedBucket := AddTo(stats[OtherPersonalizedBucket], percentage)];
        }
      }
      RecordStep(before, stats, filtered[..i], quiz);
      i := i + 1;
    }
    assert filtered[..i] == filtered;
    result := Summarise(stats[QuickBucket], stats[ComprehensiveBucket], stats[NewTopicsBucket],
                        stats[WeakTopicsBucket], stats[OtherPersonalizedBucket]);
  }

  /** A bucket without quizzes, and a personalised total of 0, average 0
      rather than dividing by zero. */
  lemma EmptyBucketsAverageZero(qs: seq<SavedQuiz>)
    ensures var s := QuizTypeStatsOf(qs);
            && (s.quick.count == 0 ==> s.quick.averageScore == 0)
            && (s.comprehensive.count == 0 ==> s.comprehensive.averageScore == 0)
            && (s.newTopics.count == 0 ==> s.newTopics.averageScore == 0)
            && (s.weakTopics.count == 0 ==> s.weakTopics.averageScore == 0)
            && (s.otherPersonalized.count == 0 ==> s.otherPersonalized.averageScore == 0)
            && (s.totalPersonalized == 0 ==> s.averagePersonalizedScore == 0)
  {
  }

  predicate IsQuick(q: SavedQuiz) { q.quizType == Quick }

  predicate IsPersonalized(q: SavedQuiz) { q.quizType == Personalized }

  predicate IsOtherCategory(q: SavedQuiz) { q.quizType.OtherQuizType? }

  /** A personalised quiz whose sub-type is missing or unrecognised lands
      in the catch-all bucket. */
  lemma UnknownSubTypeIsOther(q: SavedQuiz)
    requires q.quizType == Personalized
    requires q.personalizedType.None? || q.personalizedType.value.OtherPersonalizedType?
    ensures BucketOf(q) == Some(OtherPersonalizedBucket)
  {
  }

  /** The four personalised buckets together hold exactly the personalised
      quizzes, with their percentages. */
  lemma PersonalizedBucketsPartition(qs: seq<SavedQuiz>)
    ensures var c, n, w, o := TallyOf(qs, ComprehensiveBucket), TallyOf(qs, NewTopicsBucket),
                              TallyOf(qs, WeakTopicsBucket), TallyOf(qs, OtherPersonalizedBucket);
            var all := Filter(qs, IsPersonalized);
            c.count + n.count + w.count + o.count == |all| &&
            c.totalScore + n.totalScore + w.totalScore + o.totalScore == SumPercentages(all)
  {
    var named := (q: SavedQuiz) => BucketOf(q) == Some(ComprehensiveBucket) || BucketOf(q) == Some(NewTopicsBucket);
    var rest := (q: SavedQuiz) => BucketOf(q) == Some(WeakTopicsBucket) || BucketOf(q) == Some(OtherPersonalizedBucket);
    FilterSplit(qs, IsPersonalized, named, rest, Percentage);
    FilterSplit(qs, named, InBucket(ComprehensiveBucket), InBucket(NewTopicsBucket), Percentage);
    FilterSplit(qs, rest, InBucket(WeakTopicsBucket), InBucket(OtherPersonalizedBucket), Percentage);
  }

  /** `totalPersonalized` counts the personalised quizzes and
      `averagePersonalizedScore` is their rounded mean percentage (0 when
      there are none). */
  lemma PersonalizedTotals(qs: seq<SavedQuiz>)
    ensures var all := Filter(qs, IsPersonalized);
            QuizTypeStatsOf(qs).totalPersonalized == |all| &&
            QuizTypeStatsOf(qs).averagePersonalizedScore == AverageOf(Tally(|all|, SumPercentages(all)))
  {
    PersonalizedBucketsPartition(qs);
  }

  /** Every quiz is quick, personalised or of another category. */
  lemma {:induction false} CategoriesPartition(qs: seq<SavedQuiz>)
    ensures |Filter(qs, IsQuick)| + |Filter(qs, IsPersonalized)| + |Filter(qs, IsOtherCategory)| == |qs|
  {
    if qs != [] {
      CategoriesPartition(qs[1..]);
    }
  }

  /** Quizzes of another category land in no bucket, so the quick count and
      the personalised total add up to at most the number of quizzes, and to
      exactly that number when every quiz is quick or personalised. */
  lemma QuickPlusPersonalizedBound(qs: seq<SavedQuiz>)
    ensures QuizTypeStatsOf(qs).quick.count == |Filter(qs, IsQuick)|
    ensures QuizTypeStatsOf(qs).quick.count + QuizTypeStatsOf(qs).totalPersonalized
            == |qs| - |Filter(qs, IsOtherCategory)|
    ensures QuizTypeStatsOf(qs).quick.count + QuizTypeStatsOf(qs).totalPersonalized <= |qs|
  {
    PersonalizedBucketsPartition(qs);
    CategoriesPartition(qs);
    FilterCongruent(qs, InBucket(QuickBucket), IsQuick);
  }

  // ---------------------------------------------------------------------
  // Learning-objective statistics

  datatype StatusCounts = StatusCounts(pending: int, success: int, failure: int, intermediate: int)

  datatype StatusPercentages = StatusPercentages(pending: real, success: real, failure: real, intermediate: real)

  datatype ObjectiveStats = ObjectiveStats(totalLOs: int, counts: StatusCounts, percentages: StatusPercentages)

  function HasStatus(s: Status): LearningObjective -> bool {
    (lo: LearningObjective) => lo.status == s
  }

  predicate IsUnrecognized(lo: LearningObjective) { lo.status.OtherStatus? }

  function CountStatus(los: seq<LearningObjective>, s: Status): int {
    |Filter(los, HasStatus(s))|
  }

  /** A status's share in percent, or 0 when there are no objectives. */
  function ShareOf(count: int, total: int): (p: real)
    ensures total <= 0 ==> p == 0.0
  {
    if total > 0 then (count as real / total as real) * 100.0 else 0.0
  }

  /** The status histogram of a filtered list and each status's share. */
  function ObjectiveStatsOf(los: seq<LearningObjective>): ObjectiveStats {
    var counts := StatusCounts(CountStatus(los, Pending), CountStatus(los, Success),
                               CountStatus(los, Failure), CountStatus(los, Intermediate));
    ObjectiveStats(|los|, counts,
      StatusPercentages(ShareOf(counts.pending, |los|), ShareOf(counts.success, |los|),
                        ShareOf(counts.failure, |los|), ShareOf(counts.intermediate, |los|)))
  }

  /** `stats[lo.status]++` on the four-entry table. */
  function Bump(c: StatusCounts, s: Status): StatusCounts {
    match s
    case Pending => c.(pending := c.pending + 1)
    case Success => c.(success := c.success + 1)
    case Failure => c.(failure := c.failure + 1)
    case Intermediate => c.(intermediate := c.intermediate + 1)
    case OtherStatus(_) => c
  }

  /** `learningObjectiveStats`: one counting pass, then the shares. */
  method ComputeObjectiveStats(filtered: seq<LearningObjective>) returns (result: ObjectiveStats)
    ensures result == ObjectiveStatsOf(filtered)
  {
    var stats := StatusCounts(0, 0, 0, 0);
    var i := 0;
    while i < |filtered|
      invariant 0 <= i <= |filtered|
      invariant stats == StatusCounts(CountStatus(filtered[..i], Pending), CountStatus(filtered[..i], Success),
                                      CountStatus(filtered[..i], Failure), CountStatus(filtered[..i], Intermediate))
    {
      var lo := filtered[i];
      assert filtered[..i + 1] == filtered[..i] + [lo];
      FilterSnoc(filtered[..i], lo, HasStatus(Pending));
      FilterSnoc(filtered[..i], lo, HasStatus(Success));
      FilterSnoc(filtered[..i], lo, HasStatus(Failure));
      FilterSnoc(filtered[..i], lo, HasStatus(Intermediate));
      stats := Bump(stats, lo.status);
      i := i + 1;
    }
    assert filtered[..i] == filtered;
    var totalLOs := |filtered|;
    result := ObjectiveStats(totalLOs, stats,
      StatusPercentages(
        if totalLOs > 0 then (stats.pending as real / totalLOs as real) * 100.0 else 0.0,
        if totalLOs > 0 then (stats.success as real / totalLOs as real) * 100.0 else 0.0,
        if totalLOs > 0 then (stats.failure as real / totalLOs as real) * 100.0 else 0.0,
        if totalLOs > 0 then (stats.intermediate as real / totalLOs as real) * 100.0 else 0.0));
  }

  /** The four status counts and the objectives with an unrecognised status
      add up to the total. */
  lemma {:induction false} StatusCountsPartition(los: seq<LearningObjective>)
    ensures var c := ObjectiveStatsOf(los).counts;
            c.pending + c.success + c.failure + c.intermediate + |Filter(los, IsUnrecognized)| == |los|
  {
    if los != [] {
      StatusCountsPartition(los[1..]);
    }
  }

  /** With no objectives every share is 0; otherwise, when every status is
      one of the four, the counts add up to the total and the shares to 100. */
  lemma ObjectiveSharesSum(los: seq<LearningObjective>)
    ensures los == [] ==> ObjectiveStatsOf(los).percentages == StatusPercentages(0.0, 0.0, 0.0, 0.0)
    ensures (forall i :: 0 <= i < |los| ==> !los[i].status.OtherStatus?) ==>
              var c := ObjectiveStatsOf(los).counts;
              c.pending + c.success + c.failure + c.intermediate == ObjectiveStatsOf(los).totalLOs
    ensures los != [] && (forall i :: 0 <= i < |los| ==> !los[i].status.OtherStatus?) ==>
              var p := ObjectiveStatsOf(los).percentages;
              p.pending + p.success + p.failure + p.intermediate == 100.0
  {
    StatusCountsPartition(los);
    if forall i :: 0 <= i < |los| ==> !los[i].status.OtherStatus? {
      FilterKeepsNone(los, IsUnrecognized);
      if los != [] {
        var c := ObjectiveStatsOf(los).counts;
        var n := |los| as real;
        SharesAddUp(c.pending as real, c.success as real, c.failure as real, c.intermediate as real, n);
      }
    }
  }

  lemma SharesAddUp(a: real, b: real, c: real, d: real, n: real)
    requires n > 0.0 && a + b + c + d == n
    ensures (a / n) * 100.0 + (b / n) * 100.0 + (c / n) * 100.0 + (d / n) * 100.0 == 100.0
  {
    assert a / n + b / n + c / n + d / n == (a + b + c + d) / n;
  }

  // ---------------------------------------------------------------------
  // Chart series

  function SavedAtKey(q: SavedQuiz): int { q.savedAt }

  /** `sortedQuizzesForChart`: a sorted copy of the filtered quizzes, oldest
      first; the filtered sequence itself is a value and stays as it was. */
  function ChartSeries(filtered: seq<SavedQuiz>): (r: seq<SavedQuiz>)
    ensures multiset(r) == multiset(filtered)
    ensures forall i, j :: 0 <= i < j < |r| ==> r[i].savedAt <= r[j].savedAt
  {
    SortSorted(filtered, SavedAtKey);
    SortBy(filtered, SavedAtKey)
  }

  /** Quizzes saved at the same instant keep their filtered order. */
  lemma ChartSeriesStable(filtered: seq<SavedQuiz>, t: int)
    ensures Filter(ChartSeries(filtered), HasKey(SavedAtKey, t)) == Filter(filtered, HasKey(SavedAtKey, t))
  {
    SortStable(filtered, SavedAtKey, t);
  }

  // ---------------------------------------------------------------------
  // Score colour band

  datatype ScoreStyle = ScoreStyle(color: string, typeLabel: string, specificTypeLabel: string)

  /** The bar colour of a quiz's category and sub-type. */
  function BaseColorClass(q: SavedQuiz): string {
    if q.quizType == Personalized then
      match q.personalizedType
      case Some(Comprehensive) => "bg-purple-500"
      case Some(NewTopics) => "bg-pink-500"
      case Some(WeakTopics) => "bg-fuchsia-500"
      case _ => "bg-indigo-500"
    else "bg-cyan-500"
  }

  function SpecificTypeLabel(q: SavedQuiz): string {
    if q.quizType == Personalized then
      match q.personalizedType
      case Some(Comprehensive) => "Kapsamlı"
      case Some(NewTopics) => "Yeni Konular"
      case Some(WeakTopics) => "Zayıf Konular"
      case _ => "Diğer Kişisel"
    else ""
  }

  /** `getScoreColorAndType`: below 50 percent the colour is dimmed to 60
      percent opacity, below 75 to 80 percent, otherwise it is the base
      colour. */
  function ScoreColorAndType(q: SavedQuiz): (r: ScoreStyle)
    ensures Percentage(q) < 50.0 ==> r.color == BaseColorClass(q) + " opacity-60"
    ensures 50.0 <= Percentage(q) < 75.0 ==> r.color == BaseColorClass(q) + " opacity-80"
    ensures Percentage(q) >= 75.0 ==> r.color == BaseColorClass(q)
    ensures r.typeLabel == TypeLabel(q.quizType)
    ensures r.specificTypeLabel == "" <==> q.quizType != Personalized
  {
    var percentage := Percentage(q);
    var baseColorClass := BaseColorClass(q);
    var typeLabel := TypeLabel(q.quizType);
    var specificTypeLabel := SpecificTypeLabel(q);
    if percentage < 50.0 then ScoreStyle(baseColorClass + " opacity-60", typeLabel, specificTypeLabel)
    else if percentage < 75.0 then ScoreStyle(baseColorClass + " opacity-80", typeLabel, specificTypeLabel)
    else ScoreStyle(baseColorClass, typeLabel, specificTypeLabel)
  }

  /** The bands in integers: below 50 percent means twice the score is below
      the question count, below 75 percent means four times the score is
      below three times the question count (a quiz without questions is
      in the lowest band). */
  lemma ScoreBandsInIntegers(q: SavedQuiz)
    ensures Percentage(q) < 50.0 <==> q.totalQuestions <= 0 || 2 * q.score < q.totalQuestions
    ensures Percentage(q) < 75.0 <==> q.totalQuestions <= 0 || 4 * q.score < 3 * q.totalQuestions
  {
    if q.totalQuestions > 0 {
      PercentageScaled(q);
      ScaledBelow(Percentage(q), q.totalQuestions as real, q.score as real, 50.0);
      ScaledBelow(Percentage(q), q.totalQuestions as real, q.score as real, 75.0);
    }
  }

  lemma ScaledBelow(p: real, t: real, s: real, c: real)
    requires t > 0.0 && p * t == 100.0 * s
    ensures p < c <==> 100.0 * s < c * t
  {
    assert p < c <==> p * t < c * t;
  }
}
