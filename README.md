# Quiz dashboard core in Dafny

This project models three pieces of logic from a quiz dashboard and proves properties of them.

1. **The performance-analysis statistics.** This covers:
   - three filters over saved quizzes: course, quiz type and time window;
   - the course filter over learning objectives;
   - the overall score aggregates: total, rounded mean, highest and lowest, question and answer totals, and pass/fail at 60 percent;
   - the five-bucket per-type table;
   - the learning-objective status histogram with each status's share;
   - the chronological chart series;
   - the score colour band.

   The filters, the chart series and the colour band are functions. The three aggregations are methods with the same loops as the page. Each method is proved equal to a function stated over the whole input, and the lemmas are about those functions.

2. **The navigation and flow controller.** `AppRouter.Router` is a class with one field per state cell: the screen, the loading flags, the error and auth messages, the configuration, the user and the four in-flow selections. Its methods are the controller's callbacks. Each method states its complete new state as an update of `View()`, a snapshot of every field.
   - **Callbacks.** The callbacks a caller hands in (the two resets, the quiz-mode setter and the timer setter) are recorded in the ghost sequence `callbacks`.
   - **Committed screen.** `navigateTo` checks the screen through a ref that an effect refreshes only after a render is committed. The model keeps this ref as its own field, `appStateRef`, and only `CommitRender` changes it. So within one handler, `NavigateTo` sees the screen from before that handler began.
   - **One consequence.** Suppose `startQuizFlow` needs a login while the error screen is the committed one. Its `setError` stores the login message, and then `navigateTo('login')` clears it at once. `LoginRedirectScenario` shows both outcomes.

3. **The saved-quiz list.** Quizzes are kept when the lower-cased display name contains the lower-cased search term, then sorted newest first. Lower-casing and the date label are function parameters.

Quiz amounts are exact reals: a percentage is `score / totalQuestions * 100`, and 0 when there are no questions. `Math.round` is `Floor(x + 0.5)`. JavaScript's sort is stable, so `Sorting.SortBy` is a stable insertion sort by an integer key:
- the chart sorts by `savedAt`;
- the list sorts by `-savedAt`, which is what the comparator `b.savedAt - a.savedAt` amounts to.

The clock reading `now`, the configuration load result, the fallback configuration and authentication events are all parameters.

Three behaviours of the code worth knowing:
- `setError` with a blank message and no data flag leaves the screen and the error message alone. It still sets `isLoading` and `authLoading` to false (`useAppRouter.ts:70-71`), so the state is not completely unchanged.
- The highest score is a running maximum that starts at 0 (`PerformanceAnalysisPage.tsx:139`). When no quiz has a positive percentage (for example, every score is negative), it is 0 rather than the maximum percentage.
- The login redirect of `startQuizFlow` does not keep its message when the committed screen was the error screen (see above).

## Model

| member | source | states |
|---|---|---|
| `QuizData.ParseQuizType` | src/components/PerformanceAnalysisPage.tsx:78-79 | Reading a stored category loses nothing (its name is the input string). It yields the catch-all case exactly when the string is neither 'Hızlı Sınav' nor 'Kişiselleştirilmiş Sınav' |
| `QuizData.ParseQuizTypeName` | src/components/PerformanceAnalysisPage.tsx:78-79 | Naming a well-formed category and reading the name back gives the same category |
| `QuizData.ParsePersonalizedType` | src/components/PerformanceAnalysisPage.tsx:80-85 | Reading a sub-type string loses nothing. It yields the catch-all case exactly when the string is not 'comprehensive', 'new_topics' or 'weak_topics' |
| `QuizData.ParsePersonalizedTypeName` | src/components/PerformanceAnalysisPage.tsx:188-196 | Round trip of name and reading for a well-formed sub-type |
| `QuizData.ParseStatus` | src/components/PerformanceAnalysisPage.tsx:226-230 | Reading a status string loses nothing. It yields the catch-all case exactly when the string is none of the four statuses |
| `QuizData.ParseStatusName` | src/components/PerformanceAnalysisPage.tsx:226-230 | Round trip of name and reading for a well-formed status |
| `QuizData.Percentage` | src/components/PerformanceAnalysisPage.tsx:147 | A quiz without questions scores 0 percent; there is no division by zero |
| `QuizData.PercentageScaled` | src/components/PerformanceAnalysisPage.tsx:147 | For a quiz with questions, percentage times question count is 100 times the score |
| `QuizData.PercentageNonNegative` | src/components/PerformanceAnalysisPage.tsx:147 | A non-negative score gives a non-negative percentage |
| `QuizData.Round` | src/components/PerformanceAnalysisPage.tsx:161-163 | `Math.round`: the result r satisfies r <= x + 0.5 < r + 1 |
| `QuizData.PassedIff` | src/components/PerformanceAnalysisPage.tsx:152-153 | A quiz passes iff it has questions and 100·score >= 60·questions; it fails exactly when it does not pass |
| `QuizData.TypeLabel` | src/components/QuizListPage.tsx:113 | The badge reads 'Kişisel' iff the category is personalised, and 'Hızlı' otherwise |
| `PerformanceAnalysis.TimeWindow` | src/components/PerformanceAnalysisPage.tsx:94-111 | Windows are 3,600,000 / 86,400,000 / 259,200,000 / 604,800,000 / 2,592,000,000 ms for the five selectors. There is no window exactly when the selector is none of them |
| `PerformanceAnalysis.FilterQuizzes` | src/components/PerformanceAnalysisPage.tsx:70-117 | The result is an order-preserving subsequence of the saved quizzes. A quiz is in it iff it is saved and passes the course, type and time tests. Each kept quiz appears as often as in the input |
| `PerformanceAnalysis.FilterAllKeepsEverything` | src/components/PerformanceAnalysisPage.tsx:70-117 | With all three selectors at 'all', the result is the input |
| `PerformanceAnalysis.FilterQuizzesIdempotent` | src/components/PerformanceAnalysisPage.tsx:70-117 | Filtering the result again with the same selectors and clock changes nothing |
| `PerformanceAnalysis.TypeSelectorMeaning` | src/components/PerformanceAnalysisPage.tsx:77-86 | 'quick' keeps exactly quick quizzes and 'personalized_all' exactly personalised ones. Each sub-type selector keeps exactly personalised quizzes with that sub-type. An unrecognised selector keeps everything |
| `PerformanceAnalysis.TimeSelectorMeaning` | src/components/PerformanceAnalysisPage.tsx:89-113 | A quiz is kept iff now − savedAt <= window, so the boundary is inclusive. An unrecognised selector keeps everything |
| `PerformanceAnalysis.FilterObjectives` | src/components/PerformanceAnalysisPage.tsx:119-122 | For 'all' the list is unchanged. Otherwise the result is the order-preserving subsequence of objectives with that course id, and every such objective is in it. Each such objective is kept as many times as it occurs, so the count of a course's objectives is exact |
| `PerformanceAnalysis.MaxPercentage` | src/components/PerformanceAnalysisPage.tsx:155 | The maximum percentage: no quiz has more, and some quiz has it |
| `PerformanceAnalysis.MinPercentage` | src/components/PerformanceAnalysisPage.tsx:163 | The minimum percentage (`Math.min` over the list): no quiz has less, and some quiz has it |
| `PerformanceAnalysis.RunningHighestIsMax` | src/components/PerformanceAnalysisPage.tsx:139-155 | The running maximum seeded with 0 ends as max(0, maximum percentage) |
| `PerformanceAnalysis.RunningLowestIsMin` | src/components/PerformanceAnalysisPage.tsx:140-156 | The running minimum seeded with 100 ends as min(100, minimum percentage) |
| `PerformanceAnalysis.OverallSnoc` | src/components/PerformanceAnalysisPage.tsx:146-157 | Appending one quiz adds its percentage, question count and score to the sums. It updates the running extremes and adds it to exactly one of passed or failed |
| `PerformanceAnalysis.ComputeOverallStats` | src/components/PerformanceAnalysisPage.tsx:124-169 | The loop, including the recomputation of the minimum when the running minimum stayed at 100, equals the whole-set statistics. Passed + failed = total, and an empty set gives eight zeros |
| `PerformanceAnalysis.OverallPassFailPartition` | src/components/PerformanceAnalysisPage.tsx:152-153 | Passed and failed quizzes add up to the total |
| `PerformanceAnalysis.NoQuestionsFails` | src/components/PerformanceAnalysisPage.tsx:147-153 | A quiz with 0 questions scores 0 percent and fails |
| `PerformanceAnalysis.HighestIsMaximum` | src/components/PerformanceAnalysisPage.tsx:139-162 | With non-negative scores, the highest score is the rounded maximum percentage |
| `PerformanceAnalysis.TwoQuizExample` | src/components/PerformanceAnalysisPage.tsx:124-169 | Quizzes 8/10 and 3/10 give total 2, average 55, highest 80, lowest 30, 1 passed, 1 failed, 20 questions and 11 correct |
| `PerformanceAnalysis.TallySnoc` | src/components/PerformanceAnalysisPage.tsx:180-206 | Appending a quiz adds one and its percentage to its own bucket's tally and leaves every other tally unchanged |
| `PerformanceAnalysis.RecordStep` | src/components/PerformanceAnalysisPage.tsx:180-206 | One loop step turns the table of a prefix into the table of the prefix extended by one quiz |
| `PerformanceAnalysis.ComputeQuizTypeStats` | src/components/PerformanceAnalysisPage.tsx:171-223 | The loop over the five-entry table equals the per-type statistics of the whole set |
| `PerformanceAnalysis.EmptyBucketsAverageZero` | src/components/PerformanceAnalysisPage.tsx:208-221 | Every bucket with count 0, and a personalised total of 0, has average 0 |
| `PerformanceAnalysis.UnknownSubTypeIsOther` | src/components/PerformanceAnalysisPage.tsx:186-204 | A personalised quiz with a missing or unrecognised sub-type lands in the 'personalized_other' bucket |
| `PerformanceAnalysis.PersonalizedBucketsPartition` | src/components/PerformanceAnalysisPage.tsx:186-204 | Together, the four personalised buckets hold exactly the personalised quizzes: their counts and percentage totals add up |
| `PerformanceAnalysis.PersonalizedTotals` | src/components/PerformanceAnalysisPage.tsx:216-221 | `totalPersonalized` is the number of personalised quizzes. `averagePersonalizedScore` is their rounded mean percentage, or 0 when there are none |
| `PerformanceAnalysis.CategoriesPartition` | src/components/PerformanceAnalysisPage.tsx:182-205 | Quick, personalised and other-category quizzes add up to all quizzes |
| `PerformanceAnalysis.QuickPlusPersonalizedBound` | src/components/PerformanceAnalysisPage.tsx:182-216 | The quick count is the number of quick quizzes. Quick count + personalised total = n − (other-category quizzes), which is <= n |
| `PerformanceAnalysis.ShareOf` | src/components/PerformanceAnalysisPage.tsx:237-240 | A share is 0 when there are no objectives |
| `PerformanceAnalysis.ComputeObjectiveStats` | src/components/PerformanceAnalysisPage.tsx:225-243 | The counting loop and the shares equal the status histogram of the whole list |
| `PerformanceAnalysis.StatusCountsPartition` | src/components/PerformanceAnalysisPage.tsx:226-232 | The four status counts plus the objectives with an unrecognised status add up to `totalLOs` |
| `PerformanceAnalysis.ObjectiveSharesSum` | src/components/PerformanceAnalysisPage.tsx:232-241 | With no objectives every share is 0. When every status is one of the four, the counts sum to `totalLOs` and the shares to exactly 100 |
| `PerformanceAnalysis.ChartSeries` | src/components/PerformanceAnalysisPage.tsx:245-247 | The chart series is a permutation of the filtered quizzes (same multiset), sorted non-decreasing by `savedAt` |
| `PerformanceAnalysis.ChartSeriesStable` | src/components/PerformanceAnalysisPage.tsx:246 | Quizzes saved at the same instant keep their filtered order |
| `PerformanceAnalysis.ScoreColorAndType` | src/components/PerformanceAnalysisPage.tsx:249-271 | Below 50 percent the colour gets " opacity-60", below 75 " opacity-80", otherwise it is the base class. The type label is the badge label, and the specific label is empty iff the quiz is not personalised |
| `PerformanceAnalysis.ScoreBandsInIntegers` | src/components/PerformanceAnalysisPage.tsx:268-270 | Below 50 percent iff there are no questions or 2·score < questions. Below 75 percent iff there are no questions or 4·score < 3·questions |
| `QuizList.DisplayName` | src/components/QuizListPage.tsx:17 | The title is a non-empty PDF name when there is one, otherwise "Sınav " + the date label. It is never empty |
| `QuizList.FilteredQuizzes` | src/components/QuizListPage.tsx:16-18 | The list is a permutation of the quizzes the search keeps, ordered newest first (non-increasing `savedAt`) |
| `QuizList.FilteredQuizzesMembers` | src/components/QuizListPage.tsx:16-17 | A quiz is listed iff it is saved and its lower-cased display name contains the lower-cased term |
| `QuizList.EmptySearchKeepsAll` | src/components/QuizListPage.tsx:16-18 | An empty term keeps every saved quiz, so the list is all of them, newest first |
| `QuizList.MissingListIsEmpty` | src/components/QuizListPage.tsx:16 | A missing quiz list yields an empty list |
| `QuizList.MatchesSearchIff` | src/components/QuizListPage.tsx:17 | A quiz matches iff the lower-cased term occurs at some position of the lower-cased display name |
| `QuizList.FilteredQuizzesStable` | src/components/QuizListPage.tsx:18 | Quizzes saved at the same instant keep their stored order |
| `Strings.ContainsIff` | src/components/QuizListPage.tsx:17 | `includes` holds iff the part occurs at some position |
| `Strings.BlankIffAllWhitespace` | src/hooks/useAppRouter.ts:66 | A string is falsy after `trim` iff every character is one `trim` removes |
| `Sorting.SortSorted` | src/components/PerformanceAnalysisPage.tsx:246 | Sorting by a key yields a sequence non-decreasing in that key |
| `Sorting.SortStable` | src/components/PerformanceAnalysisPage.tsx:246 | Sorting keeps the relative order of elements with equal keys |
| `AppRouter.DisplayMessage` | src/hooks/useAppRouter.ts:51-63 | A message containing "Firebase:" is wrapped in the connectivity advisory, whatever the data flag. Otherwise a data-operation error is wrapped in the data advisory, and otherwise the message is verbatim. A wrapped text starts with its advisory and carries the message right after it |
| `AppRouter.WrappedMessageShown` | src/hooks/useAppRouter.ts:58-69 | A wrapped message is never blank (even for an empty message) and contains the original message |
| `AppRouter.ConfigNotReadyShownVerbatim` | src/hooks/useAppRouter.ts:122 | The configuration message is shown as written and is not blank |
| `AppRouter.LoginRequiredShownVerbatim` | src/hooks/useAppRouter.ts:127 | The login message is shown as written and is not blank |
| `AppRouter.Router.constructor` | src/hooks/useAppRouter.ts:15-34 | Initial state: dashboard, not loading, no error, sidebar open, no config (still loading), no user (auth loading), no auth messages, no flow selections, no callbacks run |
| `AppRouter.Router.CommitRender` | src/hooks/useAppRouter.ts:34-37 | The ref takes the screen's value; nothing else changes |
| `AppRouter.Router.ClearError` | src/hooks/useAppRouter.ts:74-76 | Only the error message is cleared |
| `AppRouter.Router.NavigateTo` | src/hooks/useAppRouter.ts:78-88 | The screen becomes the target and loading ends. The error is cleared iff the committed screen is the error screen and the target is not. The auth error and message are cleared iff the target is not login, signup or forgot-password. Nothing else changes |
| `AppRouter.Router.SetError` | src/hooks/useAppRouter.ts:50-72 | A non-blank display text is stored and the error screen shown; a blank one changes neither. Both loading flags end false, and nothing else changes |
| `AppRouter.Router.ResetAppToDashboard` | src/hooks/useAppRouter.ts:90-111 | Both reset callbacks run once, in order. The four flow fields and all messages are cleared and loading ends. The screen becomes the dashboard iff `navigate`, whatever the user |
| `AppRouter.Router.StartQuizFlow` | src/hooks/useAppRouter.ts:113-143 | Without config or settings: only the not-ready error, the error screen and the loading flags change, and no callback runs. Personalised without a user: the login screen and the login message (cleared if the committed screen was the error screen), and no callback runs. Otherwise: resets run, mode and timer callbacks get the mode and the default timer setting, selections and messages are cleared, the mode is recorded, and the screen becomes course selection or quick setup |
| `AppRouter.Router.ToggleSidebar` | src/hooks/useAppRouter.ts:145-147 | Only the sidebar flag flips |
| `AppRouter.Router.OnAuthStateChanged` | src/hooks/useAppRouter.ts:40-45 | The user is recorded and auth loading ends, with no navigation |
| `AppRouter.Router.BeginConfigLoad` | src/hooks/useAppRouter.ts:150 | Only the config-loading flag is set |
| `AppRouter.Router.FinishConfigLoad` | src/hooks/useAppRouter.ts:151-164 | The loaded config, or the fallback on failure, is stored and returned, and config loading ends. The screen and the error message are unchanged |
| `AppRouter.Router.InitializeConfig` | src/hooks/useAppRouter.ts:149-165 | Without interleaving, `configLoading` ends false. The stored config equals the returned one: the loaded config on success, the fallback on failure. No error screen is shown |
| `AppRouter.LoginRedirectScenario` | src/hooks/useAppRouter.ts:121-130 | The login redirect keeps its message from a fresh dashboard but loses it when the committed screen was the error screen; the screen is login either way |
| `AppRouter.BlankErrorScenario` | src/hooks/useAppRouter.ts:50-72 | `setError("", false)` keeps the screen and the absent message, and leaves both loading flags false |

## Left out

- Rendering is not modelled: JSX, `StatCard`, `PieSegment`, CSS and theme strings, and the empty-state branches. They have no effect on the computed values.
- `toLocaleDateString`, `toLocaleString` and `formatDate` depend on locale and time zone. The list's date label is a function parameter `dateLabel`, and `toLowerCase` is a parameter `lower`.
- Floating point is not modelled. Percentages, sums and shares are exact reals, so the model has no IEEE-754 rounding and no `toFixed(1)`. This is why the learning-objective shares sum to exactly 100.
- The list page's per-card percentage (`QuizListPage.tsx:120` and `:172`) divides without a zero guard. It is display only and is not modelled.
- `Date.now()` is read again for every quiz in the filter (`PerformanceAnalysisPage.tsx:90`). The model takes one clock reading `now` for the whole pass.
- `stats[lo.status]++` with an unrecognised status adds a `NaN` entry under that status's name in JavaScript. The model counts only the four statuses, and `StatusCountsPartition` accounts for the rest.
- The `scores` arrays of the per-type table are filled but never read.
- A quiz type or sub-type that JavaScript compares as something other than a string is not modelled. Such values are kept as `Other…` datatype cases.
- `SavedQuiz` and `LearningObjective` do not require their `Other…` cases to hold an unrecognised name. A value such as `OtherQuizType("Hızlı Sınav")` or `OtherStatus("pending")` is accepted, and on it `TypeMatches`, `BucketOf` and the status count disagree with JavaScript's `===` on the same string. `ParseQuizType`, `ParsePersonalizedType` and `ParseStatus` never produce such a value from a string; the `Valid…` predicates describe the well-formed values.
- `Screen` likewise accepts `OtherScreen` with a name the controller recognises, such as `OtherScreen("login")` or `OtherScreen("error")`. On such a value `NavigateTo` differs from the string tests of `useAppRouter.ts:79` and `:82`: it clears `authError` for `OtherScreen("login")`, and a committed `OtherScreen("error")` does not clear `errorMessage`. No transition produces such a value.
- Asynchrony is not modelled:
  - The `await` of `initializeConfig` is the split between `BeginConfigLoad` and `FinishConfigLoad`. Other handlers may run between the two, but promises themselves are not modelled.
  - The loader and `getConfigFn` are replaced by a `Result` and a fallback value.
  - Caching by `useMemo` and `useCallback` is not modelled.
  - Handlers read `appConfig` and `currentUser` from their fields. React would read them from the last render's closure, which is the same value when no update is pending.
- The auth subscription and its unsubscribe (`useAppRouter.ts:39-47`) are a call into the auth service. Only the state update of the listener's callback is modelled, as `OnAuthStateChanged`.
- `console.error` logging has no effect on state and is left out.
- The raw setters exported at `useAppRouter.ts:182-198` are single assignments and are not modelled.
- An `Error` whose `message` is not a string (on which `includes` would throw) is not modelled.
- The callbacks' own effects are outside the controller. The model records only that they were invoked and with what argument.
