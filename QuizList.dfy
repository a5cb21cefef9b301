/** The saved-quiz list: a case-insensitive search on each quiz's display
    name, then newest first. Lower-casing and the locale date label are
    parameters, since both depend on the runtime's locale tables. */
module QuizList {
  import opened Wrappers
  import opened Seqs
  import opened Sorting
  import opened Strings
  import opened QuizData

  /** The card title: the PDF name when it is a non-empty string, otherwise
      "Sınav " followed by the date label of the save time. */
  function DisplayName(q: SavedQuiz, dateLabel: int -> string): (name: string)
    ensures q.pdfName.Some? && q.pdfName.value != "" ==> name == q.pdfName.value
    ensures q.pdfName.None? || q.pdfName.value == "" ==> name == "Sınav " + dateLabel(q.savedAt)
    ensures name != ""
  {
    if q.pdfName.Some? && q.pdfName.value != "" then q.pdfName.value
    else "Sınav " + dateLabel(q.savedAt)
  }

  /** The quiz's lower-cased display name contains the lower-cased term. */
  predicate MatchesSearch(q: SavedQuiz, term: string, lower: string -> string, dateLabel: int -> string) {
    Contains(lower(DisplayName(q, dateLabel)), lower(term))
  }

  function SearchFn(term: string, lower: string -> string, dateLabel: int -> string): SavedQuiz -> bool {
    q => MatchesSearch(q, term, lower, dateLabel)
  }

  /** The comparator `(a, b) => b.savedAt - a.savedAt` orders ascending by
      this key. */
  function NewestFirstKey(q: SavedQuiz): int {
    -q.savedAt
  }

  /** The quizzes the search keeps, in their stored order. */
  function Kept(saved: Option<seq<SavedQuiz>>, term: string,
                lower: string -> string, dateLabel: int -> string): seq<SavedQuiz> {
    Filter(Elements(saved), SearchFn(term, lower, dateLabel))
  }

  /** `filteredQuizzes` of the list page: the kept quizzes rearranged
      newest first. */
  function FilteredQuizzes(saved: Option<seq<SavedQuiz>>, term: string,
                           lower: string -> string, dateLabel: int -> string): (r: seq<SavedQuiz>)
    ensures multiset(r) == multiset(Kept(saved, term, lower, dateLabel))
    ensures forall i, j :: 0 <= i < j < |r| ==> r[i].savedAt >= r[j].savedAt
  {
    SortSorted(Kept(saved, term, lower, dateLabel), NewestFirstKey);
    SortBy(Kept(saved, term, lower, dateLabel), NewestFirstKey)
  }

  /** A quiz is listed exactly when it is saved and matches the search. */
  lemma FilteredQuizzesMembers(saved: Option<seq<SavedQuiz>>, term: string,
                               lower: string -> string, dateLabel: int -> string)
    ensures var r := FilteredQuizzes(saved, term, lower, dateLabel);
            forall q :: q in r <==> q in Elements(saved) && MatchesSearch(q, term, lower, dateLabel)
  {
    var kept := Kept(saved, term, lower, dateLabel);
    FilterMembers(Elements(saved), SearchFn(term, lower, dateLabel));
    SortByMembers(kept, NewestFirstKey);
    forall i | 0 <= i < |kept| ensures kept[i] in Elements(saved) && MatchesSearch(kept[i], term, lower, dateLabel) {
      assert SearchFn(term, lower, dateLabel)(kept[i]);
    }
  }

  /** An empty search keeps every saved quiz (lower-casing maps the empty
      string to itself), so the list is all quizzes, newest first. */
  lemma EmptySearchKeepsAll(saved: Option<seq<SavedQuiz>>, lower: string -> string, dateLabel: int -> string)
    requires lower("") == ""
    ensures FilteredQuizzes(saved, "", lower, dateLabel) == SortBy(Elements(saved), NewestFirstKey)
    ensures |FilteredQuizzes(saved, "", lower, dateLabel)| == |Elements(saved)|
  {
    var all := Elements(saved);
    forall i | 0 <= i < |all| ensures SearchFn("", lower, dateLabel)(all[i]) {
      assert StartsWith(lower(DisplayName(all[i], dateLabel)), "");
    }
    FilterKeepsAll(all, SearchFn("", lower, dateLabel));
    assert |multiset(SortBy(all, NewestFirstKey))| == |multiset(all)|;
  }

  /** A missing list shows no cards, whatever the search. */
  lemma MissingListIsEmpty(term: string, lower: string -> string, dateLabel: int -> string)
    ensures FilteredQuizzes(None, term, lower, dateLabel) == []
  {
  }

  /** A search matches exactly when the lower-cased term occurs at some
      position of the lower-cased display name. */
  lemma MatchesSearchIff(q: SavedQuiz, term: string, lower: string -> string, dateLabel: int -> string)
    ensures MatchesSearch(q, term, lower, dateLabel) <==>
            exists i :: OccursAt(lower(DisplayName(q, dateLabel)), lower(term), i)
  {
    ContainsIff(lower(DisplayName(q, dateLabel)), lower(term));
  }

  /** Quizzes saved at the same instant stay in their stored order. */
  lemma FilteredQuizzesStable(saved: Option<seq<SavedQuiz>>, term: string,
                              lower: string -> string, dateLabel: int -> string, t: int)
    ensures Filter(FilteredQuizzes(saved, term, lower, dateLabel), HasKey(NewestFirstKey, -t)) ==
            Filter(Kept(saved, term, lower, dateLabel), HasKey(NewestFirstKey, -t))
  {
    SortStable(Kept(saved, term, lower, dateLabel), NewestFirstKey, -t);
  }
}
