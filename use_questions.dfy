/** The `useQuestions` hook of `hooks/use-questions.ts`: the in-memory
    question list loaded from the store, the search query and its debounced
    copy, the selected category, and the memoised `filteredQuestions` that
    combines them. */
module UseQuestions {
  import opened Wrappers
  import opened Seqs
  import opened Text
  import opened Storage

  /** The second filter of the query branch:
      `q => selectedCategory ? q.category === selectedCategory : true`. */
  function SelectedOnly(selected: Option<string>): Question -> bool
  {
    (q: Question) => !IsSetCategory(selected) || q.category == selected.value
  }

  /** Both filters of the query branch as one predicate. */
  function SearchedAndSelected(query: string, selected: Option<string>): Question -> bool
  {
    (q: Question) => MatchesQuery(q, query) && (!IsSetCategory(selected) || q.category == selected.value)
  }

  /** `filteredQuestions` over the hook's list, the stored list, the selected
      category and the debounced query. */
  function FilteredQuestions(questions: seq<Question>, stored: seq<Question>, selected: Option<string>,
                             query: string): (r: seq<Question>)
    ensures Trim(query) == "" && !IsSetCategory(selected) ==> r == questions
    ensures Trim(query) == "" && IsSetCategory(selected) ==> r == QuestionsByCategory(stored, selected)
    ensures Trim(query) != "" ==>
      forall q :: q in r <==> q in stored && MatchesQuery(q, query)
                              && (IsSetCategory(selected) ==> q.category == selected.value)
    ensures Trim(query) != "" ==> IsSubsequence(r, stored)
    ensures Trim(query) != "" ==>
      forall q {:trigger multiset(r)[q]} :: multiset(r)[q] ==
        if MatchesQuery(q, query) && (IsSetCategory(selected) ==> q.category == selected.value)
        then multiset(stored)[q] else 0
  {
    var filtered := if IsSetCategory(selected) then QuestionsByCategory(stored, selected) else questions;
    if Trim(query) != "" then
      FilterFilter(stored, Matching(query), SelectedOnly(selected), SearchedAndSelected(query, selected));
      FilterIsSubsequence(stored, SearchedAndSelected(query, selected));
      Filter(SearchQuestions(stored, query), SelectedOnly(selected))
    else filtered
  }

  /** The "전체" sentinel shows everything while the query is blank, but in
      the query branch it is compared literally, so when no question carries
      that category the search finds nothing. */
  lemma AllSentinelIgnoredBySearch(questions: seq<Question>, stored: seq<Question>, query: string)
    requires forall q :: q in stored ==> q.category != AllCategory
    ensures Trim(query) == "" ==> FilteredQuestions(questions, stored, Some(AllCategory), query) == stored
    ensures Trim(query) != "" ==> FilteredQuestions(questions, stored, Some(AllCategory), query) == []
  {
    if Trim(query) != "" {
      var sel := Some(AllCategory);
      FilterFilter(stored, Matching(query), SelectedOnly(sel), SearchedAndSelected(query, sel));
      FilterNone(stored, SearchedAndSelected(query, sel));
    }
  }

  /** A query of spaces only counts as no query at all. */
  lemma WhitespaceQueryIsNoQuery(questions: seq<Question>, stored: seq<Question>, selected: Option<string>,
                                 query: string)
    requires AllWhitespace(query)
    ensures FilteredQuestions(questions, stored, selected, query) == FilteredQuestions(questions, stored, selected, "")
  {
    TrimEmptyIffBlank(query);
    TrimEmptyIffBlank("");
  }

  /** The hook's state. The debounced query is a separate field that
      `SettleDebounce` brings up to date when the 300 ms timer fires. */
  class QuestionsHook {
    var questions: seq<Question>
    var loading: bool
    var error: Option<string>
    var searchQuery: string
    var debouncedSearchQuery: string
    var selectedCategory: Option<string>

    constructor ()
      ensures questions == [] && loading && error == None
      ensures searchQuery == "" && debouncedSearchQuery == "" && selectedCategory == None
    {
      questions, loading, error := [], true, None;
      searchQuery, debouncedSearchQuery, selectedCategory := "", "", None;
    }

    /** The memoised `filteredQuestions` of the current state. */
    function Filtered(store: Store): seq<Question>
      reads this, store
    {
      FilteredQuestions(questions, store.questions, selectedCategory, debouncedSearchQuery)
    }

    /** `loadQuestions`: seeds an empty store, then mirrors the stored list. */
    method LoadQuestions(store: Store, now: int)
      modifies this`questions, this`loading, this`error, store`questions
      ensures store.questions == if old(store.questions) == [] then DefaultQuestions(now) else old(store.questions)
      ensures questions == store.questions
      ensures !loading && error == None
    {
      loading := true;
      error := None;
      store.InitializeDefaultData(now);
      questions := store.questions;
      loading := false;
    }

    /** `addQuestion`: stores the question and puts the stored record in
        front of the hook's list, so a list that mirrored the store still
        does. */
    method AddQuestion(store: Store, d: QuestionDraft, now: int) returns (q: Question)
      modifies this`questions, store`questions
      ensures q == NewQuestion(d, now)
      ensures store.questions == [q] + old(store.questions)
      ensures questions == [q] + old(questions)
      ensures old(questions) == old(store.questions) ==> questions == store.questions
    {
      q := store.AddQuestion(d, now);
      questions := [q] + questions;
    }

    /** `searchQuestions`: only records the query. */
    method SearchQuestions(query: string)
      modifies this`searchQuery
      ensures searchQuery == query
    {
      searchQuery := query;
    }

    /** `filterByCategory`: only records the category. */
    method FilterByCategory(category: Option<string>)
      modifies this`selectedCategory
      ensures selectedCategory == category
    {
      selectedCategory := category;
    }

    /** The debounce timer firing. */
    method SettleDebounce()
      modifies this`debouncedSearchQuery
      ensures debouncedSearchQuery == searchQuery
    {
      debouncedSearchQuery := searchQuery;
    }
  }
}
