/** The feed page of `app/page.tsx`: fixed pages of three questions over
    `filteredQuestions`, the guarded page change, and the anonymous
    new-question handler. */
module HomePage {
  import opened Wrappers
  import opened Storage
  import opened UseQuestions
  import opened Text

  const QuestionsPerPage: nat := 3

  /** The author every question posted from the feed carries. */
  const AnonymousAuthor: string := "익명사용자"

  /** `Math.ceil(n / 3)`: the fewest pages of three that hold `n` questions. */
  function TotalPages(n: nat): (p: nat)
    ensures p * QuestionsPerPage >= n
    ensures p == 0 || (p - 1) * QuestionsPerPage < n
  {
    (n + QuestionsPerPage - 1) / QuestionsPerPage
  }

  /** `filteredQuestions.slice((page - 1) * 3, page * 3)`: page `page`
      counted from 1, clamped to the list. */
  function CurrentQuestions(fq: seq<Question>, page: int): (r: seq<Question>)
    requires page >= 1
    ensures |r| <= QuestionsPerPage
    ensures r == [] || (page - 1) * QuestionsPerPage + |r| <= |fq|
    ensures forall i :: 0 <= i < |r| ==> r[i] == fq[(page - 1) * QuestionsPerPage + i]
    ensures (page - 1) * QuestionsPerPage < |fq| ==>
      |r| == if page * QuestionsPerPage <= |fq| then QuestionsPerPage else |fq| - (page - 1) * QuestionsPerPage
    ensures page <= TotalPages(|fq|) <==> r != []
  {
    var start := (page - 1) * QuestionsPerPage;
    var end := page * QuestionsPerPage;
    if start >= |fq| then []
    else if end <= |fq| then fq[start..end]
    else fq[start..]
  }

  /** Pages 1 to `k`, one after the other. */
  function PagesUpTo(fq: seq<Question>, k: nat): seq<Question>
  {
    if k == 0 then [] else PagesUpTo(fq, k - 1) + CurrentQuestions(fq, k)
  }

  lemma {:induction false} PagesUpToIsPrefix(fq: seq<Question>, k: nat)
    ensures PagesUpTo(fq, k) == fq[..if k * QuestionsPerPage <= |fq| then k * QuestionsPerPage else |fq|]
  {
    if k > 0 {
      PagesUpToIsPrefix(fq, k - 1);
      var a := if (k - 1) * QuestionsPerPage <= |fq| then (k - 1) * QuestionsPerPage else |fq|;
      var b := if k * QuestionsPerPage <= |fq| then k * QuestionsPerPage else |fq|;
      assert fq[..b] == fq[..a] + fq[a..b];
    }
  }

  /** Paging loses and repeats nothing: the pages, read in order, are the
      filtered list. */
  lemma PagesCoverList(fq: seq<Question>)
    ensures PagesUpTo(fq, TotalPages(|fq|)) == fq
  {
    PagesUpToIsPrefix(fq, TotalPages(|fq|));
  }

  /** The pagination controls appear only when `totalPages > 1`, that is when
      there are more than three questions. */
  predicate ShowPagination(n: nat)
  {
    TotalPages(n) > 1
  }

  lemma ShowPaginationIffMoreThanOnePage(n: nat)
    ensures ShowPagination(n) <==> n > QuestionsPerPage
  {
  }

  /** The page's own state, besides the hooks. `currentPage` starts at 1 and
      only the guarded change writes it, so it never drops below 1. It is
      not reset when the filtered list shrinks. */
  class HomeView {
    var currentPage: int
    var showQuestionForm: bool
    var prefilledQuestion: Option<(string, string)>

    ghost predicate Valid()
      reads this
    {
      currentPage >= 1
    }

    constructor ()
      ensures Valid() && currentPage == 1 && !showQuestionForm && prefilledQuestion == None
    {
      currentPage, showQuestionForm, prefilledQuestion := 1, false, None;
    }

    /** The questions shown on the current page. */
    function Shown(hook: QuestionsHook, store: Store): seq<Question>
      requires Valid()
      reads this, hook, store
    {
      CurrentQuestions(hook.Filtered(store), currentPage)
    }

    /** `handlePageChange`: moves only to an existing page. */
    method HandlePageChange(page: int, filteredCount: nat)
      requires Valid()
      modifies this`currentPage
      ensures Valid()
      ensures currentPage == if 1 <= page <= TotalPages(filteredCount) then page else old(currentPage)
    {
      if page >= 1 && page <= TotalPages(filteredCount) {
        currentPage := page;
      }
    }

    /** `handleNewQuestion`: always posts anonymously with the "just now"
        label, whoever is logged in, then closes the form and drops the
        prefill. */
    method HandleNewQuestion(hook: QuestionsHook, store: Store, text: string, category: string, now: int)
      modifies this`showQuestionForm, this`prefilledQuestion, hook`questions, store`questions
      ensures var q := NewQuestion(QuestionDraft(text, category, AnonymousAuthor, JustNow, None), now);
        store.questions == [q] + old(store.questions) && hook.questions == [q] + old(hook.questions)
      ensures !showQuestionForm && prefilledQuestion == None
      ensures currentPage == old(currentPage)
    {
      var _ := hook.AddQuestion(store, QuestionDraft(text, category, AnonymousAuthor, JustNow, None), now);
      showQuestionForm := false;
      prefilledQuestion := None;
    }

    /** `handleQuestionSelect`: clears the hook's query and category so the
        selected question is in the list, then scrolls to it. */
    method HandleQuestionSelect(hook: QuestionsHook)
      modifies hook`searchQuery, hook`selectedCategory
      ensures hook.searchQuery == "" && hook.selectedCategory == None
    {
      hook.FilterByCategory(None);
      hook.SearchQuestions("");
    }

    /** `handleLogoClick`: clears the hook's query and category, then
        `resetState` closes the form and drops the prefill. The page number
        is kept. */
    method HandleLogoClick(hook: QuestionsHook)
      modifies this`showQuestionForm, this`prefilledQuestion, hook`searchQuery, hook`selectedCategory
      ensures hook.searchQuery == "" && hook.selectedCategory == None
      ensures !showQuestionForm && prefilledQuestion == None
      ensures currentPage == old(currentPage)
    {
      hook.SearchQuestions("");
      hook.FilterByCategory(None);
      showQuestionForm := false;
      prefilledQuestion := None;
    }
  }

  /** Once the debounce has caught up with a cleared query and category, the
      feed lists the hook's whole list again. */
  lemma ClearedFiltersShowAll(questions: seq<Question>, stored: seq<Question>)
    ensures FilteredQuestions(questions, stored, None, "") == questions
  {
    TrimEmptyIffBlank("");
  }
}
