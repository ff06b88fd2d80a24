/** The activity lists of `app/profile/page.tsx`: the user's questions and
    the chain items they wrote, both found by comparing the `author` string
    with the user's current display name. */
module ProfilePage {
  import opened Wrappers
  import opened Seqs
  import opened Storage

  /** The filter predicate `q => q.author === displayName`. */
  function AskedBy(name: string): Question -> bool
  {
    (q: Question) => q.author == name
  }

  /** The filter predicate `chain => chain.author === displayName`. */
  function WrittenBy(name: string): ChainItem -> bool
  {
    (c: ChainItem) => c.author == name
  }

  /** `userQuestions`: the stored questions by that author, in stored order. */
  function UserQuestions(qs: seq<Question>, name: string): (r: seq<Question>)
    ensures forall q :: q in r <==> q in qs && q.author == name
    ensures forall q {:trigger multiset(r)[q]} :: multiset(r)[q] == if q.author == name then multiset(qs)[q] else 0
    ensures IsSubsequence(r, qs)
  {
    FilterIsSubsequence(qs, AskedBy(name));
    Filter(qs, AskedBy(name))
  }

  /** The author's items in one question's chain, oldest first. */
  function AnswersUnder(all: seq<ChainItem>, questionId: int, name: string): seq<ChainItem>
  {
    Filter(GetChains(all, questionId), WrittenBy(name))
  }

  /** `userAnswers`: question by question in stored order, that question's
      items by the author, concatenated. */
  function UserAnswers(qs: seq<Question>, all: seq<ChainItem>, name: string): seq<ChainItem>
  {
    if qs == [] then []
    else UserAnswers(qs[..|qs| - 1], all, name) + AnswersUnder(all, qs[|qs| - 1].id, name)
  }

  /** Some stored question is the item's parent. */
  predicate HasStoredParent(qs: seq<Question>, c: ChainItem)
  {
    exists q :: q in qs && q.id == c.parentId
  }

  lemma AnswersUnderMembership(all: seq<ChainItem>, questionId: int, name: string, c: ChainItem)
    ensures c in AnswersUnder(all, questionId, name) <==> c in all && c.author == name && c.parentId == questionId
  {
  }

  lemma HasStoredParentSnoc(qs: seq<Question>, c: ChainItem)
    requires qs != []
    ensures HasStoredParent(qs, c) <==> HasStoredParent(qs[..|qs| - 1], c) || qs[|qs| - 1].id == c.parentId
  {
    var init := qs[..|qs| - 1];
    if HasStoredParent(init, c) {
      var q :| q in init && q.id == c.parentId;
      assert q in qs;
    }
    if HasStoredParent(qs, c) {
      var q :| q in qs && q.id == c.parentId;
      var k :| 0 <= k < |qs| && qs[k] == q;
      if k < |qs| - 1 {
        assert init[k] == q;
      }
    }
  }

  /** An item is listed exactly when it is stored, has that author, and hangs
      under some stored question, whatever its type: items whose parent is
      not stored never appear. */
  lemma {:induction false} UserAnswersMembership(qs: seq<Question>, all: seq<ChainItem>, name: string, c: ChainItem)
    ensures c in UserAnswers(qs, all, name) <==> c in all && c.author == name && HasStoredParent(qs, c)
  {
    if qs != [] {
      var init := qs[..|qs| - 1];
      var last := qs[|qs| - 1];
      var front := UserAnswers(init, all, name);
      var back := AnswersUnder(all, last.id, name);
      assert UserAnswers(qs, all, name) == front + back;
      assert c in front + back <==> c in front || c in back;
      UserAnswersMembership(init, all, name, c);
      AnswersUnderMembership(all, last.id, name, c);
      HasStoredParentSnoc(qs, c);
    }
  }

  /** `userAnswers` built as the page does, with a loop that pushes each
      question's items onto the list. */
  method CollectUserAnswers(qs: seq<Question>, all: seq<ChainItem>, name: string) returns (answers: seq<ChainItem>)
    ensures answers == UserAnswers(qs, all, name)
  {
    answers := [];
    var i := 0;
    while i < |qs|
      invariant 0 <= i <= |qs|
      invariant answers == UserAnswers(qs[..i], all, name)
    {
      var chains := GetChains(all, qs[i].id);
      var mine := Filter(chains, WrittenBy(name));
      assert qs[..i + 1][..i] == qs[..i];
      answers := answers + mine;
      i := i + 1;
    }
    assert qs[..|qs|] == qs;
  }

  /** Attribution goes by the name string: after a rename, nothing posted
      under the old name is listed for the new one. */
  lemma RenameLosesAttribution(qs: seq<Question>, all: seq<ChainItem>, oldName: string, newName: string)
    requires oldName != newName
    ensures forall q :: q in qs && q.author == oldName ==> q !in UserQuestions(qs, newName)
    ensures forall c :: c in all && c.author == oldName ==> c !in UserAnswers(qs, all, newName)
  {
    forall c | c in all && c.author == oldName
      ensures c !in UserAnswers(qs, all, newName)
    {
      UserAnswersMembership(qs, all, newName, c);
    }
  }

  /** The page's two lists. */
  class ProfileView {
    var userQuestions: seq<Question>
    var userAnswers: seq<ChainItem>

    constructor ()
      ensures userQuestions == [] && userAnswers == []
    {
      userQuestions, userAnswers := [], [];
    }

    /** The effect: for a logged-in user, both lists are recomputed from the
        store under the user's display name. */
    method Refresh(store: Store, user: Option<User>)
      modifies this
      ensures user.Some? ==> userQuestions == UserQuestions(store.questions, user.value.displayName)
      ensures user.Some? ==> userAnswers == UserAnswers(store.questions, store.chains, user.value.displayName)
      ensures user.None? ==> userQuestions == old(userQuestions) && userAnswers == old(userAnswers)
    {
      if user.Some? {
        var name := user.value.displayName;
        userQuestions := UserQuestions(store.questions, name);
        userAnswers := CollectUserAnswers(store.questions, store.chains, name);
      }
    }
  }
}
