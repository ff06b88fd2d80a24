/** The question-chain dialog of `components/question-chain.tsx`: it loads the
    chain of one root question, offers the alternating type of the next item,
    appends a logged-in user's text through `saveChain`, and displays the root
    followed by the chain with levels renumbered from 1. */
module QuestionChain {
  import opened Wrappers
  import opened Text
  import opened Storage

  /** The `rootQuestion` prop. */
  datatype RootQuestion = RootQuestion(id: int, title: string, category: string, author: string, time: string)

  /** The type offered for the next item: an answer first, then the opposite
      of whatever the chain ends with. */
  function NextType(chain: seq<ChainItem>): (t: ItemType)
    ensures chain == [] ==> t == AnswerType
    ensures chain != [] ==> t != chain[|chain| - 1].kind
  {
    if chain == [] then AnswerType
    else if chain[|chain| - 1].kind == QuestionType then AnswerType
    else QuestionType
  }

  /** A chain built only through this dialog: answers at even positions,
      follow-up questions at odd ones. */
  ghost predicate Alternates(chain: seq<ChainItem>)
  {
    forall i :: 0 <= i < |chain| ==> chain[i].kind == if i % 2 == 0 then AnswerType else QuestionType
  }

  /** On an alternating chain the offered type depends only on its length. */
  lemma NextTypeByParity(chain: seq<ChainItem>)
    requires Alternates(chain)
    ensures NextType(chain) == if |chain| % 2 == 0 then AnswerType else QuestionType
  {
    if chain != [] {
      var n := |chain| - 1;
      assert chain[n].kind == if n % 2 == 0 then AnswerType else QuestionType;
    }
  }

  /** Appending an item of the offered type keeps the chain alternating. */
  lemma {:induction false} AppendNextTypeAlternates(chain: seq<ChainItem>, item: ChainItem)
    requires Alternates(chain) && item.kind == NextType(chain)
    ensures Alternates(chain + [item])
  {
    NextTypeByParity(chain);
    var c := chain + [item];
    forall i | 0 <= i < |c|
      ensures c[i].kind == if i % 2 == 0 then AnswerType else QuestionType
    {
      if i < |chain| {
        assert c[i] == chain[i];
      }
    }
  }

  /** The root question shown as the head of the chain. */
  function RootItem(root: RootQuestion): ChainItem
  {
    ChainItem(root.id, 0, root.title, root.author, root.time, 0, 0, QuestionType)
  }

  /** `fullChain`: the root at level 0, then every chain item with its level
      replaced by its position counted from 1. */
  function FullChain(root: RootQuestion, chain: seq<ChainItem>): (r: seq<ChainItem>)
    ensures |r| == |chain| + 1
    ensures r[0].id == root.id && r[0].text == root.title && r[0].author == root.author
    ensures r[0].kind == QuestionType && r[0].parentId == 0 && r[0].createdAt == 0 && r[0].time == root.time
    ensures forall i :: 0 <= i < |r| ==> r[i].level == i
    ensures forall i :: 1 <= i < |r| ==> r[i] == chain[i - 1].(level := i)
  {
    [RootItem(root)] + seq(|chain|, i requires 0 <= i < |chain| => chain[i].(level := i + 1))
  }

  /** An item stored with `level: chain.length` is displayed one level deeper
      than it was stored, because the root occupies level 0. */
  lemma DisplayedLevelIsStoredPlusOne(root: RootQuestion, chain: seq<ChainItem>)
    requires forall i :: 0 <= i < |chain| ==> chain[i].level == i
    ensures var r := FullChain(root, chain);
      forall i :: 1 <= i < |r| ==> r[i].level == chain[i - 1].level + 1 && r[i].text == chain[i - 1].text
  {
  }

  /** The "N개 연결" badge and the stored `chainCount` agree right after a
      recount: both count the root plus the chain. */
  lemma BadgeMatchesChainCount(root: RootQuestion, qs: seq<Question>, all: seq<ChainItem>)
    ensures var r := RecountChain(qs, all, root.id);
      forall i :: 0 <= i < |r| && r[i].id == root.id ==>
        r[i].chainCount == |FullChain(root, GetChains(all, root.id))|
  {
  }

  /** What the view appends after a save keeps it alternating and, when it
      mirrored the store before, keeps it equal to `getChains`. */
  lemma AppendKeepsView(all: seq<ChainItem>, chain: seq<ChainItem>, item: ChainItem, offered: ItemType, rootId: int)
    requires item.kind == offered && offered == NextType(chain) && item.parentId == rootId
    ensures Alternates(chain) ==> Alternates(chain + [item])
    ensures chain == GetChains(all, rootId) && (forall c :: c in all ==> c.createdAt <= item.createdAt)
            ==> chain + [item] == GetChains(all + [item], rootId)
  {
    if Alternates(chain) {
      AppendNextTypeAlternates(chain, item);
    }
    if forall c :: c in all ==> c.createdAt <= item.createdAt {
      NewItemListedLast(all, item);
    }
  }

  /** The dialog's state. `nextType` is kept in step with `chain` by the
      second effect, which every method here runs after changing `chain`. */
  class ChainView {
    const root: RootQuestion
    var chain: seq<ChainItem>
    var newText: string
    var showAddForm: bool
    var nextType: ItemType

    ghost predicate Valid()
      reads this
    {
      nextType == NextType(chain)
    }

    constructor (root: RootQuestion)
      ensures this.root == root && chain == [] && newText == "" && !showAddForm
      ensures nextType == AnswerType && Valid()
    {
      this.root := root;
      chain, newText, showAddForm, nextType := [], "", false, AnswerType;
    }

    /** The `nextType` effect. */
    method SyncNextType()
      modifies this`nextType
      ensures Valid()
    {
      if |chain| == 0 {
        nextType := AnswerType;
      } else {
        var last := chain[|chain| - 1];
        nextType := if last.kind == QuestionType then AnswerType else QuestionType;
      }
    }

    /** The loading effect: the root's chain as `getChains` returns it. */
    method Load(store: Store)
      modifies this`chain, this`nextType
      ensures chain == GetChains(store.chains, root.id)
      ensures Valid()
    {
      chain := GetChains(store.chains, root.id);
      SyncNextType();
    }

    /** The text area's `onChange`. */
    method SetNewText(text: string)
      modifies this`newText
      ensures newText == text
    {
      newText := text;
    }

    /** The add and cancel buttons. */
    method SetShowAddForm(show: bool)
      modifies this`showAddForm
      ensures showAddForm == show
    {
      showAddForm := show;
    }

    /** `handleAddItem`: a non-blank text from a logged-in user is saved with
        the trimmed text, the user's display name, the label for "now", the
        current chain length as level and the offered type; the item is
        appended to the view and the form is closed and cleared. Anything
        else changes nothing. */
    method HandleAddItem(store: Store, user: Option<User>, now: int)
      requires Valid()
      modifies this`chain, this`nextType, this`newText, this`showAddForm, store`chains, store`questions
      ensures Valid()
      ensures !(Trim(old(newText)) != "" && user.Some?) ==>
        chain == old(chain) && newText == old(newText) && showAddForm == old(showAddForm)
        && store.chains == old(store.chains) && store.questions == old(store.questions)
      ensures Trim(old(newText)) != "" && user.Some? ==>
        |chain| == |old(chain)| + 1 && chain[..|old(chain)|] == old(chain)
        && chain[|old(chain)|]
           == NewChainItem(ChainDraft(root.id, Trim(old(newText)), user.value.displayName, JustNow,
                                      |old(chain)|, old(nextType)), now)
        && store.chains == old(store.chains) + [chain[|old(chain)|]]
        && store.questions == RecountChain(old(store.questions), store.chains, root.id)
        && newText == "" && !showAddForm
      ensures Alternates(old(chain)) ==> Alternates(chain)
      ensures old(chain) == old(GetChains(store.chains, root.id))
              && (forall c :: c in old(store.chains) ==> c.createdAt <= now)
              ==> chain == GetChains(store.chains, root.id)
    {
      var text := Trim(newText);
      if text != "" && user.Some? {
        ghost var before := store.chains;
        ghost var oldChain := chain;
        var d := ChainDraft(root.id, text, user.value.displayName, FormatTimeAgo(now, now), |chain|, nextType);
        var item := store.SaveChain(d, now);
        AppendKeepsView(before, oldChain, item, nextType, root.id);
        chain := chain + [item];
        newText := "";
        showAddForm := false;
        SyncNextType();
      }
    }
  }
}
