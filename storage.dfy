/** The client-side content store of `lib/storage.ts`: four persisted
    collections (questions newest-first, the flat append-only chain-item list,
    users, and the optional logged-in session), the mutators that rewrite
    them, and the pure queries the pages derive their views from.

    The browser's key-value storage becomes the fields of class `Store`;
    `Date.now()` becomes the parameter `now`. */
module Storage {
  import opened Wrappers
  import opened Seqs
  import opened Text

  // ---------------------------------------------------------------------------
  // Records
  // ---------------------------------------------------------------------------

  /** The `type` tag of a chain item: a follow-up "question" or an "answer". */
  datatype ItemType = QuestionType | AnswerType

  datatype Question = Question(
    id: int,
    title: string,
    category: string,
    author: string,
    time: string,
    chainCount: int,
    lastQuestion: Option<string>,
    createdAt: int)

  datatype ChainItem = ChainItem(
    id: int,
    parentId: int,
    text: string,
    author: string,
    time: string,
    level: int,
    createdAt: int,
    kind: ItemType)

  datatype User = User(
    id: int,
    username: string,
    email: string,
    password: string,
    displayName: string,
    bio: Option<string>,
    joinedAt: int,
    avatar: Option<string>)

  /** The argument of `addQuestion`: a question without `id`, `createdAt`, `chainCount`. */
  datatype QuestionDraft = QuestionDraft(
    title: string, category: string, author: string, time: string, lastQuestion: Option<string>)

  /** The argument of `saveChain`: a chain item without `id` and `createdAt`. */
  datatype ChainDraft = ChainDraft(
    parentId: int, text: string, author: string, time: string, level: int, kind: ItemType)

  /** The argument of `registerUser`: a user without `id` and `joinedAt`. */
  datatype UserDraft = UserDraft(
    username: string, email: string, password: string, displayName: string,
    bio: Option<string>, avatar: Option<string>)

  const MsPerMinute: int := 1000 * 60
  const MsPerHour: int := 1000 * 60 * 60
  const MsPerDay: int := 1000 * 60 * 60 * 24

  /** The four fixed categories, in the order the statistics list them. */
  const Categories: seq<string> := ["정치", "개발", "철학", "일상"]

  /** The category-filter value that stands for "every category". */
  const AllCategory: string := "전체"

  // ---------------------------------------------------------------------------
  // Record construction
  // ---------------------------------------------------------------------------

  function NewQuestion(d: QuestionDraft, now: int): (q: Question)
    ensures q.id == now && q.createdAt == now && q.chainCount == 0
    ensures q.title == d.title && q.category == d.category && q.author == d.author
    ensures q.time == d.time && q.lastQuestion == d.lastQuestion
  {
    Question(now, d.title, d.category, d.author, d.time, 0, d.lastQuestion, now)
  }

  function NewChainItem(d: ChainDraft, now: int): (c: ChainItem)
    ensures c.id == now && c.createdAt == now
    ensures c.parentId == d.parentId && c.text == d.text && c.author == d.author
    ensures c.time == d.time && c.level == d.level && c.kind == d.kind
  {
    ChainItem(now, d.parentId, d.text, d.author, d.time, d.level, now, d.kind)
  }

  function NewUser(d: UserDraft, now: int): (u: User)
    ensures u.id == now && u.joinedAt == now
    ensures u.username == d.username && u.email == d.email && u.password == d.password
    ensures u.displayName == d.displayName && u.bio == d.bio && u.avatar == d.avatar
  {
    User(now, d.username, d.email, d.password, d.displayName, d.bio, now, d.avatar)
  }

  // ---------------------------------------------------------------------------
  // Chains
  // ---------------------------------------------------------------------------

  function CreatedAtKey(c: ChainItem): int
  {
    c.createdAt
  }

  /** The filter predicate `chain => chain.parentId === parentId`. */
  function ParentIs(parentId: int): ChainItem -> bool
  {
    (c: ChainItem) => c.parentId == parentId
  }

  /** The flat chain list restricted to one parent, in stored order. */
  function ChildrenOf(all: seq<ChainItem>, parentId: int): (r: seq<ChainItem>)
    ensures forall c :: c in r <==> c in all && c.parentId == parentId
  {
    Filter(all, ParentIs(parentId))
  }

  /** `getChains(parentId)`: the chain items of `parentId`, ascending by
      `createdAt`, items created at the same instant in stored order. */
  function GetChains(all: seq<ChainItem>, parentId: int): (r: seq<ChainItem>)
    ensures forall c :: c in r <==> c in all && c.parentId == parentId
    ensures multiset(r) == multiset(ChildrenOf(all, parentId))
    ensures forall i, j :: 0 <= i < j < |r| ==> r[i].createdAt <= r[j].createdAt
    ensures forall t :: WithKey(r, CreatedAtKey, t) == WithKey(ChildrenOf(all, parentId), CreatedAtKey, t)
  {
    var children := ChildrenOf(all, parentId);
    var r := SortByKey(children, CreatedAtKey);
    assert forall c :: c in r <==> c in multiset(children);
    assert forall t :: WithKey(r, CreatedAtKey, t) == WithKey(children, CreatedAtKey, t) by {
      forall t ensures WithKey(r, CreatedAtKey, t) == WithKey(children, CreatedAtKey, t) {
        SortByKeyStable(children, CreatedAtKey, t);
      }
    }
    r
  }

  /** Appending an item for `parentId` that is no older than any stored item
      puts it last in `getChains(parentId)` and leaves the others in place. */
  lemma NewItemListedLast(all: seq<ChainItem>, item: ChainItem)
    requires forall c :: c in all ==> c.createdAt <= item.createdAt
    ensures GetChains(all + [item], item.parentId) == GetChains(all, item.parentId) + [item]
  {
    ChildrenAfterAppend(all, item, item.parentId);
    SortByKeyAppendMax(ChildrenOf(all, item.parentId), item, CreatedAtKey);
  }

  /** Appending to the flat list extends the parent's own items by that item
      alone. */
  lemma ChildrenAfterAppend(all: seq<ChainItem>, item: ChainItem, parentId: int)
    ensures ChildrenOf(all + [item], parentId)
         == ChildrenOf(all, parentId) + (if item.parentId == parentId then [item] else [])
  {
    var p := ParentIs(parentId);
    FilterAppend(all, [item], p);
    assert Filter([item], p) == if item.parentId == parentId then [item] else [];
  }

  /** Appending an item to any parent adds exactly one entry to that parent's
      chain and leaves every other parent's chain as it was. */
  lemma AppendChainLength(all: seq<ChainItem>, item: ChainItem, parentId: int)
    ensures |GetChains(all + [item], parentId)|
         == |GetChains(all, parentId)| + (if item.parentId == parentId then 1 else 0)
    ensures item.parentId != parentId ==> GetChains(all + [item], parentId) == GetChains(all, parentId)
  {
    ChildrenAfterAppend(all, item, parentId);
    if item.parentId != parentId {
      assert ChildrenOf(all + [item], parentId) == ChildrenOf(all, parentId);
    }
  }

  /** `updateQuestionChainCount(questionId)`: every question with that id gets
      `chainCount` recomputed as its chain length plus one (the root). */
  function RecountChain(qs: seq<Question>, all: seq<ChainItem>, questionId: int): (r: seq<Question>)
    ensures |r| == |qs|
  {
    seq(|qs|, i requires 0 <= i < |qs| =>
      if qs[i].id == questionId then qs[i].(chainCount := |GetChains(all, questionId)| + 1) else qs[i])
  }

  /** What `saveChain` leaves in the question list: the matching questions
      count the whole chain including the new item; nothing else changes. */
  lemma RecountAfterAppend(qs: seq<Question>, all: seq<ChainItem>, item: ChainItem)
    ensures var r := RecountChain(qs, all + [item], item.parentId);
      forall i :: 0 <= i < |qs| ==>
        if qs[i].id == item.parentId then
          r[i] == qs[i].(chainCount := |GetChains(all, item.parentId)| + 2)
        else r[i] == qs[i]
  {
    AppendChainLength(all, item, item.parentId);
  }

  /** When a question's count already matched its chain, one append raises it
      by exactly one. */
  lemma RecountIncrementsConsistentCount(qs: seq<Question>, all: seq<ChainItem>, item: ChainItem, i: int)
    requires 0 <= i < |qs| && qs[i].id == item.parentId
    requires qs[i].chainCount == |GetChains(all, item.parentId)| + 1
    ensures RecountChain(qs, all + [item], item.parentId)[i].chainCount == qs[i].chainCount + 1
  {
    RecountAfterAppend(qs, all, item);
  }

  /** The count is recomputed, not incremented: a seeded question that claims
      five entries but has no stored chain drops to two on its first append. */
  lemma SeededCountIsOverwritten(now: int)
    ensures var q := DefaultQuestions(now)[0];
      var item := NewChainItem(ChainDraft(q.id, "답", "a", "방금 전", 0, AnswerType), now);
      q.chainCount == 5 && RecountChain([q], [item], q.id)[0].chainCount == 2
  {
    var q := DefaultQuestions(now)[0];
    var item := NewChainItem(ChainDraft(q.id, "답", "a", "방금 전", 0, AnswerType), now);
    AppendChainLength([], item, q.id);
    assert [] + [item] == [item];
  }

  /** With no question of that id the list is left as it was. */
  lemma RecountWithoutMatch(qs: seq<Question>, all: seq<ChainItem>, questionId: int)
    requires forall q :: q in qs ==> q.id != questionId
    ensures RecountChain(qs, all, questionId) == qs
  {
  }

  // ---------------------------------------------------------------------------
  // Question queries
  // ---------------------------------------------------------------------------

  /** The filter predicate `q => q.category === category`. */
  function CategoryIs(category: string): Question -> bool
  {
    (q: Question) => q.category == category
  }

  /** `questions.filter(q => q.category === category)`. */
  function OfCategory(qs: seq<Question>, category: string): (r: seq<Question>)
    ensures forall q :: q in r <==> q in qs && q.category == category
  {
    Filter(qs, CategoryIs(category))
  }

  /** A JavaScript category value is falsy when it is `null` or `""`. */
  predicate IsSetCategory(category: Option<string>)
  {
    category.Some? && category.value != ""
  }

  /** `getQuestionsByCategory(category)`: everything for no category or the
      "all" sentinel, otherwise the exact-match subsequence. */
  function QuestionsByCategory(qs: seq<Question>, category: Option<string>): (r: seq<Question>)
    ensures !IsSetCategory(category) || category.value == AllCategory ==> r == qs
    ensures IsSetCategory(category) && category.value != AllCategory ==>
      forall q :: q in r <==> q in qs && q.category == category.value
    ensures IsSubsequence(r, qs)
  {
    if !IsSetCategory(category) || category.value == AllCategory then
      IsSubsequenceRefl(qs);
      qs
    else
      FilterIsSubsequence(qs, CategoryIs(category.value));
      OfCategory(qs, category.value)
  }

  /** The case-insensitive match of `searchQuestions` against title,
      category and author. */
  predicate MatchesQuery(q: Question, query: string)
  {
    var lq := ToLower(query);
    Contains(ToLower(q.title), lq) || Contains(ToLower(q.category), lq) || Contains(ToLower(q.author), lq)
  }

  function Matching(query: string): Question -> bool
  {
    (q: Question) => MatchesQuery(q, query)
  }

  /** `searchQuestions(query)`: the matching questions, in stored order. */
  function SearchQuestions(qs: seq<Question>, query: string): (r: seq<Question>)
    ensures forall q :: q in r <==> q in qs && MatchesQuery(q, query)
    ensures forall q {:trigger multiset(r)[q]} :: multiset(r)[q] == if MatchesQuery(q, query) then multiset(qs)[q] else 0
    ensures IsSubsequence(r, qs)
  {
    FilterIsSubsequence(qs, Matching(query));
    Filter(qs, Matching(query))
  }

  /** An empty query matches every question. */
  lemma SearchEmptyQuery(qs: seq<Question>)
    ensures SearchQuestions(qs, "") == qs
  {
    forall q | q in qs ensures MatchesQuery(q, "") {
      ContainsEmpty(ToLower(q.title));
    }
    FilterAll(qs, Matching(""));
  }

  /** A query that matches nothing gives the empty list, never a missing one. */
  lemma SearchNoMatch(qs: seq<Question>, query: string)
    requires forall q :: q in qs ==> !MatchesQuery(q, query)
    ensures SearchQuestions(qs, query) == []
  {
    FilterNone(qs, Matching(query));
  }

  // ---------------------------------------------------------------------------
  // Category statistics
  // ---------------------------------------------------------------------------

  datatype CategoryStat = CategoryStat(name: string, count: nat)

  /** `getCategoryStats()`: one entry per fixed category, in fixed order. */
  function CategoryStats(qs: seq<Question>): (r: seq<CategoryStat>)
    ensures |r| == 4
    ensures forall i :: 0 <= i < 4 ==> r[i].name == Categories[i]
    ensures forall i :: 0 <= i < 4 ==> r[i].count <= |qs|
    ensures forall i :: 0 <= i < 4 ==> (r[i].count == 0 <==> forall q :: q in qs ==> q.category != Categories[i])
    ensures forall i :: 0 <= i < 4 ==> r[i].count == multiset(CategoriesOf(qs))[Categories[i]]
  {
    var r := seq(4, i requires 0 <= i < 4 => CategoryStat(Categories[i], |OfCategory(qs, Categories[i])|));
    forall i | 0 <= i < 4 ensures r[i].count == multiset(CategoriesOf(qs))[Categories[i]] {
      CountOfCategory(qs, Categories[i]);
    }
    assert forall i :: 0 <= i < 4 ==> (r[i].count == 0 <==> forall q :: q in qs ==> q.category != Categories[i]) by {
      forall i | 0 <= i < 4
        ensures r[i].count == 0 <==> forall q :: q in qs ==> q.category != Categories[i]
      {
        var f := OfCategory(qs, Categories[i]);
        if |f| != 0 {
          assert f[0] in f;
        }
      }
    }
    r
  }

  /** The category of every question, in stored order. */
  function CategoriesOf(qs: seq<Question>): (r: seq<string>)
    ensures |r| == |qs| && forall k :: 0 <= k < |qs| ==> r[k] == qs[k].category
  {
    seq(|qs|, k requires 0 <= k < |qs| => qs[k].category)
  }

  /** The number of questions of a category is the number of times that
      category occurs among the questions' categories. */
  lemma {:induction false} CountOfCategory(qs: seq<Question>, category: string)
    ensures |OfCategory(qs, category)| == multiset(CategoriesOf(qs))[category]
  {
    if qs != [] {
      CountOfCategory(qs[1..], category);
      FilterLengthCons(qs, CategoryIs(category));
      assert CategoriesOf(qs) == [qs[0].category] + CategoriesOf(qs[1..]);
    }
  }

  function Uncategorised(q: Question): bool
  {
    q.category !in Categories
  }

  /** The questions whose category is none of the four. */
  function UncategorisedQuestions(qs: seq<Question>): seq<Question>
  {
    Filter(qs, Uncategorised)
  }

  lemma FilterLengthCons<T(!new)>(s: seq<T>, p: T -> bool)
    requires s != []
    ensures |Filter(s, p)| == (if p(s[0]) then 1 else 0) + |Filter(s[1..], p)|
  {
  }

  /** Four distinct categories and "none of them" split any question list. */
  lemma {:induction false} CategoryPartition(qs: seq<Question>, c0: string, c1: string, c2: string, c3: string,
                                              other: Question -> bool)
    requires c0 != c1 && c0 != c2 && c0 != c3 && c1 != c2 && c1 != c3 && c2 != c3
    requires forall q :: other(q) <==> q.category != c0 && q.category != c1 && q.category != c2 && q.category != c3
    ensures |OfCategory(qs, c0)| + |OfCategory(qs, c1)| + |OfCategory(qs, c2)| + |OfCategory(qs, c3)|
      + |Filter(qs, other)| == |qs|
  {
    if qs != [] {
      CategoryPartition(qs[1..], c0, c1, c2, c3, other);
      FilterLengthCons(qs, CategoryIs(c0));
      FilterLengthCons(qs, CategoryIs(c1));
      FilterLengthCons(qs, CategoryIs(c2));
      FilterLengthCons(qs, CategoryIs(c3));
      FilterLengthCons(qs, other);
    }
  }

  /** The four counts and the uncategorised questions account for every
      question exactly once. */
  lemma CategoryStatsTotal(qs: seq<Question>)
    ensures var r := CategoryStats(qs);
      r[0].count + r[1].count + r[2].count + r[3].count + |UncategorisedQuestions(qs)| == |qs|
  {
    assert Categories[0][0] != Categories[1][0] && Categories[0][0] != Categories[2][0];
    assert Categories[0][0] != Categories[3][0] && Categories[1][0] != Categories[2][0];
    assert Categories[1][0] != Categories[3][0] && Categories[2][0] != Categories[3][0];
    CategoryPartition(qs, Categories[0], Categories[1], Categories[2], Categories[3], Uncategorised);
  }

  // ---------------------------------------------------------------------------
  // Trending
  // ---------------------------------------------------------------------------

  /** A question annotated with the score `getTrendingQuestions` sorts by. */
  datatype TrendingEntry = TrendingEntry(question: Question, popularityScore: int)

  /** `max(0, 7 - floor(age in days))`. */
  function RecencyScore(createdAt: int, now: int): (r: int)
    ensures r >= 0
    ensures r == 0 <==> now - createdAt >= 7 * MsPerDay
    ensures now - createdAt >= 0 ==> r <= 7
    ensures now - createdAt < 0 ==> r >= 8
    ensures 0 <= now - createdAt < MsPerDay ==> r == 7
    ensures now - createdAt < 7 * MsPerDay ==> r == 7 - (now - createdAt) / MsPerDay
  {
    var days := (now - createdAt) / MsPerDay;
    if 7 - days > 0 then 7 - days else 0
  }

  /** During day `d` of its age (counted from 0), for `d` below 7, a question
      scores `7 - d`: one point less per whole day. */
  lemma RecencyByDay(createdAt: int, now: int, d: int)
    requires 0 <= d < 7
    requires d * MsPerDay <= now - createdAt < (d + 1) * MsPerDay
    ensures RecencyScore(createdAt, now) == 7 - d
  {
    assert (now - createdAt) / MsPerDay == d;
  }

  /** A question created three days ago scores four. */
  lemma RecencyThreeDays(createdAt: int, now: int)
    requires 3 * MsPerDay <= now - createdAt < 4 * MsPerDay
    ensures RecencyScore(createdAt, now) == 4
  {
    RecencyByDay(createdAt, now, 3);
  }

  function PopularityScore(q: Question, now: int): int
  {
    q.chainCount * 2 + RecencyScore(q.createdAt, now)
  }

  function Scored(qs: seq<Question>, now: int): (r: seq<TrendingEntry>)
    ensures |r| == |qs|
    ensures forall i :: 0 <= i < |qs| ==> r[i] == TrendingEntry(qs[i], PopularityScore(qs[i], now))
  {
    seq(|qs|, i requires 0 <= i < |qs| => TrendingEntry(qs[i], PopularityScore(qs[i], now)))
  }

  /** The sort key of the comparator `b.popularityScore - a.popularityScore`. */
  function NegPopularity(e: TrendingEntry): int
  {
    -e.popularityScore
  }

  function SortedByPopularity(qs: seq<Question>, now: int): seq<TrendingEntry>
  {
    SortByKey(Scored(qs, now), NegPopularity)
  }

  /** `getTrendingQuestions()`: the four most popular questions, most popular
      first, ties in stored order. */
  function TrendingQuestions(qs: seq<Question>, now: int): (r: seq<TrendingEntry>)
    ensures |r| == if |qs| < 4 then |qs| else 4
    ensures forall i, j :: 0 <= i < j < |r| ==> r[i].popularityScore >= r[j].popularityScore
    ensures forall i :: 0 <= i < |r| ==> r[i] in Scored(qs, now)
    ensures forall i :: 0 <= i < |r| ==> r[i].popularityScore == PopularityScore(r[i].question, now)
    ensures forall e, i :: e in Scored(qs, now) && e !in r && 0 <= i < |r| ==> e.popularityScore <= r[i].popularityScore
  {
    TopByPopularity(qs, now);
    Take(SortedByPopularity(qs, now), 4)
  }

  lemma TopByPopularity(qs: seq<Question>, now: int)
    ensures var r := Take(SortedByPopularity(qs, now), 4);
      && (forall i, j :: 0 <= i < j < |r| ==> r[i].popularityScore >= r[j].popularityScore)
      && (forall i :: 0 <= i < |r| ==> r[i] in Scored(qs, now))
      && (forall e, i :: e in Scored(qs, now) && e !in r && 0 <= i < |r| ==> e.popularityScore <= r[i].popularityScore)
  {
    var s := SortedByPopularity(qs, now);
    assert forall e :: e in s <==> e in Scored(qs, now) by {
      assert forall e :: e in s <==> e in multiset(s);
    }
    TakeOfAscending(s, NegPopularity, 4);
  }

  /** Ties keep their stored order: the trending questions of any one score
      are the first ones of that score in stored order. */
  lemma TrendingTiesInStoredOrder(qs: seq<Question>, now: int, score: int)
    ensures WithKey(TrendingQuestions(qs, now), NegPopularity, -score)
         <= WithKey(Scored(qs, now), NegPopularity, -score)
  {
    TopByPopularityStable(qs, now, -score);
    assert TrendingQuestions(qs, now) == Take(SortedByPopularity(qs, now), 4);
  }

  lemma TopByPopularityStable(qs: seq<Question>, now: int, k: int)
    ensures WithKey(Take(SortedByPopularity(qs, now), 4), NegPopularity, k)
         <= WithKey(Scored(qs, now), NegPopularity, k)
  {
    SortByKeyStable(Scored(qs, now), NegPopularity, k);
    WithKeyTake(SortedByPopularity(qs, now), 4, NegPopularity, k);
  }

  // ---------------------------------------------------------------------------
  // Recent content
  // ---------------------------------------------------------------------------

  /** One row of the merged feed, before `createdAt` is projected away. */
  datatype TimedEntry = TimedEntry(kind: ItemType, content: string, time: string, author: string, createdAt: int)

  /** One row of `getRecentContent()`. */
  datatype RecentEntry = RecentEntry(kind: ItemType, content: string, time: string, author: string)

  /** A question as a row of the merged feed. */
  function QuestionEntry(q: Question): TimedEntry
  {
    TimedEntry(QuestionType, q.title, q.time, q.author, q.createdAt)
  }

  /** A chain item as a row of the merged feed: it keeps its own type. */
  function ChainEntry(c: ChainItem): TimedEntry
  {
    TimedEntry(c.kind, c.text, c.time, c.author, c.createdAt)
  }

  function QuestionEntries(qs: seq<Question>): (r: seq<TimedEntry>)
    ensures |r| == |qs|
    ensures forall i :: 0 <= i < |qs| ==> r[i] == QuestionEntry(qs[i])
  {
    seq(|qs|, i requires 0 <= i < |qs| => QuestionEntry(qs[i]))
  }

  function ChainEntries(all: seq<ChainItem>): (r: seq<TimedEntry>)
    ensures |r| == |all|
    ensures forall i :: 0 <= i < |all| ==> r[i] == ChainEntry(all[i])
  {
    seq(|all|, i requires 0 <= i < |all| => ChainEntry(all[i]))
  }

  function NegCreatedAt(e: TimedEntry): int
  {
    -e.createdAt
  }

  /** Every question as a "question" entry, followed by every chain item. */
  function Merged(qs: seq<Question>, all: seq<ChainItem>): (m: seq<TimedEntry>)
    ensures |m| == |qs| + |all|
    ensures m == QuestionEntries(qs) + ChainEntries(all)
  {
    QuestionEntries(qs) + ChainEntries(all)
  }

  /** The merged feed holds every question and every chain item. */
  lemma MergedHoldsAll(qs: seq<Question>, all: seq<ChainItem>)
    ensures forall q :: q in qs ==> QuestionEntry(q) in Merged(qs, all)
    ensures forall c :: c in all ==> ChainEntry(c) in Merged(qs, all)
  {
    var m := Merged(qs, all);
    forall q | q in qs ensures QuestionEntry(q) in m {
      var i :| 0 <= i < |qs| && qs[i] == q;
      assert m[i] == QuestionEntry(q);
    }
    forall c | c in all ensures ChainEntry(c) in m {
      var i :| 0 <= i < |all| && all[i] == c;
      assert m[|qs| + i] == ChainEntry(c);
    }
  }

  /** The five newest entries of questions and chain items together, newest
      first, entries of the same instant with questions before chain items. */
  function RecentTimed(qs: seq<Question>, all: seq<ChainItem>): (r: seq<TimedEntry>)
    ensures |r| == if |qs| + |all| < 5 then |qs| + |all| else 5
  {
    Take(SortByKey(Merged(qs, all), NegCreatedAt), 5)
  }

  /** The feed holds entries of the stored content, each at most as often as
      it is stored, newest first, and nothing left out of it is newer than
      anything in it. */
  lemma RecentTimedIsNewest(qs: seq<Question>, all: seq<ChainItem>)
    ensures var r := RecentTimed(qs, all);
      && (forall i, j :: 0 <= i < j < |r| ==> r[i].createdAt >= r[j].createdAt)
      && multiset(r) <= multiset(Merged(qs, all))
      && (forall e, i :: e in Merged(qs, all) && e !in r && 0 <= i < |r| ==> e.createdAt <= r[i].createdAt)
  {
    var merged := Merged(qs, all);
    var s := SortByKey(merged, NegCreatedAt);
    assert forall e :: e in s <==> e in merged by {
      assert forall e :: e in s <==> e in multiset(s);
    }
    TakeOfAscending(s, NegCreatedAt, 5);
    TakeMultiset(s, 5);
  }

  /** Entries of one instant keep their merged order: the shown entries
      created at `t` are the first ones created at `t` among the questions
      in stored order followed by the chain items in stored order. */
  lemma RecentTiesQuestionsFirst(qs: seq<Question>, all: seq<ChainItem>, t: int)
    ensures WithKey(RecentTimed(qs, all), NegCreatedAt, -t)
         <= WithKey(QuestionEntries(qs), NegCreatedAt, -t) + WithKey(ChainEntries(all), NegCreatedAt, -t)
  {
    SortedPrefixOfConcat(RecentTimed(qs, all), Merged(qs, all), QuestionEntries(qs), ChainEntries(all), 5,
                         NegCreatedAt, -t);
  }

  function Project(e: TimedEntry): RecentEntry
  {
    RecentEntry(e.kind, e.content, e.time, e.author)
  }

  /** `getRecentContent()`. */
  function RecentContent(qs: seq<Question>, all: seq<ChainItem>): (r: seq<RecentEntry>)
    ensures |r| <= 5 && |r| == |RecentTimed(qs, all)|
    ensures forall i :: 0 <= i < |r| ==> r[i] == Project(RecentTimed(qs, all)[i])
  {
    var t := RecentTimed(qs, all);
    seq(|t|, i requires 0 <= i < |t| => Project(t[i]))
  }

  // ---------------------------------------------------------------------------
  // Users
  // ---------------------------------------------------------------------------

  /** `users.some(user => user.email === email)`. */
  function EmailTaken(users: seq<User>, email: string): (b: bool)
    ensures b <==> exists u :: u in users && u.email == email
  {
    if users == [] then false
    else users[0].email == email || EmailTaken(users[1..], email)
  }

  /** `users.some(user => user.username === username)`. */
  function UsernameTaken(users: seq<User>, username: string): (b: bool)
    ensures b <==> exists u :: u in users && u.username == username
  {
    if users == [] then false
    else users[0].username == username || UsernameTaken(users[1..], username)
  }

  /** `checkUsernameAvailability(username)`. */
  function CheckUsernameAvailability(users: seq<User>, username: string): (available: bool)
    ensures available <==> forall u :: u in users ==> u.username != username
  {
    !UsernameTaken(users, username)
  }

  /** No two stored users share an email or a username. */
  ghost predicate DistinctAccounts(users: seq<User>)
  {
    forall i, j :: 0 <= i < j < |users| ==>
      users[i].email != users[j].email && users[i].username != users[j].username
  }

  predicate Credentials(u: User, email: string, password: string)
  {
    u.email == email && u.password == password
  }

  /** `users.find(u => u.email === email && u.password === password)`. */
  function FindLogin(users: seq<User>, email: string, password: string): (r: Option<User>)
    ensures r.None? <==> forall u :: u in users ==> !Credentials(u, email, password)
    ensures r.Some? ==> exists i :: (0 <= i < |users| && users[i] == r.value
      && Credentials(users[i], email, password)
      && forall j :: 0 <= j < i ==> !Credentials(users[j], email, password))
  {
    if users == [] then None
    else if Credentials(users[0], email, password) then Some(users[0])
    else
      var r := FindLogin(users[1..], email, password);
      if r.Some? then
        var i :| 0 <= i < |users[1..]| && users[1..][i] == r.value
          && Credentials(users[1..][i], email, password)
          && forall j :: 0 <= j < i ==> !Credentials(users[1..][j], email, password);
        assert users[i + 1] == r.value;
        r
      else r
  }

  /** `users.map(user => user.id === updated.id ? updated : user)`. */
  function ReplaceById(users: seq<User>, updated: User): (r: seq<User>)
    ensures |r| == |users|
    ensures forall i :: 0 <= i < |users| && users[i].id != updated.id ==> r[i] == users[i]
    ensures forall i :: 0 <= i < |users| && users[i].id == updated.id ==> r[i] == updated
  {
    seq(|users|, i requires 0 <= i < |users| => if users[i].id == updated.id then updated else users[i])
  }

  /** An update that keeps the email and username of the user it replaces
      keeps emails and usernames distinct. */
  /** Every stored record with the user's id has the user's e-mail and
      username: the copy being saved has not drifted from the store. */
  predicate KeysMatchStore(users: seq<User>, user: User)
  {
    forall v :: v in users && v.id == user.id ==> v.email == user.email && v.username == user.username
  }

  lemma ReplaceKeepsDistinct(users: seq<User>, updated: User)
    requires DistinctAccounts(users)
    requires KeysMatchStore(users, updated)
    ensures DistinctAccounts(ReplaceById(users, updated))
  {
    var r := ReplaceById(users, updated);
    forall i, j | 0 <= i < j < |r|
      ensures r[i].email != r[j].email && r[i].username != r[j].username
    {
      assert users[i] in users && users[j] in users;
    }
  }

  // ---------------------------------------------------------------------------
  // Relative time
  // ---------------------------------------------------------------------------

  const JustNow: string := "방금 전"
  const MinutesAgo: string := "분 전"
  const HoursAgo: string := "시간 전"
  const DaysAgo: string := "일 전"

  /** `formatTimeAgo(timestamp)` at instant `now`: "just now" exactly for
      ages under a minute, future timestamps included. */
  function FormatTimeAgo(timestamp: int, now: int): (r: string)
    ensures r == JustNow <==> now - timestamp < MsPerMinute
  {
    var diff := now - timestamp;
    var minutes := diff / MsPerMinute;
    var hours := diff / MsPerHour;
    var days := diff / MsPerDay;
    if minutes < 1 then JustNow
    else
      var r :=
        if minutes < 60 then NatToString(minutes) + MinutesAgo
        else if hours < 24 then NatToString(hours) + HoursAgo
        else NatToString(days) + DaysAgo;
      assert IsDigit(r[0]) && !IsDigit(JustNow[0]);
      r
  }

  /** Past the first minute the label is the truncated count of the largest
      unit that fits: minutes below an hour, hours below a day, then days. */
  lemma FormatTimeAgoBands(timestamp: int, now: int)
    ensures MsPerMinute <= now - timestamp < MsPerHour ==>
      1 <= (now - timestamp) / MsPerMinute < 60
      && FormatTimeAgo(timestamp, now) == NatToString((now - timestamp) / MsPerMinute) + MinutesAgo
    ensures MsPerHour <= now - timestamp < MsPerDay ==>
      1 <= (now - timestamp) / MsPerHour < 24
      && FormatTimeAgo(timestamp, now) == NatToString((now - timestamp) / MsPerHour) + HoursAgo
    ensures MsPerDay <= now - timestamp ==>
      1 <= (now - timestamp) / MsPerDay
      && FormatTimeAgo(timestamp, now) == NatToString((now - timestamp) / MsPerDay) + DaysAgo
  {
    var d := now - timestamp;
    if MsPerMinute <= d < MsPerHour {
      assert 1 <= d / MsPerMinute < 60;
    } else if MsPerHour <= d < MsPerDay {
      assert d / MsPerMinute >= 60;
      assert 1 <= d / MsPerHour < 24;
    } else if MsPerDay <= d {
      assert d / MsPerMinute >= 60;
      assert d / MsPerHour >= 24;
    }
  }

  /** Five minutes ago is "5 minutes ago". */
  lemma FormatTimeAgoFiveMinutes(now: int)
    ensures FormatTimeAgo(now - 5 * MsPerMinute, now) == "5분 전"
  {
    var t := now - 5 * MsPerMinute;
    FormatTimeAgoBands(t, now);
    assert (now - t) / MsPerMinute == 5;
    assert NatToString(5) == "5";
  }

  /** 59 minutes 59 seconds is still "59 minutes": truncated, not rounded up. */
  lemma FormatTimeAgoTruncatesMinutes(now: int)
    ensures FormatTimeAgo(now - 59 * MsPerMinute - 59 * 1000, now) == "59분 전"
  {
    var t := now - 59 * MsPerMinute - 59 * 1000;
    FormatTimeAgoBands(t, now);
    assert now - t == 3599000;
    assert (now - t) / MsPerMinute == 59;
    assert NatToString(5) == "5";
    assert NatToString(59) == NatToString(5) + [DigitChar(9)] == "59";
  }

  /** 25 hours is "1 day". */
  lemma FormatTimeAgoTruncatesDays(now: int)
    ensures FormatTimeAgo(now - 25 * MsPerHour, now) == "1일 전"
  {
    var t := now - 25 * MsPerHour;
    FormatTimeAgoBands(t, now);
    assert (now - t) / MsPerDay == 1;
    assert NatToString(1) == "1";
  }

  /** Half a minute ago and a second in the future are both "just now". */
  lemma FormatTimeAgoJustNowExamples(now: int)
    ensures FormatTimeAgo(now - 30 * 1000, now) == "방금 전"
    ensures FormatTimeAgo(now + 1000, now) == "방금 전"
  {
  }

  // ---------------------------------------------------------------------------
  // Seed data
  // ---------------------------------------------------------------------------

  /** The six questions `initializeDefaultData` seeds into an empty store. */
  function DefaultQuestions(now: int): (r: seq<Question>)
    ensures |r| == 6
    ensures forall i :: 0 <= i < 6 ==> r[i].id == i + 1 && r[i].category in Categories
    ensures forall i :: 0 <= i < 6 ==> r[i].createdAt < now && r[i].lastQuestion.Some?
  {
    [ Question(1, "개발자가 되기 위해 가장 중요한 것은 무엇일까요?", "개발", "코딩초보", "2시간 전", 5,
        Some("그렇다면 어떤 언어부터 시작해야 할까요?"), now - 2 * 60 * 60 * 1000),
      Question(2, "인공지능이 인간의 창의성을 대체할 수 있을까요?", "철학", "생각하는사람", "4시간 전", 3,
        Some("창의성의 본질은 무엇인가요?"), now - 4 * 60 * 60 * 1000),
      Question(3, "현재 정치 상황에서 가장 중요한 이슈는?", "정치", "시민의식", "6시간 전", 8,
        Some("이슈는 다양하지만, 가장 큰 문제는 경제적 불평등입니다."), now - 6 * 60 * 60 * 1000),
      Question(4, "여러분은 \"번아웃\"을 어떻게 극복하시나요?", "일상", "지친직장인", "8시간 전", 12,
        Some("휴식과 일의 밸런스를 맞추는 팁이 있나요?"), now - 8 * 60 * 60 * 1000),
      Question(5, "프론트엔드와 백엔드, 둘 중 어떤 것을 먼저 배우는게 좋을까요?", "개발", "진로고민", "1일 전", 15,
        Some("풀스택 개발자의 현실적인 장단점은 무엇인가요?"), now - 24 * 60 * 60 * 1000),
      Question(6, "만약 인생을 다시 살 수 있다면, 다른 선택을 하시겠습니까?", "철학", "이프", "2일 전", 20,
        Some("과거의 후회가 현재의 나를 만든 것 아닐까요?"), now - 48 * 60 * 60 * 1000) ]
  }

  // ---------------------------------------------------------------------------
  // The store
  // ---------------------------------------------------------------------------

  /** The four persisted collections. A failed read in the source yields an
      empty collection, which is the constructor's state. */
  class Store {
    var questions: seq<Question>
    var chains: seq<ChainItem>
    var users: seq<User>
    var currentUser: Option<User>

    /** Emails and usernames are unique across the user list. */
    ghost predicate Valid()
      reads this
    {
      DistinctAccounts(users)
    }

    constructor ()
      ensures Valid()
      ensures questions == [] && chains == [] && users == [] && currentUser == None
    {
      questions, chains, users, currentUser := [], [], [], None;
    }

    /** `addQuestion`: the new question goes in front of the unchanged list. */
    method AddQuestion(d: QuestionDraft, now: int) returns (q: Question)
      modifies this`questions
      ensures q == NewQuestion(d, now)
      ensures questions == [q] + old(questions)
    {
      q := NewQuestion(d, now);
      questions := [q] + questions;
    }

    /** `saveChain`: appends the item to the flat list, then recounts its parent. */
    method SaveChain(d: ChainDraft, now: int) returns (item: ChainItem)
      modifies this`chains, this`questions
      ensures item == NewChainItem(d, now)
      ensures chains == old(chains) + [item]
      ensures questions == RecountChain(old(questions), chains, d.parentId)
    {
      item := NewChainItem(d, now);
      chains := chains + [item];
      UpdateQuestionChainCount(d.parentId);
    }

    /** `updateQuestionChainCount`. */
    method UpdateQuestionChainCount(questionId: int)
      modifies this`questions
      ensures questions == RecountChain(old(questions), chains, questionId)
    {
      questions := RecountChain(questions, chains, questionId);
    }

    /** `registerUser`: refuses a taken email, then a taken username;
        otherwise appends exactly one user. */
    method RegisterUser(d: UserDraft, now: int) returns (r: Option<User>)
      requires Valid()
      modifies this`users
      ensures Valid()
      ensures r.None? <==> old(EmailTaken(users, d.email)) || old(UsernameTaken(users, d.username))
      ensures r.None? ==> users == old(users)
      ensures r.Some? ==> r.value == NewUser(d, now) && users == old(users) + [r.value]
      ensures r.Some? ==> !CheckUsernameAvailability(users, d.username)
    {
      if EmailTaken(users, d.email) {
        return None;
      }
      if UsernameTaken(users, d.username) {
        return None;
      }
      var u := NewUser(d, now);
      assert forall v :: v in users ==> v.email != u.email && v.username != u.username;
      users := users + [u];
      assert u in users;
      r := Some(u);
    }

    /** `loginUser`: the first user with both credentials becomes the session. */
    method LoginUser(email: string, password: string) returns (r: Option<User>)
      modifies this`currentUser
      ensures r == FindLogin(users, email, password)
      ensures currentUser == if r.Some? then r else old(currentUser)
    {
      r := FindLogin(users, email, password);
      if r.Some? {
        currentUser := r;
      }
    }

    /** `logoutUser`. */
    method LogoutUser()
      modifies this`currentUser
      ensures currentUser == None
    {
      currentUser := None;
    }

    /** `updateUser`: replaces every user with the same id; the session copy
        is overwritten only when it is that user. */
    method UpdateUser(updated: User)
      modifies this`users, this`currentUser
      ensures users == ReplaceById(old(users), updated)
      ensures currentUser == if old(currentUser).Some? && old(currentUser).value.id == updated.id
        then Some(updated) else old(currentUser)
      ensures old(Valid()) && KeysMatchStore(old(users), updated) ==> Valid()
    {
      ghost var before := users;
      users := ReplaceById(users, updated);
      if DistinctAccounts(before) && KeysMatchStore(before, updated) {
        ReplaceKeepsDistinct(before, updated);
      }
      if currentUser.Some? && currentUser.value.id == updated.id {
        currentUser := Some(updated);
      }
    }

    /** `initializeDefaultData`: seeds only an empty question list. */
    method InitializeDefaultData(now: int)
      modifies this`questions
      ensures questions == if old(questions) == [] then DefaultQuestions(now) else old(questions)
    {
      if |questions| == 0 {
        questions := DefaultQuestions(now);
      }
    }
  }
}
