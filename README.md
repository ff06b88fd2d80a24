# Question-chain community: verified model of the client-side core

This project models the browser-side core of a small Korean Q&A community.
Users post questions in four categories (정치, 개발, 철학, 일상). Each question
grows a "chain" of follow-up questions and answers that alternate. The model
covers:

- **The content store** (`lib/storage.ts`). It keeps four persisted
  collections: questions (newest first), a flat append-only list of chain
  items, users, and the optional logged-in session.
  - The collections are the fields of class `Storage.Store`.
  - The mutators are its methods: add a question, save a chain item and
    recount its parent, register, log in, log out, update a user, and seed the
    defaults.
  - The queries are pure functions: chains of a question, category filter,
    search, category statistics, trending questions, recent content, username
    availability, and the relative-time label.
- **The question-chain dialog** (`components/question-chain.tsx`,
  `QuestionChain`). It offers the next item's type, guards and performs the
  append, and displays the root followed by the renumbered chain.
- **The feed** (`hooks/use-questions.ts` as `UseQuestions`, `app/page.tsx` as
  `HomePage`). The category filter and the debounced search query combine into
  the filtered list, which is cut into pages of three. A page change is
  guarded. New questions are posted anonymously.
- **The forms.**
  - The sign-up form (`app/auth/register/page.tsx`, `RegisterPage`) runs
    ordered, first-failure-wins checks before registering. It also has the
    e-mail code rule and the username check.
  - The profile editor (`app/profile/edit/page.tsx`, `ProfileEditPage`) checks
    the picture and the display name, then writes a record where only the
    display name and the avatar change.
- **The profile page** (`app/profile/page.tsx`, `ProfilePage`). It lists a
  user's questions and chain items, matched by display name.

Shared pieces:

- `Seqs` holds the JavaScript array operations the store is built from.
  - `filter`.
  - A stable sort by an integer key. A descending comparator `b.k - a.k` is
    an ascending sort on the negated key.
  - `slice(0, n)`.
- `Text` holds the string operations:
  - `trim` with the ECMAScript whitespace set;
  - `includes`;
  - `startsWith`;
  - ASCII `toLowerCase`;
  - the decimal rendering of a number in a template literal.
- `Wrappers.Option` stands for `null`.

`Date.now()` is the parameter `now`, and a random e-mail code is a parameter of
`SendEmailCode`. Callbacks that run later are methods of their own:

- the 500 ms username lookup is `ResolveUsernameCheck`;
- the 300 ms debounce is `SettleDebounce`;
- the `FileReader` load is `ImageLoaded`.

`saveChain` (`lib/storage.ts:143-167`) calls `updateQuestionChainCount`, which
does not add one to `chainCount`: it recomputes the count as the chain's length
plus one (`lib/storage.ts:169-179`). A seeded question
whose count is 5 therefore drops to 2 on its first append. The model follows
the code:

- `SeededCountIsOverwritten` shows the seeded case;
- `RecountIncrementsConsistentCount` shows that the count rises by exactly one
  only when it already matched the chain.

## Model

| member | source | states |
|---|---|---|
| Seqs.Filter | lib/storage.ts:106 | `filter` keeps exactly the elements satisfying the predicate, each as often as in the input, never lengthening it |
| Seqs.FilterIsSubsequence | lib/storage.ts:106 | a filter result is an order-preserving subsequence of its input |
| Seqs.FilterAppend | lib/storage.ts:156 | filtering distributes over concatenation (used for appends to the flat chain list) |
| Seqs.FilterFilter | hooks/use-questions.ts:64-66 | filtering twice is filtering once by the conjunction |
| Seqs.SortByKey | lib/storage.ts:136 | the sort returns a permutation of its input in ascending key order |
| Seqs.InsertAscending | lib/storage.ts:136 | one insertion step keeps a sorted sequence sorted |
| Seqs.SortByKeyStable | lib/storage.ts:121 | the sort is stable: the elements with equal keys keep their input order |
| Seqs.WithKeyInsert | lib/storage.ts:136 | one insertion step adds the inserted element to its key class without reordering it |
| Seqs.SortByKeyAppendMax | lib/storage.ts:136 | an element appended with the largest key stays last after sorting |
| Seqs.Take | lib/storage.ts:122 | `slice(0, n)` is the first `min(n, length)` elements |
| Seqs.TakeOfAscending | lib/storage.ts:121-122 | a prefix of a sorted sequence holds the smallest keys: nothing left out is below anything taken |
| Seqs.WithKeyTake | lib/storage.ts:122 | a prefix keeps a prefix of every class of equal keys |
| Seqs.TakeMultiset | lib/storage.ts:397 | `slice(0, n)` takes nothing that was not in the list |
| Seqs.WithKeyAppend | lib/storage.ts:377-392 | the class of one key in a concatenation is the class in the first part followed by the class in the second |
| Seqs.SortedPrefixKeepsOrder | lib/storage.ts:396-397 | a prefix of the stable sort keeps a prefix of each class of equal keys in input order |
| Text.Trim | components/question-chain.tsx:57 | `trim` removes leading and trailing whitespace only, leaving both ends non-blank |
| Text.TrimIsMiddle | components/question-chain.tsx:57 | the trimmed string is a contiguous middle of the original with only whitespace before and after it |
| Text.TrimEmptyIffBlank | app/profile/edit/page.tsx:81 | a string trims to "" exactly when every character is whitespace |
| Text.ContainsIffOccurs | lib/storage.ts:414-416 | `includes` holds exactly when the substring occurs at some position |
| Text.ToLower | lib/storage.ts:410 | lowering maps `A`..`Z` to `a`..`z` and keeps every other character |
| Text.ToLowerIdempotent | lib/storage.ts:410-416 | lowering twice is lowering once |
| Text.NatToString | lib/storage.ts:287-289 | the numeral of a count is all digits with no leading zero |
| Text.ParseNatToString | lib/storage.ts:287-289 | reading the numeral back gives the number |
| Storage.NewQuestion | lib/storage.ts:66-71 | a new question has `id = createdAt = now`, `chainCount = 0`, and the draft's fields |
| Storage.NewChainItem | lib/storage.ts:150-154 | a new chain item has `id = createdAt = now` and the draft's fields |
| Storage.NewUser | lib/storage.ts:217-221 | a new user has `id = joinedAt = now` and the draft's fields |
| Storage.GetChains | lib/storage.ts:130-141 | a question's chain is exactly its children, as a permutation, ascending by `createdAt`, with items of equal `createdAt` in stored order |
| Storage.NewItemListedLast | lib/storage.ts:130-156 | an appended item no older than any stored item is listed last, after the unchanged earlier chain |
| Storage.ChildrenAfterAppend | lib/storage.ts:130-156 | an append adds that item to its own parent's children and nothing to any other parent |
| Storage.AppendChainLength | lib/storage.ts:156-160 | an append lengthens exactly its parent's chain, by one, and leaves every other chain as it was |
| Storage.RecountChain | lib/storage.ts:169-179 | the recount keeps the length of the question list |
| Storage.RecountAfterAppend | lib/storage.ts:156-179 | after `saveChain` every question with the parent's id counts the old chain plus the new item plus the root; all others are unchanged |
| Storage.RecountIncrementsConsistentCount | lib/storage.ts:169-179 | when a count already matched its chain, one append raises it by exactly one |
| Storage.SeededCountIsOverwritten | lib/storage.ts:169-179 | a seeded count of 5 becomes 2 on the first append: the count is recomputed, not incremented |
| Storage.RecountWithoutMatch | lib/storage.ts:171-177 | with no question of that id the list is unchanged |
| Storage.OfCategory | lib/storage.ts:106 | the exact-match category filter keeps exactly the questions of that category |
| Storage.QuestionsByCategory | lib/storage.ts:99-107 | null, "" and "전체" give the whole list; any other category gives the exact-match questions; the result is always an order-preserving subsequence |
| Storage.SearchQuestions | lib/storage.ts:405-422 | search keeps exactly the questions whose lowered title, category or author includes the lowered query (`MatchesQuery`, lines 412-416), each as many times as it is stored, in stored order |
| Storage.SearchEmptyQuery | lib/storage.ts:410-416 | the empty query matches every question |
| Storage.SearchNoMatch | lib/storage.ts:412-417 | a query matching nothing gives the empty list |
| Storage.CategoryStats | lib/storage.ts:78-97 | there are always four entries, in the order 정치/개발/철학/일상; each count is the number of times that category occurs among the questions' categories, at most the number of questions, and zero exactly when no question has that category |
| Storage.CountOfCategory | lib/storage.ts:82 | the length of the category filter equals the multiplicity of that category in the list of categories |
| Storage.CategoryPartition | lib/storage.ts:80-83 | four distinct categories plus "none of them" split any question list |
| Storage.CategoryStatsTotal | lib/storage.ts:80-83 | the four counts plus the uncategorised questions add up to the number of questions |
| Storage.RecencyByDay | lib/storage.ts:117 | on day `d` of age (0 to 6) the recency is exactly `7 - d` |
| Storage.RecencyScore | lib/storage.ts:117 | recency is never negative; it is 0 exactly from 7 days of age on; below 7 days (future timestamps included) it is 7 minus the floored number of days; hence 7 within the first day, at most 7 for past timestamps, and above 7 for future ones |
| Storage.RecencyThreeDays | lib/storage.ts:117 | a question created three days ago scores 4 (floor, not rounding) |
| Storage.Scored | lib/storage.ts:116-120 | every question is paired with `2 * chainCount + recency`, in stored order |
| Storage.TrendingQuestions | lib/storage.ts:109-127 | the result has `min(4, n)` entries drawn from the scored questions, with non-increasing scores; no left-out question scores above one that is kept |
| Storage.TopByPopularity | lib/storage.ts:121-122 | the first four of the descending sort are the most popular entries of the input |
| Storage.TrendingTiesInStoredOrder | lib/storage.ts:121-122 | the kept entries of any one score are the first entries of that score in stored order |
| Storage.TopByPopularityStable | lib/storage.ts:121-122 | the slice of the stable sort keeps a prefix of each score class in input order |
| Storage.QuestionEntries | lib/storage.ts:378-384 | entry `i` is question `i` as a "question" entry carrying its title, time, author and creation time |
| Storage.ChainEntries | lib/storage.ts:385-391 | entry `i` is chain item `i` carrying its own type, text, time, author and creation time |
| Storage.Merged | lib/storage.ts:377-392 | the merged feed is the question entries followed by the chain entries |
| Storage.MergedHoldsAll | lib/storage.ts:377-392 | every question and every chain item has its entry in the merged feed |
| Storage.RecentTimed | lib/storage.ts:395-397 | the feed has `min(5, total)` entries |
| Storage.RecentTimedIsNewest | lib/storage.ts:395-397 | the feed is non-increasing in `createdAt` and a sub-multiset of the merged feed; nothing left out is newer than anything shown |
| Storage.RecentTiesQuestionsFirst | lib/storage.ts:395-397 | among entries with the same `createdAt`, the feed shows a prefix of them in merged order: questions before chain items, each in stored order |
| Storage.RecentContent | lib/storage.ts:364-403 | the projected feed has at most five entries, one per selected entry, without `createdAt` |
| Storage.EmailTaken | lib/storage.ts:208 | true exactly when some stored user has that e-mail |
| Storage.UsernameTaken | lib/storage.ts:213 | true exactly when some stored user has that username |
| Storage.CheckUsernameAvailability | lib/storage.ts:272-275 | a username is available exactly when no stored user has it |
| Storage.FindLogin | lib/storage.ts:231 | the result is the first user matching both e-mail and password, or none when no user matches |
| Storage.ReplaceById | lib/storage.ts:262 | the list keeps its length; users with the id are replaced and all others are kept in place |
| Storage.ReplaceKeepsDistinct | lib/storage.ts:258-263 | an update that keeps the replaced user's e-mail and username keeps e-mails and usernames distinct |
| Storage.FormatTimeAgo | lib/storage.ts:278-290 | the label is "방금 전" exactly when the age is below one minute, including future timestamps |
| Storage.FormatTimeAgoBands | lib/storage.ts:282-289 | past a minute the label is the floored count of minutes (below an hour), hours (below a day) or days, with its suffix |
| Storage.FormatTimeAgoJustNowExamples | lib/storage.ts:278-285 | 30 s ago and 1 s in the future both give "방금 전" |
| Storage.FormatTimeAgoFiveMinutes | lib/storage.ts:281-286 | 5 minutes ago gives "5분 전" |
| Storage.FormatTimeAgoTruncatesMinutes | lib/storage.ts:281-286 | 59 min 59 s ago gives "59분 전": the count is truncated, not rounded |
| Storage.FormatTimeAgoTruncatesDays | lib/storage.ts:281-289 | 25 hours ago gives "1일 전" |
| Storage.DefaultQuestions | lib/storage.ts:298-359 | the seed has six questions with ids 1..6, categories among the four, past creation times, and a last question each |
| Storage.Store.constructor | lib/storage.ts:42-52 | a store whose reads fail holds empty collections and no session |
| Storage.Store.AddQuestion | lib/storage.ts:64-76 | the new question is in front of the unchanged old list |
| Storage.Store.SaveChain | lib/storage.ts:143-167 | the item is appended to the unchanged flat list and its parent is recounted |
| Storage.Store.UpdateQuestionChainCount | lib/storage.ts:169-179 | the question list becomes the recount for that id |
| Storage.Store.RegisterUser | lib/storage.ts:204-226 | a taken e-mail, or else a taken username, gives null and no change; otherwise exactly one new user is appended, distinctness is kept, and the username is no longer available |
| Storage.Store.LoginUser | lib/storage.ts:228-239 | the first user with both credentials becomes the session and is returned; otherwise null and the session is untouched |
| Storage.Store.LogoutUser | lib/storage.ts:253-256 | the session is cleared |
| Storage.Store.UpdateUser | lib/storage.ts:258-270 | the users are replaced by id; the session is overwritten only when its id matches; distinctness survives a key-preserving update |
| Storage.Store.InitializeDefaultData | lib/storage.ts:293-362 | the six defaults are seeded only into an empty question list |
| QuestionChain.NextType | components/question-chain.tsx:47-54 | an empty chain offers an answer; otherwise the offer is the opposite of the last item's type |
| QuestionChain.NextTypeByParity | components/question-chain.tsx:47-54 | on an alternating chain an answer is offered exactly after an even number of items |
| QuestionChain.AppendNextTypeAlternates | components/question-chain.tsx:47-64 | appending the offered type keeps the chain alternating answer/question |
| QuestionChain.FullChain | components/question-chain.tsx:73-85 | the display is the root item `RootItem` (the root's id, title, author and time; level 0, a question, parent 0, createdAt 0) followed by each item with level = position; it is one longer than the chain |
| QuestionChain.DisplayedLevelIsStoredPlusOne | components/question-chain.tsx:73-85 | an item stored with level = its position is displayed one level deeper |
| QuestionChain.BadgeMatchesChainCount | components/question-chain.tsx:110 | after a recount the stored `chainCount` equals the length of the displayed chain |
| QuestionChain.AppendKeepsView | components/question-chain.tsx:67 | the local append keeps the chain alternating and, when the view mirrored `getChains`, keeps it equal to `getChains` |
| QuestionChain.ChainView.constructor | components/question-chain.tsx:36-39 | the view starts with an empty chain and text, the form closed and "answer" offered |
| QuestionChain.ChainView.SetNewText | components/question-chain.tsx:191 | the text field holds what was typed |
| QuestionChain.ChainView.SetShowAddForm | components/question-chain.tsx:203 | the add and cancel buttons open and close the form |
| QuestionChain.ChainView.Load | components/question-chain.tsx:42-45 | the view shows the root's chain as `getChains` returns it, with the offered type in step |
| QuestionChain.ChainView.SyncNextType | components/question-chain.tsx:47-54 | the offered type is brought in step with the chain |
| QuestionChain.ChainView.HandleAddItem | components/question-chain.tsx:56-71 | without non-blank text and a user nothing changes; otherwise the trimmed text is saved with the user's display name, "방금 전", level = old chain length and the offered type; the view gains that item at the end, and the text and form are reset; alternation and agreement with `getChains` are kept |
| UseQuestions.FilteredQuestions | hooks/use-questions.ts:56-70 | a blank query with no category gives the hook's list; a blank query with a category gives `getQuestionsByCategory`; a non-blank query gives exactly the stored matches, restricted by exact category equality when one is set, each as many times as it is stored, in stored order |
| UseQuestions.AllSentinelIgnoredBySearch | hooks/use-questions.ts:64-66 | "전체" shows everything while the query is blank but, compared literally in the query branch, finds nothing |
| UseQuestions.WhitespaceQueryIsNoQuery | hooks/use-questions.ts:63 | a whitespace-only query acts as no query |
| UseQuestions.QuestionsHook.constructor | hooks/use-questions.ts:31-35 | the hook starts empty, loading, with no error, query or category |
| UseQuestions.QuestionsHook.LoadQuestions | hooks/use-questions.ts:40-53 | an empty store is seeded, the hook mirrors the stored list, and loading ends without error |
| UseQuestions.QuestionsHook.AddQuestion | hooks/use-questions.ts:72-81 | the stored question is prepended to both the store and the hook's list, so a mirrored list stays mirrored |
| UseQuestions.QuestionsHook.SearchQuestions | hooks/use-questions.ts:83-85 | only the query is recorded |
| UseQuestions.QuestionsHook.FilterByCategory | hooks/use-questions.ts:87-89 | only the category is recorded |
| UseQuestions.QuestionsHook.SettleDebounce | hooks/use-questions.ts:14-28 | when the timer fires, the debounced query catches up with the query |
| HomePage.TotalPages | app/page.tsx:168 | the page count is the fewest pages of three that hold the list (a ceiling) |
| HomePage.CurrentQuestions | app/page.tsx:169-172 | a page has at most three questions, taken consecutively from `(page - 1) * 3`; it is non-empty exactly for pages up to `totalPages`, so a stale page beyond it is empty |
| HomePage.PagesUpToIsPrefix | app/page.tsx:169-172 | the first k pages together are the first `min(3k, n)` questions |
| HomePage.PagesCoverList | app/page.tsx:168-172 | read in order, all pages together are exactly the filtered list |
| HomePage.ShowPaginationIffMoreThanOnePage | app/page.tsx:274 | the controls are shown (`ShowPagination`, `totalPages > 1`) exactly when there are more than three questions |
| HomePage.HomeView.constructor | app/page.tsx:39 | the page starts on page 1 with the form closed and no prefill |
| HomePage.HomeView.HandlePageChange | app/page.tsx:174-179 | the page changes only to a page between 1 and `totalPages`, and the current page stays at least 1 |
| HomePage.HomeView.HandleNewQuestion | app/page.tsx:44-60 | the question is posted as "익명사용자" with "방금 전" into the store and the hook, then the form is closed and the prefill cleared |
| HomePage.HomeView.HandleQuestionSelect | app/page.tsx:75-94 | selecting a question clears the hook's category and query |
| HomePage.HomeView.HandleLogoClick | app/page.tsx:105-109 | the logo clears the hook's query and category, closes the form and drops the prefill, and keeps the page |
| HomePage.ClearedFiltersShowAll | hooks/use-questions.ts:56-70 | with the query and category cleared, the feed is the hook's whole list |
| RegisterPage.FirstRegisterError | app/auth/register/page.tsx:79-107 | each error is reported exactly when its check is the first to fail: a missing raw field (`MissingRequired`), then a "taken" status, then a bad code while the code is shown, then a password mismatch, then a password under 6 characters |
| RegisterPage.PassingFormIsAcceptable | app/auth/register/page.tsx:79-107 | a form passing every check has its fields filled, a status other than taken, matching passwords of at least 6 characters, and the right non-empty code when one is shown |
| RegisterPage.BlankUsernamePassesRequiredCheck | app/auth/register/page.tsx:79 | a username of spaces passes the required-field check |
| RegisterPage.RegistrationDraft | app/auth/register/page.tsx:109-114 | the registered record uses the username as display name and has no bio or avatar |
| RegisterPage.StatusOnInput | app/auth/register/page.tsx:35-40 | a username under 2 characters resets the status to idle; a longer one starts a check; neither decides availability |
| RegisterPage.RegisterView.constructor | app/auth/register/page.tsx:17-31 | the form starts empty, with the status idle and no code |
| RegisterPage.RegisterView.CheckUsername | app/auth/register/page.tsx:34-41 | the status becomes idle or checking by the length gate |
| RegisterPage.RegisterView.ResolveUsernameCheck | app/auth/register/page.tsx:42-45 | the delayed lookup sets "taken" exactly when the username is stored, and "available" otherwise |
| RegisterPage.RegisterView.HandleChange | app/auth/register/page.tsx:48-65 | the field is stored; an e-mail shows the code section exactly when it contains "@" and "." (`EmailLooksComplete`), and otherwise also clears "code sent"; a username restarts the check; other fields leave these flags alone |
| RegisterPage.RegisterView.SendEmailCode | app/auth/register/page.tsx:67-71 | the given code is remembered and marked as sent |
| RegisterPage.RegisterView.HandleSubmit | app/auth/register/page.tsx:74-123 | the first failing check sets its message and stores nothing; otherwise the store refuses a taken e-mail or username with the combined message, or appends the user and navigates to login; loading ends off and distinctness is kept |
| ProfileEditPage.ImageFileError | app/profile/edit/page.tsx:54-63 | a file over 5·1024·1024 bytes gets the size error; otherwise a non-`image/` type gets the type error; otherwise there is no error |
| ProfileEditPage.UpdatedProfile | app/profile/edit/page.tsx:88-92 | the saved record changes only the display name (trimmed) and the avatar; id, username, e-mail, password, bio and join time are kept |
| ProfileEditPage.ProfileUpdateKeepsAccountsDistinct | app/profile/edit/page.tsx:88-94 | saving a profile whose keys match the store keeps e-mails and usernames distinct |
| ProfileEditPage.EditProfileView.constructor | app/profile/edit/page.tsx:21-28 | the form starts with an empty name and picture, no file, no messages and not saving |
| ProfileEditPage.EditProfileView.LoadUser | app/profile/edit/page.tsx:36-41 | a logged-in user's name and avatar, or "", fill the form |
| ProfileEditPage.EditProfileView.HandleChange | app/profile/edit/page.tsx:44-49 | the display name takes the typed value |
| ProfileEditPage.EditProfileView.HandleImageChange | app/profile/edit/page.tsx:51-73 | a rejected file sets its message and keeps the old file; an accepted file is kept and clears the message; no file changes nothing |
| ProfileEditPage.EditProfileView.ImageLoaded | app/profile/edit/page.tsx:67-69 | the loaded data URL becomes the picture |
| ProfileEditPage.EditProfileView.HandleSubmit | app/profile/edit/page.tsx:75-103 | a blank trimmed name sets the error and stores nothing; otherwise a logged-in user's record is replaced by the updated profile and the success message is set; saving ends off |
| ProfilePage.UserQuestions | app/profile/page.tsx:29-31 | the user's questions are exactly the stored questions with that author string, each as many times as it is stored, in stored order |
| ProfilePage.UserAnswersMembership | app/profile/page.tsx:34-40 | in the reference `UserAnswers` (the `forEach` over the questions as a recursion), an item is listed exactly when it is stored, has that author, and its parent is a stored question, whatever its type |
| ProfilePage.AnswersUnderMembership | app/profile/page.tsx:36-37 | one question's contribution is exactly its children by that author |
| ProfilePage.HasStoredParentSnoc | app/profile/page.tsx:35 | a parent is among the questions exactly when it is among all but the last question, or is the last one |
| ProfilePage.CollectUserAnswers | app/profile/page.tsx:34-40 | the loop equals the reference `UserAnswers`: it builds, question by question in stored order, the concatenation of each question's items by that author |
| ProfilePage.RenameLosesAttribution | app/profile/page.tsx:29-40 | after a rename nothing posted under the old name is listed for the new one |
| ProfilePage.ProfileView.constructor | app/profile/page.tsx:18-19 | both lists start empty |
| ProfilePage.ProfileView.Refresh | app/profile/page.tsx:21-42 | for a logged-in user both lists are recomputed from the store under the display name; otherwise they are kept |

## Left out

- **Persistence.** `localStorage`, `JSON.parse` and `JSON.stringify` are not
  modelled, nor are the server-side `typeof window` guards. The collections are
  fields of `Storage.Store`, and a failed read is the empty collection of the
  constructor.
- **Error branches.** The `catch` branches are left out because the model has
  no exceptions. This includes `saveChain` returning the unsaved draft and the
  error path of `loadQuestions` and `addQuestion` in the hook.
- **The clock.** `Date.now()` is the parameter `now`.
  - `getTrendingQuestions` reads the clock once per question; the model uses
    one instant for all of them.
  - `handleAddItem` reads it twice (id and label); the model uses one instant,
    so the label is always "방금 전".
  - `addQuestion` (`lib/storage.ts:68-69`), `saveChain` (`lib/storage.ts:152-153`)
    and `registerUser` (`lib/storage.ts:219-220`) each read the clock twice, once
    for `id` and once for `createdAt` or `joinedAt`. The two readings can differ
    by a millisecond. `NewQuestion`, `NewChainItem` and `NewUser` take one
    `now`, so in the model `id` always equals `createdAt` or `joinedAt`.
  - `initializeDefaultData` reads the clock once per seeded question
    (`lib/storage.ts:307-357`); `DefaultQuestions` uses one `now` for all six.
- **Storage.TrendingQuestions**: the tie order is stated as stability of
  the sort (`TrendingTiesInStoredOrder`), which is what ECMAScript 2019
  requires of `sort`.
- **Text.ToLower**: only ASCII letters are lowered. The full Unicode case
  mapping of `toLowerCase` is not modelled.
- **String lengths.** Strings are sequences of code points. JavaScript's
  `length` counts UTF-16 units, which matters for the length checks only
  outside the Basic Multilingual Plane.
- **Timers.** The delays themselves (300 ms debounce, 500 ms username lookup,
  1500 ms redirect, scroll highlighting) are not modelled. Each callback is a
  method that the caller invokes when the timer fires.
- **Randomness.** The generation of the random e-mail code is not modelled;
  `SendEmailCode` takes the code as a parameter. The `alert`, the AI
  question route and the random JSON-LD counts on the feed page are left out.
- **The `FileReader` conversion.** It is a browser API; its result arrives
  through `ImageLoaded`.
- **Rendering.** Router navigation, React rendering, category colours,
  `getItemStyle`/`getItemIcon`, the sidebar, the header and the other UI
  components are not modelled. The login redirect is the flag
  `navigatedToLogin`.
- **Other UI handlers.** `handleQuestionSelect` and `handleLogoClick` are
  modelled only for what they do to the hook and the form: they clear the
  hook's query and category (`HandleQuestionSelect`, `HandleLogoClick`). The
  delayed scroll and highlight of the selected question, the sidebar's
  open flag that `resetState` also clears, and the AI-suggestion, menu-toggle
  and sidebar-close handlers are UI state only and are not modelled.
- **Other files.** `app/sitemap.ts`, `lib/constants.ts`, `lib/auth-context.tsx`
  and `types/index.ts` are not part of this model. The logged-in user they
  provide is a parameter `user: Option<User>`.
- **Concurrency.** Races between tabs on the read-modify-write of
  `chainCount` are out of scope: the model is single-threaded, as the code
  assumes.
