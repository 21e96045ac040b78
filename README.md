# Praxis skill-swap core, modelled in Dafny

Praxis is a skill-exchange web app. Users list the skills they can teach and the skills
they want to learn. They are shown other users ranked by how well the two lists match,
and they like or pass on each one. A like in both directions becomes a connection, and
connected users can chat. This project models the logic behind those pages:

- `Seqs`: generic sequence tools. `Array.prototype.filter` and `slice(0, n)`; a stable
  sort by an integer key, standing for `Array.prototype.sort` with a numeric comparator;
  order-preserving de-duplication, standing for `[...new Set(xs)]`; and a copy loop,
  standing for `snapshot.forEach(d => out.push(d))`.
- `Text`: ECMAScript `trim`, ASCII `toLowerCase`, `includes`, `startsWith`, and the
  default string order that `Array.prototype.sort` uses.
- `Records`: the stored documents: user profiles, connection requests, connections,
  pass records and messages.
- `Skills`: the skill catalogue, `searchSkills` and `getSkillSuggestions`
  (shared/skills.ts).
- `SkillSelector`: the skill picker component, as list functions plus a `Selector`
  class holding the component state (client/components/ui/SkillSelector.tsx).
- `MatchEngine`: `calculateMatches` (client/pages/Dashboard.tsx).
- `Dashboard`: an in-memory `Store` of the three remote collections; a `Session` class
  for one open discovery page with its listeners and the like, pass, accept and decline
  actions; and the render-time filter of shown candidates (client/pages/Dashboard.tsx).
- `Chat`: thread ids, the partner list, conversation summaries and their order, a
  thread's messages with the mark-as-read batch, and sending (client/pages/Chat.tsx).
- `BottomNav`: the tab list, the active-tab test, the unread count and the badge
  (client/components/layout/BottomNav.tsx).
- `AppTitle`: the document title chosen from the path (client/App.tsx).
- `SiteHeader`: when the public header is hidden
  (client/components/layout/SiteHeader.tsx).

The remote database is replaced by values and objects. A query result is the stored
sequence, filtered by the query's conditions, in stored order. A new document's id is
the store's counter, `nextId`. Timestamps are natural numbers and are passed in as
`now`. The signed-in user's id is the constant `self`.

## Model

| member | source | states |
|---|---|---|
| Text.ToLower | shared/skills.ts:48-51 | `toLowerCase` on ASCII: keeps the length and lower-cases each character independently |
| Text.TrimSpec | shared/skills.ts:46-48 | `trim` gives the empty string exactly when the input is all whitespace; a non-empty result neither starts nor ends with whitespace |
| Text.TrimStartSpec | shared/skills.ts:46-48 | the leading trim drops exactly a whitespace prefix and stops at the first non-space character |
| Text.TrimEndSpec | shared/skills.ts:46-48 | the trailing trim drops exactly a whitespace suffix and stops at the last non-space character |
| Text.TrimToLower | shared/skills.ts:48 | lower-casing and trimming commute, so `toLowerCase().trim()` equals `trim().toLowerCase()` |
| Text.Includes | shared/skills.ts:51 | `includes` holds exactly when the needle occurs at some position |
| Text.LessOrEqualTotal | client/pages/Chat.tsx:167 | the default sort order relates every two ids in at least one direction |
| Text.LessOrEqualAntisymmetric | client/pages/Chat.tsx:167 | two ids ordered both ways are equal |
| Seqs.CopyAll | client/components/layout/BottomNav.tsx:27-30 | the snapshot loop copies every document, in order |
| Skills.SearchIn | shared/skills.ts:45-53 | a blank query gives nothing; otherwise the result is the first ten matching catalogue entries, or all of them when there are fewer |
| Skills.SearchSound | shared/skills.ts:50-51 | every result is a catalogue entry whose lower-cased text contains the normalized query |
| Skills.SearchKeepsOrder | shared/skills.ts:50-52 | the results are a subsequence of the catalogue |
| Skills.SearchComplete | shared/skills.ts:50-52 | fewer than ten results means every matching entry is among them |
| Skills.BlankIffNormalizedEmpty | shared/skills.ts:46-48 | the blank test and the normalized query agree: a query is blank exactly when it normalizes to the empty string |
| Skills.SearchIgnoresCaseAndSpace | shared/skills.ts:45-53 | two queries with the same normalized form give the same results |
| Skills.SuggestionsIn | shared/skills.ts:55-60 | a prefix of the unchosen catalogue entries in catalogue order, exactly twenty long unless there are fewer, and then all of them |
| Skills.SuggestionsComplete | shared/skills.ts:57-59 | fewer than twenty suggestions means every unchosen entry is suggested |
| SkillSelector.AddSkill | client/components/ui/SkillSelector.tsx:52-59 | the skill is appended when it is new and there is room; otherwise the list is unchanged |
| SkillSelector.RemoveSkill | client/components/ui/SkillSelector.tsx:61-63 | every copy of the skill is gone, every other chosen skill keeps all its copies (as a multiset), and the order is kept |
| SkillSelector.Suggestions | client/components/ui/SkillSelector.tsx:25-34 | nothing for blank input; otherwise exactly the search results not yet chosen, at most ten, in search order |
| SkillSelector.AddKeepsWellFormed | client/components/ui/SkillSelector.tsx:53-54 | adding keeps the list duplicate-free and within `maxSkills` |
| SkillSelector.RemoveKeepsWellFormed | client/components/ui/SkillSelector.tsx:62 | removing keeps the list duplicate-free and within `maxSkills` |
| SkillSelector.RemoveAbsent | client/components/ui/SkillSelector.tsx:62 | removing a skill that is not chosen changes nothing |
| SkillSelector.RemoveLast | client/components/ui/SkillSelector.tsx:69-70 | in a duplicate-free list, Backspace's removal drops exactly the last element |
| SkillSelector.EnterAddsFirstSuggestion | client/components/ui/SkillSelector.tsx:66-68 | when there is room, Enter always adds the first suggestion |
| SkillSelector.EditsKeepWellFormed | client/components/ui/SkillSelector.tsx:52-63 | any sequence of additions and removals keeps the list duplicate-free and within the bound |
| SkillSelector.Selector.constructor | client/components/ui/SkillSelector.tsx:12-21 | the initial state: the given list, an empty input, the list closed, and the given bound (`DefaultMaxSkills`, 10, stands for the default) |
| SkillSelector.Selector.Refresh | client/components/ui/SkillSelector.tsx:25-34 | the suggestion effect: the suggestions are recomputed and the list is open exactly when the input is not blank |
| SkillSelector.Selector.Add | client/components/ui/SkillSelector.tsx:52-59 | `addSkill`: the list becomes `AddSkill(...)`; a change also clears the input and closes the list |
| SkillSelector.Selector.Remove | client/components/ui/SkillSelector.tsx:61-63 | `removeSkill`: the list becomes `RemoveSkill(...)` and the effect reruns |
| SkillSelector.Selector.Type | client/components/ui/SkillSelector.tsx:100-105 | typing sets the input only while the input is enabled; a changed value reruns the effect |
| SkillSelector.Selector.KeyDown | client/components/ui/SkillSelector.tsx:65-72 | Enter with suggestions appends the first one, clears the input and closes the list; Backspace on an empty input removes the last skill, keeps the input and closes the list; any other key changes nothing |
| SkillSelector.Selector.ClickOutside | client/components/ui/SkillSelector.tsx:36-50 | a press outside closes the list and changes nothing else |
| SkillSelector.Selector.Focus | client/components/ui/SkillSelector.tsx:102-105 | focusing a non-empty, enabled input opens the list |
| MatchEngine.TeachingMatches | client/pages/Dashboard.tsx:173-175 | exactly the wanted skills the other user has, in wish-list order, each with as many copies as the wish list holds |
| MatchEngine.LearningMatches | client/pages/Dashboard.tsx:178-180 | exactly the other user's wanted skills that the acting user has, in their order, each with as many copies as their wish list holds |
| MatchEngine.ToMatch | client/pages/Dashboard.tsx:182-194 | the candidate's fields, the default bio, score = number of teaching matches + number of learning matches, and common skills = de-duplicated concatenation of the two |
| MatchEngine.CommonSkillsSpec | client/pages/Dashboard.tsx:182 | the common skills have no duplicate, and a skill is common exactly when it matched in either direction |
| MatchEngine.ScoreAll | client/pages/Dashboard.tsx:170-195 | one scored candidate per user, in input order |
| MatchEngine.CalculateMatches | client/pages/Dashboard.tsx:169-199 | at most twenty entries, a prefix of the positive candidates sorted by score |
| MatchEngine.MatchesArePositiveCandidates | client/pages/Dashboard.tsx:196 | every entry has a positive score and is the scoring of an input user |
| MatchEngine.MatchesSorted | client/pages/Dashboard.tsx:197 | the entries are in non-increasing score order |
| MatchEngine.MatchesTopScores | client/pages/Dashboard.tsx:196-198 | a positive candidate left out means the result is full and every entry scores at least as much |
| MatchEngine.MatchesStable | client/pages/Dashboard.tsx:197-198 | among equal scores the entries keep input order: they are a prefix of the positive candidates with that score |
| MatchEngine.ScoreCountsBothWaysTwice | client/pages/Dashboard.tsx:182-184 | with duplicate-free wish lists, score = number of common skills + number of skills matched both ways |
| Dashboard.InboundPending | client/pages/Dashboard.tsx:110-114 | exactly the pending requests addressed to the user |
| Dashboard.PendingBetween | client/pages/Dashboard.tsx:227-232 | exactly the pending requests from one given user to the other |
| Dashboard.PassedIds | client/pages/Dashboard.tsx:124-135 | exactly the ids in the user's own pass records |
| Dashboard.ShownMatches | client/pages/Dashboard.tsx:419-435 | a candidate is shown exactly when it is not connected, not in a held request and not passed; the order is kept |
| Dashboard.HeldRequestTestIsInboundOnly | client/pages/Dashboard.tsx:426-430 | since the held list holds only inbound requests, the request test fires exactly for users with a pending request to the acting user |
| Dashboard.OwnRequestNotHeld | client/pages/Dashboard.tsx:269-274 | the request a like stores never enters the liker's own held list |
| Dashboard.PassHides | client/pages/Dashboard.tsx:419-435 | after a pass on an id, no candidate with that id is shown |
| Dashboard.PassIsPersonal | client/pages/Dashboard.tsx:124-135 | another user's pass record leaves the user's passed list unchanged |
| Dashboard.ConnectionHides | client/pages/Dashboard.tsx:419-435 | once a connection is synchronised, its other end is not shown, whichever end the acting user is |
| Dashboard.DecideLike | client/pages/Dashboard.tsx:227-266 | a match exactly when an inbound pending request exists, and then with the first one; already requested exactly when only an outbound one exists; otherwise a new request |
| Dashboard.Store.AddRequest | client/pages/Dashboard.tsx:269-274 | appends one pending request with a fresh id, keeping every request id distinct; nothing else changes |
| Dashboard.Store.AddConnection | client/pages/Dashboard.tsx:241-245 | appends one connection with a fresh id, keeping every connection id distinct; nothing else changes |
| Dashboard.Store.AddPass | client/pages/Dashboard.tsx:206-210 | appends one pass record with a fresh id, keeping every pass id distinct; nothing else changes |
| Dashboard.Store.DeleteRequest | client/pages/Dashboard.tsx:248 | removes the request with that id, if stored; nothing else changes |
| Dashboard.OtherUsers | client/pages/Dashboard.tsx:69-75 | exactly the user documents other than the acting user's, in order |
| Dashboard.CollectInboundPending | client/pages/Dashboard.tsx:115-121 | the listener's copy equals the inbound pending requests |
| Dashboard.CollectPassedIds | client/pages/Dashboard.tsx:128-134 | the listener's list equals the passed ids |
| Dashboard.Session.constructor | client/pages/Dashboard.tsx:47-52 | a fresh page holds no profile, matches, connections, requests or passes |
| Dashboard.Session.LoadMatches | client/pages/Dashboard.tsx:62-80 | with the user's own document, the matches are `calculateMatches` over every other user, so the user is never their own candidate; without it nothing changes |
| Dashboard.Session.SyncConnections | client/pages/Dashboard.tsx:95-107 | the page's connections become those involving the user |
| Dashboard.Session.SyncRequests | client/pages/Dashboard.tsx:110-121 | the page's requests become the inbound pending ones |
| Dashboard.Session.SyncPassed | client/pages/Dashboard.tsx:124-135 | the page's passed ids become those of the user's pass records |
| Dashboard.Session.OnPass | client/pages/Dashboard.tsx:201-220 | stores one pass record, appends the id to the passed list and drops that id from the matches; the profile, connections and requests are unchanged |
| Dashboard.Session.OnLike | client/pages/Dashboard.tsx:222-283 | an inbound request gives the connection (other, self) and that request is deleted; an outbound one changes nothing; otherwise one new pending request is stored; at most one pending request per pair is kept, and then a match leaves none between the two users |
| Dashboard.Session.AcceptRequest | client/pages/Dashboard.tsx:285-307 | stores the connection (from, self), then deletes the request; at most one pending request per pair is kept |
| Dashboard.Session.DeclineRequest | client/pages/Dashboard.tsx:309-317 | deletes the request only; at most one pending request per pair is kept |
| Dashboard.DeleteKeepsAtMostOne | client/pages/Dashboard.tsx:248 | deleting requests keeps at most one pending request between any two users |
| Dashboard.SendKeepsAtMostOne | client/pages/Dashboard.tsx:253-274 | the request a like stores after finding none pending in either direction keeps at most one pending request per pair |
| Dashboard.MatchClearsPair | client/pages/Dashboard.tsx:226-250 | with at most one pending request per pair, deleting the inbound request a like accepts leaves no pending request between the two users in either direction |
| Dashboard.MutualLike | client/pages/Dashboard.tsx:222-283 | two users liking each other end with one connection and no request |
| Chat.ThreadId | client/pages/Chat.tsx:167 | the smaller id by the default sort order, then `_`, then the other |
| Chat.ThreadIdSymmetric | client/pages/Chat.tsx:167 | both users of a pair compute the same thread id |
| Chat.ThreadIdDeterminesPair | client/pages/Chat.tsx:167 | for ids without `_`, equal thread ids mean the same pair |
| Chat.Partner | client/pages/Chat.tsx:79-81 | for a connection involving the user, the user and the result are exactly the two ends |
| Chat.PartnerIds | client/pages/Chat.tsx:79-81 | one partner per connection, in order |
| Chat.FetchUserConnections | client/pages/Chat.tsx:68-74 | keeps exactly the connections involving the user, in order |
| Chat.ProfilesFor | client/pages/Chat.tsx:83-89 | each profile belongs to a listed id that has a document, with its id set; no id is skipped when every id has a document |
| Chat.ProfilesForOrder | client/pages/Chat.tsx:83-89 | the profiles' ids are exactly the ids that have a document, in the order of the ids; every such id's profile is returned |
| Chat.FetchConnectedProfiles | client/pages/Chat.tsx:83-89 | the loop's result equals `ProfilesFor` |
| Chat.Newest | client/pages/Chat.tsx:109-124 | none exactly for an empty thread; otherwise a message of the thread with the greatest time |
| Chat.NewestIsFirstOfNewest | client/pages/Chat.tsx:109-124 | among equally new messages the first in thread order is picked: every earlier message is strictly older |
| Chat.UnreadCountIsInbound | client/pages/Chat.tsx:104-117 | a summary's unread count is the number of unread messages from the partner to the user |
| Chat.LastMessageIsNewest | client/pages/Chat.tsx:109-124 | a thread with a message has a last message, no other message is newer, and the summary time is its timestamp |
| Chat.BuildSummaries | client/pages/Chat.tsx:103-126 | one summary per partner, in partner order |
| Chat.SummaryKeyAgrees | client/pages/Chat.tsx:129-134 | the sort key orders every two summaries as the comparator does |
| Chat.SortSummaries | client/pages/Chat.tsx:129-134 | the sorted list is a permutation of the summaries |
| Chat.SummariesOrdered | client/pages/Chat.tsx:129-134 | rows with a time come before rows without one, newest first |
| Chat.SortMessages | client/pages/Chat.tsx:201-205 | a permutation of the thread's messages in non-decreasing time order |
| Chat.MessagesStable | client/pages/Chat.tsx:201-205 | messages with equal times keep their snapshot order |
| Chat.UnreadIdsFrom | client/pages/Chat.tsx:184-188 | exactly the ids of the unread messages from the other user |
| Chat.OnThreadSnapshot | client/pages/Chat.tsx:175-207 | the messages are the sorted snapshot, the batch is the unread ids from the other user, and the batch is committed exactly when it is not empty |
| Chat.MarkRead | client/pages/Chat.tsx:186-194 | each message in the batch becomes read; nothing else changes |
| Chat.BatchReadsThread | client/pages/Chat.tsx:180-194 | after the batch commits, no message of the thread from the other user is unread |
| Chat.MessageStore.Send | client/pages/Chat.tsx:389-407 | a message is stored exactly when the trimmed input is not empty and there is a partner; it carries the thread id, both users, the trimmed text and the store time |
| Chat.MessageStore.Commit | client/pages/Chat.tsx:194 | the batch marks its messages read |
| BottomNav.UnreadCount | client/components/layout/BottomNav.tsx:33-35 | the count is at most the number of messages |
| BottomNav.UnreadCountByPosition | client/components/layout/BottomNav.tsx:33-35 | the count is the number of positions holding an unread message addressed to the user |
| BottomNav.Unread | client/components/layout/BottomNav.tsx:33-35 | exactly the unread messages addressed to the user |
| BottomNav.NoUnreadIffAllRead | client/components/layout/BottomNav.tsx:33-35 | the count is zero exactly when every message to the user is read |
| BottomNav.OnMessages | client/components/layout/BottomNav.tsx:26-37 | the listener's count equals `UnreadCount` of the snapshot |
| BottomNav.Decimal | client/components/layout/BottomNav.tsx:56 | a non-empty string of digits, one digit long exactly below ten |
| BottomNav.DecimalRoundTrip | client/components/layout/BottomNav.tsx:56 | the digits denote the number they print |
| BottomNav.BadgeLabel | client/components/layout/BottomNav.tsx:56 | `9+` above nine, otherwise the single digit of the count |
| BottomNav.TabOrder | client/components/layout/BottomNav.tsx:9-14 | four tabs: dashboard, chat, profile, settings |
| BottomNav.ActiveExamples | client/components/layout/BottomNav.tsx:47 | `/chat/42` and `/chat` activate Chat, `/chatroom` does not |
| BottomNav.AtMostOneActive | client/components/layout/BottomNav.tsx:46-47 | no two tabs are active on the same path |
| BottomNav.BadgeOnlyOnChat | client/components/layout/BottomNav.tsx:48-54 | a badge appears only on the Chat tab and only with unread messages |
| AppTitle.ComputeTitle | client/App.tsx:26-56 | the title the switch leaves equals `TitleFor(path)` |
| AppTitle.Document.UpdateTitle | client/App.tsx:26-59 | the document title becomes `TitleFor(path)`, a function of the path alone |
| AppTitle.ListedTitles | client/App.tsx:34-51 | each listed exact path maps to its fixed title |
| AppTitle.ChatSubpathUnlisted | client/App.tsx:43-55 | no listed path starts with `/chat/` |
| AppTitle.ChatSubpath | client/App.tsx:43-55 | every `/chat/<x>` gets "Chat \| Praxis", while `/chat` does not |
| AppTitle.UnlistedGetsDefault | client/App.tsx:28-56 | any other path gets the same site title as `/` |
| AppTitle.OnboardingGetsDefault | client/App.tsx:28-56 | `/onboarding` gets the site title |
| SiteHeader.HidesIffTabPrefix | client/components/layout/SiteHeader.tsx:5-6 | the header hides exactly when the path starts with some bottom-tab path |
| SiteHeader.ActiveTabHides | client/components/layout/SiteHeader.tsx:5 | wherever a bottom tab is active, the header is hidden |
| SiteHeader.ChatterHides | client/components/layout/SiteHeader.tsx:5 | the test is a plain prefix test: `/chatter` hides the header though no tab is active there |
| SiteHeader.PublicPagesShowHeader | client/components/layout/SiteHeader.tsx:5 | `/`, `/auth` and `/onboarding` show the header |

## Left out

- Firestore calls (`getDoc`, `getDocs`, `addDoc`, `deleteDoc`, `onSnapshot`, `writeBatch`) are replaced by the in-memory `Store` and `MessageStore`. Remote failures, retries and toasts are not modelled.
- Concurrency, subscriptions, unsubscribe functions and races between sessions are not modelled. The listeners are methods the caller runs when it chooses.
- The refetch effect at client/pages/Dashboard.tsx:145-167 is not modelled separately, because it repeats `LoadMatches`.
- Partial failure is not modelled. If the connection write succeeds and the request delete fails (client/pages/Dashboard.tsx:241-248), the source leaves both documents; the model's actions always run to completion.
- The `if (!currentUser) return` guards are not modelled: a session always has a signed-in user, `self`.
- Navigation after like and accept, toasts, drag gestures and swipe thresholds are left out. They are presentation or pointer floats.
- Dates are natural numbers. `new Date().toISOString()` becomes the `now` parameter. An unresolved server timestamp is `None`, which orders as time 0.
- Text.ToLower: only ASCII letters are lower-cased. Full Unicode case mapping is not modelled.
- Text.LessOrEqual compares code points, whereas JavaScript compares UTF-16 code units. The two orders differ only for characters outside the Basic Multilingual Plane.
- The in-place sorts (client/pages/Chat.tsx:109, 129, 201; client/pages/Dashboard.tsx:197) are modelled as a pure stable sort on sequences. The model does not capture that the sort mutates the array it is called on.
- Chat.MessageStore.Send stores `Some(now)` directly as the server time. The interval in which the server timestamp is still pending is represented only by `Message.sentAt` being `None`.
- Chat.MessageStore.Send: the source's new message has no `read` field. The model stores `read: false`, which every `!msg.read` test treats the same way. Clearing the input after a send is not modelled.
- `LoadMatches` takes the user's own document as an `Option`, with its id already set. Fetching it is I/O.
- SkillSelector.Selector: `selected` stands for the `selectedSkills` property. The parent is assumed to pass back every list handed to `onSkillsChange`. Moving the focus back to the input after an addition (`inputRef.current?.focus()`, client/components/ui/SkillSelector.tsx:57) and the DOM `contains` test are not modelled.
- The conversation list's unread badge and the `99+` cap at client/pages/Chat.tsx:270 are rendering only and are left out.
- MatchEngine.ToMatch follows the code, so the score counts duplicate wish-list entries and a skill matched both ways twice. The multiset clauses of `TeachingMatches` and `LearningMatches` state the duplicate counting. `ScoreCountsBothWaysTwice` relates the score to `commonSkills` only for duplicate-free wish lists.
- Dashboard.ShownMatches: the held request list holds only inbound requests. The outbound half of the request test therefore never fires (`HeldRequestTestIsInboundOnly`), and a user whom the acting user has requested stays visible. The model keeps the code's behaviour.
- Auth plumbing, the local-storage hook, the settings, onboarding and profile forms, the routing gate, the landing page animation, other markup-only components, build configuration and mock data are not part of this model.
