# Ember: the mock backend and the page rules, in Dafny

Ember is a single-page React app where startup founders and funders sign up,
keep a profile, post to a shared feed, browse each other in directories, send
direct messages, keep a personal schedule and ask a small help bot. All data
lives in an in-memory mock backend (`services/firebase.ts`). This project
models that backend and the rules the pages apply to its data.

- `Types` — the records of `types.ts`: `UserProfile` (the ten optional detail
  fields as `Option<string>`), `Post` with its author snapshot, `Message`,
  `Conversation`, `UserEvent`, and `ProfilePatch` for `Partial<UserProfile>`
  with the object-spread merge `ApplyPatch`.
- `Firebase` — the class `Backend`, whose fields are the module-level
  variables of the mock: the user table, the current user, the post list, the
  message logs keyed by conversation id, and the three kinds of listener slot.
  Every callback invocation is appended to the field `delivered`, so the
  contracts say who is called, with what, and when nobody is.
- `Messages` — the canonical conversation id (`[a, b].sort().join('_')`),
  opening a conversation with a target user, sending from the page and the
  optimistic insertion of a new conversation; `MessagesState` is the page state.
- `Feed` — the All / Founders / Funders filter with newest-first order, and
  post submission that refuses blank text.
- `Directories` — the founder and funder lists, the de-duplicated dropdown
  options, and the search-and-dropdown filters.
- `Schedule` — loading the saved events, add / delete / clear, and the
  chronological display order; `ScheduleState` is the page state.
- `HelpBot` — the keyword answers in priority order and the chat widget state.
- `Text`, `Seqs`, `Wrappers` — the JavaScript built-ins these rely on
  (`split`/`join`, `trim`, ASCII `toLowerCase`, `includes`, the comparator
  sort, `filter`, `find`, `new Set`), each specified by its own contract or by
  lemmas about it.
- `Scenarios` — client code written against `Backend`, with its outcomes proved: a founder and a funder sign
  up, the founder posts and messages the funder, and each sees exactly one
  conversation ending in that message; an unsubscribed message watcher is not
  called again.

Clock readings (`Date.now()`, `new Date()`) become parameters: ids and
timestamps are passed in by the caller, and timestamps are integers in
milliseconds. Callbacks are identified by a number (`CallbackId`); the
`setTimeout(…, 100)` first deliveries are recorded at once.

The model follows the code, which is looser than one might expect:

- `createPost` and `sendMessage` do not reject blank text; only the pages do
  (`Feed.SubmitPost`, `Messages.MessagesState.HandleSendMessage`).
- `updateUserProfile` with an unknown uid changes nothing and reports nothing
  (`Firebase.PatchUnknownUid`). The patch may also change `uid`, `email` and
  `role`, so distinct emails are preserved by sign-up but are not an invariant
  of the store.
- A conversation exists in the store only after its first message; before
  that the page shows a local conversation with no last message
  (`Messages.Transient`).
- A key whose two parts are the same user lists nothing
  (`Messages.SelfConversationNotListed`).

## Model

| member | source | states |
|---|---|---|
| `Types.ApplyPatch` | services/firebase.ts:77-80 | every field the patch supplies replaces the profile's, every field it omits is kept |
| `Types.ApplyEmptyPatch` | services/firebase.ts:77 | merging an empty partial profile leaves the profile unchanged |
| `Types.ApplyPatchIdempotent` | services/firebase.ts:77 | merging the same partial profile twice equals merging it once |
| `Types.ApplyPatchCombine` | services/firebase.ts:76-82 | two successive updates equal one update with the merged patch, later fields winning |
| `Firebase.Notify` | services/firebase.ts:15-17 | a no-op listener slot produces no delivery; a registered callback gets exactly one delivery, of the payload |
| `Firebase.SeedFounder` | services/firebase.ts:6 | the seeded founder: uid 1, role Founder, email founder@test.com |
| `Firebase.SeedFunder` | services/firebase.ts:7 | the seeded funder: uid 2, role Funder, email funder@test.com |
| `Firebase.SeedUsers` | services/firebase.ts:5-8 | two profiles: uid 1 the founder with founder@test.com, uid 2 the funder with funder@test.com, emails distinct |
| `Firebase.NewUser` | services/firebase.ts:29-34 | the given uid, email and role, the name New User, the picsum photo URL for the uid, and no profile details |
| `Firebase.FindByEmail` | services/firebase.ts:28 | nothing found exactly when no profile has the email; otherwise the first profile with it |
| `Firebase.FindByUid` | services/firebase.ts:73 | nothing found exactly when no profile has the uid; otherwise the first profile with it |
| `Firebase.PatchUsers` | services/firebase.ts:77 | same length; profiles with the uid are merged with the patch, every other profile is unchanged |
| `Firebase.PatchUnknownUid` | services/firebase.ts:76-82 | an update for a uid nobody has leaves the table unchanged |
| `Firebase.AppendKeepsEmailsDistinct` | services/firebase.ts:28-35 | appending a profile whose email is not taken keeps emails distinct |
| `Firebase.UidOf` | services/firebase.ts:23 | the auth payload is null exactly when nobody is signed in, else that user's uid |
| `Firebase.MakePost` | services/firebase.ts:89-99 | the post carries the author's uid, name, photo and role, the content and the time given |
| `Firebase.Last` | services/firebase.ts:123-124 | no last message exactly for an empty log, else its final element |
| `Firebase.OtherPart` | services/firebase.ts:114-115 | nothing when every part of the key is the user, else the first part of the key that differs from the user |
| `Firebase.ConversationFor` | services/firebase.ts:113-127 | a conversation exactly when the other id exists and both profiles resolve; participants self then other, last message of the log |
| `Firebase.Listed` | services/firebase.ts:111-128 | lists exactly the stored keys that name the user and resolve, each as its conversation |
| `Firebase.ListedOnce` | services/firebase.ts:111-128 | distinct stored keys list each conversation once: no two listed conversations share an id |
| `Firebase.PermutationKeepsDistinctIds` | services/firebase.ts:130 | re-ordering the listed conversations by time keeps their ids distinct |
| `Firebase.ConversationsFor` | services/firebase.ts:130 | a permutation of the listed conversations, newest last message first, empty ones as time 0; distinct stored keys give distinct ids |
| `Firebase.ConversationsForMembership` | services/firebase.ts:110-130 | a key is listed for a user exactly when it is stored, names the user and both profiles resolve |
| `Firebase.Backend.constructor` | services/firebase.ts:5-17 | the two seed profiles, no posts, no logs, no current user, every listener a no-op |
| `Firebase.Backend.OnAuthStateChanged` | services/firebase.ts:21-25 | the callback replaces the auth listener and is called once with the current uid or null |
| `Firebase.Backend.UnsubscribeAuth` | services/firebase.ts:24 | the auth listener is reset to a no-op |
| `Firebase.Backend.SignUp` | services/firebase.ts:27-39 | a taken email fails with the in-use error and changes nothing; otherwise the new profile is appended, signed in and announced, and distinct emails stay distinct |
| `Firebase.Backend.SignInByEmail` | services/firebase.ts:41-63 | an unknown email fails with the given error and changes nothing; otherwise the first profile with it is signed in and announced |
| `Firebase.Backend.SignIn` | services/firebase.ts:41-47 | sign-in by email with the user-not-found error; the password plays no part |
| `Firebase.Backend.SignInWithGoogle` | services/firebase.ts:49-55 | signs in the founder@test.com profile or fails with the Google error |
| `Firebase.Backend.SignInWithApple` | services/firebase.ts:57-63 | signs in the funder@test.com profile or fails with the Apple error |
| `Firebase.Backend.SignOut` | services/firebase.ts:65-68 | nobody is signed in and the auth listener is told null |
| `Firebase.Backend.GetUserProfile` | services/firebase.ts:72-74 | null exactly when no profile has the uid, else the first stored profile with that uid |
| `Firebase.Backend.GetAllUsers` | services/firebase.ts:84-86 | every stored profile, in table order |
| `Firebase.Backend.UpdateUserProfile` | services/firebase.ts:76-82 | the table is patched by uid, and the current user is patched too exactly when its uid matches |
| `Firebase.Backend.CreatePost` | services/firebase.ts:88-102 | the new post goes first, the rest follow in order, and the post listener gets the new list |
| `Firebase.Backend.GetPosts` | services/firebase.ts:104-108 | the callback becomes the post listener and is called once with the current list |
| `Firebase.Backend.UnsubscribePosts` | services/firebase.ts:107 | the post listener is reset to a no-op |
| `Firebase.Backend.GetConversations` | services/firebase.ts:110-132 | the user's listable conversations as a permutation, newest last message first, each conversation once |
| `Firebase.Backend.GetMessages` | services/firebase.ts:134-138 | the callback is registered for that id only and called once with its log, or an empty one |
| `Firebase.Backend.UnsubscribeMessages` | services/firebase.ts:137 | only the listener of that id is removed |
| `Firebase.Backend.SendMessage` | services/firebase.ts:140-155 | the log is created on first use and the message appended at its end, the key order records new ids once, and only that id's listener is called |
| `Messages.CanonicalId` | components/Messages.tsx:45 | the smaller uid (by character order), one `_`, then the other; for uids without `_` its parts are the two uids, smaller first |
| `Messages.CanonicalIdSymmetric` | components/Messages.tsx:45 | both users compute the same conversation id |
| `Messages.CanonicalIdParts` | components/Messages.tsx:45 | for uids without `_`, splitting the id gives back the two uids in sorted order |
| `Messages.CanonicalIdListedForBoth` | services/firebase.ts:110-128 | for two distinct uids without `_` whose profiles both resolve, once their canonical id is stored the conversation is listed for both users |
| `Messages.SelfConversationNotListed` | services/firebase.ts:114-121 | a conversation of a user with themself is never listed |
| `Messages.Transient` | components/Messages.tsx:44-48 | the local conversation has participants self then target, no last message, and the canonical id |
| `Messages.ChooseConversation` | components/Messages.tsx:37-51 | an existing conversation with the target wins; otherwise a resolvable target gets a new local one; otherwise the selection stays |
| `Messages.AddIfNew` | components/Messages.tsx:74-77 | a conversation already present by id leaves the list; a new one goes first |
| `Messages.AddIfNewProperties` | components/Messages.tsx:74-77 | inserting keeps ids distinct, makes the id present, and is idempotent |
| `Messages.OtherParticipant` | components/Messages.tsx:81 | the first participant of the selection whose uid is not mine, nothing exactly when there is none |
| `Messages.OtherParticipantOfTransient` | components/Messages.tsx:44-48 | for a target other than me, the other participant of a new local conversation is the target |
| `Messages.OtherParticipantOfListed` | services/firebase.ts:116-119 | a listed conversation always has another participant |
| `Messages.MessagesState.constructor` | components/Messages.tsx:14-17 | no conversations, no selection, empty input |
| `Messages.MessagesState.LoadConversations` | components/Messages.tsx:26-29 | the page list is what the backend lists for this user |
| `Messages.MessagesState.SetNewMessage` | components/Messages.tsx:137 | the input holds the typed text |
| `Messages.MessagesState.Select` | components/Messages.tsx:31-33 | the chosen conversation is selected |
| `Messages.MessagesState.HandleInitialTarget` | components/Messages.tsx:35-58 | with no target nothing changes; with one the selection follows the conversation-choice rule |
| `Messages.MessagesState.OtherUser` | components/Messages.tsx:81 | the first participant of the selected conversation whose uid is not mine, nothing exactly when there is none |
| `Messages.MessagesState.HandleSendMessage` | components/Messages.tsx:69-79 | sends exactly when the trimmed input is non-empty and a conversation is selected, then clears the input and adds a new conversation to the list; otherwise nothing changes |
| `Feed.FilteredPosts` | components/Feed.tsx:75-82 | a permutation of the posts the filter keeps, newest first |
| `Feed.FilteredPostsCount` | components/Feed.tsx:75-82 | each post appears as often as in the feed if the filter keeps it, else never |
| `Feed.FilteredPostsMembership` | components/Feed.tsx:76-81 | All shows every post, Founders exactly the founders' posts, Funders exactly the funders' |
| `Feed.FoundersAndFundersPartitionFeed` | components/Feed.tsx:76-81 | the Founders and Funders views together hold the feed exactly once |
| `Feed.NewestFirstStorageIsDisplayOrder` | components/Feed.tsx:82 | a feed already newest-first is shown in stored order under All |
| `Feed.PrependKeepsNewestFirst` | services/firebase.ts:100 | putting a post no older than the first one at the front keeps the list newest-first |
| `Feed.SubmitPost` | components/Feed.tsx:65-73 | posts exactly when the text is not blank, then the post goes first and the listener is told; otherwise nothing changes |
| `Directories.Founders` | components/Directories.tsx:53 | exactly the users whose role is Founder |
| `Directories.Funders` | components/Directories.tsx:54 | exactly the users whose role is Funder |
| `Directories.RolePartition` | components/Directories.tsx:53-54 | founders and funders split the users, each list in the original order |
| `Directories.Project` | components/Directories.tsx:56-58 | the chosen detail of each user, in order |
| `Directories.Truthy` | components/Directories.tsx:56-58 | exactly the non-empty supplied values |
| `Directories.OptionList` | components/Directories.tsx:56-58 | exactly the non-empty supplied values, each once |
| `Directories.OptionListOrder` | components/Directories.tsx:56-58 | options keep the order of their first occurrence |
| `Directories.Industries` | components/Directories.tsx:56 | the industry options are distinct and are exactly the non-empty industries of founders |
| `Directories.FundingStages` | components/Directories.tsx:57 | the funding-stage options are distinct and are exactly the non-empty funding stages of founders |
| `Directories.PreferredStages` | components/Directories.tsx:58 | the preferred-stage options are distinct and are exactly the non-empty preferred stages of funders |
| `Directories.EmptySearchMatchesAll` | components/Directories.tsx:63 | an empty search matches every name |
| `Directories.SearchIgnoresCase` | components/Directories.tsx:63 | upper-casing the name or the search term does not change the match |
| `Directories.FilteredFounders` | components/Directories.tsx:60-64 | exactly the founders whose industry and stage match the non-empty choices and whose name contains the search |
| `Directories.FilteredFunders` | components/Directories.tsx:65-68 | exactly the funders whose preferred stage matches the non-empty choice and whose name contains the search |
| `Directories.FilteredListsKeepOrder` | components/Directories.tsx:60-68 | the filtered lists keep directory order |
| `Directories.NoFiltersShowEveryone` | components/Directories.tsx:60-68 | with no search and no choices the lists are the full founder and funder lists |
| `Directories.FundersIgnoreFounderFilters` | components/Directories.tsx:65-68 | the industry and funding-stage choices do not affect the funder list |
| `Schedule.LoadedEvents` | components/Schedule.tsx:25-34 | stored events are loaded as saved; a missing or unreadable slot loads nothing |
| `Schedule.TimeValueBound` | types.ts:53 | an `HH:MM` time reads as a number below 10000 |
| `Schedule.EarlierDateFirst` | components/Schedule.tsx:75-79 | an event on an earlier date sorts before one on a later date, whatever the times |
| `Schedule.SortedEvents` | components/Schedule.tsx:75-79 | a permutation of the events in non-decreasing date-and-time order |
| `Schedule.WithoutId` | components/Schedule.tsx:64-66 | exactly the events whose id differs |
| `Schedule.WithoutIdKeepsOthers` | components/Schedule.tsx:64-66 | every other event is kept as often as before, in order; the deleted id is gone |
| `Schedule.ScheduleState.SortedUserEvents` | components/Schedule.tsx:75-79 | the page's events as a permutation in non-decreasing date-and-time order |
| `Schedule.ScheduleState.Load` | components/Schedule.tsx:19-34 | the page starts with the loaded events and an empty form |
| `Schedule.ScheduleState.SetForm` | components/Schedule.tsx:20-23 | the form holds the typed fields |
| `Schedule.ScheduleState.AddEvent` | components/Schedule.tsx:44-62 | adds exactly when title, date and time are non-empty, appending the event and clearing the form; otherwise nothing changes |
| `Schedule.ScheduleState.DeleteEvent` | components/Schedule.tsx:64-66 | the events become those without that id |
| `Schedule.ScheduleState.ClearAllEvents` | components/Schedule.tsx:68-73 | confirmed clears all events, declined keeps them |
| `HelpBot.GetBotResponse` | components/HelpBot.tsx:28-40 | one of four answers; profile/edit wins over post/update, which wins over message/chat, else the fallback, matched case-insensitively |
| `HelpBot.ResponseIgnoresCase` | components/HelpBot.tsx:29 | upper- or lower-casing the question does not change the answer |
| `HelpBot.EditBeatsPost` | components/HelpBot.tsx:30-34 | a question naming both edit and post, in any letter case, gets the profile answer and not the post answer |
| `HelpBot.EditMyPostGetsProfileAnswer` | components/HelpBot.tsx:30-34 | the question "Edit my POST" gets the profile answer (an example) |
| `HelpBot.BotState.constructor` | components/HelpBot.tsx:11-13 | closed, no messages, empty input |
| `HelpBot.BotState.Toggle` | components/HelpBot.tsx:16-22 | opening shows only the greeting, closing empties the chat |
| `HelpBot.BotState.SetInput` | components/HelpBot.tsx:81 | the input holds the typed text |
| `HelpBot.BotState.HandleSend` | components/HelpBot.tsx:42-49 | sends exactly when the input is not blank, appending the user's message then the bot's answer and clearing the input |
| `Text.SplitJoin` | services/firebase.ts:112-114 | splitting a joined id gives back its `_`-free parts |
| `Text.SortPair` | components/Messages.tsx:45 | the two ids in non-decreasing string order, as a permutation |
| `Text.Trim` | components/Messages.tsx:71 | the text without its leading and trailing white space: a slice of the input with blank text on either side, empty exactly when the text is all white space, and otherwise starting and ending with a non-space |
| `Text.HasText` | components/Messages.tsx:71 | the submit guards' `!!s.trim()` holds exactly when some character is not white space |
| `Text.HasTextIffTrimmed` | components/Feed.tsx:67 | the guard holds exactly when trimming leaves a non-empty string |
| `Text.Split` | services/firebase.ts:112-114 | at least one part, and no part contains the separator |
| `Text.JoinSplit` | components/Messages.tsx:45 | joining the parts of a split gives back the string, so `join` undoes `split` |
| `Text.ToLower` | components/Directories.tsx:63 | same length, each character lower-cased |
| `Text.ContainsAt` | components/Directories.tsx:63 | `includes` holds exactly when the needle occurs at some position |
| `Seqs.Filter` | components/Feed.tsx:76-81 | exactly the elements the test keeps, never more than the input |
| `Seqs.Find` | components/Messages.tsx:81 | nothing exactly when no element passes, else the first element that passes |
| `Seqs.SortByKey` | services/firebase.ts:130 | the comparator sort yields a permutation ordered by key, largest first |
| `Seqs.SortSortedUnchanged` | components/Feed.tsx:82 | sorting a list already in key order leaves it unchanged |
| `Seqs.Dedup` | components/Directories.tsx:56-58 | `new Set` keeps every value once and nothing else |

## Left out

- Real passwords, sessions and persistence: the password argument is ignored, as in the mock.
- The 100 ms `setTimeout` before first deliveries: deliveries are recorded immediately, so the order of timer callbacks against later calls is not modelled.
- `Firebase.Backend.GetMessages`: the first delivery hands the live log rather than a copy; aliasing is not modelled, the delivery records the log's value at that moment.
- `Firebase.Backend.GetConversations`: the callback and the no-op unsubscribe of `getConversations` are not modelled; the function is the list the callback would receive.
- `Firebase.Backend.GetAllUsers`: returns the table; the copy is a value in the model.
- Uniqueness of `Date.now()`-based ids: ids are parameters, and two sign-ups in the same millisecond are the caller's concern.
- `Firebase.Backend.SendMessage`: `Object.keys` lists integer-like keys first; the model keeps plain insertion order.
- `Types.ApplyPatch`: a patch field that is present but `undefined` is not modelled; a field is either supplied or omitted.
- `Text.ToLower`: only ASCII letters are mapped; other case mappings of `toLowerCase` are not modelled.
- `Text.Less`: string order is by code point, not by UTF-16 code unit; they differ only for characters outside the basic plane.
- `Schedule.SortedEvents`: `new Date(date + "T" + time)` is replaced by the digits of the date times 10000 plus the digits of the time, which orders well-formed `YYYY-MM-DD`/`HH:MM` pairs as wall-clock readings. `new Date` reads them in the local time zone, so inside a daylight-saving spring-forward gap an event at 02:30 becomes 03:30 and sorts after one at 03:15 on the page but before it in the model; time zones and invalid dates (NaN) are not modelled.
- `Schedule.ScheduleState.SortedUserEvents`: uses the same wall-clock key as `Schedule.SortedEvents`, with the same daylight-saving and invalid-date gaps.
- `Seqs.SortByKey`: stability is proved only for input already in order; the order among equal keys otherwise is not stated.
- `JSON.parse` and `localStorage` are inputs: a stored slot is Missing, Unreadable or the parsed events; the save effect and `removeItem` are not modelled.
- `window.alert` and `window.confirm`: the alert is not modelled; the confirmation answer is a parameter.
- Feed's `isLoading` flag and clearing of the post box, the Messages page's `messages` list, scrolling, `resetMessageTarget` and the render markup are not modelled.
- The React effect wiring (when effects re-run) is not modelled; each handler is a method called directly.
- `App.tsx`, `Auth.tsx`, `Profile.tsx` and `Community.tsx` are not part of this model, nor is the fixed residency schedule list in `Schedule.tsx`.
