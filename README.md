# VibeSnap state model in Dafny

VibeSnap is a client-side social-media demo: a feed of posts, stories, direct
messages and an administrator's panel, all held in the memory of the page. This
project models the part of it that is state and update rules rather than
rendering:

- the root component's store (`App.tsx`): the signed-in user, the post list,
  the user directory, the active tab and the overlay flags, with the handlers
  that toggle likes and saves, prepend a new post, sync a profile update, ban
  users, delete posts, navigate and log out (modules `Feed`, the pure list
  transforms, and `AppShell`, the class that holds the fields);
- the direct-message page (`pages/MessagesPage.tsx`): building a message,
  appending it to a thread, the scripted reply, the recording timer and its
  `m:ss` label (module `Chat`);
- the story viewer (`components/StoryViewer.tsx`): start position, next,
  previous, the progress timer and the progress bars (module `Stories`);
- the admin panel's derived views (`pages/AdminPage.tsx`): totals, pending
  reports, the case-insensitive user search, the ban labels and the delete
  button on a report (module `AdminViews`);
- the compose overlay (`components/CreateModal.tsx`): its two steps and the
  post that Share builds (module `Compose`);
- the sign-in page (`pages/AuthPage.tsx`): its three views, the simulated
  request and the mock user it yields (module `Auth`).

The records of `types.ts` are datatypes in `Types`; the seed data of
`constants.ts` is in `Fixtures`. `Lists` holds the two list shapes that most
handlers are built from (map-where for the like, save, ban and profile
updates and the thread append; filter for delete, the profile's posts and the
admin search) with their order and frame properties proved once; a new post
is a plain prepend, and navigation and log-out touch no list. `Decimal`
renders numbers below 10^21 as template literals do (larger ones switch to
exponent notation there; clock readings stay far below), with its inverse.

Modelling choices:

- Ids are not assumed unique: every entry carrying an id is updated or removed.
- `Date.now()` is a `now: nat` parameter and ids are built from it as the
  source builds them (`"m" + now`, `"p" + now`, `"user_" + now`);
  `new Date().toISOString()` is an opaque `isoTime` string parameter.
- JavaScript's `||` on strings is modelled with its falsy empty string: an
  empty selected file falls back to the placeholder image, a name or full
  name left empty (the log-in form has neither field) falls back to the seed
  identity's, and an empty active-thread id counts as no thread.
- The sign-in forms mark their inputs `required`, so the browser submits
  only when they are filled: the e-mail in the forgotten-password view, the
  e-mail and password for log-in, and also the full name and username for
  sign-up. `AuthPage.Submit` requires exactly that, and a log-in or sign-up in
  flight keeps those fields non-empty, so the e-mail the mock user carries is
  always the typed one.
- The optional flags `isAdmin` and `isBanned` are booleans whose absence is
  `false`, which is how every reader of them treats an absent flag. Like
  counts and other numbers are unbounded integers: the source never guards
  them, so a count can go below zero.
- Timers are explicit steps: the story timer is `StoryViewer.Tick`, the
  recording timer `MessagesPage.RecordingTick`, the scripted reply
  `MessagesPage.DeliverReply` (every reply timer has the same two-second
  delay, so pending replies fire first-in first-out), and the simulated
  sign-in request `AuthPage.Complete`. What a timer callback reads is fixed
  when it is scheduled (the target thread and the reply's sender; the
  sign-in view and fields), as the closures in the source fix it.
- A handler of `App.tsx` exists only once the auth gate has let a user in
  (`App.tsx:93-95`), so each one requires a signed-in user; `Login` (the
  sign-in page's `onLogin`) requires the opposite.
- A second submit while the sign-in request is in flight does nothing: the
  submit button is disabled while loading (`pages/AuthPage.tsx:90`, `:148`),
  which also blocks submitting with the Enter key.
- The story viewer reads `stories[currentIndex]` as soon as it opens, so its
  constructor requires at least one story; the application always passes the
  four seed stories.
- The scripted reply's text is kept character for character as the source
  file holds it: `"That looks great! "` followed by U+00F0 U+0178 U+2018,
  a thumbs-up emoji whose bytes were once decoded with the wrong encoding.
- `handleDeletePost` filters, so it removes every post with the id, not just
  one. The scripted reply's sender is looked up among the four seed users
  (`MOCK_USERS`), so it is the thread's counterpart only when that
  counterpart is a seed user, and `"unknown"` otherwise.
- A profile update replaces every directory entry with the user's id. A
  user who signed up has a clock-made id that no directory entry carries,
  so their update leaves the directory as it was (`Feed.ReplaceUserAbsent`).
- A shared post is always authored by the seed identity "me", so it shows
  on the signed-in user's profile after a log-in but never after a sign-up
  (`Compose.SharedPostMissingAfterSignup`).
- The admin page is handed the directory and the feed but reads the seed
  reports itself, so its pending figure is always 2.
- A text message sends the text in the input box; an image sends the read
  file and a voice note the fixed "Voice Note" content.
- The message page opens on the two seed conversations of `constants.ts`;
  their messages' timestamps are computed from the clock there, so they are
  parameters here.

## Model

| member | source | states |
|---|---|---|
| `Feed.LikeToggled` | App.tsx:101-107 | the like flag flips and the count moves by one in the flag's direction; no other field changes |
| `Feed.ToggleLike` | App.tsx:99-111 | length kept; every post with the id is like-toggled, every other post is unchanged in place |
| `Feed.LikeToggledTwice` | App.tsx:102-106 | two like clicks on a post restore its flag and count |
| `Feed.ToggleLikeTwice` | App.tsx:99-111 | two like clicks with the same id restore the whole post list |
| `Feed.ToggleLikeAbsent` | App.tsx:100-110 | an id no post carries leaves the list unchanged |
| `Feed.SaveToggled` | App.tsx:115 | only the saved flag flips |
| `Feed.ToggleSave` | App.tsx:113-117 | length kept; posts with the id have the saved flag flipped, others unchanged |
| `Feed.SaveClicksKeepLikes` | App.tsx:113-117 | any number of save clicks leaves every like count, like flag, id and author as it was |
| `Feed.ReplaceUser` | App.tsx:142 | length kept; every directory entry with the updated id becomes the updated record, others unchanged |
| `Feed.ReplaceUserLookup` | App.tsx:140-143 | after a profile update a lookup by id finds exactly the updated record |
| `Feed.ReplaceUserAbsent` | App.tsx:142 | an update whose id no directory entry carries leaves the directory unchanged |
| `Feed.BanToggled` | App.tsx:148 | only the banned flag flips, an absent flag counting as not banned |
| `Feed.ToggleBan` | App.tsx:146-150 | length kept; users with the id have the banned flag flipped, others unchanged |
| `Feed.ToggleBanTwice` | App.tsx:146-150 | two ban clicks restore the directory |
| `Feed.DeletePost` | App.tsx:152-154 | no post with the id remains, every other post remains in its original order, and the list shrinks by the number of posts with the id |
| `Feed.DeletePostTwice` | App.tsx:152-154 | a second delete of the same id is a no-op |
| `Feed.DeleteUniquePost` | App.tsx:153 | when exactly one post has the id, exactly one post is removed |
| `Feed.PostsBy` | App.tsx:235 | the profile lists exactly the user's own posts, in feed order, each as often as it occurs in the feed |
| `Feed.SeedPostLikeExample` | constants.ts:55-66 | seed post p2 goes from 3500 liked to 3499 unliked, and back on a second click |
| `AppShell.ScreenOf` | App.tsx:93-255 | without a user only the sign-in page shows; the admin page shows exactly to an administrator on the ADMIN tab; CREATE has no page |
| `AppShell.StoryViewerShown` | App.tsx:285 | the story overlay shows exactly while a non-empty story id is selected; no id or the empty id hides it |
| `AppShell.ProfileInSync` | App.tsx:140-143 | holds whenever nobody is signed in; when it holds and the directory has the signed-in id, the signed-in record itself is in the directory |
| `AppShell.App.constructor` | App.tsx:39-52 | starts signed out on HOME with no overlay, the seed feed and the seed directory plus the seed identity |
| `AppShell.App.Login` | App.tsx:93-95 | the user handed over by the sign-in page becomes the current user and the gate opens |
| `AppShell.App.LikePost` | App.tsx:99-111 | the post list becomes its like-toggled version; nothing else changes |
| `AppShell.App.SavePost` | App.tsx:113-117 | the post list becomes its save-toggled version; nothing else changes |
| `AppShell.App.NavClick` | App.tsx:119-125 | CREATE opens the compose overlay and keeps the tab; any other tab becomes active; CREATE is never the active tab |
| `AppShell.App.Logout` | App.tsx:127-132 | no user, HOME tab, menu closed, everything else kept; the gate shows the sign-in page |
| `AppShell.App.AddNewPost` | App.tsx:134-138 | the new post is first, followed by the old posts in order; overlay closed; HOME shown |
| `AppShell.App.UpdateProfile` | App.tsx:140-143 | the current user is the updated record and every directory entry with its id equals it |
| `AppShell.App.BanUser` | App.tsx:146-150 | the directory becomes its ban-toggled version; nothing else changes |
| `AppShell.App.DeletePost` | App.tsx:152-154 | the post list loses the posts with the id; nothing else changes |
| `AppShell.App.ToggleMenu` | App.tsx:207-208 | the menu flag flips |
| `AppShell.App.OpenSettingsFromMenu` | App.tsx:198 | SETTINGS becomes active and the menu closes |
| `AppShell.App.SelectStory` | App.tsx:223 | a story click selects the story, the viewer's close clears it |
| `AppShell.App.CloseCreate` | App.tsx:275 | the compose overlay closes |
| `AppShell.App.SetEditProfileOpen` | App.tsx:277-283 | the profile editor opens or closes |
| `AppShell.App.ToggleTheme` | App.tsx:243 | the dark-mode flag flips |
| `AppShell.App.ProfilePosts` | App.tsx:232-238 | the profile page gets exactly the signed-in user's posts, in feed order and with their multiplicity |
| `Chat.Preview` | pages/MessagesPage.tsx:75 | a text message previews as its text (empty when absent); any other as "Sent an " and its type |
| `Chat.Appended` | pages/MessagesPage.tsx:71-77 | the message is added after the earlier ones, which are unchanged; preview and "Just now" set; id, counterpart and unread count kept |
| `Chat.UpdateThreadMessages` | pages/MessagesPage.tsx:69-81 | thread count kept; threads with the id get the message appended, other threads unchanged |
| `Chat.UpdateKeepsIds` | pages/MessagesPage.tsx:70-80 | an update never changes a thread's id |
| `Chat.NewMessage` | pages/MessagesPage.tsx:41-50 | a sent message carries exactly the payload of its type (the voice-note path for audio), is sent by "me" and is own |
| `Chat.FindThread` | pages/MessagesPage.tsx:16 | finds a thread exactly when one has the id, and then the first one with it |
| `Chat.FindUser` | pages/MessagesPage.tsx:17 | finds a user exactly when one has the id, and then the first one with it |
| `Chat.ReplySender` | pages/MessagesPage.tsx:16-59 | the reply comes from the counterpart of the first thread with the id when that counterpart is a seed user with a non-empty id, and from "unknown" in every other case |
| `Chat.ReplyMessage` | pages/MessagesPage.tsx:57-64 | the reply is a well-formed text message with the fixed text, not own, from the given sender, with id "m" plus the clock plus one and the given time |
| `Chat.NoActiveThread` | pages/MessagesPage.tsx:39 | no selected thread and the empty id both count as no active thread, and nothing else does |
| `Chat.PaddedSeconds` | pages/MessagesPage.tsx:102-103 | the seconds part is exactly two digits and reads back as the seconds |
| `Chat.FormatTime` | pages/MessagesPage.tsx:100-104 | the label is the whole minutes, a colon, and the remaining seconds on two digits |
| `Chat.FormatTimeRoundTrip` | pages/MessagesPage.tsx:100-104 | minutes times 60 plus seconds read back from the label give the duration |
| `Chat.MessagesPage.constructor` | pages/MessagesPage.tsx:8-12 | opens on the two seed conversations with no thread selected, an empty box and no recording |
| `Chat.MessagesPage.SelectThread` | pages/MessagesPage.tsx:126 | a thread click or the back arrow sets the active thread |
| `Chat.MessagesPage.SetInputText` | pages/MessagesPage.tsx:230 | typing sets the input text |
| `Chat.MessagesPage.SendMessage` | pages/MessagesPage.tsx:38-67 | a text message carries the text in the box; with no active thread nothing changes; otherwise the message is appended to the active thread, the box is cleared and one reply from the counterpart is scheduled |
| `Chat.MessagesPage.DeliverReply` | pages/MessagesPage.tsx:56-66 | the oldest scheduled reply is appended to the thread it was scheduled for |
| `Chat.MessagesPage.StartRecording` | pages/MessagesPage.tsx:237 | recording starts |
| `Chat.MessagesPage.RecordingTick` | pages/MessagesPage.tsx:26-36 | the counter grows by one second while recording and stays 0 otherwise |
| `Chat.MessagesPage.StopRecording` | pages/MessagesPage.tsx:95-98 | recording stops, the counter resets and a voice note is sent as by SendMessage |
| `Chat.MessagesPage.RecordingLabel` | pages/MessagesPage.tsx:206 | the label shown while recording reads back as the counter |
| `Chat.SeedThreadExchange` | constants.ts:125-149 | on the seed conversations, a text sent to c1 becomes its preview marked "Just now", the reply comes from u1, c1 ends with two more messages and c2 is untouched |
| `Chat.SeedConversation` | pages/MessagesPage.tsx:8-66 | opening the page, selecting c1, sending a text and letting the reply timer fire leaves c1 with five messages, the fourth the sent text from "me", the fifth the fixed reply from u1 |
| `Stories.FindIndex` | components/StoryViewer.tsx:14 | the first position with the id, or -1 exactly when no story has it |
| `Stories.StartIndex` | components/StoryViewer.tsx:14-15 | the viewer opens on the first story with the id, or on position 0 when none has it |
| `Stories.BarWidth` | components/StoryViewer.tsx:64 | earlier bars are full, the current bar shows the progress, later bars are empty; within 0-100% whenever the progress is |
| `Stories.BarWidthsDescend` | components/StoryViewer.tsx:64 | every bar is within 0-100% and bars never grow from left to right |
| `Stories.StoryViewer.constructor` | components/StoryViewer.tsx:13-16 | opens on the start position with progress 0 |
| `Stories.StoryViewer.Next` | components/StoryViewer.tsx:36-42 | moves to the next story with progress restarted, or closes on the last story without moving |
| `Stories.StoryViewer.Prev` | components/StoryViewer.tsx:44-48 | moves back one story with progress restarted, or does nothing on the first |
| `Stories.StoryViewer.Tick` | components/StoryViewer.tsx:21-34 | at 100% or more moves on (or closes) and restarts at 0; otherwise adds 2; the position stays on a story and progress stays an even value in 0-100 |
| `Stories.StoryViewer.Width` | components/StoryViewer.tsx:59-66 | earlier bars are full, later bars empty, the current one shows the progress, all within 0-100% |
| `AdminViews.Dashboard` | pages/AdminPage.tsx:18-21 | the totals are the list lengths and the pending figure counts exactly the pending reports |
| `AdminViews.SeedDashboard` | constants.ts:151-154 | the seed data gives 4 users, 3 posts and 2 pending reports |
| `AdminViews.SeedReportsPending` | pages/AdminPage.tsx:21 | whatever the directory and feed, the pending figure over the seed reports is 2 |
| `AdminViews.DashboardAfterUniqueDelete` | pages/AdminPage.tsx:19-21 | deleting a post with a unique id lowers the post total by one and nothing else |
| `AdminViews.Lower` | pages/AdminPage.tsx:23 | lower-casing keeps the length and lower-cases each ASCII letter |
| `AdminViews.LowerIdempotent` | pages/AdminPage.tsx:23 | lower-casing twice is lower-casing once |
| `AdminViews.Contains` | pages/AdminPage.tsx:23 | true exactly when the needle occurs as a contiguous run of the hay |
| `AdminViews.FilterUsers` | pages/AdminPage.tsx:23 | a user is listed exactly when its lower-cased name contains the lower-cased term; the list keeps directory order and every matching entry |
| `AdminViews.EmptySearchKeepsAll` | pages/AdminPage.tsx:23 | an empty search lists every user |
| `AdminViews.SearchIgnoresCase` | pages/AdminPage.tsx:23 | searching for the lower-cased term lists the same users |
| `AdminViews.StatusBadge` | pages/AdminPage.tsx:104-108 | the badge reads "Banned" exactly for a banned user and "Active" exactly for any other |
| `AdminViews.BanButtonLabel` | pages/AdminPage.tsx:116 | the button reads "Unban" exactly for a banned user and "Ban" exactly for any other |
| `AdminViews.BanLabelsAgree` | pages/AdminPage.tsx:104-116 | the button reads "Unban" exactly for a banned user, whose badge reads "Banned"; a ban click flips both |
| `AdminViews.DeleteFromReport` | pages/AdminPage.tsx:158-160 | a report's Delete deletes posts by the report's target id whatever the target type |
| `AdminViews.UserReportDeleteKeepsPosts` | pages/AdminPage.tsx:159 | for a report about a user whose id no post carries, the feed is unchanged |
| `Compose.ImageOrPlaceholder` | components/CreateModal.tsx:61 | the selected file when there is a non-empty one, else the placeholder URL |
| `Compose.NewPost` | components/CreateModal.tsx:57-69 | a shared post has zero likes, no comments, is unliked and unsaved, authored by the seed identity, captioned as typed, "Just now", a photo |
| `Compose.NewPostIdsDiffer` | components/CreateModal.tsx:59 | posts shared at different clock readings have different ids |
| `Compose.SharedPostInFeed` | App.tsx:134-138 | a shared post, once first in the feed, is on the seed identity's ("me") profile, which is the signed-in user's only after a log-in, and its first like click gives it one like |
| `Compose.SharedPostMissingAfterSignup` | components/CreateModal.tsx:60 | a user who signed up does not find their own shared post on their profile |
| `Compose.CreateModal.constructor` | components/CreateModal.tsx:12-14 | opens on step 1 with no file and an empty caption |
| `Compose.CreateModal.FileLoaded` | components/CreateModal.tsx:22-25 | a read file becomes the selection and step 2 shows |
| `Compose.CreateModal.Back` | components/CreateModal.tsx:82 | back to step 1, keeping the selected file and the caption |
| `Compose.CreateModal.Close` | components/CreateModal.tsx:80 | step 1's button closes the overlay |
| `Compose.CreateModal.SetCaption` | components/CreateModal.tsx:127 | typing sets the caption |
| `Compose.CreateModal.Share` | components/CreateModal.tsx:85-86 | offered in step 2 only; hands over the post built from the selection and the caption |
| `Auth.OrElse` | pages/AuthPage.tsx:36-38 | an empty field falls back, a non-empty one is kept |
| `Auth.MockUser` | pages/AuthPage.tsx:34-41 | name, full name and e-mail fall back to the seed identity's when empty; the id is the seed id for log-in and "user_" plus the clock for sign-up; everything else, including the administrator flag, is the seed identity's |
| `Auth.SignupIdIsFresh` | pages/AuthPage.tsx:40 | a sign-up never gets the seed identity's id |
| `Auth.Offered` | pages/AuthPage.tsx:73-179 | every view button moves to another view; log-in leads to exactly the two other views; sign-up leads only back to log-in; log-in is reachable from both other views; only log-in leads to the forgotten-password view; forgot leads to sign-up exactly before the e-mail is sent |
| `Auth.AuthPage.constructor` | pages/AuthPage.tsx:11-17 | opens on the log-in view with empty fields, not loading |
| `Auth.AuthPage.SwitchView` | pages/AuthPage.tsx:73-179 | only the buttons on screen switch views: log-in to forgot (164) and sign-up (177), sign-up to log-in (179), forgot to log-in (169, 73) and, before the e-mail is sent, to sign-up (101) |
| `Auth.AuthPage.SetFields` | pages/AuthPage.tsx:85-143 | typing sets the fields |
| `Auth.AuthPage.Submit` | pages/AuthPage.tsx:19-32 | offered only with the form's required inputs filled; loading starts and the request is recorded with the view and fields of the moment; a submit while loading does nothing |
| `Auth.AuthPage.Complete` | pages/AuthPage.tsx:23-45 | a reset request marks the e-mail as sent and logs nobody in; a log-in or sign-up yields the mock user, carrying the typed e-mail and, for a sign-up, the typed name and full name; loading stops; the password is never read |
| `Decimal.NatToString` | pages/MessagesPage.tsx:103 | a number renders as a non-empty run of digits without a leading zero |
| `Decimal.ParseNatToString` | pages/MessagesPage.tsx:103 | reading a rendered number back gives the number |
| `Decimal.NatToStringInjective` | pages/MessagesPage.tsx:42 | different clock readings render differently, so ids built from them differ |

## Left out

- Local-storage hydration and persistence (App.tsx:55-82): browser storage I/O; the model keeps the state, not its stored copy.
- Dark-mode detection with `matchMedia` and the DOM class toggle (App.tsx:64-67, 84-90): DOM side effects; only the `isDarkMode` flag is modelled.
- Timer delays and intervals (the 50 ms story timer, the one-second recording timer, the two-second reply, the one and 1.5 second sign-in delays): only the state changes they cause are modelled, as explicit steps; their cancellation on unmount is not.
- The AI caption request `generateCaption` (components/CreateModal.tsx:30-55): a network call into a library that is not part of this model.
- File reading with `FileReader` (components/CreateModal.tsx:18-28, pages/MessagesPage.tsx:83-93) and scrolling the chat into view (pages/MessagesPage.tsx:19-24): browser APIs; a read file enters the model as its data-URL string.
- `Date.now()` and `toISOString()`: parameters, not a clock; the model does not assume that two readings differ.
- `shortNum` (pages/ReelsPage.tsx): floating-point division and `toFixed`.
- The rendering-only pages and components (home, explore, profile, settings, notifications, reels, the post card, the profile editor) and the admin page's own tab selector: presentation state only.
- `Auth.AuthPage.Submit`: the browser's e-mail format check on the forgotten-password input (`type="email"`) is not modelled; only its non-emptiness is.
- `AdminViews.Lower`: lower-cases ASCII letters only; `toLowerCase` also folds non-ASCII letters.
- The message page across mounts: it is mounted only while the MESSAGES tab is active (App.tsx:231), so leaving the tab resets its threads to the seed conversations and drops reply timers still pending; the model covers one mount.
- Username uniqueness and cascading deletes: the source enforces neither, so the model does not either.
