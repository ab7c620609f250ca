# picthread-socius interaction state, in Dafny

This project models the client-side interaction logic of a photo and status
sharing app's React front end. Four components hold state that changes in
response to the user:

- **Post** (`post.dfy`, class `Post.PostCard`): liking and unliking a post,
  bookmarking it, opening the comment panel, and submitting a comment draft.
  The like counter always equals the initial `likes` plus one while liked.
  A draft is submitted and cleared only when its `trim()` is non-empty.
- **Topic selection** (`topic_selection.dfy`, class `TopicSelection.TopicPicker`):
  an ordered list of topic ids used as a set. Toggling appends an absent id
  and filters out a present one. The pure list update is `TopicSelection.Toggle`.
  The lemmas beside it prove membership flips, order preservation,
  no-duplicates preservation, both double-toggle round trips and the
  "n / 20" bound.
- **Status composer** (`add_status.dfy`, class `AddStatus.StatusComposer`):
  an empty-status guard that does not trim the text, a palette of eight
  background colours, and a simulated upload. The upload's interval adds 10
  per tick and stops at the first value of at least 100. `AddStatus.RunUpload`
  presses Share on a composer and ticks the new interval to its end; it proves
  that `progress` receives 10, 20, …, 100.
- **Post composer** (`add_post.dfy`, class `AddPost.PostComposer`): a
  no-image guard, cancel, and remove-image.

`js.dfy` holds the JavaScript semantics these rely on. A string is truthy
when it is non-empty. A `string | null` image is present only when it is a
non-empty string. `String.prototype.trim` strips ECMAScript's WhiteSpace and
LineTerminator code points.

Each component is a class whose fields are its `useState` variables. Each
event handler is a method whose `modifies` clause names exactly the fields
it sets, so every other field is unchanged. Each timer callback is an
explicit method. Each button's `disabled` condition is a function
(`CanSave`, `CanShare`, …), and a `Press…` method per button proves what a
press of the enabled button does. For `setTimeout` completions, a `pending` counter records
how many completions are scheduled and not yet fired, and the completion
method requires one. For the upload `setInterval`, the class keeps the
closure counter of every running interval. `handleSubmit` does not check
`isLoading`, so several intervals may run at once.

## Model

| member | source | states |
|---|---|---|
| `Js.TrimStart` | src/components/Post.tsx:39 | the result is a suffix of the input, every dropped character is whitespace, and it does not start with whitespace |
| `Js.TrimEnd` | src/components/Post.tsx:39 | the result is a prefix of the input, every dropped character is whitespace, and it does not end with whitespace |
| `Js.Trim` | src/components/Post.tsx:39 | `trim()` gives a contiguous slice of the input; everything before and after it is whitespace; a non-empty result neither starts nor ends with whitespace |
| `Js.BlankIffAllWhitespace` | src/components/Post.tsx:39 | `trim()` is empty exactly when every character is whitespace |
| `Js.TrimIdempotent` | src/components/Post.tsx:39 | trimming a trimmed string changes nothing |
| `Post.PostCard.constructor` | src/components/Post.tsx:18-22 | a new card is not liked, not saved, has its panel closed and an empty draft, and `likesCount` equals the `likes` prop; the like invariant holds |
| `Post.PostCard.HandleLike` | src/components/Post.tsx:24-31 | `liked` flips; the counter goes down by one when it was liked and up by one otherwise; `likesCount == likes + (liked ? 1 : 0)` is preserved, so the counter never drops below `likes`; nothing else changes |
| `Post.PostCard.HandleSave` | src/components/Post.tsx:33-35 | `saved` flips and nothing else changes |
| `Post.PostCard.ToggleComments` | src/components/Post.tsx:89-91 | the comment icon and the "View all" link flip `showComments` and nothing else |
| `Post.PostCard.SetComment` | src/components/Post.tsx:139 | typing replaces the draft and nothing else |
| `Post.PostCard.HandleSubmitComment` | src/components/Post.tsx:37-43 | a submit is accepted exactly when the trimmed draft is non-empty; an accepted submit clears the draft to ""; a rejected one leaves it unchanged |
| `Post.PostCard.CanPost` | src/components/Post.tsx:145-147 | the Post button is enabled exactly when the draft holds a non-whitespace character |
| `Post.LikeTwiceRestores` | src/components/Post.tsx:24-31 | two likes in a row restore `liked`, `likesCount` and every other field |
| `Post.SaveTwiceRestores` | src/components/Post.tsx:33-35 | two saves in a row are the identity on the card |
| `TopicSelection.Without` | src/pages/TopicSelection.tsx:42 | the filter keeps exactly the ids other than `t`, is no longer than its input, and keeps a duplicate-free list duplicate-free |
| `TopicSelection.WithoutConcat` | src/pages/TopicSelection.tsx:42 | filtering distributes over concatenation, so the remaining ids keep their relative order |
| `TopicSelection.WithoutAbsent` | src/pages/TopicSelection.tsx:41-42 | filtering out an id that is absent returns the list unchanged |
| `TopicSelection.WithoutAt` | src/pages/TopicSelection.tsx:41-42 | in a duplicate-free list, filtering out the id at position i deletes exactly position i |
| `TopicSelection.Toggle` | src/pages/TopicSelection.tsx:39-47 | after a toggle, `t` is present exactly when it was absent before; every other id keeps its membership; an absent id is appended at the end with the existing prefix unchanged; no duplicates are introduced |
| `TopicSelection.TogglePresent` | src/pages/TopicSelection.tsx:41-42 | in a duplicate-free list, toggling a present id removes only its position and keeps the order of the rest |
| `TopicSelection.ToggleTwiceAbsent` | src/pages/TopicSelection.tsx:39-47 | toggling an absent id twice returns exactly the original list |
| `TopicSelection.ToggleTwicePresent` | src/pages/TopicSelection.tsx:39-47 | in a duplicate-free list, toggling a present id twice moves it to the end and leaves the other ids in order |
| `TopicSelection.SelectionFitsCatalogue` | src/pages/TopicSelection.tsx:104 | a duplicate-free selection of catalogue ids has at most 20 entries, the size of the catalogue |
| `TopicSelection.TopicPicker.constructor` | src/pages/TopicSelection.tsx:34-35 | the selection starts empty and nothing is saving |
| `TopicSelection.TopicPicker.ToggleTopic` | src/pages/TopicSelection.tsx:39-47 | the selection becomes `Toggle` of the old one; the clicked topic's highlight flips and every other topic keeps its highlight; a newly selected topic enables Clear All; the no-duplicates invariant is kept; staying within the catalogue is kept for catalogue ids |
| `TopicSelection.TopicPicker.ClearAll` | src/pages/TopicSelection.tsx:72-74 | the selection becomes empty, no topic is highlighted, and both Clear All and Save Preferences are disabled |
| `TopicSelection.TopicPicker.HandleSave` | src/pages/TopicSelection.tsx:49-62 | a save is accepted exactly when the selection is non-empty; a rejected save leaves `isLoading` alone; an accepted one sets it, schedules the completion and leaves Save Preferences disabled |
| `TopicSelection.TopicPicker.CompleteSave` | src/pages/TopicSelection.tsx:62-69 | the delayed completion clears `isLoading` |
| `TopicSelection.PressSave` | src/pages/TopicSelection.tsx:128-130 | a press of Save Preferences while it is enabled is always accepted; it keeps the selection, sets `isLoading`, schedules one completion and disables the button |
| `TopicSelection.PressClearAll` | src/pages/TopicSelection.tsx:91-95 | Clear All is enabled only with something selected; pressing it empties the selection and disables both Clear All and Save Preferences without touching the save state |
| `AddStatus.RunUpload` | src/pages/AddStatus.tsx:35-54 | Share then the new interval's ticks on a composer: an accepted status publishes exactly ten values to `progress`, the k-th being 10·k; they strictly increase, all before the last are below 100, the last is 100, the interval is gone and one completion is scheduled; a rejected status publishes nothing and changes nothing; image, text and colour never change |
| `AddStatus.WhitespaceStatusIsNotEmpty` | src/pages/AddStatus.tsx:36 | every non-empty text made only of whitespace, with no image, passes the empty check although its trim is blank |
| `AddStatus.StatusComposer.constructor` | src/pages/AddStatus.tsx:10-14 | no image, empty text, background '#000000', not loading, progress 0, no upload running |
| `AddStatus.StatusComposer.SelectImage` | src/pages/AddStatus.tsx:19-33 | the picked image becomes the selected image and nothing else changes |
| `AddStatus.StatusComposer.SetText` | src/pages/AddStatus.tsx:124 | typing replaces the text and nothing else |
| `AddStatus.StatusComposer.RemoveImage` | src/pages/AddStatus.tsx:116 | the image becomes null; text, colour and everything else are unchanged |
| `AddStatus.StatusComposer.SelectColor` | src/pages/AddStatus.tsx:184-193 | clicking the i-th palette button sets `bgColor` to that colour and nothing else |
| `AddStatus.StatusComposer.HandleSubmit` | src/pages/AddStatus.tsx:35-48 | a submit is rejected exactly when there is no truthy image and the text is ""; a rejected one leaves `isLoading` and the uploads alone; an accepted one sets `isLoading`, starts an interval counting from 0 and leaves Share disabled; `progress`, the image and the text are untouched |
| `AddStatus.StatusComposer.Tick` | src/pages/AddStatus.tsx:49-54 | a tick adds 10 to its interval's counter and publishes it to `progress`; the new value never exceeds 100; the interval stops and schedules the completion exactly when 100 is reached |
| `AddStatus.StatusComposer.CompleteUpload` | src/pages/AddStatus.tsx:55-62 | the delayed completion clears `isLoading`; Share is then enabled exactly when the status is not empty |
| `AddStatus.PressShare` | src/pages/AddStatus.tsx:85-89 | a press of Share while it is enabled is always accepted; it sets `isLoading`, starts one interval at 0, keeps image, text and `progress`, and disables the button |
| `AddPost.PostComposer.constructor` | src/pages/AddPost.tsx:12-14 | no image, empty caption, nothing submitting |
| `AddPost.PostComposer.SelectImage` | src/pages/AddPost.tsx:18-33 | the picked image becomes the selected image and nothing else changes |
| `AddPost.PostComposer.SetCaption` | src/pages/AddPost.tsx:135 | typing replaces the caption and nothing else |
| `AddPost.PostComposer.HandleSubmit` | src/pages/AddPost.tsx:35-57 | a submit is accepted exactly when there is a truthy image; a rejected one leaves `isLoading` alone; an accepted one sets it, schedules the completion and leaves both Share Post and Cancel disabled; the image and the caption are never modified |
| `AddPost.PostComposer.CompleteSubmit` | src/pages/AddPost.tsx:49-56 | the delayed completion clears `isLoading`, which enables Cancel again; Share Post is then enabled exactly when a truthy image is selected |
| `AddPost.PostComposer.HandleCancel` | src/pages/AddPost.tsx:59-62 | Cancel resets the image to null and the caption to "" |
| `AddPost.PostComposer.RemoveImage` | src/pages/AddPost.tsx:81 | the image becomes null and the caption is kept |
| `AddPost.PressSharePost` | src/pages/AddPost.tsx:150-152 | a press of Share Post while it is enabled is always accepted; it keeps image and caption, schedules one completion, and disables both Share Post and Cancel |

## Left out

- Story playback: there is no story-viewer state machine (progress per item, pause, auto-advance, cross-user navigation) in the source. src/components/Story.tsx:13-41 only renders a button, and src/components/StoryList.tsx:50 only logs the click. Nothing of that kind is modelled.
- Rendering, CSS classes, icons, the `toLocaleString` formatting of the like count, and the topic names and icons are presentation only. Only the topic ids 1 to 20 are kept.
- `toast`, `navigate('/')`, `console.log` and the unmounting that follows navigation are side effects with no local state. They are left out. The completion methods only clear `isLoading`.
- `FileReader.readAsDataURL` and the `Math.random` placeholder URLs are foreign I/O and randomness. `SelectImage` takes the resulting URL as a parameter.
- Timer delays (200 ms interval, 500/1000/1500 ms timeouts) are not modelled. The caller chooses the order in which `Tick` and the completion methods run. Callers may only fire callbacks that are scheduled.
- React batching and re-rendering are not modelled. Each handler is one atomic step on the latest state. For `handleLike`, this matches the source only because React re-renders between discrete clicks: the source reads `liked` from the render closure but updates the counter through `prev => …`.
- JavaScript numbers are doubles. The like counter is modelled as an unbounded integer, so the loss of precision beyond 2^53 is not captured.
- JavaScript strings are UTF-16 code units, but Dafny's `char` is a Unicode scalar value. `trim` is modelled over code points.
- `TopicSelection.TopicPicker.ToggleTopic`: staying within the catalogue is promised only when the toggled id is a catalogue id, which is all the page ever passes. The handler itself accepts any number.
- src/pages/Login.tsx, src/pages/Register.tsx, src/components/Navbar.tsx, src/components/NotificationPanel.tsx, src/components/PostList.tsx, src/components/Layout.tsx, src/pages/Index.tsx and src/App.tsx are not part of this model. They hold simulated API calls, `localStorage` writes, a menu toggle, static sample data, rendering and router wiring.
