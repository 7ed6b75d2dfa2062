# FileChooserFx: navigation and directory listing, modelled in Dafny

This project models two sequential parts of the JavaFX file chooser
`FileChooserFxImpl` and proves properties of the model.

The first part is the chooser's **navigation state**:

- the current directory;
- the back history `directoryStack`, a `Deque` used as a stack;
- the Back button's disabled flag;
- the current selection;
- the breadcrumb bar;
- the selected extension filter;
- the files the current view shows.

The model covers the operations that change this state: `changeDirectory`,
the Back action, the breadcrumb's crumb action and the extension filter
refresh. It also covers the rules they rely on: `pathsEqual`, the
breadcrumb's ancestor walk, `getFiles` with `GetFilesPredicate`,
`updateSelectedExtensionFilter` and `shouldEnableAddFavBtn`.

The second part is the **listing task** `UpdateDirectoryList.UpdateListTask`.
It makes two passes over directory streams: first every entry of the
filtered stream, then only the directories of the unfiltered stream. It hands
the entries to the UI thread in batches of 100 and checks for cancellation
before every entry.

Modules:

- `Wrappers`: `Option`.
- `Sequences`: order-preserving `Filter` and the `Flatten` of a list of batches.
- `Paths` (`paths.dfy`): the path model, `PathsEqual` and the ancestor chain.
- `FileChooserRules` (`rules.dfy`): listing, extension-filter and favourite rules.
- `FileChooserFxImpl` (`chooser.dfy`): the class `FileChooser` with the navigation state.
- `UpdateDirectoryList` (`scanner.dfy`): the batching specification, its
  lemmas and the class `UpdateListTask`.

Encoding:

- A path is its sequence of name components, and the root is `[]`. The
  parent of a path drops its last component, and the root has no parent.
  `new File(".")` is the one-component path `["."]`.
- The filesystem is a value `FileSystem` made of three maps:
  - `meta`: the isDirectory and isHidden flags of each existing path;
  - `canonical`: getCanonicalFile, where a missing key means an IOException;
  - `contents`: listFiles, where a missing key means `null` (unreadable).
- `DirOrWildcardFilter` is the opaque predicate `matches(extensions, file)`.
- `isCancelled()` is described by `cancelAt`: the number of the first check,
  counted over the whole task, that answers true. Once requested,
  cancellation stays.
- Each `Platform.runLater(() -> itemList.addAll(temp))` is one element of
  `batches`. The UI thread applies them in order, so `itemList` ends as its
  old contents followed by `Flatten(batches)`.
- Posting `latch::countDown` is the flag `countDownPosted`.

Behaviour of the code worth noting, which the model follows:

- No deduplication is done. A directory that is in both streams is added twice.
- A pass that keeps no entries still posts one empty batch.
- Cancellation during the second pass still posts the latch count-down.
  Only cancellation seen right after the first pass suppresses it.
- The second pass keeps directories without looking at the hidden flag.
- A crumb click pushes history. Its `false` argument only skips rebuilding
  the breadcrumb. The ControlsFX `BreadCrumbBar` itself, with auto-navigation
  on, then selects the clicked crumb, which cuts the bar back to that crumb.
- The breadcrumb is left stale when canonicalisation fails.
- Back does not clear the current selection.
- Nothing prevents the current directory from being pushed onto its own history.

## Model

| member | source | states |
|---|---|---|
| `Paths.PathsEqual` | src/main/java/com/chainstaysoftware/filechooser/FileChooserFxImpl.java:476-483 | true only if both paths canonicalise, and then to the same canonical path; any canonicalisation failure gives false |
| `Paths.PathsEqualIsPartialEquivalence` | src/main/java/com/chainstaysoftware/filechooser/FileChooserFxImpl.java:476-483 | pathsEqual is symmetric and transitive; it is reflexive exactly on paths that canonicalise; equal canonical forms make it true |
| `Paths.Ancestors` | src/main/java/com/chainstaysoftware/filechooser/FileChooserFxImpl.java:936-948 | the chain has one crumb per prefix, the first is a root (no parent), the last is the directory itself, and each crumb is the parent of the next |
| `Paths.AncestorsUnique` | src/main/java/com/chainstaysoftware/filechooser/FileChooserFxImpl.java:936-948 | any root-first chain of parent steps ending at `p` equals `Ancestors(p)`, so the breadcrumb is determined by its selected crumb |
| `Paths.AncestorsPrefix` | src/main/java/com/chainstaysoftware/filechooser/FileChooserFxImpl.java:455-463 | cutting the breadcrumb after the crumb at index k leaves exactly the ancestor chain of that crumb |
| `Paths.AncestorsExample` | src/main/java/com/chainstaysoftware/filechooser/FileChooserFxImpl.java:931-954 | the breadcrumb of /a/b/c is /, /a, /a/b, /a/b/c |
| `FileChooserRules.Included` | src/main/java/com/chainstaysoftware/filechooser/FileChooserFxImpl.java:987-993 | a hidden file is dropped unless hidden files are shown, a non-directory is dropped in hideFiles mode, and every other file passes |
| `FileChooserRules.GetFiles` | src/main/java/com/chainstaysoftware/filechooser/FileChooserFxImpl.java:961-971 | a non-directory or an unreadable directory lists nothing; otherwise a file is listed iff it is a child accepted by the extension filter and by GetFilesPredicate (not hidden while hidden files are not shown, and a directory when hideFiles is on) |
| `FileChooserRules.ComboItems` | src/main/java/com/chainstaysoftware/filechooser/FileChooserFxImpl.java:703-709 | the combo box always has a first item; it lists the configured filters when there are any, and only the "all files" filter when there are none |
| `FileChooserRules.FindFirstContaining` | src/main/java/com/chainstaysoftware/filechooser/FileChooserFxImpl.java:801-804 | the index found is the first filter whose extensions contain all wanted ones; none is found only if no filter qualifies |
| `FileChooserRules.SelectExtensionFilter` | src/main/java/com/chainstaysoftware/filechooser/FileChooserFxImpl.java:795-812 | the filter chosen is always one of the combo box items |
| `FileChooserRules.SelectExtensionFilterChoice` | src/main/java/com/chainstaysoftware/filechooser/FileChooserFxImpl.java:795-812 | the chosen filter is the first configured filter covering the selected extensions (the first combo item's when nothing is selected), else the first combo item |
| `FileChooserRules.SelectExtensionFilterDefault` | src/main/java/com/chainstaysoftware/filechooser/FileChooserFxImpl.java:795-812 | with nothing selected the first configured filter is chosen, or "all files" when none is configured |
| `FileChooserRules.SelectExtensionFilterIdempotent` | src/main/java/com/chainstaysoftware/filechooser/FileChooserFxImpl.java:795-812 | selecting again from the chosen filter yields the same filter |
| `FileChooserRules.ShouldEnableAddFavBtn` | src/main/java/com/chainstaysoftware/filechooser/FileChooserFxImpl.java:1033-1044 | enabled exactly when the button is present, the selection is a directory, and its canonical form exists and is not already a favourite |
| `FileChooserRules.AddFavorite` | src/main/java/com/chainstaysoftware/filechooser/FileChooserFxImpl.java:756-763 | appends the canonical form of the selection, or nothing when canonicalisation fails |
| `FileChooserRules.AddFavoriteDisablesButton` | src/main/java/com/chainstaysoftware/filechooser/FileChooserFxImpl.java:1024-1044 | an enabled Add Favorite adds exactly one favourite, and afterwards the same selection no longer enables the button |
| `FileChooserFxImpl.FileChooser.FilterExtensions` | src/main/java/com/chainstaysoftware/filechooser/FileChooserFxImpl.java:977-982 | the extensions handed to DirOrWildcardFilter are the combo box value's, or none without a combo box |
| `FileChooserFxImpl.FileChooser.Listing` | src/main/java/com/chainstaysoftware/filechooser/FileChooserFxImpl.java:961-982 | the view lists only children of the directory, no hidden file unless hidden files are shown, and only directories in hideFiles mode |
| `FileChooserFxImpl.FileChooser.constructor` | src/main/java/com/chainstaysoftware/filechooser/FileChooserFxImpl.java:293-297 | starts with an empty history and Back disabled (lines 75, 420), the combo selection of updateSelectedExtensionFilter unless hideFiles, the initial directory (else "."), its listing and its breadcrumb |
| `FileChooserFxImpl.FileChooser.UpdateDirBreadCrumbBar` | src/main/java/com/chainstaysoftware/filechooser/FileChooserFxImpl.java:931-954 | the parent-walk loop leaves the ancestor chain of the canonical directory, root first with the directory as selected (last) crumb; on canonicalisation failure the breadcrumb is unchanged |
| `FileChooserFxImpl.FileChooser.UpdateFiles` | src/main/java/com/chainstaysoftware/filechooser/FileChooserFxImpl.java:897-904 | shows the listing of the directory and rebuilds the breadcrumb from the current directory only when asked |
| `FileChooserFxImpl.FileChooser.ChangeDirectory` | src/main/java/com/chainstaysoftware/filechooser/FileChooserFxImpl.java:916-926 | pushes the old current directory on top of the history and enables Back when there was one (nothing pushed otherwise), moves to the directory, clears the selection, re-lists; keeps "Back disabled iff history empty" |
| `FileChooserFxImpl.FileChooser.Back` | src/main/java/com/chainstaysoftware/filechooser/FileChooserFxImpl.java:422-431 | no-op on an empty history; otherwise pops the top into the current directory, the history shrinks by one, Back is disabled iff it is now empty, re-lists and rebuilds the breadcrumb; the selection is kept |
| `FileChooserFxImpl.FileChooser.CrumbAction` | src/main/java/com/chainstaysoftware/filechooser/FileChooserFxImpl.java:455-463 | a crumb pathsEqual to the current directory leaves directory, history, Back state, selection and listing as they are; any other crumb pushes history, moves to the crumb, clears the selection and re-lists like changeDirectory; either way the bar is then cut back to the clicked crumb and stays a full ancestor chain |
| `FileChooserFxImpl.FileChooser.ExtensionFilterChanged` | src/main/java/com/chainstaysoftware/filechooser/FileChooserFxImpl.java:712-715 | with the combo box present (not hideFiles), selects the picked filter and re-lists the current directory with its extensions; current directory, history, Back state and breadcrumb are unchanged |
| `FileChooserFxImpl.BackUndoesChangeDirectory` | src/main/java/com/chainstaysoftware/filechooser/FileChooserFxImpl.java:916-926 | changeDirectory followed by Back restores the current directory, the history and the Back state |
| `FileChooserFxImpl.BackTwiceAfterTwoMoves` | src/main/java/com/chainstaysoftware/filechooser/FileChooserFxImpl.java:422-431 | from an empty history, A to B to C and Back twice is at A with an empty history and Back disabled |
| `FileChooserFxImpl.ReenterCurrentDirectory` | src/main/java/com/chainstaysoftware/filechooser/FileChooserFxImpl.java:558-565 | entering the current directory again puts it on top of its own history |
| `UpdateDirectoryList.ShouldSchedule` | src/main/java/com/chainstaysoftware/filechooser/UpdateDirectoryList.java:95-97 | for a buffer of 1 to 100 entries, a flush is due exactly when it holds 100 |
| `UpdateDirectoryList.Remainder` | src/main/java/com/chainstaysoftware/filechooser/UpdateDirectoryList.java:82-85 | the buffer left after the full flushes holds fewer than 100 entries |
| `UpdateDirectoryList.RemainderLength` | src/main/java/com/chainstaysoftware/filechooser/UpdateDirectoryList.java:89 | the final flush holds the last (kept count mod 100) entries |
| `UpdateDirectoryList.FullBatches` | src/main/java/com/chainstaysoftware/filechooser/UpdateDirectoryList.java:82-85 | every flush inside the loop holds exactly 100 entries |
| `UpdateDirectoryList.FullBatchesThenRemainder` | src/main/java/com/chainstaysoftware/filechooser/UpdateDirectoryList.java:78-89 | the flushed batches followed by the final buffer are exactly the kept entries, in order |
| `UpdateDirectoryList.BatchesSnoc` | src/main/java/com/chainstaysoftware/filechooser/UpdateDirectoryList.java:80-85 | adding an entry either completes a 100-entry batch and empties the buffer, or only grows the buffer |
| `UpdateDirectoryList.FlattenFullLength` | src/main/java/com/chainstaysoftware/filechooser/UpdateDirectoryList.java:82-85 | full batches deliver a multiple of 100 entries |
| `UpdateDirectoryList.PassCut` | src/main/java/com/chainstaysoftware/filechooser/UpdateDirectoryList.java:73-76 | the entry at which a pass stops is the first whose cancellation check answers true; an uncut pass saw no true answer |
| `UpdateDirectoryList.Kept` | src/main/java/com/chainstaysoftware/filechooser/UpdateDirectoryList.java:78 | a pass keeps every entry, or with dirOnly exactly the directories |
| `UpdateDirectoryList.KeptSnoc` | src/main/java/com/chainstaysoftware/filechooser/UpdateDirectoryList.java:78-81 | the entries kept after one more entry are those kept before, plus that entry when it is wanted |
| `UpdateDirectoryList.KeptPrefix` | src/main/java/com/chainstaysoftware/filechooser/UpdateDirectoryList.java:73-81 | the entries kept from a prefix of a stream are a prefix of those kept from the whole stream |
| `UpdateDirectoryList.PassBatches` | src/main/java/com/chainstaysoftware/filechooser/UpdateDirectoryList.java:68-93 | the batches one pass posts: none exceeds 100 entries, and a completed pass posts at least its final flush |
| `UpdateDirectoryList.CallBatches` | src/main/java/com/chainstaysoftware/filechooser/UpdateDirectoryList.java:53-66 | the batches the whole task posts: none exceeds 100 entries, and an uncancelled run posts at least the two final flushes |
| `UpdateDirectoryList.CountDownPosted` | src/main/java/com/chainstaysoftware/filechooser/UpdateDirectoryList.java:53-63 | the count-down is posted when nothing is cancelled or cancellation comes after the check between the passes, and not when it comes at or before that check |
| `UpdateDirectoryList.PassBatchSizes` | src/main/java/com/chainstaysoftware/filechooser/UpdateDirectoryList.java:82-89 | every batch of a pass has 100 entries except the final flush of a completed pass, which has 0 to 99 and is empty iff the kept count is a multiple of 100 |
| `UpdateDirectoryList.PassContents` | src/main/java/com/chainstaysoftware/filechooser/UpdateDirectoryList.java:68-93 | a completed pass delivers all kept entries in order; a cancelled pass delivers a prefix of length a multiple of 100 and drops the partial buffer (under 100 entries) |
| `UpdateDirectoryList.UncancelledCall` | src/main/java/com/chainstaysoftware/filechooser/UpdateDirectoryList.java:53-66 | uncancelled, the entries added to itemList are the filtered stream, then the directories of the unfiltered stream, in order; an entry is added iff it is in the first stream or is a directory of the second; the count-down is posted |
| `UpdateDirectoryList.CancelledInFirstPass` | src/main/java/com/chainstaysoftware/filechooser/UpdateDirectoryList.java:54-57 | cancellation in the first pass skips the second pass and the count-down; what was added is a prefix of the first stream, at most the entries before the cancelling check, of length a multiple of 100 |
| `UpdateDirectoryList.CancelledBetweenPasses` | src/main/java/com/chainstaysoftware/filechooser/UpdateDirectoryList.java:54-57 | cancellation first seen by the check between the passes adds exactly the whole filtered stream and posts no count-down |
| `UpdateDirectoryList.CancelledInSecondPass` | src/main/java/com/chainstaysoftware/filechooser/UpdateDirectoryList.java:59-63 | cancellation in the second pass still posts the count-down; all of the first stream is added, then a prefix, of length a multiple of 100, of the unfiltered stream's directories in order |
| `UpdateDirectoryList.EmptyStreamsPostEmptyBatches` | src/main/java/com/chainstaysoftware/filechooser/UpdateDirectoryList.java:89 | two empty streams post two empty batches |
| `UpdateDirectoryList.UncancelledCallNoDuplicates` | src/main/java/com/chainstaysoftware/filechooser/UpdateDirectoryList.java:31-36 | disjoint duplicate-free streams add a duplicate-free sequence |
| `UpdateDirectoryList.UncancelledCallKeepsDuplicates` | src/main/java/com/chainstaysoftware/filechooser/UpdateDirectoryList.java:54-59 | a directory present in both streams is added twice |
| `UpdateDirectoryList.UpdateListTask.IsCancelled` | src/main/java/com/chainstaysoftware/filechooser/UpdateDirectoryList.java:74 | answers the next numbered cancellation check |
| `UpdateDirectoryList.UpdateListTask.ScheduleJavaFx` | src/main/java/com/chainstaysoftware/filechooser/UpdateDirectoryList.java:99-104 | posts the buffer's current contents as one batch; as a value copy, later clearing of the buffer does not change it |
| `UpdateDirectoryList.UpdateListTask.Update` | src/main/java/com/chainstaysoftware/filechooser/UpdateDirectoryList.java:68-93 | the buffering loop makes one check per entry up to the cancelling one and posts exactly `PassBatches` of the stream: the full batches, plus the final flush unless cancelled |
| `UpdateDirectoryList.UpdateListTask.Call` | src/main/java/com/chainstaysoftware/filechooser/UpdateDirectoryList.java:53-66 | posts the first pass's batches before the second pass's, runs the second pass and the count-down exactly when the check after the first pass is not cancelled |

## Left out

- JavaFX widget construction is not modelled: toolbars, view toggles, cell factories, the Scene and Stage, key handlers, the places view and `updatePlaces`. They hold no logic beyond wiring.
- The Service and Task machinery, `Platform.runLater` scheduling and `latch.await()` are not modelled, because they are concurrency. UpdateListTask runs sequentially. Cancellation is the input `cancelAt`. Posted UI work is recorded in order.
- Stream closing is not modelled. The `finally` of `update` closes the field `dirStream` rather than the stream of the pass, so no claim is made about which stream is closed how often.
- The filesystem queries (`isDirectory`, `isHidden`, `getCanonicalFile`, `getParentFile`, `listFiles`, stream iteration, `File.listRoots`, `user.home`, `mkdir`) are given data. They are the `FileSystem` maps and each entry's metadata.
- `DirOrWildcardFilter` and commons-io's `WildcardFileFilter` are not part of this model. They are the opaque predicate `matches`.
- `DirectoryListItem` construction is not modelled. An entry stands for its own list item.
- The favourite remove action, the done, cancel and help buttons, `NewFolderAction` and `setCurrentSelection` are UI glue. Only the add-favourite rule and its action are modelled.
- FileChooserFxImpl.FileChooser.constructor: only the first showing of a chooser is modelled. On a second `showDialog`, `createBackButton` disables Back again while `directoryStack` keeps the old history, so "Back disabled iff history empty" is proved for one showing only.
- FileChooserFxImpl.FileChooser.constructor: the `showHiddenFiles` property is fixed for the session (`Options`). A change after showing is not modelled.
- FileChooserFxImpl.FileChooser.CrumbAction: the ControlsFX `BreadCrumbBar` is not part of this model. Only its documented auto-navigation is modelled: after the action handler, the bar selects the clicked crumb.
- FileChooserRules.AddFavorite: the selection is never null here. `changeDirectory` clears the selection (line 923) without disabling the Add Favorite button, which only lines 589-591 and 1024-1026 change. So the button's action (line 758) could meet an empty selection unless the views reset it, and the views' code is not part of this model.
- Java `null` arguments that can only raise a NullPointerException are excluded by preconditions. Examples are a crumb action or a filter refresh before any current directory exists.
