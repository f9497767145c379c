# demodesk-player, modelled in Dafny

This project models the interactive core of a desktop-style web page with a dock, an
iTunes-style music player, and floating Finder, TextEdit, Email, Safari and Settings windows.
It also models the media helpers those windows use.

- `option.dfy`: `Option`. It stands for JavaScript's `null` and for optional fields.
- `js_strings.dfy`: the JavaScript string operations the source relies on. These are
  `indexOf`/`includes`, the segments `split(sep)[0]` and `split(sep)[1]`, `trim` with the
  ECMAScript white-space set, number-to-text, and `padStart`.
- `js_arrays.dfy`: `findIndex` by a key of each element, which both the notes list and the
  playlist are searched with.
- `storage.dfy`: `src/lib/storage.ts`. It covers the `m:ss` duration formatter, YouTube video-id
  extraction, embed-URL normalisation and the thumbnail URL.
- `window_geometry.dfy`: the window controller. Finder, TextEdit, Email, Safari and Settings
  each carry their own copy of it. The copies differ in four constants:
  - the minimum width and height;
  - the default size;
  - the offset added to the centred position.

  TextEdit's copy also differs in two more places, which `text_edit.dfy` models. Its
  click-to-focus rule also ignores clicks on a text area (`TextEdit.ClickRaises`). Its close
  path saves first and clears the editor when the timer fires (`TextEdit.TextEditor.BeginClose`
  and `TextEdit.TextEditor.FinishClose`).

  The controller is one `FloatingWindow` class with the four constants as `const` fields. It
  also holds the resize arithmetic, the centring formula and the click-to-focus rule.
- `finder.dfy`, `settings.dfy`, `email.dfy`, `safari_browser.dfy`: each window's constants
  and anything the window adds. Email adds the newsletter form. Safari adds the choice between
  an embedded YouTube player and a video element. Each file has a short session at concrete
  coordinates.
- `text_edit.dfy`: the notes editor. It covers save, delete, new note, select note, open and
  close, over a list of notes whose titles are never blank.
- `itunes_player.dfy`: the player. It covers the playlist, next and previous with wrap-around,
  selecting a track, play/pause, the playback tick, the duration labels, dragging, and open
  and close.

React state becomes class fields; a handler becomes a method that assigns them. A `setTimeout`
callback is a second method that the caller runs when the timer fires. A layout effect is run
by the method whose change sets it off. The parent's `isOpen`/`isMinimized` props are fields,
and `onClose` is the parent clearing `isOpen`, as `src/pages/Index.tsx` does for the player.
Inputs from the environment are parameters:
- the viewport size;
- pointer coordinates;
- the bounding rectangle;
- the clock readings (`Date.now()`, ISO time);
- the answer to `confirm`.

Pixel values are `real`.

## Model

| member | source | states |
|---|---|---|
| Storage.JsRemainder | src/lib/storage.ts:3-7 | JavaScript's `%`: the remainder has the sign of the dividend, has magnitude below the divisor, and equals Euclidean `%` for non-negative dividends |
| Storage.FormatDuration | src/lib/storage.ts:3-7 | `formatDuration`: the whole minutes, a colon, and the remaining seconds padded to two digits; what it means is stated by `FormatDurationDigits` and `FormatDurationRoundTrip` |
| Storage.FormatDurationDigits | src/lib/storage.ts:3-7 | for a non-negative count of `mins` minutes and `secs` seconds below 60, `formatDuration` gives the minutes, a colon, then exactly two digits: the tens and units of `secs` |
| Storage.ParseDurationOf | src/lib/storage.ts:6 | a digit string, a colon and two digits below 60 read back as minutes times 60 plus the seconds |
| Storage.ParseMinutesSeconds | src/lib/storage.ts:6 | the `m:ss` text of `mins` minutes and `secs` seconds reads back as their total |
| Storage.FormatDurationRoundTrip | src/lib/storage.ts:3-7 | reading an `m:ss` text back gives the number of seconds it was formatted from |
| Storage.ExtractYouTubeVideoId | src/lib/storage.ts:10-27 | the empty URL and a URL of none of the four shapes give null; an id is never empty |
| Storage.CutVideoId | src/lib/storage.ts:13-24 | the id as cut from the first matching URL shape, before the empty check; the empty string when no shape matches; stated by `ExtractYouTubeVideoIdShapes` |
| Storage.ExtractYouTubeVideoIdShapes | src/lib/storage.ts:15-24 | the shapes are tried in source order: after `watch?v=` up to `&`, after `youtu.be/` up to `?`, after `youtube.com/v/` up to `&`, after `youtube.com/embed/` up to `?`; the result is the cut of the first shape that matches, `None` when that cut is empty, and `None` when no shape matches |
| Storage.CutFollowsMarker | src/lib/storage.ts:17-23 | `split(marker)[1]?.split(stop)[0]` is the cut: the text right after the first marker, running up to the first stop character, the next marker or the end of the URL, and holding neither |
| Storage.CutUnique | src/lib/storage.ts:17-23 | the cut of a URL after a marker up to a stop character is unique |
| Storage.NonEmptyCutIsId | src/lib/storage.ts:15-26 | a URL that matches a shape and has a non-empty cut yields that cut as its id |
| Storage.ConvertYouTubeUrl | src/lib/storage.ts:30-54 | the empty URL is unchanged; an embed URL keeps its query, or gets `?rel=0&modestbranding=1` appended when it has none; a URL with an id becomes the canonical embed URL of that id; anything else is unchanged; every changed URL is an embed URL with a query |
| Storage.ConvertYouTubeUrlIdempotent | src/lib/storage.ts:30-54 | converting a converted URL changes nothing |
| Storage.EmbeddedParamsKeepShape | src/lib/storage.ts:36-38 | appending the default parameters to an embed URL keeps it an embed URL and gives it a query |
| Storage.CanonicalEmbedShape | src/lib/storage.ts:49 | the canonical embed URL of any id is an embed URL with a query |
| Storage.GetYouTubeThumbnail | src/lib/storage.ts:57-63 | a thumbnail exists exactly when an id does; it is the `img.youtube.com/vi/<id>/` directory followed by the written file name: the quality's name (`maxresdefault` for `maxres`) and `default.jpg` |
| Storage.ThumbnailMaxResDoubled | src/lib/storage.ts:62 | as written, the default `maxres` quality names the file `maxresdefaultdefault.jpg` |
| Storage.WrittenThumbnailNames | src/lib/storage.ts:62 | as written, the four qualities name the files `defaultdefault.jpg`, `mediumdefault.jpg`, `highdefault.jpg` and `maxresdefaultdefault.jpg` |
| Storage.YouTubeThumbnail | src/lib/storage.ts:57-63 | corrected reference definition: a thumbnail exists exactly when an id does, and its file is the one YouTube serves for the quality (`default.jpg`, `mqdefault.jpg`, `hqdefault.jpg`, `maxresdefault.jpg`) |
| Storage.WrittenThumbnailMisnamed | src/lib/storage.ts:57-63 | for every quality, the written and the intended thumbnail exist for the same URLs, and where they exist they differ |
| WindowGeometry.NameIncludesRight | src/components/Finder.tsx:108-110 | the direction string of a handle contains `right` exactly when the handle is on the right edge |
| WindowGeometry.NameIncludesLeft | src/components/Finder.tsx:111-114 | the direction string contains `left` exactly when the handle is on the left edge |
| WindowGeometry.NameIncludesBottom | src/components/Finder.tsx:115-117 | the direction string contains `bottom` exactly when the handle is on the bottom edge |
| WindowGeometry.NameIncludesTop | src/components/Finder.tsx:118-121 | the direction string contains `top` exactly when the handle is on the top edge |
| WindowGeometry.Max | src/components/Finder.tsx:109 | `Math.max`: at least both arguments and equal to one of them |
| WindowGeometry.ResizeStep | src/components/Finder.tsx:99-125 | the chain of `includes` tests gives the per-axis resize: growth by the pointer's travel at an end edge, shrinkage at a start edge, never below the minimum, and an origin moved along the axes whose start edge is dragged |
| WindowGeometry.ResizeRespectsMinimum | src/components/Finder.tsx:108-121 | a dragged axis never goes below its minimum; an undragged axis keeps its start extent |
| WindowGeometry.RightResize | src/components/Finder.tsx:108-110 | the right handle changes only the width, by the pointer's travel down to the minimum, and keeps the origin |
| WindowGeometry.LeftEdgeResize | src/components/Finder.tsx:111-114 | a left handle moves the origin by the full travel even when the width is clamped; the right edge stays exactly when the width is not clamped |
| WindowGeometry.TopEdgeResize | src/components/Finder.tsx:118-121 | the same for a top handle on the vertical axis |
| WindowGeometry.Centred | src/components/Finder.tsx:63-72 | the centred position plus offset: twice its distance from the offset is the viewport extent minus the window extent, on each axis |
| WindowGeometry.ResizedFrameAsWritten | src/components/Finder.tsx:63-72 | as written, a resize step keeps the handler's size, but the centring effect then re-centres the window for that size |
| WindowGeometry.RightResizeRecentres | src/components/Finder.tsx:63-72 | as written, widening a centred window by its right handle moves its left edge left by half the pointer's travel, although the handler keeps it in place |
| WindowGeometry.Closest | src/components/Finder.tsx:198 | `closest(tag)` over a target's ancestry holds exactly when some element on it has the tag |
| WindowGeometry.RaisesFocus | src/components/Finder.tsx:196-201 | a click raises the window exactly when neither the target nor any ancestor is a control |
| WindowGeometry.FloatingWindow.constructor | src/components/Finder.tsx:31-40 | a window mounts closed and idle, at the origin, with the default size and its four constants |
| WindowGeometry.FloatingWindow.Rendered | src/components/Finder.tsx:188-191 | nothing is drawn while closed or minimized; otherwise the window is drawn at its position, viewport-sized when maximized and at the saved size when not |
| WindowGeometry.FloatingWindow.RunLayoutEffects | src/components/Finder.tsx:63-80 | the centring effect then the restore effect: a maximized window goes to the origin; an open one goes to a saved position whose coordinates are both non-zero, and is otherwise centred while drawn |
| WindowGeometry.FloatingWindow.Open | src/components/Finder.tsx:63-80 | opening a closed window puts it at its saved position if it has one, else centred with its offset; opening an open window changes nothing |
| WindowGeometry.FloatingWindow.MouseDown | src/components/Finder.tsx:82-91 | unless maximized, records the pointer's offset from the window's corner and starts a drag; maximized, nothing changes |
| WindowGeometry.FloatingWindow.MouseMove | src/components/Finder.tsx:93-126 | a drag puts the corner at the pointer minus the offset; otherwise a resize sets the size and origin from the resize-start snapshots as `ResizeStep` computes them; otherwise nothing changes |
| WindowGeometry.FloatingWindow.MouseUp | src/components/Finder.tsx:128-132 | ends any drag and any resize and clears the direction |
| WindowGeometry.FloatingWindow.ResizeBegin | src/components/Finder.tsx:134-148 | unless maximized, snapshots the pointer, the drawn size and the position and starts resizing in that direction; maximized, nothing changes |
| WindowGeometry.FloatingWindow.ToggleMaximize | src/components/Finder.tsx:176-186 | maximizing saves the position, resets the size to the default and pins the window to the origin; restoring, after the effects, goes to the saved position only if both its coordinates are non-zero, else re-centres |
| WindowGeometry.FloatingWindow.Minimize | src/components/Finder.tsx:170-174 | the parent hides the window; its geometry is kept |
| WindowGeometry.FloatingWindow.BeginClose | src/components/Finder.tsx:161-163 | closing starts the close animation |
| WindowGeometry.FloatingWindow.FinishClose | src/components/Finder.tsx:164-168 | the timer clears the closing and maximized flags and the parent closes the window |
| WindowGeometry.DragWithoutMoving | src/components/Finder.tsx:82-132 | press, move to the same point and release leave the window where it was, with its size |
| WindowGeometry.MaximizeThenRestore | src/components/Finder.tsx:74-80 | maximize then restore gives the default size; the window returns to where it was only when neither coordinate was zero, else it comes back centred |
| Finder.NewFinderWindow | src/components/Finder.tsx:30-40 | Finder mounts with minimum 600×400 and default 900×550, centred with no offset |
| Finder.ResizeSession | src/components/Finder.tsx:63-186 | in 1920×1080 the window opens at (510, 265). With the handler's arithmetic (`FloatingWindow.MouseMove`, the corrected half of the `src/components/Finder.tsx:63-72` finding), a bottom-right drag grows it in place, a left drag clamped at 600 still moves the origin by the full 400, and maximize and restore come back there at 900×550. As written, the grown window is re-centred at (485, 250) |
| Settings.NewSettingsWindow | src/components/Settings.tsx:23 | Settings mounts with minimum 500×400 and default 900×550, centred with no offset |
| Settings.ClickRaises | src/components/Settings.tsx:159-165 | a click raises Settings exactly when no button, input or link is on the target's path |
| Settings.ResizeSession | src/components/Settings.tsx:56-149 | with the handler's arithmetic (`FloatingWindow.MouseMove`, the corrected half of the `src/components/Finder.tsx:63-72` finding; as written each step re-centres), a top drag clamped at 400 still moves the origin down by the full 300, and a right drag keeps the height |
| Settings.MaximizedSession | src/components/Settings.tsx:45-54 | a maximized window fills the viewport at the origin and refuses a title-bar drag |
| Email.EmailWindow.constructor | src/components/Email.tsx:15-26 | Email mounts with minimum 600×500 and default 750×600, offset (100, -20), an empty address and the form shown |
| Email.EmailWindow.EditEmail | src/components/Email.tsx:263 | the input's value becomes the address |
| Email.EmailWindow.Submit | src/components/Email.tsx:154-163 | a non-empty address shows the confirmation and starts one reset timer; an empty address changes nothing |
| Email.EmailWindow.ResetTimerFires | src/components/Email.tsx:158-161 | a pending timer clears the address and shows the form again |
| Email.Session | src/components/Email.tsx:29-163 | the window opens at (685, 220); with the handler's arithmetic (`FloatingWindow.MouseMove`, the corrected half of the `src/components/Finder.tsx:63-72` finding; as written each step re-centres), a top-left drag clamps the height at 500 at (635, 420); the confirmation shows until the timer clears it; an empty submit does nothing |
| SafariBrowser.NewSafariWindow | src/components/SafariBrowser.tsx:30-39 | Safari mounts with minimum 500×400 and default 700×550, offset (50, -20) |
| SafariBrowser.VideoBlock | src/components/SafariBrowser.tsx:263-276 | a video post with non-empty media shows an embedded player exactly when the media mentions `youtube.com` or `youtu.be`, and then at `convertYouTubeUrl` of the media; any other media shows a video element at the URL as given |
| SafariBrowser.ShapesMentionYouTube | src/lib/storage.ts:16-22 | each of the four URL shapes mentions `youtube.com` or `youtu.be` |
| SafariBrowser.RecognisedVideosEmbed | src/components/SafariBrowser.tsx:266-267 | every media URL with an id is routed to the embedded player, and a non-embed URL plays the canonical embed URL of its id |
| SafariBrowser.Session | src/components/SafariBrowser.tsx:30-95 | the window opens at (660, 245) and follows a title-bar drag |
| TextEdit.StoredTitle | src/components/TextEdit.tsx:229 | `title.trim() || "Untitled"`; its properties are stated by `StoredTitleShape` |
| TextEdit.StoredTitleShape | src/components/TextEdit.tsx:229 | the stored title is the trimmed title, or `Untitled` when that is empty; it is never blank and already trimmed |
| TextEdit.FindIndex | src/components/TextEdit.tsx:227 | `findIndex` by id over notes, as `JsArray.FindIndexBy`: -1 exactly when no note has the id; otherwise the first note with it |
| TextEdit.WithoutId | src/components/TextEdit.tsx:264 | `filter`: keeps exactly the notes with another id |
| TextEdit.WithoutIdAppend | src/components/TextEdit.tsx:264 | filtering a list cut in two is filtering each part, so the order is kept |
| TextEdit.WithoutAbsentId | src/components/TextEdit.tsx:264 | deleting an id no note has changes nothing |
| TextEdit.SaveResult | src/components/TextEdit.tsx:219-260 | `handleSave` as a function of the notes, current note, fields and clock readings; its cases are stated by `SaveBlank`, `SaveUpdatesInPlace`, `SaveRestoresDeleted` and `SaveAppendsNew` |
| TextEdit.SaveBlank | src/components/TextEdit.tsx:220 | a save with a blank title and blank content changes nothing |
| TextEdit.SaveUpdatesInPlace | src/components/TextEdit.tsx:225-234 | saving a stored note rewrites only its entry, keeping id and creation time and taking the title, content and time |
| TextEdit.SaveRestoresDeleted | src/components/TextEdit.tsx:235-244 | saving a deleted current note appends it again with its id and creation time, or with `now` when it has none |
| TextEdit.SaveAppendsNew | src/components/TextEdit.tsx:245-256 | saving with no current note appends a note with the clock id, created and updated now, and makes it current |
| TextEdit.ReplaceKeepsTitlesStored | src/components/TextEdit.tsx:228-233 | writing a note with a non-blank title over an entry keeps every title non-blank |
| TextEdit.SaveKeepsTitlesStored | src/components/TextEdit.tsx:219-260 | a save keeps every stored title non-blank |
| TextEdit.FindIndexSameIds | src/components/TextEdit.tsx:227 | lists with the same ids at the same places give the same first index |
| TextEdit.FindIndexAppended | src/components/TextEdit.tsx:227 | a note appended to a list without its id is found at the end |
| TextEdit.ResaveRewritten | src/components/TextEdit.tsx:225-234 | a second in-place save finds the same entry and, at a later time, changes only its update time |
| TextEdit.ResaveAppended | src/components/TextEdit.tsx:235-256 | a second save of an appended note finds it at the end and, at a later time, changes only its update time |
| TextEdit.SaveTwice | src/components/TextEdit.tsx:395-404 | a second blur save with nothing edited keeps the current note and duplicates no note; it only sets the saved note's update time to the second clock reading, and with the same reading it changes nothing |
| TextEdit.FindIndexAppendedOther | src/components/TextEdit.tsx:227 | appending a note with another id leaves an absent id absent |
| TextEdit.NewNoteNotYetStored | src/components/TextEdit.tsx:192-207 | the note a new-note action opens is not in the list, when its clock id is new |
| TextEdit.InitialTitlesStored | src/data/notes.ts:11-28 | both fixture notes have non-blank titles |
| TextEdit.ClickRaises | src/components/TextEdit.tsx:284-291 | a click raises TextEdit exactly when no button, input, link or text area is on the target's path |
| TextEdit.TextEditor.constructor | src/components/TextEdit.tsx:37-53 | the editor mounts with the fixture notes, no current note and empty fields, in a 600×400-minimum, 800×600 window |
| TextEdit.TextEditor.Open | src/components/TextEdit.tsx:57-80 | opening a closed editor reloads the fixture notes and places the window as every window opens |
| TextEdit.TextEditor.EditTitle | src/components/TextEdit.tsx:395 | the title field's value becomes the title |
| TextEdit.TextEditor.EditContent | src/components/TextEdit.tsx:403 | the text area's value becomes the content |
| TextEdit.TextEditor.Save | src/components/TextEdit.tsx:219-260 | the notes and current note become what the save specification gives, and every stored title stays non-blank |
| TextEdit.TextEditor.DeleteNote | src/components/TextEdit.tsx:262-274 | a confirmed delete removes every note with the id and clears the editor if it held that note; a declined delete changes nothing |
| TextEdit.TextEditor.NewNote | src/components/TextEdit.tsx:192-207 | saves with the first clock readings, then edits a new empty `Untitled` note that is not stored yet, with its own clock id and a later time as its creation and update time |
| TextEdit.TextEditor.SelectNote | src/components/TextEdit.tsx:209-217 | saves, then edits the chosen note's title and content |
| TextEdit.TextEditor.Edit | src/components/TextEdit.tsx:211-213 | the chosen note becomes current and its title and content fill the fields |
| TextEdit.TextEditor.BeginClose | src/components/TextEdit.tsx:161-163 | saves, then starts the close animation |
| TextEdit.TextEditor.FinishClose | src/components/TextEdit.tsx:164-171 | the window closes un-maximized and the editor is cleared; the notes are kept |
| JsArray.FindIndexBy | src/components/ITunesPlayer.tsx:119 | `findIndex` with a key test: -1 exactly when no element has the key; otherwise the first element that has it |
| ITunesPlayer.TrackIndex | src/components/ITunesPlayer.tsx:119 | `findIndex` by id over tracks, as `JsArray.FindIndexBy`: -1 exactly when no track has the id, otherwise the first that has it |
| ITunesPlayer.DemoTrackIndex | src/components/ITunesPlayer.tsx:19-28 | each demo track is found at its own index |
| ITunesPlayer.NextIndex | src/components/ITunesPlayer.tsx:118-123 | next is one past the current index and wraps from the last track to the first |
| ITunesPlayer.PrevIndex | src/components/ITunesPlayer.tsx:125-130 | previous is one before the current index and wraps from the first track to the last |
| ITunesPlayer.NextPrevInverse | src/components/ITunesPlayer.tsx:118-130 | previous undoes next and next undoes previous at every index |
| ITunesPlayer.LabelledTrack | src/components/ITunesPlayer.tsx:138-142 | a track labelled with its minute count, a colon and the two digits of its seconds carries its formatted length |
| ITunesPlayer.DemoDurationsFormatted | src/components/ITunesPlayer.tsx:19-28 | every demo track's duration label is the formatted length of the track |
| ITunesPlayer.DemoDurationsPositive | src/components/ITunesPlayer.tsx:19-28 | every demo track lasts at least a second |
| ITunesPlayer.SecondShare | src/components/ITunesPlayer.tsx:97 | in exact arithmetic, one second's share of a track is positive, and the track's length in seconds of them make 100% |
| ITunesPlayer.Player.constructor | src/components/ITunesPlayer.tsx:31-39 | the player mounts closed and paused on the first track, with volume 70 |
| ITunesPlayer.Player.Rendered | src/components/ITunesPlayer.tsx:146 | nothing is drawn while closed; otherwise the player is drawn at its position |
| ITunesPlayer.Player.Open | src/components/ITunesPlayer.tsx:43-52 | opening a closed player centres an 800×520 window; opening an open one changes nothing |
| ITunesPlayer.Player.PlayPause | src/components/ITunesPlayer.tsx:116 | flips between playing and paused |
| ITunesPlayer.Player.Next | src/components/ITunesPlayer.tsx:118-123 | the next track, wrapping to the first, from the start |
| ITunesPlayer.Player.Prev | src/components/ITunesPlayer.tsx:125-130 | the previous track, wrapping to the last, from the start |
| ITunesPlayer.Player.Tick | src/components/ITunesPlayer.tsx:89-106 | while playing, a full track moves on to the next from the start, and any other track advances by one second's share; paused, nothing changes |
| ITunesPlayer.Player.SelectTrack | src/components/ITunesPlayer.tsx:132-136 | the clicked track becomes current and plays from the start |
| ITunesPlayer.Player.MouseDown | src/components/ITunesPlayer.tsx:54-63 | on the drawn player, records the pointer's offset and starts a drag, with no maximize guard |
| ITunesPlayer.Player.MouseMove | src/components/ITunesPlayer.tsx:65-72 | while dragging, the corner follows the pointer; otherwise nothing moves |
| ITunesPlayer.Player.MouseUp | src/components/ITunesPlayer.tsx:74-76 | ends the drag |
| ITunesPlayer.Player.BeginClose | src/components/ITunesPlayer.tsx:108-110 | closing starts the close animation |
| ITunesPlayer.Player.FinishClose | src/components/ITunesPlayer.tsx:111-113 | the timer clears the closing flag and the page's `onClose` hides the player |
| ITunesPlayer.NextThenPrev | src/components/ITunesPlayer.tsx:118-130 | next then previous returns to the same track |
| ITunesPlayer.PrevThenNext | src/components/ITunesPlayer.tsx:118-130 | previous then next returns to the same track |
| ITunesPlayer.PlaylistSession | src/components/ITunesPlayer.tsx:118-136 | previous from the first track wraps to "Midnight Blues", next wraps back to "Late Night Drive", and selecting "Echoes" plays it |
| ITunesPlayer.WindowSession | src/pages/Index.tsx:33-41 | opened from the dock, the player is centred at (560, 280), follows a drag, and draws nothing once closed |

## Left out

- Rendering, styling, icons, the file grid, the image viewer, Finder's grid/list view mode and
  the blog post text are left out. They are presentation and compute nothing the model states.
- The `mousemove`/`mouseup` listener effects (for example `src/components/Finder.tsx:150-159`)
  are left out. The model calls `MouseMove`/`MouseUp` directly, and registration order and
  removal are not modelled.
- The two layout effects are run only when `isOpen` or `isMaximized` changes, and in
  `WindowGeometry.ResizedFrameAsWritten` for a resize step. A `savedPosition` change on its
  own also re-runs the restore effect, but at those points (`handleResizeStart`) the window
  already stands at that position, so nothing moves.
- WindowGeometry.FloatingWindow.MouseMove: keeps the origin the handler computes. It does not
  re-centre after each resize step as the source does; that step is kept apart in
  `ResizedFrameAsWritten` (see Findings).
- The timers (`setTimeout` for closing and for the Email form reset) are split into a method
  for the handler and one for the callback. Timer cancellation and overlapping timers beyond
  the Email pending-reset count are not modelled.
- `saveNotes` and `getNotes` (`src/components/TextEdit.tsx:27-35`) are not modelled
  separately. The first does nothing and the second always returns the fixture notes, so
  saves only change the in-memory list, and `TextEdit.TextEditor.Open` reloads the fixtures.
- The textarea focus calls and `e.preventDefault`/`e.stopPropagation` are left out, as DOM
  side effects.
- Parents other than `src/pages/Index.tsx` are not part of this model. `onClose`, `onMinimize`
  and `onFocus` are modelled as the parent clearing `isOpen`, setting `isMinimized`, and the
  `ClickRaises` verdict.
- The volume slider and the progress-bar seek are left out. They set a number the model
  states nothing about.
- The displayed `currentTime` (`src/components/ITunesPlayer.tsx:144`) is left out. It is a
  display value only.
- ITunesPlayer.Player.Tick: the interval is a parameterless step run by the caller; timing
  and the interval's re-creation on track change are not modelled.
- ITunesPlayer.Player.Tick: progress is an exact `real`. The source adds the double
  `100 / durationSeconds`, and rounding can leave the sum of a track's shares just below 100.
  For such a track the program moves to the next track one tick later than the model does.
- ITunesPlayer.SecondShare: states the share in exact arithmetic. With IEEE doubles, the
  track's length in seconds of these shares need not add up to exactly 100.
- `formatTime` (`src/components/ITunesPlayer.tsx:138-142`) is the same code as
  `formatDuration`, so `Storage.FormatDuration` models both.
- Storage.FormatDurationRoundTrip: stated for whole, non-negative second counts.
  `formatDuration` of a negative or fractional number is modelled for integers only.
  Floating-point seconds are not modelled.
- ITunesPlayer.PrevIndex: a current track missing from the playlist gives -2, as in the
  source. The model's `Valid` keeps the current track in the playlist, so that case never
  reaches `Prev`.
- ITunesPlayer.Player.SelectTrack: requires the track to be one of the playlist's, as the
  only caller (the playlist rows) guarantees.
- Geometry uses exact `real` arithmetic, not IEEE doubles. JavaScript `Date` values are
  opaque strings passed in.

## Findings

| source | as written | input that shows it | evidently intended | confidence | as-written member | corrected member |
|---|---|---|---|---|---|---|
| src/lib/storage.ts:62 | the file name is the quality followed by `default.jpg`, with `maxres` first mapped to `maxresdefault`; the default quality yields `maxresdefaultdefault.jpg`, and `default`, `medium`, `high` yield `defaultdefault.jpg`, `mediumdefault.jpg`, `highdefault.jpg` | any YouTube URL with an id, e.g. `https://youtu.be/abc`, with any quality; with the default quality it gives `https://img.youtube.com/vi/abc/maxresdefaultdefault.jpg` | `maxresdefault.jpg`, `default.jpg`, `mqdefault.jpg`, `hqdefault.jpg` | high; not executed | Storage.WrittenThumbnailMisnamed | Storage.YouTubeThumbnail |
| src/components/Finder.tsx:63-72 | `savedSize` is a dependency of the centring effect and each resize step stores a new size object, so after every step the window is re-centred for its new size and the origin the handler computed (`newX`, `newY`) is discarded; the same holds in the other four windows | a 900×550 Finder window centred at (510, 265) in 1920×1080, right handle dragged 100 to the right: it ends at (460, 265), not (510, 265) | the edges that are not dragged stay put and the origin follows the handler | medium; not executed | WindowGeometry.RightResizeRecentres | WindowGeometry.FloatingWindow.MouseMove |
