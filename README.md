# Music player, lyrics overlay, gallery and scene bookkeeping — a Dafny model

This project models the browser-side logic of a birthday music page. The
page has the following parts:

- **Playlist navigation** (`js/navigation.js`). A playlist, a cursor (`-1`
  means "no track"), a shuffle flag and a repeat mode (`'off'`, `'all'`,
  `'one'`, initially the boolean `false`). The operations are next, previous,
  play-by-index, the enabled state of the two navigation buttons, and the
  `ended` listener.
- **Auto-play** (`js/autoplay.js`). What happens when a track ends: replay
  under `'one'`, the next index (shuffle, sequential, wrap under `'all'`),
  the playlist-end path, and the configurable delay.
- **Visualizer navigation and time display** (`js/audioVisualizer.js`).
  `goToNextSong` with its own `repeatPlaylist` flag, and `formatTime` (`M:SS`).
- **Karaoke overlay** (`js/karaoke.js`).
  - The parser of `[m:ss.ff]text` lyric lines.
  - The `timeupdate` choice of the active line, with its four-line sliding
    window and fade-out classes.
  - Dragging the panel, clamped to the window, and the show/hide toggle.
- **Photo gallery** (`js/visionProGallery.js`). A list of images, a wrapping
  cursor, open/close, the keyboard handler, and the image counter.
- **Scene bookkeeping** (`js/main.js`).
  - Twelve ceiling slots that rising balloons stick to.
  - The balloon loop of each animation frame.
  - The ring layout and colours of the hex-wave grid.
  - Loading effects by name, and the "auto" rotation of six effects.
- **Status-bar clock** (`js/indicadores.js`). The `HH:MM` text and the wait
  until the next minute.

## How the model is organised

There is one module per source file: `Playlist`, `AutoPlay`,
`AudioVisualizer`, `Karaoke`, `Gallery`, `Scene` and `Clock`. A further
module, `JsText`, models the JavaScript string primitives the code relies on:
`String(n)`, `padStart`, `split`, `trim` and digit strings.

State the source updates in place is a class with those fields:

- `Playlist.Player` holds the shared page globals `currentPlaylist`,
  `currentSongIndex`, `isShuffleMode` and `isRepeatMode`, plus the two button
  states.
- `AutoPlay.AutoPlayer` and `AudioVisualizer.Visualizer` work on that same
  player.
- The other classes are `Karaoke.KaraokeOverlay`, `Gallery.VisionProGallery`
  and `Scene.Scene`.

Pure computations are functions, and lemmas relate them. The loops of the
source are methods with loop invariants, each proved against a function. The
loops are:

- the shuffle retry loop;
- the line-by-line lyric parse;
- the per-tick scan of lyric lines;
- the window update;
- the slot initialisation;
- the hex-wave grid construction;
- the balloon loop.

Inputs the code receives from outside the modelled files are parameters:

- `Math.random` is a sequence of draws in [0, 1), consumed in order.
- The success of `window.initializeAudioForPlaylist` is a boolean `audioOk`.
- Whether `window.karaoke` exists is a boolean `karaokePresent`.
- Clock readings are numbers.
- Window and panel sizes are reals.

Some behaviours the model keeps as the code has them:

- **`playSongByIndex` fails on a track without lyrics when an overlay
  exists.** For such a track, `playSongByIndex` calls
  `window.karaoke.clearLyrics()`, and `KaraokeOverlay` has no such method.
  The call throws inside the `try`, so the function returns `false` even
  though the audio started, and the navigation buttons are not refreshed.
  `Playlist.StartSucceeds` states this.
- **Several lines can qualify in one tick.** The `timeupdate` handler does
  not assume sorted times: with unsorted times, several lines may qualify in
  one tick, and the last one wins. Under sorted times, at most one line
  qualifies (`Karaoke.ActiveLineUnique`).
- **The scene starts empty.** `init` loads the effect `"globe"`, which no
  builder handles.
- **Ceiling slots are never freed.** No code clears a slot's `taken` flag,
  so slots taken by balloons that `clearEffect` removed stay taken.
  `Scene.StepAllConserves` shows that each frame takes exactly as many slots
  as balloons it sticks.

## Model

| member | source | states |
|---|---|---|
| JsText.NatToString | js/indicadores.js:4-5 | `String(n)` of a non-negative integer is non-empty, all decimal digits, and begins with '0' only for 0 |
| JsText.NatToStringRoundTrip | js/indicadores.js:4-5 | reading the digits of `String(n)` back gives `n` |
| JsText.NatToStringLength | js/indicadores.js:4-5 | `String(n)` has one digit exactly when n < 10, and two for 10 to 99 |
| JsText.IntToString | js/audioVisualizer.js:292-294 | `String(i)` of an integer starts with '-' exactly when i is negative, and is all digits otherwise |
| JsText.PadStart | js/indicadores.js:4-5 | `padStart` leaves a long enough string alone; otherwise the result has exactly the width, ends with the original and has only fill characters in front |
| JsText.Split | js/karaoke.js:25 | `split` gives at least one piece, and no piece contains the separator |
| JsText.SplitThenJoin | js/karaoke.js:25 | joining the pieces of a split with the separator gives the text back |
| JsText.JoinThenSplit | js/karaoke.js:25 | splitting separator-free pieces joined by the separator gives the pieces back |
| JsText.TrimStartSpec | js/karaoke.js:32 | the leading trim removes a prefix made only of white space, and what remains does not start with white space |
| JsText.TrimEndSpec | js/karaoke.js:32 | the trailing trim removes a suffix made only of white space, and what remains does not end with white space |
| JsText.TrimSpec | js/karaoke.js:32 | `trim` gives a trimmed substring, and leaves a trimmed string unchanged |
| Playlist.ToggledRepeat | js/navigation.js:294-296 | the mode after a toggle is one of the three named modes, at position (indexOf + 1) mod 3 |
| Playlist.RepeatCycle | js/navigation.js:294-296 | from the initial `false` the first toggle gives 'off'; then 'off' → 'all' → 'one' → 'off', so three toggles are the identity |
| Playlist.PickInRange | js/navigation.js:101 | `Math.floor(Math.random() * n)` is a valid index |
| Playlist.ExitFrom | js/navigation.js:100-102 | the shuffle loop stops at the first draw that lands off the current track, and every earlier draw landed on it |
| Playlist.ShufflePickSpec | js/navigation.js:98-102 | the shuffle pick is a valid index and differs from the current track when there are two tracks or more |
| Playlist.DrawUntilDifferent | js/navigation.js:100-102 | the do-while loop returns the shuffle pick: in range, and not the current track when n > 1 |
| Playlist.StepsInRange | js/navigation.js:90-151 | next and previous find nothing to play exactly on an empty playlist; from a cursor in [-1, n) every target is a valid index; a shuffle never repeats the current track |
| Playlist.NextPrevInverse | js/navigation.js:105-145 | under 'all', sequential next and previous undo each other |
| Playlist.AdvanceVisitsAll | js/navigation.js:105-114 | without 'all', k next requests from track 0 reach track k, and the n-th stops at the end |
| Playlist.AdvanceWraps | js/navigation.js:105-110 | under 'all', k requests from track 0 reach track k, and n requests come back to 0 |
| Playlist.AdvancePeriodic | js/navigation.js:105-110 | under 'all', n more next requests change nothing |
| Playlist.ButtonsMatchNavigation | js/navigation.js:160-188 | a navigation button is disabled exactly when pressing it would stop at the playlist's end |
| Playlist.FindIndex | js/navigation.js:25 | `findIndex` gives -1 exactly when no track has the file, and otherwise the first track that has it |
| Playlist.Player.constructor | js/navigation.js:4-7 | the globals start with an empty playlist, cursor -1, shuffle off and repeat `false` |
| Playlist.Player.UpdateCurrentPlaylist | js/navigation.js:18-21 | the playlist is replaced, and the cursor is kept |
| Playlist.Player.FindCurrentSongIndex | js/navigation.js:24-28 | the cursor becomes the first index of the file (or -1), which is also returned |
| Playlist.Player.PlaySongByIndex | js/navigation.js:31-70 | an out-of-range index is refused and changes nothing; otherwise the cursor moves before playback and stays even if playback fails; the result and the lyric fetch are as `StartSucceeds` and `LyricsFetch` say |
| Playlist.Player.UpdateNavigationButtons | js/navigation.js:160-188 | without both buttons, or on an empty playlist, nothing changes; otherwise the buttons get `ButtonState` |
| Playlist.Player.PlayNext | js/navigation.js:90-122 | plays the step `NextStep` decides; the buttons are refreshed only on success; nothing changes when there is no target |
| Playlist.Player.PlayPrevious | js/navigation.js:125-157 | the mirror of `PlayNext`, with `PrevStep` |
| Playlist.Player.SelectTrack | js/navigation.js:234-239 | a click on a playlist entry plays it, and refreshes the buttons only on success |
| Playlist.Player.RenderPlaylist | js/navigation.js:215-248 | the playlist is replaced and the buttons refreshed, and the cursor is kept |
| Playlist.Player.ToggleShuffle | js/navigation.js:286-291 | shuffle flips, the buttons are refreshed and the new flag returned |
| Playlist.Player.ToggleRepeat | js/navigation.js:293-300 | the repeat mode becomes `ToggledRepeat` of the old one, and the buttons are refreshed |
| Playlist.Player.OnEnded | js/navigation.js:255-272 | under 'one' the track replays and nothing else changes; otherwise it is exactly `playNext` |
| AutoPlay.NextSongIndexInRange | js/autoplay.js:79-108 | an empty playlist gives -1; a shuffle gives 0 on one track and otherwise a valid index other than the current; from a cursor ≥ -1 the answer is -1 or a valid index |
| AutoPlay.AgreesWithPlayNext | js/autoplay.js:79-108 | on a non-empty playlist and from a cursor ≥ -1, auto-play's next index agrees with `playNext`: -1 exactly when `playNext` stops at the end, and otherwise the same track |
| AutoPlay.AutoPlayer.constructor | js/autoplay.js:5-6 | auto-play starts enabled with a 1000 ms delay |
| AutoPlay.AutoPlayer.GetNextSongIndex | js/autoplay.js:79-108 | the method, with its retry loop, returns `NextSongIndex` |
| AutoPlay.AutoPlayer.PlayNextSong | js/autoplay.js:111-126 | plays the index, and refreshes the buttons only on success |
| AutoPlay.AutoPlayer.RepeatCurrentSong | js/autoplay.js:63-76 | a successful replay changes nothing; a failed one falls back to the next index, unless there is none |
| AutoPlay.AutoPlayer.HandleSongEnd | js/autoplay.js:26-56 | nothing when disabled; under 'one' a replay, or after a failed replay the fallback to the next index with the cursor, buttons and lyric fetch that navigation gives (untouched when there is none); the end path when there is no next index; otherwise a deferred play after a positive delay, or an immediate one |
| AutoPlay.AutoPlayer.ToggleAutoPlay | js/autoplay.js:235-247 | the flag flips and is returned |
| AutoPlay.AutoPlayer.SetAutoPlayDelay | js/autoplay.js:250-261 | the delay becomes `max(0, ms)` and is returned |
| AutoPlay.AutoPlayer.ReplayPlaylist | js/autoplay.js:264-275 | on a non-empty playlist the first track is started (the cursor goes to 0); on an empty one nothing happens |
| AudioVisualizer.FloorSplit | js/audioVisualizer.js:292-293 | for a non-negative time, the two floors give the whole minutes and the seconds within the minute |
| AudioVisualizer.SecondsFieldTwoDigits | js/audioVisualizer.js:294 | the seconds field is two digits, zero-padded, and reads back as the seconds |
| AudioVisualizer.FormatTimeReadsBack | js/audioVisualizer.js:290-295 | reading `formatTime` of a non-negative time back as `M:SS` gives its whole seconds |
| AudioVisualizer.FormatTimeTruncates | js/audioVisualizer.js:290-295 | a time is shown the same as its whole seconds |
| AudioVisualizer.FormatTimeExamples | js/audioVisualizer.js:290-295 | NaN shows "0:00", 59.99 s shows "0:59" and 125 s shows "2:05" |
| AudioVisualizer.Visualizer.constructor | js/audioVisualizer.js:40 | the visualizer shares the player's globals, and `repeatPlaylist` starts at the given value |
| AudioVisualizer.Visualizer.GoToNextSong | js/audioVisualizer.js:30-74 | sequential next, wrapping only with `repeatPlaylist`; the cursor moves before the audio start and stays if it fails; lyrics are fetched only with an overlay |
| AudioVisualizer.Visualizer.SetCurrentPlaylist | js/audioVisualizer.js:89-93 | the playlist and cursor are set, with no range check |
| AudioVisualizer.Visualizer.ToggleRepeatPlaylist | js/audioVisualizer.js:97-101 | the flag flips and is returned |
| Karaoke.DigitRun | js/karaoke.js:28 | `\d+` takes the longest run of digits |
| Karaoke.DigitsThen | js/karaoke.js:28 | a digit group followed by its delimiter is non-empty and all digits, and the input is exactly that group, the delimiter and the rest |
| Karaoke.TakeLine | js/karaoke.js:28 | `.*` takes the longest prefix with no line terminator |
| Karaoke.FindMatchNone | js/karaoke.js:28 | `match` fails exactly when the pattern matches at no position of the line |
| Karaoke.FindMatchLeftmost | js/karaoke.js:28 | `match` returns the match at the leftmost position where the pattern matches |
| Karaoke.GroupsAreDigits | js/karaoke.js:28 | the minute group and both parts of the seconds group are non-empty digit strings |
| Karaoke.ParseLineMatches | js/karaoke.js:28-33 | a line gives an entry exactly when the pattern matches somewhere, and the entry comes from the leftmost match |
| Karaoke.MatchPrefixShape | js/karaoke.js:28 | a match is a literal `[minutes:whole.frac]` with the reported groups, and the reported text is the rest of that line |
| Karaoke.ParseLineSound | js/karaoke.js:28-33 | a line gives an entry only if it contains a bracket `[digits:digits.digits]`, and the entry is that bracket's time with the rest of the line, trimmed |
| Karaoke.NoBracketIgnored | js/karaoke.js:28-29 | a line without '[' gives no entry |
| Karaoke.ParseRender | js/karaoke.js:28-33 | a line written as `[m:ss.ff]text` parses back to time m·60 + ss.ff and the text |
| Karaoke.ParseLinesAppend | js/karaoke.js:25-42 | the entries keep the order of the lines (nothing is sorted) |
| Karaoke.ParseLinesLength | js/karaoke.js:25-42 | there is at most one entry per line |
| Karaoke.ExampleTimes | js/karaoke.js:30-33 | `[0:01.50]`, `[0:05.00]` and `[0:10.00]` give 1.5, 5 and 10 seconds |
| Karaoke.ParseExample | js/karaoke.js:22-43 | a four-line text with one untimed line parses to the three timed entries, in order |
| Karaoke.LastCurrentBelow | js/karaoke.js:50-54 | the last line that qualifies below a bound, or -1 when none does |
| Karaoke.ActiveLineUnique | js/karaoke.js:51-52 | with times in order, at most one line qualifies, none exactly when the list is empty or the time is before the first line, and it is `ActiveLine` |
| Karaoke.ActiveLineExample | js/karaoke.js:51-52 | at 7 s the second line is active, at 0 s none, and at 20 s the last |
| Karaoke.WindowView | js/karaoke.js:56-74 | the display after a change keeps one view per line |
| Karaoke.WindowFacts | js/karaoke.js:56-74 | after a change to line k, only k is active, exactly the lines before k fade out, and min(k, 3) + 1 lines are shown |
| Karaoke.WindowOverrides | js/karaoke.js:56-74 | a second change overrides the first completely |
| Karaoke.HiddenLines | js/karaoke.js:35-40 | `loadLyrics` creates one display line per entry |
| Karaoke.HiddenLinesSnoc | js/karaoke.js:35-40 | each new entry appends one hidden line carrying its text and no class |
| Karaoke.SyncSorted | js/karaoke.js:50-54 | with times in order, a tick changes the display exactly when the active line exists and differs from the current one |
| Karaoke.Clamp | js/karaoke.js:109-110 | the panel position is never negative, never beyond a non-negative limit, and unchanged when already inside |
| Karaoke.ToggleFlips | js/karaoke.js:122-131 | every toggle flips hidden and shown; two toggles from 'flex' or 'none' restore it; from no inline style, two toggles give 'none' |
| Karaoke.KaraokeOverlay.constructor | js/karaoke.js:2-20 | the overlay starts with no entries, no lines, current line -1 and no drag |
| Karaoke.KaraokeOverlay.LoadLyrics | js/karaoke.js:22-43 | the entries become `ParseLyrics(text)`, with one hidden line per entry; the current line is kept |
| Karaoke.KaraokeOverlay.ShowWindow | js/karaoke.js:56-76 | the display lines become `WindowView` of the old ones |
| Karaoke.KaraokeOverlay.Tick | js/karaoke.js:45-90 | the display changes exactly when some qualifying line differs from the current one, and then the current line is the last qualifying one |
| Karaoke.KaraokeOverlay.MouseDown | js/karaoke.js:95-100 | the drag starts, remembering the pointer's offset in the panel |
| Karaoke.KaraokeOverlay.MouseMove | js/karaoke.js:102-114 | while dragging, the panel moves to the pointer, clamped to the window; otherwise nothing changes |
| Karaoke.KaraokeOverlay.MouseUp | js/karaoke.js:116-119 | the drag ends |
| Karaoke.KaraokeOverlay.ToggleClick | js/karaoke.js:122-131 | with a toggle button the display becomes `ToggledDisplay`; without one nothing changes |
| Gallery.JsRem | js/visionProGallery.js:110 | JavaScript's `%` takes the sign of the dividend, stays below the divisor in size and differs from the dividend by a multiple of the divisor; it is the Euclidean remainder, less the divisor for a negative dividend not divisible by it |
| Gallery.StepsWithinList | js/visionProGallery.js:109-119 | within the list, next moves on and wraps from the last image to the first, and previous moves back and wraps from the first to the last |
| Gallery.StepsInRange | js/visionProGallery.js:109-119 | next lands in the list from any index ≥ -1, and previous from any index ≥ 1 - n |
| Gallery.NextPrevInverse | js/visionProGallery.js:109-119 | next then previous, or previous then next, return to the image |
| Gallery.NextTimesVisits | js/visionProGallery.js:109-113 | k presses of next from image i reach image i + k before the end of the list |
| Gallery.NextTimesAdd | js/visionProGallery.js:109-113 | a + b presses are a presses followed by b presses |
| Gallery.NextCycle | js/visionProGallery.js:109-113 | n presses of next go round the list back to the image |
| Gallery.VisionProGallery.constructor | js/visionProGallery.js:3-22 | the gallery starts closed on image 0 of the eight default images, with total 8 |
| Gallery.VisionProGallery.DisplayImage | js/visionProGallery.js:127-164 | an image in range starts loading and the counter shows its 1-based position; an index out of range throws before the counter is written |
| Gallery.VisionProGallery.Open | js/visionProGallery.js:88-100 | the gallery opens at the start index, with no range check |
| Gallery.VisionProGallery.Close | js/visionProGallery.js:102-107 | the gallery hides |
| Gallery.VisionProGallery.Next | js/visionProGallery.js:109-113 | the index becomes `(i + 1) % n`, and the image is displayed |
| Gallery.VisionProGallery.Previous | js/visionProGallery.js:115-119 | the index becomes `(i - 1 + n) % n`, and the image is displayed |
| Gallery.VisionProGallery.GoToImage | js/visionProGallery.js:121-125 | the index is set with no range check, and the image is displayed |
| Gallery.VisionProGallery.AddImage | js/visionProGallery.js:174-178 | the image is appended and the total grows by one |
| Gallery.VisionProGallery.SetImages | js/visionProGallery.js:181-186 | the list is replaced, the index reset to 0 and the total updated |
| Gallery.VisionProGallery.KeyDown | js/visionProGallery.js:48-62 | only while open: Escape closes, the arrow keys step back and forward and then show the new image (counter and load) when the index is in range, and any other key does nothing |
| Scene.InitialSlots | js/main.js:714-723 | twelve free slots on the ceiling (y = 60, z = 0), the first at x = -70 and the last at x = 62, each 12 to the right of the one before |
| Scene.InitialSlotsLayout | js/main.js:714-723 | the initial slots are all free, strictly left to right, and span x from -70 to 62 |
| Scene.FirstFree | js/main.js:1193 | `find` gives the first free slot, or none when all are taken |
| Scene.StepOne | js/main.js:1188-1203 | one balloon's step keeps every slot in place, never frees a slot, and uses at most two draws |
| Scene.StepOneSlots | js/main.js:1188-1198 | a stuck balloon never moves; a balloon that sticks takes the first free slot, copies its position and marks only it taken; with no free slot, the balloon stays free |
| Scene.StepOneCounts | js/main.js:1193-1197 | a balloon that sticks takes exactly one more slot |
| Scene.StepAll | js/main.js:1187-1205 | a frame keeps one balloon per balloon, keeps the slots in place and only adds taken flags |
| Scene.StepAllConserves | js/main.js:1187-1205 | over a frame, stuck balloons stay exactly as they were, and the slots taken equal the balloons newly stuck |
| Scene.StepAllKeepsCover | js/main.js:1187-1205 | stuck balloons never outnumber taken slots, which never exceed the twelve slots |
| Scene.BirthdayBalloonFacts | js/main.js:816-823 | birthday balloons start free at y = -50 with a speed in [0.1, 0.3); even ones start on the left, odd ones on the right |
| Scene.RingMeshes | js/main.js:372-437 | a ring has its particle count of circles, each with that ring's size, segments and colour, and a petal exactly from ring 5 on |
| Scene.HexWaveCounts | js/main.js:359-370 | the rings hold 8, 8, 18, 24, 30, 48, 56 and 64 circles: 256 in all |
| Scene.GridShape | js/main.js:355-441 | every circle belongs to a ring from 1 to 8 and has that ring's attributes, and the rings come in order |
| Scene.RingColors | js/main.js:394-419 | the colour each ring gets; the first centre colour and the last transition colour are never used |
| Scene.AutoRotation | js/main.js:866-874 | tick t of the "auto" interval loads effect t mod 6, so the rotation repeats every six ticks |
| Scene.Scene.constructor | js/main.js:6-17 | the scene starts empty, with the effect "globe" and no interval |
| Scene.Scene.InitializeCeilingSlots | js/main.js:714-723 | the twelve initial slots are appended |
| Scene.Scene.ClearEffect | js/main.js:93-116 | the balloons and the hex-wave circles are emptied and the group cleared; the slots are not touched |
| Scene.Scene.CreateRing | js/main.js:372-437 | one pass of the ring loop appends exactly that ring's circles, in order |
| Scene.Scene.CreateHexWaveGrid | js/main.js:355-441 | after clearing, the hex-wave circles are exactly `HexWaveGrid()` |
| Scene.Scene.LoadEffect | js/main.js:850-861 | a known name clears the scene and builds its effect; an unknown name changes nothing |
| Scene.Scene.SetEffect | js/main.js:863-879 | "auto" restarts the rotation at index 0 and loads nothing yet; any other name stops the rotation, becomes the current effect and is loaded |
| Scene.Scene.AutoTick | js/main.js:870-874 | an interval firing loads the effect at the index, and moves the index on modulo 6 |
| Scene.Scene.Init | js/main.js:832-848 | the slots are laid out; the initial "globe" loads nothing |
| Scene.Scene.CreateBalloon | js/main.js:725-746 | a free balloon at the given place with speed r·0.2 + 0.1 is appended |
| Scene.Scene.ActivateBirthdayEffect | js/main.js:812-826 | the fire effect replaces the scene (old balloons removed), then eight birthday balloons are created |
| Scene.Scene.StepBalloon | js/main.js:1188-1203 | the loop body for one balloon computes `StepOne` |
| Scene.Scene.AnimateBalloons | js/main.js:1187-1205 | the balloons, the slots and the unused draws after the loop are `StepAll` of the old ones |
| Clock.TwoDigitsReadsBack | js/indicadores.js:4-5 | below 100 each field is two digits, zero-padded, and reads back as the number |
| Clock.TimeStringFormat | js/indicadores.js:2-6 | for hours 0–23 and minutes 0–59 the text has five characters, ':' at index 2, and both fields read back |
| Clock.TimeStringInjective | js/indicadores.js:4-6 | two readings give the same text only when they are the same |
| Clock.WaitReachesNextMinute | js/indicadores.js:42-44 | the wait lies in [1, 60000] and is the shortest positive wait that ends exactly on the next minute |

## Left out

- DOM, CSS and console output: classes, styles, `innerHTML`, scrolling, notifications, the birthday overlay and confetti. Only the state these handlers decide is modelled.
- The Web Audio graph, the media element, and the progress and seek arithmetic. `initializeAudioForPlaylist` and `audioPlayer.play()` are abstracted to success or failure.
- Timers: `setTimeout` and `setInterval` are modelled as the step their callback takes (`AutoPlay.AutoPlayer.PlayNextSong`, `Scene.Scene.AutoTick`). The scheduling itself is not modelled.
- The race between the three separate `ended` listeners. Each listener's decision is modelled as its own atomic step.
- Network and storage: `fetch` of the lyric file appears only as the requested file name, and localStorage persistence and restore are not modelled.
- Three.js geometry, materials and floating-point animation. The meshes of every builder except the hex-wave grid, and the positions, angles and offsets of the hex-wave circles, are not modelled.
- `Playlist.Player.PlaySongByIndex`: the asynchronous lyric load (`loadLyrics` after `fetch`) is represented only by the requested file name.
- `Scene.Scene.LoadEffect`: builders other than the hex-wave grid are modelled only as clearing the scene and recording their name; the arrays they fill (`flowerPetals`, `atomElectrons`, and the hexagons, letter lines and maze lines that `createHexagons` and `createHexMaze` push into `hexMeshes`) are not modelled. The field `waveCircles` holds only the hex-wave part of `hexMeshes`, so its being empty after "hexagon" or "hexMaze" does not mean the source's list is empty.
- `Scene.Scene.LoadEffect`: a name of an `Object.prototype` member (such as "toString") is treated as unknown. The source looks it up as a property and may call it.
- `Scene.Scene.ClearEffect`: `globe = null` is not modelled, because no code ever assigns `globe`.
- `Scene.Scene.AnimateBalloons`: requires two draws per balloon. A frame uses at most that many, and the draws the source's other animations take in the same frame are not modelled.
- `Scene.Scene.ActivateBirthdayEffect`: requires 24 draws, three per balloon. The balloon colours are not modelled.
- `Gallery.VisionProGallery.Next`: requires a non-empty image list. On an empty list the source computes `% 0` (NaN), which is not modelled. The same applies to `Gallery.VisionProGallery.Previous` and `Gallery.VisionProGallery.KeyDown`.
- `AudioVisualizer.Visualizer.constructor`: `repeatPlaylist` is read and assigned in js/audioVisualizer.js but declared in no file of this model. The model assumes a declaration elsewhere and takes its initial value as a parameter. With these files alone, `toggleRepeatPlaylist` (js/audioVisualizer.js:97-98) and `goToNextSong` at the end of the playlist (js/audioVisualizer.js:40) would throw a ReferenceError; that error is not modelled.
- `AudioVisualizer.FormatTimeReadsBack`: number-to-string conversion uses plain decimal digits. Exponent notation, which JavaScript uses for minutes of 10^21 or more, is not modelled.
- `Karaoke.ParseRender`: `parseFloat` is modelled as the exact decimal value. Rounding to a double is not modelled.
- Characters are Unicode scalar values. JavaScript's UTF-16 code units, and so surrogate pairs, are not modelled.
- `AudioVisualizer.FormatTimeReadsBack`, `AudioVisualizer.FormatTimeTruncates` and `AudioVisualizer.FormatTimeExamples`: the media time, a double, is modelled as an exact real (or NaN and the infinities). Rounding of the division by 60 and of `% 60` is not modelled.
- `AutoPlay.AutoPlayer.SetAutoPlayDelay`: the delay is an integer. The source stores `Math.max(0, ms)` (js/autoplay.js:251), which can be fractional, or NaN for a NaN argument. A NaN delay fails `autoPlayDelay > 0` and so plays the next song at once; neither case is modelled.
- Integers are unbounded. All indices and counts here are far below 2^53.
