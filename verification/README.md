# react-music-player: playlist navigation and seek gating

A Dafny model of the two pieces of state logic in the music player's
`src/PlayerTemplate.js`:

- **`Player`** (module `Playlist`, `playlist.dfy`): a fixed, ordered playlist,
  the index `trackIdx` of the current track and the `playing` flag. Three click
  handlers change them: `togglePlay`, `toggleNext`, `togglePrev`. Each handler
  acts only on the id of the clicked element. Next and previous wrap around at
  both ends of the list.
- **`MediaPlayer`** (module `MediaPlayer`, `media_player.dfy`): the seek slider
  around the streaming component. Its state is `played`, `playedSeconds`,
  `loadedSeconds` and `seeking`. Progress reports are merged only while no drag
  is in progress. Pressing the slider starts a drag. Moving it updates only
  `played`. Releasing it ends the drag and sends one `seekTo` command to the
  streaming component.

Every handler is a pure function from the old state to the new one. A
sequence of events is folded with `Run`. The number of tracks `n` is a
parameter; the component's own two-entry list is `Playlist.DefaultTracks`.
The `seekTo` call is modelled as a `Command` value that `MediaPlayer.Step`
returns. The streaming component itself is not modelled.

Notes on how the code behaves, which the model follows:

- `togglePlay` does not negate `playing`. It sets `playing` to whether the
  clicked element's id is `"play"` (src/PlayerTemplate.js:61-65), and
  `Playlist.TogglePlay` does the same. The component's header comment asks
  for a button that plays or pauses (src/PlayerTemplate.js:12-13).
  `Playlist.ClickingShownIconFlips` shows that this is what happens in use:
  `render` shows the `"play"` icon exactly while paused, so clicking the icon
  on screen flips the flag.
- `onSeekMouseUp` passes the slider fraction to `seekTo` unscaled
  (src/PlayerTemplate.js:160). `MediaPlayer.OnSeekMouseUp` sends that
  fraction.
- The handlers do not check for an empty playlist, and the model's handlers
  accept any `n`. Every lemma about an in-bounds index needs `n >= 1` through
  `InBounds`. `Playlist.ReachableInBounds`, `Playlist.TrackShown` and
  `Playlist.Session` require `n >= 1` directly, because `render` would fail on
  an empty list.

## Model

| member | source | states |
|---|---|---|
| Playlist.TogglePlay | src/PlayerTemplate.js:59-67 | `playing` becomes true exactly when the clicked id is `"play"`, whatever it was before; the track index is untouched |
| Playlist.TogglePlayIdempotent | src/PlayerTemplate.js:59-67 | a second play/pause click on the same element changes nothing more |
| Playlist.PlayPauseIconId | src/PlayerTemplate.js:103-108 | `render` shows the icon with id `"play"` exactly while paused, and the `"pause"` icon while playing |
| Playlist.ClickingShownIconFlips | src/PlayerTemplate.js:103-108 | clicking the icon `render` shows ("play" while paused, "pause" while playing) negates `playing`, two such clicks restore the state, and the track stays the same |
| Playlist.ToggleNext | src/PlayerTemplate.js:69-80 | never changes `playing`; any id other than `"next"` leaves the state unchanged; an in-bounds index stays in bounds |
| Playlist.TogglePrev | src/PlayerTemplate.js:82-93 | never changes `playing`; any id other than `"prev"` leaves the state unchanged; an in-bounds index stays in bounds |
| Playlist.NextIsSuccessorModN | src/PlayerTemplate.js:71-77 | from an in-bounds index, "next" gives `(idx + 1) mod n`; from the last track it gives 0 |
| Playlist.PrevIsPredecessorModN | src/PlayerTemplate.js:84-90 | from an in-bounds index, "prev" gives `(idx - 1 + n) mod n`; from the first track it gives `n - 1` |
| Playlist.PrevUndoesNext | src/PlayerTemplate.js:69-93 | "prev" after "next" returns to the original state for every in-bounds index |
| Playlist.NextUndoesPrev | src/PlayerTemplate.js:69-93 | "next" after "prev" returns to the original state for every in-bounds index |
| Playlist.NextTimesWrapsAround | src/PlayerTemplate.js:69-80 | `k <= n` "next" clicks move `k` places forward, wrapping past the end; `n` clicks return to the starting track; `playing` is untouched |
| Playlist.Step | src/PlayerTemplate.js:122-124 | a click dispatched to any of the three handlers keeps an in-bounds index in bounds; only the play/pause handler can change `playing` |
| Playlist.RunStaysInBounds | src/PlayerTemplate.js:59-93 | every sequence of clicks from an in-bounds state ends in an in-bounds state |
| Playlist.ReachableInBounds | src/PlayerTemplate.js:52-56 | from the initial state (track 0) with `n >= 1`, every sequence of clicks leaves `0 <= trackIdx < n` |
| Playlist.TrackShown | src/PlayerTemplate.js:112-119 | after any sequence of clicks on a freshly constructed player with a non-empty playlist, the track `render` looks up exists and belongs to the playlist |
| Playlist.Session | src/PlayerTemplate.js:112-119 | replaying clicks yields one rendered track per state, starting with the first track, each the one selected by the clicks so far |
| MediaPlayer.InitialAcceptsProgress | src/PlayerTemplate.js:138-150 | the constructed state has no drag in progress (its missing `seeking` entry reads as false), so a first progress report is merged in full and sends no command |
| MediaPlayer.OnProgress | src/PlayerTemplate.js:145-151 | outside a drag, the report overwrites `played`, `playedSeconds` and `loadedSeconds`; during a drag the state is entirely unchanged; `seeking` never changes |
| MediaPlayer.OnSeekMouseDown | src/PlayerTemplate.js:152-154 | sets `seeking` and changes nothing else |
| MediaPlayer.OnSeekChange | src/PlayerTemplate.js:155-157 | sets `played` to the slider value and changes nothing else |
| MediaPlayer.OnSeekMouseUp | src/PlayerTemplate.js:158-161 | clears `seeking`, changes nothing else, and sends exactly one `seekTo` with the released value |
| MediaPlayer.Step | src/PlayerTemplate.js:145-161 | a command is sent exactly on release; afterwards a drag is in progress exactly after a press, or when one was already in progress and this event is not a release |
| MediaPlayer.Run | src/PlayerTemplate.js:145-161 | a sequence of events sends at most one command per event |
| MediaPlayer.CommandsAreReleases | src/PlayerTemplate.js:158-161 | the commands sent by any event sequence are exactly one `seekTo(v)` per release at `v`, in order |
| MediaPlayer.DragFreezesProgress | src/PlayerTemplate.js:145-157 | during a drag, until release: `playedSeconds` and `loadedSeconds` stay frozen, `played` is the last slider value, the drag continues, and no command is sent |
| MediaPlayer.ProgressDroppedWhileSeeking | src/PlayerTemplate.js:145-151 | progress reports arriving during a drag leave the state entirely unchanged |
| MediaPlayer.LatestProgressWins | src/PlayerTemplate.js:145-151 | outside a drag, after a non-empty run of progress reports the state holds exactly the latest report's values; no command is sent |
| MediaPlayer.DragGesture | src/PlayerTemplate.js:152-161 | press, then any moves and reports, then release at `v`: the drag ends, exactly one `seekTo(v)` is sent, `played` is the last slider value, and the played and buffered seconds are those from before the press |

## Left out

- Rendering: the JSX, CSS classes, artwork and text display, and the
  `Math.floor` formatting of seconds. They are presentation only. Two parts of
  `render` are kept: the choice of play/pause icon id (`PlayPauseIconId`) and
  the track lookups (`TrackShown`, `Session`).
- `launchClock`, `setInterval` and the `currentTime` field. They depend on
  timers and the wall clock and hold no logic to verify.
- `console.log` and `forceUpdate`. They are side effects that do not change
  the modelled state.
- The streaming component (`ReactPlayer`) and what `seekTo` does inside it.
  Its source is not part of this model. `seekTo` appears only as a
  sent command.
- The extra `loaded` field of a progress report. `setState` merges it into the
  state, but nothing reads it.
- `parseFloat` of the slider's string value. The model takes the value as
  already parsed. Slider values are `real`s, and floating-point behaviour is
  not modelled.
- React's asynchronous, batched `setState`. Each handler is one atomic
  transition.
- Passing `playing` and the current track from `Player` to `MediaPlayer` as
  props. The two state machines are modelled separately.
- Slider values reach `seekTo` unclamped, as in the code; the range the
  slider itself enforces is not modelled.
- `src/index.js` and `src/App.js`. They only bootstrap the application and wrap
  the component.
