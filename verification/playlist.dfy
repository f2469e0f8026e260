/**
 The `Player` component of the music player: a fixed, ordered playlist, the
 index of the current track and the `playing` flag, changed only by the three
 click handlers of the control bar (play/pause, next, previous).

 Each handler is modelled as a pure transition on an immutable state record;
 the number of tracks `n` is a parameter (the component hard-codes two).
 */
module Playlist {

  /** One entry of the hard-coded playlist; never mutated, referred to by index. */
  datatype Track = Track(
    id: int,
    trackName: string,
    artistName: string,
    artworkUrl: string,
    mediaUrl: string,
    durationMilliseconds: int)

  /** The playlist the component is constructed with. */
  const DefaultTracks: seq<Track> := [
    Track(1, "The Pretender", "Foo Fighters",
          "https://images.sk-static.com/images/media/profile_images/artists/29315/huge_avatar",
          "https://p.scdn.co/mp3-preview/6aba2f4e671ffe07fd60807ca5fef82d48146d4c?cid=1cef747d7bdf4c52ac981490515bda71",
          30000),
    Track(2, "Do I Wanna Know?", "Arctic Monkeys",
          "https://cps-static.rovicorp.com/3/JPG_500/MI0003/626/MI0003626958.jpg?partner=allrovi.com",
          "https://p.scdn.co/mp3-preview/9ec5fce4b39656754da750499597fcc1d2cc82e5?cid=1cef747d7bdf4c52ac981490515bda71",
          30000)
  ]

  /** The part of the component state the handlers touch. The wall-clock
      `currentTime` field is not modelled. */
  datatype PlayerState = PlayerState(playing: bool, trackIdx: int)

  /** Freshly constructed player: playing, on the first track. */
  const Initial: PlayerState := PlayerState(true, 0)

  /** Element ids the handlers compare the click target against. */
  const PlayId: string := "play"
  const PauseId: string := "pause"
  const NextId: string := "next"
  const PrevId: string := "prev"

  /** The current index can be used to look up a track in a list of `n`. */
  predicate InBounds(s: PlayerState, n: int) {
    0 <= s.trackIdx < n
  }

  /** Handler of the play/pause icon: the flag becomes true exactly when the
      clicked element is the "play" icon, whatever it was before. */
  function TogglePlay(s: PlayerState, targetId: string): (r: PlayerState)
    ensures r.playing <==> targetId == PlayId
    ensures r.trackIdx == s.trackIdx
  {
    s.(playing := targetId == PlayId)
  }

  /** Handler of the "next" icon: advance, wrapping from the last track to the first. */
  function ToggleNext(s: PlayerState, n: int, targetId: string): (r: PlayerState)
    ensures r.playing == s.playing
    ensures targetId != NextId ==> r == s
    ensures InBounds(s, n) ==> InBounds(r, n)
  {
    if targetId == NextId then
      s.(trackIdx := if s.trackIdx < n - 1 then s.trackIdx + 1 else 0)
    else
      s
  }

  /** Handler of the "prev" icon: retreat, wrapping from the first track to the last. */
  function TogglePrev(s: PlayerState, n: int, targetId: string): (r: PlayerState)
    ensures r.playing == s.playing
    ensures targetId != PrevId ==> r == s
    ensures InBounds(s, n) ==> InBounds(r, n)
  {
    if targetId == PrevId then
      s.(trackIdx := if s.trackIdx > 0 then s.trackIdx - 1 else n - 1)
    else
      s
  }

  /** Id of the play/pause icon `render` shows: "play" while paused, "pause" while playing. */
  function PlayPauseIconId(s: PlayerState): (r: string)
    ensures r == PlayId <==> !s.playing
    ensures s.playing ==> r == PauseId
  {
    if !s.playing then PlayId else PauseId
  }

  /** Which handler an icon is wired to; the click carries the target's id. */
  datatype Handler = PlayPauseHandler | NextHandler | PrevHandler
  datatype Click = Click(handler: Handler, targetId: string)

  /** One click on the control bar, dispatched to its handler. */
  function Step(s: PlayerState, n: int, c: Click): (r: PlayerState)
    ensures InBounds(s, n) ==> InBounds(r, n)
    ensures c.handler != PlayPauseHandler ==> r.playing == s.playing
  {
    match c.handler
    case PlayPauseHandler => TogglePlay(s, c.targetId)
    case NextHandler => ToggleNext(s, n, c.targetId)
    case PrevHandler => TogglePrev(s, n, c.targetId)
  }

  /** The state after a sequence of clicks, each handled atomically in order. */
  function Run(s: PlayerState, n: int, clicks: seq<Click>): PlayerState
    decreases |clicks|
  {
    if |clicks| == 0 then s
    else Step(Run(s, n, clicks[..|clicks| - 1]), n, clicks[|clicks| - 1])
  }

  /** `k` clicks on the "next" icon. */
  function NextTimes(s: PlayerState, n: int, k: nat): PlayerState {
    if k == 0 then s else ToggleNext(NextTimes(s, n, k - 1), n, NextId)
  }

  // ---------------------------------------------------------------------
  // Properties
  // ---------------------------------------------------------------------

  /** "next" from an in-bounds index is the successor modulo the playlist length. */
  lemma NextIsSuccessorModN(s: PlayerState, n: int)
    requires InBounds(s, n)
    ensures ToggleNext(s, n, NextId).trackIdx == (s.trackIdx + 1) % n
    ensures s.trackIdx == n - 1 ==> ToggleNext(s, n, NextId).trackIdx == 0
  {
  }

  /** "prev" from an in-bounds index is the predecessor modulo the playlist length. */
  lemma PrevIsPredecessorModN(s: PlayerState, n: int)
    requires InBounds(s, n)
    ensures TogglePrev(s, n, PrevId).trackIdx == (s.trackIdx - 1 + n) % n
    ensures s.trackIdx == 0 ==> TogglePrev(s, n, PrevId).trackIdx == n - 1
  {
  }

  /** "prev" undoes "next" on every in-bounds index. */
  lemma PrevUndoesNext(s: PlayerState, n: int)
    requires InBounds(s, n)
    ensures TogglePrev(ToggleNext(s, n, NextId), n, PrevId) == s
  {
  }

  /** "next" undoes "prev" on every in-bounds index. */
  lemma NextUndoesPrev(s: PlayerState, n: int)
    requires InBounds(s, n)
    ensures ToggleNext(TogglePrev(s, n, PrevId), n, NextId) == s
  {
  }

  /** `k <= n` clicks on "next" move `k` places forward around the playlist;
      in particular `n` clicks come back to the starting track. */
  lemma {:induction false} NextTimesWrapsAround(s: PlayerState, n: int, k: nat)
    requires InBounds(s, n)
    requires k <= n
    ensures NextTimes(s, n, k).playing == s.playing
    ensures NextTimes(s, n, k).trackIdx ==
              if s.trackIdx + k < n then s.trackIdx + k else s.trackIdx + k - n
    ensures k == n ==> NextTimes(s, n, k) == s
  {
    if k > 0 {
      NextTimesWrapsAround(s, n, k - 1);
    }
  }

  /** Clicking the play/pause icon that is shown flips the flag, so two
      clicks restore it; the track does not change. */
  lemma ClickingShownIconFlips(s: PlayerState)
    ensures TogglePlay(s, PlayPauseIconId(s)).playing == !s.playing
    ensures TogglePlay(s, PlayPauseIconId(s)).trackIdx == s.trackIdx
    ensures var once := TogglePlay(s, PlayPauseIconId(s));
            TogglePlay(once, PlayPauseIconId(once)) == s
  {
  }

  /** Repeating a play/pause click on the same element changes nothing more. */
  lemma TogglePlayIdempotent(s: PlayerState, targetId: string)
    ensures TogglePlay(TogglePlay(s, targetId), targetId) == TogglePlay(s, targetId)
  {
  }

  /** Every sequence of clicks keeps an in-bounds index in bounds. */
  lemma {:induction false} RunStaysInBounds(s: PlayerState, n: int, clicks: seq<Click>)
    requires InBounds(s, n)
    ensures InBounds(Run(s, n, clicks), n)
    decreases |clicks|
  {
    if |clicks| > 0 {
      RunStaysInBounds(s, n, clicks[..|clicks| - 1]);
    }
  }

  /** Every state reachable from the initial one can index a non-empty playlist. */
  lemma ReachableInBounds(n: int, clicks: seq<Click>)
    requires n >= 1
    ensures InBounds(Run(Initial, n, clicks), n)
  {
    RunStaysInBounds(Initial, n, clicks);
  }

  /** The track `render` looks up after the given clicks on a freshly
      constructed player; the lookup is in bounds for every click sequence. */
  function TrackShown(tracks: seq<Track>, clicks: seq<Click>): (t: Track)
    requires |tracks| >= 1
    ensures t in tracks
  {
    ReachableInBounds(|tracks|, clicks);
    tracks[Run(Initial, |tracks|, clicks).trackIdx]
  }

  /** Plays a session of clicks and collects the track `render` shows after
      construction and after every click. */
  method Session(tracks: seq<Track>, clicks: seq<Click>) returns (shown: seq<Track>)
    requires |tracks| >= 1
    ensures |shown| == |clicks| + 1
    ensures shown[0] == tracks[0]
    ensures forall j :: 0 <= j < |shown| ==> shown[j] == TrackShown(tracks, clicks[..j])
  {
    var state := Initial;
    shown := [tracks[state.trackIdx]];
    var i := 0;
    while i < |clicks|
      invariant 0 <= i <= |clicks|
      invariant state == Run(Initial, |tracks|, clicks[..i])
      invariant InBounds(state, |tracks|)
      invariant |shown| == i + 1
      invariant forall j :: 0 <= j < |shown| ==> shown[j] == TrackShown(tracks, clicks[..j])
    {
      assert clicks[..i + 1][..i] == clicks[..i];
      state := Step(state, |tracks|, clicks[i]);
      shown := shown + [tracks[state.trackIdx]];
      i := i + 1;
    }
  }
}
