/**
 The `MediaPlayer` component: the seek slider wrapped around the external
 streaming component. Progress reports from the streaming component are merged
 into the state only while the user is not dragging the slider; releasing the
 slider issues one `seekTo` command to the streaming component.

 Each handler is an atomic, pure transition; the command sent to the streaming
 component is part of the transition's result. Slider values are `real`s on
 which nothing computes.
 */
module MediaPlayer {

  /** The slider state: the played fraction, the played and buffered seconds,
      and whether a drag is in progress. */
  datatype MediaState = MediaState(
    played: real,
    playedSeconds: real,
    loadedSeconds: real,
    seeking: bool)

  /** Freshly constructed component. It starts with no `seeking` entry at all,
      which the progress handler reads exactly as `false`. */
  const Initial: MediaState := MediaState(0.0, 0.0, 0.0, false)

  /** A progress report from the streaming component. */
  datatype Progress = Progress(played: real, playedSeconds: real, loadedSeconds: real)

  /** What the user or the streaming component can do to the slider. */
  datatype Event =
    | ProgressReported(report: Progress)
    | SeekMouseDown
    | SeekChange(value: real)
    | SeekMouseUp(value: real)

  /** The command sent to the streaming component. */
  datatype Command = SeekTo(fraction: real)

  datatype Option<T> = None | Some(value: T)

  /** The state after one event, and the command it sends, if any. */
  datatype Transition = Transition(next: MediaState, command: Option<Command>)

  /** The state after a sequence of events, and the commands sent, in order. */
  datatype Trace = Trace(final: MediaState, commands: seq<Command>)

  /** Progress handler: the report replaces all three positions unless a drag is
      in progress, in which case it is dropped entirely. */
  function OnProgress(s: MediaState, p: Progress): (r: MediaState)
    ensures s.seeking ==> r == s
    ensures !s.seeking ==> r.played == p.played && r.playedSeconds == p.playedSeconds
                           && r.loadedSeconds == p.loadedSeconds
    ensures r.seeking == s.seeking
  {
    if !s.seeking then MediaState(p.played, p.playedSeconds, p.loadedSeconds, s.seeking) else s
  }

  /** Mouse pressed on the slider: a drag starts; nothing else changes. */
  function OnSeekMouseDown(s: MediaState): (r: MediaState)
    ensures r.seeking
    ensures r.(seeking := s.seeking) == s
  {
    s.(seeking := true)
  }

  /** Slider moved: only the played fraction follows the slider. */
  function OnSeekChange(s: MediaState, v: real): (r: MediaState)
    ensures r.played == v
    ensures r.(played := s.played) == s
  {
    s.(played := v)
  }

  /** Mouse released: the drag ends and exactly one seek to the slider value is sent. */
  function OnSeekMouseUp(s: MediaState, v: real): (t: Transition)
    ensures !t.next.seeking
    ensures t.next.(seeking := s.seeking) == s
    ensures t.command == Some(SeekTo(v))
  {
    Transition(s.(seeking := false), Some(SeekTo(v)))
  }

  /** One event, dispatched to its handler. */
  function Step(s: MediaState, e: Event): (t: Transition)
    ensures t.command.Some? <==> e.SeekMouseUp?
    ensures t.next.seeking == (e.SeekMouseDown? || (s.seeking && !e.SeekMouseUp?))
  {
    match e
    case ProgressReported(p) => Transition(OnProgress(s, p), None)
    case SeekMouseDown => Transition(OnSeekMouseDown(s), None)
    case SeekChange(v) => Transition(OnSeekChange(s, v), None)
    case SeekMouseUp(v) => OnSeekMouseUp(s, v)
  }

  function CommandList(c: Option<Command>): seq<Command> {
    match c
    case None => []
    case Some(cmd) => [cmd]
  }

  /** The events handled atomically in order, collecting the commands sent. */
  function Run(s: MediaState, events: seq<Event>): (t: Trace)
    ensures |t.commands| <= |events|
    decreases |events|
  {
    if |events| == 0 then Trace(s, [])
    else
      var before := Run(s, events[..|events| - 1]);
      var step := Step(before.final, events[|events| - 1]);
      Trace(step.next, before.commands + CommandList(step.command))
  }

  /** Reference definition of the commands a sequence of events should send:
      one seek per release of the slider, to the released value. */
  function ReleaseTargets(events: seq<Event>): seq<Command>
    decreases |events|
  {
    if |events| == 0 then []
    else
      var last := events[|events| - 1];
      ReleaseTargets(events[..|events| - 1])
        + (if last.SeekMouseUp? then [SeekTo(last.value)] else [])
  }

  /** The slider value after the events: that of the last move, or `start`
      when the slider was not moved. */
  function SliderAfter(events: seq<Event>, start: real): real
    decreases |events|
  {
    if |events| == 0 then start
    else if events[|events| - 1].SeekChange? then events[|events| - 1].value
    else SliderAfter(events[..|events| - 1], start)
  }

  /** No release of the slider among the events. */
  predicate NoRelease(events: seq<Event>) {
    forall i :: 0 <= i < |events| ==> !events[i].SeekMouseUp?
  }

  /** Only progress reports among the events. */
  predicate OnlyProgress(events: seq<Event>) {
    forall i :: 0 <= i < |events| ==> events[i].ProgressReported?
  }

  // ---------------------------------------------------------------------
  // Properties
  // ---------------------------------------------------------------------

  /** A freshly constructed component is not dragging, so the first progress
      report is merged in full and sends no command. */
  lemma InitialAcceptsProgress(p: Progress)
    ensures !Initial.seeking
    ensures Run(Initial, [ProgressReported(p)]).final
              == MediaState(p.played, p.playedSeconds, p.loadedSeconds, false)
    ensures Run(Initial, [ProgressReported(p)]).commands == []
  {
  }

  /** The commands sent are exactly one seek per release, in order, each to
      the value the slider was released at. */
  lemma {:induction false} CommandsAreReleases(s: MediaState, events: seq<Event>)
    ensures Run(s, events).commands == ReleaseTargets(events)
    decreases |events|
  {
    if |events| > 0 {
      CommandsAreReleases(s, events[..|events| - 1]);
    }
  }

  /** While a drag is in progress and the slider is not released, the
      displayed played and buffered seconds stay frozen, the drag stays in
      progress, and no command is sent. */
  lemma {:induction false} DragFreezesProgress(s: MediaState, events: seq<Event>)
    requires s.seeking
    requires NoRelease(events)
    ensures Run(s, events).final.seeking
    ensures Run(s, events).final.played == SliderAfter(events, s.played)
    ensures Run(s, events).final.playedSeconds == s.playedSeconds
    ensures Run(s, events).final.loadedSeconds == s.loadedSeconds
    ensures Run(s, events).commands == []
    decreases |events|
  {
    if |events| > 0 {
      DragFreezesProgress(s, events[..|events| - 1]);
    }
  }

  /** Progress reports that arrive during a drag leave the state entirely unchanged. */
  lemma {:induction false} ProgressDroppedWhileSeeking(s: MediaState, events: seq<Event>)
    requires s.seeking
    requires OnlyProgress(events)
    ensures Run(s, events) == Trace(s, [])
    decreases |events|
  {
    if |events| > 0 {
      ProgressDroppedWhileSeeking(s, events[..|events| - 1]);
    }
  }

  /** Outside a drag, the positions shown are those of the latest progress report. */
  lemma {:induction false} LatestProgressWins(s: MediaState, events: seq<Event>)
    requires !s.seeking
    requires OnlyProgress(events)
    ensures !Run(s, events).final.seeking
    ensures Run(s, events).commands == []
    ensures |events| > 0 ==>
      var last := events[|events| - 1].report;
      Run(s, events).final == MediaState(last.played, last.playedSeconds, last.loadedSeconds, false)
    decreases |events|
  {
    if |events| > 0 {
      LatestProgressWins(s, events[..|events| - 1]);
    }
  }

  /** A whole drag gesture — press, any moves and progress reports, release at
      `v` — ends the drag, sends exactly one seek to `v`, leaves the slider at
      its last move, and leaves the played and buffered seconds as they were
      before the press. */
  lemma DragGesture(s: MediaState, moves: seq<Event>, v: real)
    requires NoRelease(moves)
    ensures var t := Run(s, [SeekMouseDown] + moves + [SeekMouseUp(v)]);
            && !t.final.seeking
            && t.commands == [SeekTo(v)]
            && t.final.played == SliderAfter(moves, s.played)
            && t.final.playedSeconds == s.playedSeconds
            && t.final.loadedSeconds == s.loadedSeconds
  {
    var events := [SeekMouseDown] + moves + [SeekMouseUp(v)];
    var pressed := OnSeekMouseDown(s);
    assert events[..|events| - 1] == [SeekMouseDown] + moves;
    RunPrepend(s, SeekMouseDown, moves);
    DragFreezesProgress(pressed, moves);
  }

  /** Handling a first event and then the rest is handling them all. */
  lemma {:induction false} RunPrepend(s: MediaState, e: Event, rest: seq<Event>)
    ensures Run(s, [e] + rest).final == Run(Step(s, e).next, rest).final
    ensures Run(s, [e] + rest).commands
              == CommandList(Step(s, e).command) + Run(Step(s, e).next, rest).commands
    decreases |rest|
  {
    if |rest| > 0 {
      assert ([e] + rest)[..|[e] + rest| - 1] == [e] + rest[..|rest| - 1];
      RunPrepend(s, e, rest[..|rest| - 1]);
    } else {
      assert [e] + rest == [e];
      assert [e][..0] == [];
    }
  }
}
