/**
 * The playback controller of `initPlayer` as a state machine on values.
 *
 * A `Session` holds every closure variable of the controller, the audio
 * element's observable fields and the few labels the controller writes.
 * There is one function per handler, each mapping the session before the
 * event to the session after it; `Step` dispatches an `Event` to its
 * handler and `Run` plays a sequence of events. The class in module
 * Player performs the same handlers by assignment and is proved equal to
 * these functions, so the lemmas here are facts about it too.
 */
module Playback {
  import opened Wrappers
  import opened Duration
  import opened Queue

  /** A non-negative number of seconds. */
  type Seconds = r: real | 0.0 <= r

  /** A volume the audio element accepts. */
  type Level = v: real | 0.0 <= v <= 1.0

  /**
   * The audio element: its source, position, length, paused flag and
   * volume. A `duration` of 0 stands for "not known yet" (NaN before the
   * metadata has loaded); the handlers test both with `!audio.duration`.
   */
  datatype Audio = Audio(src: string, currentTime: Seconds, duration: Seconds, paused: bool, volume: Level)

  datatype RepeatMode = Off | All | One

  /** The icon `updateVolumeIcon` puts on the volume button. */
  datatype VolumeIcon = Mute | Down | Up

  datatype Session = Session(
    audio: Audio,
    currentTrack: Option<Track>,
    currentQueue: seq<Track>,
    currentIndex: int,
    previousVolume: Level,
    isShuffled: bool,
    repeatMode: RepeatMode,
    isTrackLoading: bool,
    playedTracks: set<TrackId>,
    isDraggingProgress: bool,
    progress: real,          // percentage shown by the progress fill and handle
    elapsedShown: nat,       // the current-time label shows FormatDuration(elapsedShown)
    totalShown: nat,         // the total-time label shows FormatDuration(totalShown)
    volumeIcon: VolumeIcon)

  /** What a handler leaves behind: its new session, or the session as it stood when it threw a TypeError. */
  datatype Outcome = Completed(state: Session) | Threw(state: Session)

  // ----- the audio element -----

  /**
   * `audio.play()` called: the element leaves the paused state at once,
   * before the promise it returns has settled.
   */
  function StartPlay(a: Audio): Audio {
    a.(paused := false)
  }

  /** The promise of a pending `play()` settles: a rejection leaves the element paused. */
  function Settle(a: Audio, succeeds: bool): Audio {
    if succeeds then a else Pause(a)
  }

  /**
   * `audio.play()` on a paused element whose promise settles before the
   * next event: success starts playback, a rejection leaves the element as
   * it was.
   */
  function Play(a: Audio, succeeds: bool): Audio {
    if succeeds then StartPlay(a) else a
  }

  function Pause(a: Audio): Audio {
    a.(paused := true)
  }

  /** The element's load algorithm, run by `load()` or a new `src`: position 0, length unknown, paused. */
  function Reload(a: Audio): Audio {
    a.(currentTime := 0.0, duration := 0.0, paused := true)
  }

  /** `v || 1`: a volume of 0 falls back to full volume. */
  function OrOne(v: Level): (r: Level)
    ensures r > 0.0
    ensures v > 0.0 ==> r == v
  {
    if v != 0.0 then v else 1.0
  }

  /** `updateVolumeIcon`: muted at 0, low below one half, high otherwise. */
  function VolumeIconFor(v: Level): VolumeIcon {
    if v == 0.0 then Mute else if v < 0.5 then Down else Up
  }

  const NewAudio := Audio("", 0.0, 0.0, true, 1.0)

  /** The session `initPlayer` starts with; both time labels read "0:00". */
  function Initial(): Session {
    Session(NewAudio, None, [], 0, OrOne(NewAudio.volume), false, Off, false, {}, false,
            0.0, 0, 0, VolumeIconFor(NewAudio.volume))
  }

  // ----- loading a track -----

  /**
   * `updatePlayerUI(track, queue, index)` up to its `await audio.play()`.
   * While a load is in flight it does nothing. Otherwise it adopts the
   * track, queue and index and shows the track's length; when the track has
   * an audio URL other than the element's source it swaps the source in,
   * calls `play()` (so the element is no longer paused) and keeps
   * `isTrackLoading` set until `PlaySettled`, and otherwise it completes at
   * once and releases the flag.
   */
  function UpdatePlayerUI(s: Session, track: Track, queue: seq<Track>, index: int): Session {
    if s.isTrackLoading then
      s
    else
      var s1 := s.(isTrackLoading := true, currentTrack := Some(track), currentQueue := queue,
                   currentIndex := index, totalShown := track.duration);
      if track.audioUrl != "" && s1.audio.src != track.audioUrl then
        var a := Reload(Pause(s1.audio).(src := track.audioUrl)).(volume := OrOne(s1.previousVolume));
        s1.(audio := StartPlay(a), volumeIcon := VolumeIconFor(a.volume))
      else
        s1.(isTrackLoading := false)
  }

  /**
   * The `await audio.play()` of `updatePlayerUI` settles, either way
   * releasing the load flag; a rejection leaves the element paused.
   */
  function PlaySettled(s: Session, succeeds: bool): Session
    requires s.isTrackLoading
  {
    s.(audio := Settle(s.audio, succeeds), isTrackLoading := false)
  }

  /** `playTrackAtIndex(index)`: positions within the queue are loaded, others ignored. */
  function PlayTrackAtIndex(s: Session, index: int): Session {
    if 0 <= index < |s.currentQueue| then
      var track := s.currentQueue[index];
      UpdatePlayerUI(s.(currentIndex := index, currentTrack := Some(track)), track, s.currentQueue, index)
    else
      s
  }

  /** `x || 0` on a number: only 0 is falsy, so -1 from `findIndex` passes through. */
  function OrZero(n: int): (r: int)
    ensures r == n
  {
    if n != 0 then n else 0
  }

  /** The `track:selected` event: a new queue, a fresh shuffle round, then `updatePlayerUI`. */
  function OnTrackSelected(s: Session, track: Track, queue: seq<Track>): Session {
    var index := OrZero(FindById(queue, track.id));
    UpdatePlayerUI(s.(currentQueue := queue, currentIndex := index, playedTracks := {}), track, queue, index)
  }

  // ----- transport buttons -----

  function TogglePlayPause(s: Session, succeeds: bool): Session {
    if s.audio.paused then s.(audio := Play(s.audio, succeeds)) else s.(audio := Pause(s.audio))
  }

  /**
   * The shuffle's draw, shared by "next" and `ended`: pick from the round's
   * pool, record the pick as played and load it. Reading `.id` of the
   * missing element of an empty pool is a TypeError.
   */
  function ShuffleAdvance(s: Session, random: real): Outcome
    requires 0.0 <= random < 1.0
  {
    var round := ShuffleRound(s.currentQueue, s.playedTracks, s.currentTrack);
    var s1 := s.(playedTracks := round.played);
    if |round.pool| == 0 then
      Threw(s1)
    else
      var next := round.pool[Pick(random, |round.pool|)];
      Completed(PlayTrackAtIndex(s1.(playedTracks := round.played + {next.id}), FindById(s.currentQueue, next.id)))
  }

  /** The "previous" button. */
  function OnPrevious(s: Session, random: real, succeeds: bool): Outcome
    requires 0.0 <= random < 1.0
  {
    if s.audio.duration == 0.0 then
      Completed(s)
    else if s.audio.currentTime > 2.0 then
      Completed(s.(audio := Play(s.audio.(currentTime := 0.0), succeeds)))
    else if s.isShuffled then
      var available := Without(s.currentQueue, CurrentIds(s.currentTrack));
      if |available| == 0 then
        // findIndex on an empty queue never reads the undefined draw's id
        if s.currentQueue == [] then Completed(s) else Threw(s)
      else
        var prev := available[Pick(random, |available|)];
        Completed(PlayTrackAtIndex(s, FindById(s.currentQueue, prev.id)))
    else
      Completed(PlayTrackAtIndex(s, PrevIndex(s.currentIndex, |s.currentQueue|)))
  }

  /** The "next" button. */
  function OnNext(s: Session, random: real): Outcome
    requires 0.0 <= random < 1.0
  {
    if s.isShuffled then
      ShuffleAdvance(s, random)
    else
      Completed(PlayTrackAtIndex(s, NextIndex(s.currentIndex, |s.currentQueue|)))
  }

  /** The audio element's `ended` event. */
  function OnEnded(s: Session, random: real, succeeds: bool): Outcome
    requires 0.0 <= random < 1.0
  {
    if s.repeatMode == One then
      Completed(s.(audio := Play(s.audio.(currentTime := 0.0), succeeds)))
    else if s.isShuffled then
      if s.currentTrack.None? then
        Threw(s)
      else
        ShuffleAdvance(s.(playedTracks := s.playedTracks + {s.currentTrack.value.id}), random)
    else if s.repeatMode == All then
      Completed(PlayTrackAtIndex(s, NextIndex(s.currentIndex, |s.currentQueue|)))
    else if s.currentIndex < |s.currentQueue| - 1 then
      Completed(PlayTrackAtIndex(s, s.currentIndex + 1))
    else
      Completed(s)
  }

  function ToggleShuffle(s: Session): Session {
    var on := !s.isShuffled;
    s.(isShuffled := on, playedTracks := if on then {} else s.playedTracks)
  }

  function NextRepeat(m: RepeatMode): RepeatMode {
    match m
    case Off => All
    case All => One
    case One => Off
  }

  function CycleRepeat(s: Session): Session {
    s.(repeatMode := NextRepeat(s.repeatMode))
  }

  /** The volume button. */
  function ToggleMute(s: Session): Session {
    if s.audio.volume > 0.0 then
      var a := s.audio.(volume := 0.0);
      s.(previousVolume := s.audio.volume, audio := a, volumeIcon := VolumeIconFor(a.volume))
    else
      var a := s.audio.(volume := OrOne(s.previousVolume));
      s.(audio := a, volumeIcon := VolumeIconFor(a.volume))
  }

  // ----- the progress bar -----

  /**
   * `Math.max(0, Math.min(100, ratio * 100))`, where `ratio` is the
   * mouse's offset along the bar divided by the bar's width.
   */
  function Percentage(ratio: real): (p: real)
    ensures 0.0 <= p <= 100.0
    ensures 0.0 <= ratio <= 1.0 ==> p == ratio * 100.0
  {
    var x := ratio * 100.0;
    var atMost100 := if 100.0 < x then 100.0 else x;
    if 0.0 > atMost100 then 0.0 else atMost100
  }

  /** `(percentage / 100) * audio.duration`: the position a percentage of the bar stands for. */
  function SeekTime(p: real, duration: Seconds): (t: Seconds)
    requires 0.0 <= p <= 100.0
    ensures t <= duration
  {
    SeekTimeBounds(p, duration);
    p / 100.0 * duration
  }

  lemma SeekTimeBounds(p: real, duration: Seconds)
    requires 0.0 <= p <= 100.0
    ensures 0.0 <= p / 100.0 * duration <= duration
  {
    var f := p / 100.0;
    assert 0.0 <= f <= 1.0;
    assert f * duration <= 1.0 * duration;
  }

  /** A click on the bar seeks at once, unless the length is unknown or a drag is under way. */
  function OnProgressClick(s: Session, ratio: real): Session {
    if s.audio.duration == 0.0 || s.isDraggingProgress then
      s
    else
      var p := Percentage(ratio);
      s.(audio := s.audio.(currentTime := SeekTime(p, s.audio.duration)), progress := p)
  }

  /** `mousedown` on the handle starts a drag. */
  function OnHandleDown(s: Session): Session {
    s.(isDraggingProgress := true)
  }

  /** `mousemove` during a drag moves only the fill and the handle. */
  function OnDragMove(s: Session, ratio: real): Session {
    if !s.isDraggingProgress || s.audio.duration == 0.0 then s else s.(progress := Percentage(ratio))
  }

  /** `mouseup` ends a drag: it commits the position and resumes a paused element. */
  function OnDragEnd(s: Session, ratio: real, succeeds: bool): Session {
    if !s.isDraggingProgress || s.audio.duration == 0.0 then
      s
    else
      var p := Percentage(ratio);
      var a := s.audio.(currentTime := SeekTime(p, s.audio.duration));
      s.(isDraggingProgress := false, audio := if a.paused then Play(a, succeeds) else a, progress := p)
  }

  /** `timeupdate` redraws the bar and the elapsed label, except while the length is unknown or during a drag. */
  function OnTimeUpdate(s: Session): Session {
    if s.audio.duration == 0.0 || s.isDraggingProgress then
      s
    else
      s.(progress := s.audio.currentTime / s.audio.duration * 100.0,
         elapsedShown := s.audio.currentTime.Floor)
  }

  /** The `reset:player` event; both time labels go back to "0:00". */
  function OnReset(s: Session): Session {
    s.(currentTrack := None, currentQueue := [], currentIndex := 0, isShuffled := false,
       repeatMode := Off, playedTracks := {}, audio := Reload(Pause(s.audio).(src := "")),
       totalShown := 0, elapsedShown := 0, progress := 0.0)
  }

  /**
   * The element's own progress, which no handler causes: its metadata
   * arrives (the length becomes known) and playback moves the position.
   */
  function MediaAdvance(s: Session, position: Seconds, length: Seconds): Session {
    s.(audio := s.audio.(currentTime := position, duration := length))
  }

  // ----- events -----

  /**
   * The events the controller reacts to. `random` is the value
   * `Math.random()` returns, `succeeds` whether the `play()` that the
   * handler starts resolves, and `ratio` the mouse's offset along the
   * progress bar over the bar's width. `MediaAdvanced` is the element
   * playing on and learning its length between handlers.
   */
  datatype Event =
    | TrackSelected(track: Track, queue: seq<Track>)
    | PlayResolved(succeeds: bool)
    | PlayClicked(succeeds: bool)
    | PrevClicked(random: real, succeeds: bool)
    | NextClicked(random: real)
    | ShuffleClicked
    | RepeatClicked
    | VolumeClicked
    | ProgressClicked(ratio: real)
    | HandlePressed
    | MouseMoved(ratio: real)
    | MouseReleased(ratio: real, succeeds: bool)
    | TimeUpdated
    | TrackEnded(random: real, succeeds: bool)
    | ResetRequested
    | MediaAdvanced(position: Seconds, length: Seconds)

  /** `Math.random()` lies in [0, 1), and a load's `play()` settles only while that load is in flight. */
  predicate Admissible(s: Session, e: Event) {
    match e
    case PlayResolved(_) => s.isTrackLoading
    case PrevClicked(random, _) => 0.0 <= random < 1.0
    case NextClicked(random) => 0.0 <= random < 1.0
    case TrackEnded(random, _) => 0.0 <= random < 1.0
    case _ => true
  }

  function Step(s: Session, e: Event): Outcome
    requires Admissible(s, e)
  {
    match e
    case TrackSelected(track, queue) => Completed(OnTrackSelected(s, track, queue))
    case PlayResolved(succeeds) => Completed(PlaySettled(s, succeeds))
    case PlayClicked(succeeds) => Completed(TogglePlayPause(s, succeeds))
    case PrevClicked(random, succeeds) => OnPrevious(s, random, succeeds)
    case NextClicked(random) => OnNext(s, random)
    case ShuffleClicked => Completed(ToggleShuffle(s))
    case RepeatClicked => Completed(CycleRepeat(s))
    case VolumeClicked => Completed(ToggleMute(s))
    case ProgressClicked(ratio) => Completed(OnProgressClick(s, ratio))
    case HandlePressed => Completed(OnHandleDown(s))
    case MouseMoved(ratio) => Completed(OnDragMove(s, ratio))
    case MouseReleased(ratio, succeeds) => Completed(OnDragEnd(s, ratio, succeeds))
    case TimeUpdated => Completed(OnTimeUpdate(s))
    case TrackEnded(random, succeeds) => OnEnded(s, random, succeeds)
    case ResetRequested => Completed(OnReset(s))
    case MediaAdvanced(position, length) => Completed(MediaAdvance(s, position, length))
  }

  predicate RunAdmissible(s: Session, events: seq<Event>)
    decreases |events|
  {
    events == [] || (Admissible(s, events[0]) && RunAdmissible(Step(s, events[0]).state, events[1..]))
  }

  /** The session after a sequence of events; a handler that throws leaves its partial updates in place. */
  function Run(s: Session, events: seq<Event>): Session
    requires RunAdmissible(s, events)
    decreases |events|
  {
    if events == [] then s else Run(Step(s, events[0]).state, events[1..])
  }
}
