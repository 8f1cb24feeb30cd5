/**
 * The controller of `initPlayer` as the program runs it: the closure
 * variables are the fields of class Controller, the audio element is an
 * object of class AudioElement that the handlers update in place, and
 * each handler is a method. Every method is proved to leave the state its
 * handler function in module Playback computes, so the lemmas of module
 * Properties describe these methods, and every public handler keeps the
 * invariant `Properties.Inv`.
 */
module Player {
  import opened Wrappers
  import opened Queue
  import Playback
  import Properties

  /** The `Audio` object: source, position, length (0 while unknown), paused flag and volume. */
  class AudioElement {
    var src: string
    var currentTime: Playback.Seconds
    var duration: Playback.Seconds
    var paused: bool
    var volume: Playback.Level

    ghost function Value(): Playback.Audio
      reads this
    {
      Playback.Audio(src, currentTime, duration, paused, volume)
    }

    /** `new Audio()`: no source, paused, at full volume. */
    constructor()
      ensures Value() == Playback.NewAudio
    {
      src, currentTime, duration, paused, volume := "", 0.0, 0.0, true, 1.0;
    }

    /** `play()` called; the promise it returns is still pending. */
    method StartPlay()
      modifies this
      ensures Value() == Playback.StartPlay(old(Value()))
    {
      paused := false;
    }

    /** A pending `play()` promise settles; a rejection leaves the element paused. */
    method Settle(succeeds: bool)
      modifies this
      ensures Value() == Playback.Settle(old(Value()), succeeds)
    {
      if !succeeds {
        paused := true;
      }
    }

    /** `play()` on a paused element, together with how its promise settles. */
    method Play(succeeds: bool)
      modifies this
      ensures Value() == Playback.Play(old(Value()), succeeds)
    {
      if succeeds {
        paused := false;
      }
    }

    method Pause()
      modifies this
      ensures Value() == Playback.Pause(old(Value()))
    {
      paused := true;
    }

    /** `load()`: back to the start, length unknown until the metadata arrives, paused. */
    method Load()
      modifies this
      ensures Value() == Playback.Reload(old(Value()))
    {
      currentTime, duration, paused := 0.0, 0.0, true;
    }
  }

  class Controller {
    const audio: AudioElement
    var currentTrack: Option<Track>
    var currentQueue: seq<Track>
    var currentIndex: int
    var previousVolume: Playback.Level
    var isShuffled: bool
    var repeatMode: Playback.RepeatMode
    var isTrackLoading: bool
    var playedTracks: set<TrackId>
    var isDraggingProgress: bool
    var progress: real
    var elapsedShown: nat
    var totalShown: nat
    var volumeIcon: Playback.VolumeIcon

    ghost function State(): Playback.Session
      reads this, audio
    {
      Playback.Session(audio.Value(), currentTrack, currentQueue, currentIndex, previousVolume,
                       isShuffled, repeatMode, isTrackLoading, playedTracks, isDraggingProgress,
                       progress, elapsedShown, totalShown, volumeIcon)
    }

    ghost predicate Valid()
      reads this, audio
    {
      Properties.Inv(State())
    }

    /** The controller is valid when its state is a session satisfying the invariant. */
    lemma ValidAt(s: Playback.Session)
      requires Properties.Inv(s) && State() == s
      ensures Valid()
    {
    }

    /** `initPlayer`'s setup of the audio element and the closure variables. */
    constructor()
      ensures State() == Playback.Initial()
      ensures Valid()
    {
      audio := new AudioElement();
      currentTrack, currentQueue, currentIndex := None, [], 0;
      previousVolume := Playback.OrOne(1.0);
      isShuffled, repeatMode, isTrackLoading, playedTracks := false, Playback.Off, false, {};
      isDraggingProgress, progress, elapsedShown, totalShown := false, 0.0, 0, 0;
      volumeIcon := Playback.VolumeIconFor(1.0);
      new;
      Properties.InitialInv();
    }

    method UpdateVolumeIcon()
      modifies this
      ensures State() == old(State()).(volumeIcon := Playback.VolumeIconFor(audio.volume))
    {
      volumeIcon := Playback.VolumeIconFor(audio.volume);
    }

    /**
     * `updatePlayerUI` up to its `await audio.play()`; PlaySettled is the
     * rest of it, run when that promise settles.
     */
    method UpdatePlayerUI(track: Track, queue: seq<Track>, index: int)
      modifies this, audio
      ensures State() == Playback.UpdatePlayerUI(old(State()), track, queue, index)
    {
      if isTrackLoading {
        return;
      }
      isTrackLoading := true;
      currentTrack, currentQueue, currentIndex := Some(track), queue, index;
      totalShown := track.duration;
      if track.audioUrl != "" && audio.src != track.audioUrl {
        ghost var element := audio.Value();
        audio.Pause();
        audio.src := track.audioUrl;
        audio.Load();
        audio.volume := Playback.OrOne(previousVolume);
        assert audio.Value() == Playback.Reload(Playback.Pause(element).(src := track.audioUrl)).(volume := Playback.OrOne(previousVolume));
        UpdateVolumeIcon();
        audio.StartPlay();
      } else {
        isTrackLoading := false;
      }
    }

    /** The awaited `play()` of a load settles; either way the load flag is released. */
    method PlaySettled(succeeds: bool)
      requires Valid() && isTrackLoading
      modifies this, audio
      ensures State() == Playback.PlaySettled(old(State()), succeeds)
      ensures Valid()
    {
      audio.Settle(succeeds);
      isTrackLoading := false;
    }

    method PlayTrackAtIndex(index: int)
      modifies this, audio
      ensures State() == Playback.PlayTrackAtIndex(old(State()), index)
    {
      if 0 <= index < |currentQueue| {
        currentIndex := index;
        currentTrack := Some(currentQueue[index]);
        UpdatePlayerUI(currentQueue[index], currentQueue, currentIndex);
      }
    }

    /** The `track:selected` event. */
    method OnTrackSelected(track: Track, queue: seq<Track>)
      requires Valid()
      modifies this, audio
      ensures State() == Playback.OnTrackSelected(old(State()), track, queue)
      ensures Valid()
    {
      ghost var before := State();
      currentQueue := queue;
      currentIndex := Playback.OrZero(FindById(queue, track.id));
      playedTracks := {};
      UpdatePlayerUI(track, queue, currentIndex);
      Properties.SelectKeepsInv(before, track, queue);
      ValidAt(Playback.OnTrackSelected(before, track, queue));
    }

    method TogglePlayPause(succeeds: bool)
      requires Valid()
      modifies audio
      ensures State() == Playback.TogglePlayPause(old(State()), succeeds)
      ensures Valid()
    {
      if audio.paused {
        audio.Play(succeeds);
      } else {
        audio.Pause();
      }
    }

    /**
     * The shuffle's draw shared by "next" and `ended`; `threw` reports the
     * TypeError of an empty pool, after the played set was cleared.
     */
    method ShuffleAdvance(random: real) returns (threw: bool)
      requires 0.0 <= random < 1.0
      modifies this, audio
      ensures var o := Playback.ShuffleAdvance(old(State()), random);
              State() == o.state && threw == o.Threw?
    {
      var unplayed := Without(currentQueue, playedTracks);
      if |unplayed| == 0 {
        playedTracks := {};
        unplayed := Without(currentQueue, CurrentIds(currentTrack));
      }
      if |unplayed| == 0 {
        return true;
      }
      var next := unplayed[Pick(random, |unplayed|)];
      playedTracks := playedTracks + {next.id};
      PlayTrackAtIndex(FindById(currentQueue, next.id));
      return false;
    }

    /** The "previous" button; `threw` reports the TypeError of a shuffle with no other track. */
    method OnPrevious(random: real, succeeds: bool) returns (threw: bool)
      requires Valid() && 0.0 <= random < 1.0
      modifies this, audio
      ensures var o := Playback.OnPrevious(old(State()), random, succeeds);
              State() == o.state && threw == o.Threw?
      ensures Valid()
    {
      ghost var before := State();
      threw := false;
      if audio.duration == 0.0 {
      } else if audio.currentTime > 2.0 {
        audio.currentTime := 0.0;
        audio.Play(succeeds);
      } else if isShuffled {
        var available := Without(currentQueue, CurrentIds(currentTrack));
        if |available| == 0 {
          threw := currentQueue != [];
        } else {
          var prev := available[Pick(random, |available|)];
          PlayTrackAtIndex(FindById(currentQueue, prev.id));
        }
      } else {
        var prevIndex := currentIndex - 1;
        if prevIndex < 0 {
          prevIndex := |currentQueue| - 1;
        }
        PlayTrackAtIndex(prevIndex);
      }
      Properties.PreviousKeepsInv(before, random, succeeds);
      ValidAt(Playback.OnPrevious(before, random, succeeds).state);
    }

    /** The "next" button; `threw` reports the TypeError of a shuffle with nothing to draw. */
    method OnNext(random: real) returns (threw: bool)
      requires Valid() && 0.0 <= random < 1.0
      modifies this, audio
      ensures var o := Playback.OnNext(old(State()), random);
              State() == o.state && threw == o.Threw?
      ensures Valid()
    {
      ghost var before := State();
      if isShuffled {
        threw := ShuffleAdvance(random);
      } else {
        var nextIndex := currentIndex + 1;
        if nextIndex >= |currentQueue| {
          nextIndex := 0;
        }
        PlayTrackAtIndex(nextIndex);
        threw := false;
      }
      Properties.NextKeepsInv(before, random);
      ValidAt(Playback.OnNext(before, random).state);
    }

    /**
     * The audio element's `ended` event; `threw` reports the TypeError of
     * a shuffle with no current track or nothing to draw.
     */
    method OnEnded(random: real, succeeds: bool) returns (threw: bool)
      requires Valid() && 0.0 <= random < 1.0
      modifies this, audio
      ensures var o := Playback.OnEnded(old(State()), random, succeeds);
              State() == o.state && threw == o.Threw?
      ensures Valid()
    {
      ghost var before := State();
      ghost var o := Playback.OnEnded(before, random, succeeds);
      threw := false;
      if repeatMode == Playback.One {
        audio.currentTime := 0.0;
        audio.Play(succeeds);
        assert o == Playback.Completed(before.(audio := Playback.Play(before.audio.(currentTime := 0.0), succeeds)));
      } else if isShuffled {
        if currentTrack.None? {
          threw := true;
        } else {
          playedTracks := playedTracks + {currentTrack.value.id};
          Properties.EndedUnderShuffle(before, random, succeeds);
          threw := ShuffleAdvance(random);
        }
      } else if repeatMode == Playback.All {
        var nextIndex := currentIndex + 1;
        if nextIndex >= |currentQueue| {
          nextIndex := 0;
        }
        assert o == Playback.Completed(Playback.PlayTrackAtIndex(before, nextIndex));
        PlayTrackAtIndex(nextIndex);
      } else if currentIndex < |currentQueue| - 1 {
        assert o == Playback.Completed(Playback.PlayTrackAtIndex(before, currentIndex + 1));
        PlayTrackAtIndex(currentIndex + 1);
      }
      Properties.EndedKeepsInv(before, random, succeeds);
      ValidAt(o.state);
    }

    method ToggleShuffle()
      requires Valid()
      modifies this
      ensures State() == Playback.ToggleShuffle(old(State()))
      ensures Valid()
    {
      isShuffled := !isShuffled;
      if isShuffled {
        playedTracks := {};
      }
    }

    method CycleRepeat()
      requires Valid()
      modifies this
      ensures State() == Playback.CycleRepeat(old(State()))
      ensures Valid()
    {
      if repeatMode == Playback.Off {
        repeatMode := Playback.All;
      } else if repeatMode == Playback.All {
        repeatMode := Playback.One;
      } else {
        repeatMode := Playback.Off;
      }
    }

    /** The volume button. */
    method ToggleMute()
      requires Valid()
      modifies this, audio
      ensures State() == Playback.ToggleMute(old(State()))
      ensures Valid()
    {
      if audio.volume > 0.0 {
        previousVolume := audio.volume;
        audio.volume := 0.0;
      } else {
        audio.volume := Playback.OrOne(previousVolume);
      }
      UpdateVolumeIcon();
    }

    /** A click on the progress bar at `ratio` of its width. */
    method OnProgressClick(ratio: real)
      requires Valid()
      modifies this, audio
      ensures State() == Playback.OnProgressClick(old(State()), ratio)
      ensures Valid()
    {
      if audio.duration == 0.0 || isDraggingProgress {
        return;
      }
      var percentage := Playback.Percentage(ratio);
      audio.currentTime := Playback.SeekTime(percentage, audio.duration);
      progress := percentage;
    }

    method OnHandleDown()
      requires Valid()
      modifies this
      ensures State() == Playback.OnHandleDown(old(State()))
      ensures Valid()
    {
      isDraggingProgress := true;
    }

    method OnDragMove(ratio: real)
      requires Valid()
      modifies this
      ensures State() == Playback.OnDragMove(old(State()), ratio)
      ensures Valid()
    {
      if !isDraggingProgress || audio.duration == 0.0 {
        return;
      }
      progress := Playback.Percentage(ratio);
    }

    method OnDragEnd(ratio: real, succeeds: bool)
      requires Valid()
      modifies this, audio
      ensures State() == Playback.OnDragEnd(old(State()), ratio, succeeds)
      ensures Valid()
    {
      if !isDraggingProgress || audio.duration == 0.0 {
        return;
      }
      isDraggingProgress := false;
      var percentage := Playback.Percentage(ratio);
      audio.currentTime := Playback.SeekTime(percentage, audio.duration);
      progress := percentage;
      if audio.paused {
        audio.Play(succeeds);
      }
    }

    method OnTimeUpdate()
      requires Valid()
      modifies this
      ensures State() == Playback.OnTimeUpdate(old(State()))
      ensures Valid()
    {
      if audio.duration != 0.0 && !isDraggingProgress {
        progress := audio.currentTime / audio.duration * 100.0;
        elapsedShown := audio.currentTime.Floor;
      }
    }

    /** The `reset:player` event. */
    method OnReset()
      requires Valid()
      modifies this, audio
      ensures State() == Playback.OnReset(old(State()))
      ensures Valid()
    {
      ghost var before := State();
      audio.Pause();
      audio.src := "";
      audio.Load();  // assigning `src` runs the element's load algorithm
      currentTrack, currentQueue, currentIndex, isShuffled, repeatMode, playedTracks :=
        None, [], 0, false, Playback.Off, {};
      totalShown, elapsedShown, progress := 0, 0, 0.0;
      Properties.ResetKeepsInv(before);
      ValidAt(Playback.OnReset(before));
    }
  }
}
