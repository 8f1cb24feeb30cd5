/**
 * What the controller keeps true and what each handler promises, proved
 * about the handler functions of module Playback.
 */
module Properties {
  import opened Wrappers
  import opened Duration
  import opened Queue
  import opened Playback

  // ----- the invariant -----

  /** The index lies in the queue, or is -1 after selecting a track the queue lacks, or 0 with an empty queue. */
  predicate IndexInRange(s: Session) {
    -1 <= s.currentIndex && (s.currentIndex == 0 || s.currentIndex < |s.currentQueue|)
  }

  /** At most one played id lies outside the queue. */
  predicate AtMostOneForeign(s: Session) {
    forall a, b ::
      a in s.playedTracks && b in s.playedTracks && a !in Ids(s.currentQueue) && b !in Ids(s.currentQueue)
      ==> a == b
  }

  predicate CurrentInQueue(s: Session) {
    s.currentTrack.Some? && s.currentTrack.value.id in Ids(s.currentQueue)
  }

  /**
   * A played id outside the queue only survives once the player has moved
   * on to a track of the queue: it is the id of a current track that the
   * queue lacked, recorded by `ended` under shuffle.
   */
  predicate ForeignOnlyBehindQueuedTrack(s: Session) {
    forall a :: a in s.playedTracks && a !in Ids(s.currentQueue) ==> CurrentInQueue(s)
  }

  /** The volume button shows the icon for the element's volume: every write of the volume redraws it. */
  predicate IconMatchesVolume(s: Session) {
    s.volumeIcon == VolumeIconFor(s.audio.volume)
  }

  /** What holds in the middle of a handler, after `ended` has recorded the current id. */
  predicate Coherent(s: Session) {
    IndexInRange(s) && AtMostOneForeign(s) && s.previousVolume > 0.0 && IconMatchesVolume(s)
  }

  /** What holds between events. */
  predicate Inv(s: Session) {
    Coherent(s) && ForeignOnlyBehindQueuedTrack(s)
  }

  lemma InitialInv()
    ensures Inv(Initial())
  {
  }

  // ----- loading -----

  /** `updatePlayerUI` is a no-op while a load is in flight. */
  lemma LoadingGuard(s: Session, track: Track, queue: seq<Track>, index: int)
    requires s.isTrackLoading
    ensures UpdatePlayerUI(s, track, queue, index) == s
  {
  }

  /**
   * Otherwise it adopts the track, queue and index and shows the track's
   * length, leaving the rest of the session as it was. It holds the load
   * flag exactly when it swaps a new source in: then the element is at the
   * start of that source with its length unknown, at the remembered volume
   * (or full volume), with the icon redrawn for it, and no longer paused
   * since `play()` has been called. The flag is released when that
   * `play()` settles, whether it resolved or was rejected.
   */
  lemma LoadReleases(s: Session, track: Track, queue: seq<Track>, index: int, succeeds: bool)
    requires !s.isTrackLoading
    ensures var s1 := UpdatePlayerUI(s, track, queue, index);
            && s1 == s.(currentTrack := Some(track), currentQueue := queue, currentIndex := index,
                        totalShown := track.duration, isTrackLoading := s1.isTrackLoading,
                        audio := s1.audio, volumeIcon := s1.volumeIcon)
            && (s1.isTrackLoading <==> track.audioUrl != "" && s.audio.src != track.audioUrl)
            && (s1.isTrackLoading ==>
                  && s1.audio.src == track.audioUrl && s1.audio.currentTime == 0.0
                  && s1.audio.duration == 0.0 && !s1.audio.paused
                  && s1.audio.volume == OrOne(s.previousVolume)
                  && s1.volumeIcon == VolumeIconFor(s1.audio.volume))
            && (!s1.isTrackLoading ==> s1.audio == s.audio && s1.volumeIcon == s.volumeIcon)
            && (s1.isTrackLoading ==> var s2 := PlaySettled(s1, succeeds);
                                      && s2 == s1.(isTrackLoading := false, audio := s2.audio)
                                      && s2.audio == s1.audio.(paused := !succeeds))
  {
  }

  /**
   * While a load's `play()` is pending the element is not paused, so the
   * play button takes its pause branch, and the element stays paused
   * however that `play()` then settles.
   */
  lemma PauseDuringLoad(s: Session, track: Track, succeeds: bool, settles: bool)
    requires !s.isTrackLoading && track.audioUrl != "" && s.audio.src != track.audioUrl
    ensures var s1 := UpdatePlayerUI(s, track, s.currentQueue, s.currentIndex);
            var s2 := TogglePlayPause(s1, succeeds);
            && s1.isTrackLoading && !s1.audio.paused
            && s2 == s1.(audio := Pause(s1.audio))
            && PlaySettled(s2, settles).audio.paused
  {
  }

  /** A `play()` that settles before anything else happens is the pending `play()` and its settling. */
  lemma PlayAtOnce(a: Audio, succeeds: bool)
    requires a.paused
    ensures Play(a, succeeds) == Settle(StartPlay(a), succeeds)
    ensures Play(a, succeeds).paused == !succeeds
  {
  }

  lemma UpdatePlayerUIKeepsInv(s: Session, track: Track, queue: seq<Track>, index: int)
    requires Inv(s)
    requires Inv(s.(currentTrack := Some(track), currentQueue := queue, currentIndex := index))
    ensures Inv(UpdatePlayerUI(s, track, queue, index))
  {
  }

  /**
   * `playTrackAtIndex` moves to positions inside the queue, where afterwards
   * the current track is the queue's track at the current index, and leaves
   * every other position without effect.
   */
  lemma PlayTrackAtIndexRules(s: Session, index: int)
    ensures var r := PlayTrackAtIndex(s, index);
            if 0 <= index < |s.currentQueue| then
              && r.currentIndex == index && r.currentQueue == s.currentQueue
              && r.currentTrack == Some(r.currentQueue[r.currentIndex])
              && r.playedTracks == s.playedTracks && r.isShuffled == s.isShuffled
              && r.repeatMode == s.repeatMode && r.previousVolume == s.previousVolume
              && (s.isTrackLoading ==> r.isTrackLoading && r.audio == s.audio)
              && (!s.isTrackLoading ==>
                    var url := r.currentQueue[index].audioUrl;
                    r.isTrackLoading == (url != "" && s.audio.src != url))
            else
              r == s
  {
  }

  lemma PlayTrackAtIndexKeepsInv(s: Session, index: int)
    requires Coherent(s) && 0 <= index < |s.currentQueue|
    ensures Inv(PlayTrackAtIndex(s, index))
  {
    var r := PlayTrackAtIndex(s, index);
    PlayTrackAtIndexRules(s, index);
    InIds(s.currentQueue, index);
    assert CurrentInQueue(r);
  }

  lemma InIds(queue: seq<Track>, index: int)
    requires 0 <= index < |queue|
    ensures queue[index].id in Ids(queue)
  {
    assert queue[index] in queue;
  }

  // ----- selecting a track -----

  /**
   * `track:selected` replaces the queue and starts a fresh shuffle round;
   * the index is where the track's id first occurs, and -1 when the queue
   * lacks it. The track becomes current unless a load is still in flight,
   * in which case the selection is dropped apart from queue, index and round.
   */
  lemma SelectRules(s: Session, track: Track, queue: seq<Track>)
    ensures var r := OnTrackSelected(s, track, queue);
            && r.currentQueue == queue && r.playedTracks == {}
            && r.currentIndex == FindById(queue, track.id)
            && (track.id !in Ids(queue) ==> r.currentIndex == -1)
            && (track.id in Ids(queue) ==> queue[r.currentIndex].id == track.id)
            && (!s.isTrackLoading ==> r.currentTrack == Some(track))
            && (s.isTrackLoading ==> r.currentTrack == s.currentTrack && r.audio == s.audio && r.isTrackLoading)
  {
  }

  lemma SelectKeepsInv(s: Session, track: Track, queue: seq<Track>)
    requires Inv(s)
    ensures Inv(OnTrackSelected(s, track, queue))
  {
    var index := OrZero(FindById(queue, track.id));
    var s1 := s.(currentQueue := queue, currentIndex := index, playedTracks := {});
    UpdatePlayerUIKeepsInv(s1, track, queue, index);
  }

  /**
   * Two selections in quick succession, the second arriving while the
   * first's `play()` is pending: the first track stays current and loaded,
   * the second only replaces queue and index, and the lock is released
   * once the first `play()` settles.
   */
  lemma SecondSelectionDuringLoad(s: Session, first: Track, second: Track,
                                  firstQueue: seq<Track>, secondQueue: seq<Track>, succeeds: bool)
    requires !s.isTrackLoading && first.audioUrl != "" && s.audio.src != first.audioUrl
    ensures var r := OnTrackSelected(OnTrackSelected(s, first, firstQueue), second, secondQueue);
            && r.isTrackLoading && r.currentTrack == Some(first) && r.audio.src == first.audioUrl
            && r.currentQueue == secondQueue && r.currentIndex == FindById(secondQueue, second.id)
            && var settled := PlaySettled(r, succeeds);
               !settled.isTrackLoading && settled.currentTrack == Some(first)
  {
  }

  // ----- the shuffle draw -----

  /**
   * The shuffle draw throws exactly when its pool is empty, leaving the
   * played set cleared. Otherwise the drawn track becomes current and is
   * recorded as played; it was either unplayed in this round, or the round
   * was exhausted and restarts with it, and then it is not the track that
   * was current.
   */
  lemma ShuffleAdvanceRules(s: Session, random: real)
    requires 0.0 <= random < 1.0
    ensures var o := ShuffleAdvance(s, random);
            && (o.Threw? <==> forall t :: t in s.currentQueue ==>
                                t.id in s.playedTracks && t.id in CurrentIds(s.currentTrack))
            && (o.Threw? ==> o.state == s.(playedTracks := {}))
            && (o.Completed? ==>
                  var r := o.state;
                  && r.currentQueue == s.currentQueue && 0 <= r.currentIndex < |s.currentQueue|
                  && r.currentTrack == Some(s.currentQueue[r.currentIndex])
                  && r.isShuffled == s.isShuffled && r.repeatMode == s.repeatMode
                  && (!s.isTrackLoading ==>
                        var url := s.currentQueue[r.currentIndex].audioUrl;
                        r.isTrackLoading == (url != "" && s.audio.src != url))
                  && var id := s.currentQueue[r.currentIndex].id;
                     || (id !in s.playedTracks && r.playedTracks == s.playedTracks + {id})
                     || (&& (forall t :: t in s.currentQueue ==> t.id in s.playedTracks)
                         && id !in CurrentIds(s.currentTrack) && r.playedTracks == {id}))
  {
    var q := s.currentQueue;
    var round := ShuffleRound(q, s.playedTracks, s.currentTrack);
    ShuffleRoundEmptyIff(q, s.playedTracks, s.currentTrack);
    if round.pool != [] {
      var next := round.pool[Pick(random, |round.pool|)];
      assert next in round.pool;
      var index := FindById(q, next.id);
      assert next.id in Ids(q);
      var s2 := s.(playedTracks := round.played + {next.id});
      PlayTrackAtIndexRules(s2, index);
      if !(exists t :: t in q && t.id !in s.playedTracks) {
        assert forall t :: t in q ==> t.id in s.playedTracks;
      }
    }
  }

  /** Every track of the pool can be the one drawn: the pick is a free choice among them. */
  lemma ShuffleCanDrawAny(s: Session, k: nat)
    requires k < |ShuffleRound(s.currentQueue, s.playedTracks, s.currentTrack).pool|
    ensures var pool := ShuffleRound(s.currentQueue, s.playedTracks, s.currentTrack).pool;
            var random := k as real / |pool| as real;
            && 0.0 <= random < 1.0
            && ShuffleAdvance(s, random).Completed?
            && ShuffleAdvance(s, random).state.currentTrack.value.id == pool[k].id
  {
    var round := ShuffleRound(s.currentQueue, s.playedTracks, s.currentTrack);
    PickReachesEvery(|round.pool|, k);
    var next := round.pool[k];
    assert next in round.pool;
    assert next.id in Ids(s.currentQueue);
    PlayTrackAtIndexRules(s.(playedTracks := round.played + {next.id}), FindById(s.currentQueue, next.id));
  }

  lemma ShuffleAdvanceKeepsInv(s: Session, random: real)
    requires Coherent(s) && 0.0 <= random < 1.0
    ensures Inv(ShuffleAdvance(s, random).state)
  {
    var q := s.currentQueue;
    var round := ShuffleRound(q, s.playedTracks, s.currentTrack);
    assert round.played == s.playedTracks || round.played == {} by {
      if !(exists t :: t in q && t.id !in s.playedTracks) {
        assert forall t :: t in q ==> t.id in s.playedTracks;
      }
    }
    if round.pool != [] {
      var next := round.pool[Pick(random, |round.pool|)];
      assert next in round.pool;
      assert next.id in Ids(q);
      var s2 := s.(playedTracks := round.played + {next.id});
      assert Coherent(s2);
      PlayTrackAtIndexKeepsInv(s2, FindById(q, next.id));
    }
  }

  /** A draw that starts with every played id in the queue keeps them all there. */
  lemma ShuffleKeepsPlayedInQueue(s: Session, random: real)
    requires 0.0 <= random < 1.0 && s.playedTracks <= Ids(s.currentQueue)
    ensures var r := ShuffleAdvance(s, random).state;
            r.playedTracks <= Ids(r.currentQueue)
  {
    ShuffleAdvanceRules(s, random);
    var r := ShuffleAdvance(s, random).state;
    if ShuffleAdvance(s, random).Completed? {
      InIds(s.currentQueue, r.currentIndex);
    }
  }

  // ----- next and previous -----

  /** Without shuffle, "next" loads the following track of the queue, wrapping after the last. */
  lemma NextWithoutShuffle(s: Session, random: real)
    requires 0.0 <= random < 1.0 && !s.isShuffled && IndexInRange(s) && |s.currentQueue| > 0
    ensures OnNext(s, random).Completed?
    ensures var r := OnNext(s, random).state;
            && r.currentQueue == s.currentQueue && !r.isShuffled && r.playedTracks == s.playedTracks
            && r.currentIndex == NextIndex(s.currentIndex, |s.currentQueue|)
            && r.currentIndex == (if s.currentIndex == |s.currentQueue| - 1 then 0 else s.currentIndex + 1)
            && r.currentTrack == Some(s.currentQueue[r.currentIndex])
  {
    PlayTrackAtIndexRules(s, NextIndex(s.currentIndex, |s.currentQueue|));
  }

  /** `presses` clicks on "next" in a row. */
  function NextPresses(s: Session, presses: nat): Session
    decreases presses
  {
    if presses == 0 then s else NextPresses(OnNext(s, 0.0).state, presses - 1)
  }

  /** Without shuffle, k presses of "next" move k places round the queue. */
  lemma {:induction false} NextPressesAdvance(s: Session, presses: nat)
    requires !s.isShuffled && 0 <= s.currentIndex < |s.currentQueue|
    ensures var r := NextPresses(s, presses);
            && r.currentQueue == s.currentQueue && !r.isShuffled
            && r.currentIndex == (s.currentIndex + presses) % |s.currentQueue|
            && (presses > 0 ==> r.currentTrack == Some(r.currentQueue[r.currentIndex]))
    decreases presses
  {
    if presses > 0 {
      var n := |s.currentQueue|;
      NextWithoutShuffle(s, 0.0);
      var s1 := OnNext(s, 0.0).state;
      NextPressesAdvance(s1, presses - 1);
      ModStep(s.currentIndex, presses, n);
    }
  }

  lemma ModStep(i: int, p: nat, n: nat)
    requires 0 <= i < n && p >= 1
    ensures ((if i + 1 >= n then 0 else i + 1) + (p - 1)) % n == (i + p) % n
  {
    if i + 1 >= n {
      ModAddLength(p - 1, n);
    }
  }

  lemma ModWrap(i: nat, n: nat)
    requires i < n
    ensures (i + n) % n == i
  {
    ModAddLength(i, n);
  }

  lemma ModAddLength(x: nat, n: nat)
    requires n > 0
    ensures (x + n) % n == x % n
  {
    var q, r := x / n, x % n;
    var q', r' := (x + n) / n, (x + n) % n;
    var d := q' - q - 1;
    assert d * n == r - r' by {
      assert x + n == q' * n + r';
      assert x + n == q * n + r + n;
      assert (q' - q - 1) * n == q' * n - q * n - n;
    }
  }

  /** Without shuffle, as many presses of "next" as the queue is long come back to the same track. */
  lemma NextFullCircle(s: Session, n: nat)
    requires !s.isShuffled && 0 <= s.currentIndex < |s.currentQueue| && n == |s.currentQueue|
    ensures var r := NextPresses(s, n);
            r.currentIndex == s.currentIndex && r.currentTrack == Some(s.currentQueue[s.currentIndex])
  {
    NextPressesAdvance(s, n);
    var r := NextPresses(s, n);
    var i := s.currentIndex;
    ModWrap(i, n);
  }

  /**
   * "Previous": with the length unknown it does nothing; more than two
   * seconds in, it restarts the current track; otherwise it goes one back
   * in the queue, wrapping before the first, or under shuffle loads a
   * random track other than the current one, throwing when there is none.
   */
  lemma PreviousRules(s: Session, random: real, succeeds: bool)
    requires 0.0 <= random < 1.0 && IndexInRange(s)
    ensures s.audio.duration == 0.0 ==> OnPrevious(s, random, succeeds) == Completed(s)
    ensures s.audio.duration != 0.0 && s.audio.currentTime > 2.0 ==>
              var o := OnPrevious(s, random, succeeds);
              && o.Completed? && o.state.audio.currentTime == 0.0 && o.state.audio.src == s.audio.src
              && o.state.audio.paused == (s.audio.paused && !succeeds)
              && o.state.currentIndex == s.currentIndex && o.state.currentTrack == s.currentTrack
    ensures s.audio.duration != 0.0 && s.audio.currentTime <= 2.0 && !s.isShuffled && |s.currentQueue| > 0 ==>
              var o := OnPrevious(s, random, succeeds);
              && o.Completed?
              && o.state.currentIndex == (if s.currentIndex <= 0 then |s.currentQueue| - 1 else s.currentIndex - 1)
              && o.state.currentTrack == Some(s.currentQueue[o.state.currentIndex])
    ensures s.audio.duration != 0.0 && s.audio.currentTime <= 2.0 && s.isShuffled ==>
              var o := OnPrevious(s, random, succeeds);
              && (o.Threw? <==> |s.currentQueue| > 0 && forall t :: t in s.currentQueue ==> t.id in CurrentIds(s.currentTrack))
              && (s.currentQueue == [] ==> o == Completed(s))
              && (o.Threw? ==> o.state == s)
              && (o.Completed? && s.currentQueue != [] ==>
                    && 0 <= o.state.currentIndex < |s.currentQueue|
                    && o.state.currentTrack == Some(s.currentQueue[o.state.currentIndex])
                    && s.currentQueue[o.state.currentIndex].id !in CurrentIds(s.currentTrack)
                    && o.state.playedTracks == s.playedTracks)
  {
    if s.audio.duration != 0.0 && s.audio.currentTime <= 2.0 {
      var q := s.currentQueue;
      if s.isShuffled {
        var available := Without(q, CurrentIds(s.currentTrack));
        if |available| == 0 {
          forall t | t in q
            ensures t.id in CurrentIds(s.currentTrack)
          {
            assert t !in available;
          }
        } else {
          var prev := available[Pick(random, |available|)];
          assert prev in available;
          assert prev.id in Ids(q);
          PlayTrackAtIndexRules(s, FindById(q, prev.id));
        }
      } else if |q| > 0 {
        PlayTrackAtIndexRules(s, PrevIndex(s.currentIndex, |q|));
      }
    }
  }

  lemma PreviousKeepsInv(s: Session, random: real, succeeds: bool)
    requires Inv(s) && 0.0 <= random < 1.0
    ensures Inv(OnPrevious(s, random, succeeds).state)
  {
    var q := s.currentQueue;
    if s.audio.duration != 0.0 && s.audio.currentTime <= 2.0 {
      if s.isShuffled {
        var available := Without(q, CurrentIds(s.currentTrack));
        if |available| > 0 {
          var prev := available[Pick(random, |available|)];
          assert prev in available;
          assert prev.id in Ids(q);
          PlayTrackAtIndexKeepsInv(s, FindById(q, prev.id));
        }
      } else if |q| > 0 {
        PlayTrackAtIndexKeepsInv(s, PrevIndex(s.currentIndex, |q|));
      }
    }
  }

  lemma NextKeepsInv(s: Session, random: real)
    requires Inv(s) && 0.0 <= random < 1.0
    ensures Inv(OnNext(s, random).state)
  {
    if s.isShuffled {
      ShuffleAdvanceKeepsInv(s, random);
    } else if |s.currentQueue| > 0 {
      PlayTrackAtIndexKeepsInv(s, NextIndex(s.currentIndex, |s.currentQueue|));
    }
  }

  // ----- end of a track -----

  /**
   * `ended` in priority order: repeat-one replays the same track; else
   * under shuffle the finished track is recorded as played and the shuffle
   * draws the next (a TypeError when no track is current); else repeat-all
   * moves on with wrap-around; else the following track plays, and after
   * the last track nothing happens.
   */
  lemma EndedRules(s: Session, random: real, succeeds: bool)
    requires 0.0 <= random < 1.0 && IndexInRange(s)
    ensures s.repeatMode == One ==>
              var o := OnEnded(s, random, succeeds);
              && o.Completed? && o.state.audio.currentTime == 0.0 && o.state.audio.src == s.audio.src
              && o.state.audio.paused == (s.audio.paused && !succeeds)
              && o.state.currentIndex == s.currentIndex && o.state.currentTrack == s.currentTrack
              && o.state.playedTracks == s.playedTracks
    ensures s.repeatMode != One && s.isShuffled && s.currentTrack.None? ==>
              OnEnded(s, random, succeeds) == Threw(s)
    ensures s.repeatMode != One && s.isShuffled && s.currentTrack.Some? ==>
              OnEnded(s, random, succeeds) ==
              ShuffleAdvance(s.(playedTracks := s.playedTracks + {s.currentTrack.value.id}), random)
    ensures s.repeatMode == All && !s.isShuffled && |s.currentQueue| > 0 ==>
              var o := OnEnded(s, random, succeeds);
              && o.Completed?
              && o.state.currentIndex == (if s.currentIndex == |s.currentQueue| - 1 then 0 else s.currentIndex + 1)
              && o.state.currentTrack == Some(s.currentQueue[o.state.currentIndex])
    ensures s.repeatMode == Off && !s.isShuffled && s.currentIndex < |s.currentQueue| - 1 ==>
              var o := OnEnded(s, random, succeeds);
              && o.Completed? && o.state.currentIndex == s.currentIndex + 1
              && o.state.currentTrack == Some(s.currentQueue[s.currentIndex + 1])
    ensures s.repeatMode == Off && !s.isShuffled && s.currentIndex >= |s.currentQueue| - 1 ==>
              OnEnded(s, random, succeeds) == Completed(s)
  {
    var n := |s.currentQueue|;
    if s.repeatMode == All && !s.isShuffled && n > 0 {
      PlayTrackAtIndexRules(s, NextIndex(s.currentIndex, n));
    } else if s.repeatMode == Off && !s.isShuffled && s.currentIndex < n - 1 {
      PlayTrackAtIndexRules(s, s.currentIndex + 1);
    }
  }

  /**
   * With one queued track playing under shuffle, `ended` throws: the
   * finished track is recorded, the round restarts, and the only candidate
   * is the track that was playing.
   */
  lemma OneTrackShuffleEndThrows(s: Session, t: Track, random: real, succeeds: bool)
    requires 0.0 <= random < 1.0
    requires s.currentQueue == [t] && s.currentTrack == Some(t) && s.isShuffled && s.repeatMode != One
    ensures OnEnded(s, random, succeeds) == Threw(s.(playedTracks := {}))
  {
    var s1 := s.(playedTracks := s.playedTracks + {t.id});
    ShuffleAdvanceRules(s1, random);
  }

  lemma EndedKeepsInv(s: Session, random: real, succeeds: bool)
    requires Inv(s) && 0.0 <= random < 1.0
    ensures Inv(OnEnded(s, random, succeeds).state)
  {
    var n := |s.currentQueue|;
    if s.repeatMode == One {
    } else if s.isShuffled {
      if s.currentTrack.Some? {
        var s1 := s.(playedTracks := s.playedTracks + {s.currentTrack.value.id});
        assert AtMostOneForeign(s1) by {
          if s.currentTrack.value.id !in Ids(s.currentQueue) {
            assert forall a :: a in s.playedTracks ==> a in Ids(s.currentQueue);
          }
        }
        ShuffleAdvanceKeepsInv(s1, random);
      }
    } else if s.repeatMode == All {
      if n > 0 {
        PlayTrackAtIndexKeepsInv(s, NextIndex(s.currentIndex, n));
      }
    } else if s.currentIndex < n - 1 {
      PlayTrackAtIndexKeepsInv(s, s.currentIndex + 1);
    }
  }

  // ----- play/pause button -----

  /**
   * The play button pauses a playing element and starts a paused one (if
   * its `play()` resolves); it touches nothing but the paused flag, so a
   * pause followed by a successful play restores the element.
   */
  lemma TogglePlayPauseRules(s: Session, succeeds: bool)
    ensures var r := TogglePlayPause(s, succeeds);
            && r == s.(audio := s.audio.(paused := r.audio.paused))
            && (!s.audio.paused ==> r.audio.paused)
            && (s.audio.paused ==> r.audio.paused == !succeeds)
    ensures !s.audio.paused ==> TogglePlayPause(TogglePlayPause(s, succeeds), true) == s
  {
  }

  // ----- shuffle, repeat and volume buttons -----

  /**
   * The shuffle button flips shuffle; switching it on starts a fresh round,
   * switching it off keeps the played set. Nothing else changes, so two
   * presses only forget the round.
   */
  lemma ShuffleToggleRules(s: Session)
    ensures var r := ToggleShuffle(s);
            && r.isShuffled == !s.isShuffled
            && (r.isShuffled ==> r.playedTracks == {})
            && (!r.isShuffled ==> r.playedTracks == s.playedTracks)
            && r == s.(isShuffled := r.isShuffled, playedTracks := r.playedTracks)
    ensures ToggleShuffle(ToggleShuffle(s)) == s.(playedTracks := {})
  {
  }

  /** `presses` clicks on the repeat button. */
  function RepeatPresses(s: Session, presses: nat): Session
    decreases presses
  {
    if presses == 0 then s else RepeatPresses(CycleRepeat(s), presses - 1)
  }

  /**
   * The repeat button steps off, all, one and back to off: every press
   * changes the mode and only the mode, and the cycle has length three.
   */
  lemma RepeatCycle(s: Session)
    ensures CycleRepeat(s).repeatMode != s.repeatMode
    ensures CycleRepeat(s) == s.(repeatMode := CycleRepeat(s).repeatMode)
    ensures s.repeatMode == Off ==> CycleRepeat(s).repeatMode == All
    ensures s.repeatMode == All ==> CycleRepeat(s).repeatMode == One
    ensures s.repeatMode == One ==> CycleRepeat(s).repeatMode == Off
    ensures RepeatPresses(s, 3) == s
  {
    assert RepeatPresses(s, 3) == CycleRepeat(CycleRepeat(CycleRepeat(s)));
  }

  /** Only the number of presses modulo three matters. */
  lemma {:induction false} RepeatPressesModThree(s: Session, presses: nat)
    ensures RepeatPresses(s, presses) == RepeatPresses(s, presses % 3)
    decreases presses
  {
    if presses >= 3 {
      calc {
        RepeatPresses(s, presses);
        RepeatPresses(CycleRepeat(s), presses - 1);
        RepeatPresses(CycleRepeat(CycleRepeat(s)), presses - 2);
        RepeatPresses(CycleRepeat(CycleRepeat(CycleRepeat(s))), presses - 3);
        { RepeatCycle(s); assert RepeatPresses(s, 3) == CycleRepeat(CycleRepeat(CycleRepeat(s))); }
        RepeatPresses(s, presses - 3);
        { RepeatPressesModThree(s, presses - 3); }
        RepeatPresses(s, (presses - 3) % 3);
      }
    }
  }

  /**
   * The volume button mutes an audible element, remembering its volume, and
   * a second press restores that volume; on a muted element it restores the
   * remembered volume, or full volume when none was remembered.
   */
  lemma MuteRoundTrip(s: Session)
    requires s.audio.volume > 0.0
    ensures var m := ToggleMute(s);
            && m.audio.volume == 0.0 && m.previousVolume == s.audio.volume && m.volumeIcon == Mute
            && m.audio == s.audio.(volume := 0.0)
    ensures ToggleMute(ToggleMute(s)).audio == s.audio
    ensures ToggleMute(ToggleMute(s)).volumeIcon == VolumeIconFor(s.audio.volume)
    ensures IconMatchesVolume(s) ==> ToggleMute(ToggleMute(s)) == s.(previousVolume := s.audio.volume)
  {
  }

  lemma UnmuteRules(s: Session)
    requires s.audio.volume == 0.0
    ensures var r := ToggleMute(s);
            && r.audio == s.audio.(volume := r.audio.volume) && r.audio.volume > 0.0
            && (s.previousVolume > 0.0 ==> r.audio.volume == s.previousVolume)
            && (s.previousVolume == 0.0 ==> r.audio.volume == 1.0)
            && r.volumeIcon != Mute
  {
  }

  /** `updateVolumeIcon`: the icon shows mute exactly at volume 0 and "high" from one half up. */
  lemma VolumeIconRules(v: Level)
    ensures VolumeIconFor(v) == Mute <==> v == 0.0
    ensures VolumeIconFor(v) == Up <==> v >= 0.5
  {
  }

  // ----- the progress bar -----

  /**
   * A click on the bar, once the length is known and no drag is under way,
   * moves only the position and the bar: the percentage is clamped to
   * [0, 100] and the position is that share of the length.
   */
  lemma ProgressClickRules(s: Session, ratio: real)
    ensures s.audio.duration == 0.0 || s.isDraggingProgress ==> OnProgressClick(s, ratio) == s
    ensures s.audio.duration != 0.0 && !s.isDraggingProgress ==>
              var r := OnProgressClick(s, ratio);
              && 0.0 <= r.progress <= 100.0
              && r.audio.currentTime <= s.audio.duration
              && r.audio.currentTime == r.progress / 100.0 * s.audio.duration
              && (0.0 <= ratio <= 1.0 ==> r.audio.currentTime == ratio * s.audio.duration)
              && (ratio < 0.0 ==> r.audio.currentTime == 0.0)
              && (ratio > 1.0 ==> r.audio.currentTime == s.audio.duration)
              && r == s.(audio := s.audio.(currentTime := r.audio.currentTime), progress := r.progress)
  {
  }

  /**
   * Dragging: pressing the handle starts a drag; moving the mouse moves
   * the bar but never the audio position; `timeupdate` leaves the bar alone
   * meanwhile; releasing commits the position, clamped to the length, and
   * resumes a paused element.
   */
  lemma DragRules(s: Session, ratio: real, succeeds: bool)
    ensures OnHandleDown(s).isDraggingProgress
    ensures OnDragMove(s, ratio).audio == s.audio
    ensures OnDragMove(s, ratio) == s.(progress := OnDragMove(s, ratio).progress)
    ensures s.isDraggingProgress ==> OnTimeUpdate(s) == s && OnProgressClick(s, ratio) == s
    ensures s.isDraggingProgress && s.audio.duration != 0.0 ==>
              var r := OnDragEnd(s, ratio, succeeds);
              && !r.isDraggingProgress && r.audio.src == s.audio.src
              && r.audio.currentTime <= s.audio.duration
              && r.audio.currentTime == r.progress / 100.0 * s.audio.duration
              && (0.0 <= ratio <= 1.0 ==> r.audio.currentTime == ratio * s.audio.duration)
              && r.audio.paused == (s.audio.paused && !succeeds)
    ensures !s.isDraggingProgress ==> OnDragEnd(s, ratio, succeeds) == s
    // a release before the length is known leaves the drag flag set
    ensures s.isDraggingProgress && s.audio.duration == 0.0 ==>
              OnDragEnd(s, ratio, succeeds) == s && OnDragEnd(s, ratio, succeeds).isDraggingProgress
  {
  }

  /**
   * Pressing the handle, moving and releasing at the same spot seeks to
   * that spot; the moves in between leave the audio untouched.
   */
  lemma DragScenario(s: Session, ratio: real, succeeds: bool)
    requires s.audio.duration != 0.0 && 0.0 <= ratio <= 1.0
    ensures var moved := OnDragMove(OnHandleDown(s), ratio);
            && moved.audio == s.audio && moved.progress == ratio * 100.0
            && OnTimeUpdate(moved) == moved
            && var released := OnDragEnd(moved, ratio, succeeds);
               && !released.isDraggingProgress
               && released.audio.currentTime == ratio * s.audio.duration
               && released.audio.paused == (s.audio.paused && !succeeds)
  {
  }

  /**
   * `timeupdate` redraws the bar as the played share of the length and
   * shows the elapsed whole seconds (FormatDurationRoundTrip says the
   * label denotes exactly that number).
   */
  lemma TimeUpdateRules(s: Session)
    ensures s.audio.duration == 0.0 || s.isDraggingProgress ==> OnTimeUpdate(s) == s
    ensures s.audio.duration != 0.0 && !s.isDraggingProgress ==>
              var r := OnTimeUpdate(s);
              && r.audio == s.audio
              && r.progress * s.audio.duration == s.audio.currentTime * 100.0
              && r.elapsedShown as real <= s.audio.currentTime < r.elapsedShown as real + 1.0
              && r == s.(progress := r.progress, elapsedShown := r.elapsedShown)
  {
  }

  // ----- reset -----

  /**
   * `reset:player` stops and unloads the element and clears the track,
   * queue, index, shuffle, repeat, round, bar and labels. Volume, the
   * remembered volume, the load flag and the drag flag are left as they
   * were. A second reset changes nothing more.
   */
  lemma ResetRules(s: Session)
    ensures var r := OnReset(s);
            && r.currentTrack == None && r.currentQueue == [] && r.currentIndex == 0
            && !r.isShuffled && r.repeatMode == Off && r.playedTracks == {}
            && r.audio.paused && r.audio.src == "" && r.audio.currentTime == 0.0 && r.audio.duration == 0.0
            && r.progress == 0.0 && r.elapsedShown == 0 && r.totalShown == 0
            && r.audio.volume == s.audio.volume && r.previousVolume == s.previousVolume
            && r.volumeIcon == s.volumeIcon
            && r.isTrackLoading == s.isTrackLoading && r.isDraggingProgress == s.isDraggingProgress
    ensures OnReset(OnReset(s)) == OnReset(s)
    ensures s.previousVolume > 0.0 && IconMatchesVolume(s) ==> Inv(OnReset(s))
  {
  }

  lemma ResetKeepsInv(s: Session)
    requires Inv(s)
    ensures Inv(OnReset(s))
  {
  }

  // ----- every event -----

  lemma StepKeepsInv(s: Session, e: Event)
    requires Inv(s) && Admissible(s, e)
    ensures Inv(Step(s, e).state)
  {
    match e
    case TrackSelected(track, queue) => SelectKeepsInv(s, track, queue);
    case PrevClicked(random, succeeds) => PreviousKeepsInv(s, random, succeeds);
    case NextClicked(random) => NextKeepsInv(s, random);
    case TrackEnded(random, succeeds) => EndedKeepsInv(s, random, succeeds);
    case _ =>
  }

  /** The invariant holds after any admissible sequence of events from the initial session. */
  lemma {:induction false} RunKeepsInv(s: Session, events: seq<Event>)
    requires Inv(s) && RunAdmissible(s, events)
    ensures Inv(Run(s, events))
    decreases |events|
  {
    if events != [] {
      StepKeepsInv(s, events[0]);
      RunKeepsInv(Step(s, events[0]).state, events[1..]);
    }
  }

  lemma ReachableInv(events: seq<Event>)
    requires RunAdmissible(Initial(), events)
    ensures var r := Run(Initial(), events);
            && (r.currentIndex == -1 || 0 <= r.currentIndex < |r.currentQueue| || (r.currentIndex == 0 && r.currentQueue == []))
            && |r.playedTracks| <= |r.currentQueue| + 1
            && r.previousVolume > 0.0
  {
    InitialInv();
    RunKeepsInv(Initial(), events);
    PlayedBound(Run(Initial(), events));
  }

  /**
   * The played set holds at most one id beyond the queue's, so it is at
   * most one larger than the queue.
   */
  lemma PlayedBound(s: Session)
    requires AtMostOneForeign(s)
    ensures |s.playedTracks| <= |s.currentQueue| + 1
  {
    var ids := Ids(s.currentQueue);
    IdsBound(s.currentQueue);
    if s.playedTracks <= ids {
      SubsetCard(s.playedTracks, ids);
    } else {
      var f :| f in s.playedTracks && f !in ids;
      SubsetCard(s.playedTracks, ids + {f});
    }
  }

  lemma {:induction false} SubsetCard<T>(a: set<T>, b: set<T>)
    requires a <= b
    ensures |a| <= |b|
    decreases |a|
  {
    if a != {} {
      var x :| x in a;
      SubsetCard(a - {x}, b - {x});
    }
  }

  // ----- scenarios -----

  /**
   * The bound of PlayedBound is reached: a track selected from outside the
   * queue and then finished under shuffle stays in the played set next to
   * every queued track.
   */
  lemma PlayedCanOutgrowQueue()
    ensures var a, b, c := Track("a", "a.mp3", 60), Track("b", "b.mp3", 60), Track("c", "c.mp3", 60);
            var events := [TrackSelected(c, [a, b]), PlayResolved(true), ShuffleClicked,
                           TrackEnded(0.0, true), PlayResolved(true), TrackEnded(0.0, true)];
            && RunAdmissible(Initial(), events)
            && Run(Initial(), events).currentQueue == [a, b]
            && Run(Initial(), events).playedTracks == {"a", "b", "c"}
  {
    var a, b, c := Track("a", "a.mp3", 60), Track("b", "b.mp3", 60), Track("c", "c.mp3", 60);
    var e1, e2, e3 := TrackSelected(c, [a, b]), PlayResolved(true), ShuffleClicked;
    var e4, e5, e6 := TrackEnded(0.0, true), PlayResolved(true), TrackEnded(0.0, true);
    var s1, s2, s3 := OutgrowOpening(a, b, c);
    var s4, s5, id1 := FirstDraw(a, b, c, s3);
    var s6 := SecondDraw(a, b, s5, id1);
    RunSix(Initial(), s1, s2, s3, s4, s5, s6, e1, e2, e3, e4, e5, e6);
  }

  /** The first three events of PlayedCanOutgrowQueue: "c" is selected from outside the queue, loads, and shuffle goes on. */
  lemma OutgrowOpening(a: Track, b: Track, c: Track) returns (s1: Session, s2: Session, s3: Session)
    requires a == Track("a", "a.mp3", 60) && b == Track("b", "b.mp3", 60) && c == Track("c", "c.mp3", 60)
    ensures s1 == Step(Initial(), TrackSelected(c, [a, b])).state && s1.isTrackLoading
    ensures s2 == Step(s1, PlayResolved(true)).state
    ensures s3 == Step(s2, ShuffleClicked).state
    ensures s3.isShuffled && s3.playedTracks == {} && s3.repeatMode == Off && !s3.isTrackLoading
    ensures s3.currentTrack == Some(c) && s3.currentQueue == [a, b] && s3.audio.src == "c.mp3"
  {
    var q := [a, b];
    assert FindById(q, "c") == -1;
    s1 := Step(Initial(), TrackSelected(c, q)).state;
    s2 := Step(s1, PlayResolved(true)).state;
    s3 := Step(s2, ShuffleClicked).state;
  }

  /** The first `ended` of PlayedCanOutgrowQueue records "c" and draws a queued track, whose load then settles. */
  lemma FirstDraw(a: Track, b: Track, c: Track, s3: Session) returns (s4: Session, s5: Session, id1: TrackId)
    requires a.id == "a" && b.id == "b" && c.id == "c"
    requires s3.isShuffled && s3.playedTracks == {} && s3.repeatMode == Off && !s3.isTrackLoading
    requires s3.currentTrack == Some(c) && s3.currentQueue == [a, b]
    requires a.audioUrl != "" && b.audioUrl != "" && s3.audio.src != a.audioUrl && s3.audio.src != b.audioUrl
    ensures s4 == Step(s3, TrackEnded(0.0, true)).state && s4.isTrackLoading
    ensures s5 == Step(s4, PlayResolved(true)).state
    ensures s5.isShuffled && s5.repeatMode == Off && s5.currentQueue == [a, b]
    ensures (id1 == "a" || id1 == "b") && s5.currentTrack.Some? && s5.currentTrack.value.id == id1
    ensures s5.playedTracks == {"c", id1}
  {
    var q := [a, b];
    assert a in q && a.id !in s3.playedTracks + {"c"};
    id1 := EndedDraws(s3, 0.0, true);
    assert Ids(q) == {"a", "b"} by {
      assert a in q && b in q;
    }
    s4 := Step(s3, TrackEnded(0.0, true)).state;
    s5 := Step(s4, PlayResolved(true)).state;
  }

  /** The second `ended` records the first draw and draws the other queued track. */
  lemma SecondDraw(a: Track, b: Track, s5: Session, id1: TrackId) returns (s6: Session)
    requires a.id == "a" && b.id == "b" && (id1 == "a" || id1 == "b")
    requires s5.isShuffled && s5.repeatMode == Off && s5.currentQueue == [a, b]
    requires s5.currentTrack.Some? && s5.currentTrack.value.id == id1 && s5.playedTracks == {"c", id1}
    ensures s6 == Step(s5, TrackEnded(0.0, true)).state
    ensures s6.currentQueue == [a, b] && s6.playedTracks == {"a", "b", "c"}
  {
    var q := [a, b];
    var other := if id1 == "a" then b else a;
    assert other in q && other.id !in s5.playedTracks + {id1};
    var id2 := EndedDraws(s5, 0.0, true);
    assert Ids(q) == {"a", "b"} by {
      assert a in q && b in q;
    }
    s6 := Step(s5, TrackEnded(0.0, true)).state;
  }

  /**
   * Under shuffle with a current track, `ended` records that track's id
   * and, while some queued track is unplayed, draws one of those, records
   * it and makes it current; the load it starts is pending exactly when
   * the track's source is new.
   */
  lemma EndedDraws(s: Session, random: real, succeeds: bool) returns (id: TrackId)
    requires 0.0 <= random < 1.0
    requires s.repeatMode != One && s.isShuffled && s.currentTrack.Some?
    requires exists t :: t in s.currentQueue && t.id !in s.playedTracks + {s.currentTrack.value.id}
    ensures var o := OnEnded(s, random, succeeds);
            var played := s.playedTracks + {s.currentTrack.value.id};
            && o.Completed? && o.state.currentQueue == s.currentQueue
            && id in Ids(s.currentQueue) && id !in played
            && o.state.playedTracks == played + {id}
            && 0 <= o.state.currentIndex < |s.currentQueue|
            && o.state.currentTrack == Some(s.currentQueue[o.state.currentIndex])
            && id == s.currentQueue[o.state.currentIndex].id
            && o.state.isShuffled && o.state.repeatMode == s.repeatMode
            && (!s.isTrackLoading ==>
                  var url := s.currentQueue[o.state.currentIndex].audioUrl;
                  o.state.isTrackLoading == (url != "" && s.audio.src != url))
  {
    var s1 := s.(playedTracks := s.playedTracks + {s.currentTrack.value.id});
    EndedUnderShuffle(s, random, succeeds);
    ShuffleAdvanceRules(s1, random);
    var r := ShuffleAdvance(s1, random).state;
    id := s.currentQueue[r.currentIndex].id;
    InIds(s.currentQueue, r.currentIndex);
    var t :| t in s.currentQueue && t.id !in s1.playedTracks;
  }

  /** Under shuffle with a current track, `ended` records that track's id and draws. */
  lemma EndedUnderShuffle(s: Session, random: real, succeeds: bool)
    requires 0.0 <= random < 1.0
    requires s.repeatMode != One && s.isShuffled && s.currentTrack.Some?
    ensures OnEnded(s, random, succeeds) ==
            ShuffleAdvance(s.(playedTracks := s.playedTracks + {s.currentTrack.value.id}), random)
  {
  }

  /** Six admissible steps, one after another, make an admissible run that ends where the last step does. */
  lemma RunSix(s0: Session, s1: Session, s2: Session, s3: Session, s4: Session, s5: Session, s6: Session,
               e1: Event, e2: Event, e3: Event, e4: Event, e5: Event, e6: Event)
    requires Admissible(s0, e1) && s1 == Step(s0, e1).state
    requires Admissible(s1, e2) && s2 == Step(s1, e2).state
    requires Admissible(s2, e3) && s3 == Step(s2, e3).state
    requires Admissible(s3, e4) && s4 == Step(s3, e4).state
    requires Admissible(s4, e5) && s5 == Step(s4, e5).state
    requires Admissible(s5, e6) && s6 == Step(s5, e6).state
    ensures RunAdmissible(s0, [e1, e2, e3, e4, e5, e6])
    ensures Run(s0, [e1, e2, e3, e4, e5, e6]) == s6
  {
    RunCons(s5, e6, []);
    RunCons(s4, e5, [e6]);
    RunCons(s3, e4, [e5, e6]);
    RunCons(s2, e3, [e4, e5, e6]);
    RunCons(s1, e2, [e3, e4, e5, e6]);
    RunCons(s0, e1, [e2, e3, e4, e5, e6]);
  }

  lemma RunCons(s: Session, e: Event, rest: seq<Event>)
    requires Admissible(s, e) && RunAdmissible(Step(s, e).state, rest)
    ensures RunAdmissible(s, [e] + rest)
    ensures Run(s, [e] + rest) == Run(Step(s, e).state, rest)
  {
    assert ([e] + rest)[1..] == rest;
  }

  /**
   * A three-track queue without shuffle: after the first track, "next"
   * goes to the second and third, and once more wraps round to the first.
   * This holds whatever the tracks' audio, even while a load is pending:
   * `playTrackAtIndex` moves the index before `updatePlayerUI` looks at the lock.
   */
  lemma WrapScenario(a: Track, b: Track, c: Track)
    ensures var s1 := OnTrackSelected(Initial(), a, [a, b, c]);
            var s2 := OnNext(s1, 0.0).state;
            var s3 := OnNext(s2, 0.0).state;
            var s4 := OnNext(s3, 0.0).state;
            && s1.currentTrack == Some(a) && s2.currentTrack == Some(b)
            && s3.currentTrack == Some(c) && s4.currentTrack == Some(a) && s4.currentIndex == 0
  {
    var q := [a, b, c];
    assert FindById(q, a.id) == 0;
    var s1 := OnTrackSelected(Initial(), a, q);
    assert s1.currentIndex == 0 && !s1.isShuffled && s1.currentQueue == q;
    NextWithoutShuffle(s1, 0.0);
    var s2 := OnNext(s1, 0.0).state;
    NextWithoutShuffle(s2, 0.0);
    var s3 := OnNext(s2, 0.0).state;
    NextWithoutShuffle(s3, 0.0);
  }
}
