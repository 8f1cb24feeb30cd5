# Playback controller of the music-streaming client, in Dafny

This project models the playback and queue controller that `initPlayer` sets up in
`spotify-clone/modules/player.js`, and proves what it does. The controller keeps one audio element and a
handful of closure variables:
- the current track, queue and index;
- the remembered volume;
- the shuffle flag and the repeat mode (off, all, one);
- the load lock `isTrackLoading`;
- the shuffle round's set of played track ids;
- the drag flag of the progress bar.

Event handlers update this state. The handlers cover:
- a track selected from any catalog view;
- the play, previous, next, shuffle, repeat and volume buttons;
- clicking and dragging the progress bar;
- the element's `timeupdate` and `ended` events;
- a `reset:player` request.

Layout, one module per file:

- `wrappers.dfy` (Wrappers): `Option`.
- `duration.dfy` (Duration): `formatDuration`, the "m:ss" label, with a parser as its partner and a
  round-trip proof.
- `queue.dfy` (Queue): tracks and the pure list work of the handlers:
  - `findIndex` by id and the `filter`s by id;
  - the wrap-around index steps;
  - the `Math.floor(Math.random() * n)` draw;
  - the shuffle's choice of pool.
- `playback.dfy` (Playback): the whole controller as values.
  - A `Session` holds every closure variable plus the element's fields.
  - There is one function per handler, and `Step`/`Run` over a sequence of events.
  - A handler that throws a `TypeError` yields `Threw` with the state it left behind.
- `properties.dfy` (Properties): the invariant kept between events and the rules of every handler.
  - It also holds the wrap-around induction and the scenarios.
- `player.dfy` (Player): the controller as the program runs it.
  - Class `Controller` has the closure variables as fields. Class `AudioElement` is updated in place.
  - There is one method per handler and per helper (`updateVolumeIcon`, `updatePlayerUI`,
    `playTrackAtIndex` and the shuffle draw). Each method is proved to reach exactly the state its
    Playback function computes. Each handler method is also proved to keep the invariant, so the
    lemmas of Properties are facts about these methods. The helpers do not promise the invariant:
    `updatePlayerUI` takes any index, and the handlers that call it supply one in range.

Inputs the program takes from its environment become parameters:
- `random` (what `Math.random()` returned, in [0, 1));
- `succeeds` (whether the `play()` promise resolves);
- `ratio` (the mouse's offset along the progress bar over the bar's width).

The `await audio.play()` inside `updatePlayerUI` splits it in two:
- `UpdatePlayerUI` runs up to the await and holds the lock. Calling `play()` takes the element out of the
  paused state at once, so while the promise is pending the play button takes its pause branch
  (`PauseDuringLoad`);
- `PlaySettled` runs when the promise settles, and releases the lock. A rejection leaves the element
  paused; a resolution leaves it as it then is.

A length of 0 stands for the element's "length not known yet" (`NaN`, which the handlers test with
`!audio.duration`).

Some behaviour of the code may be unexpected; the model follows the code:
- Selecting a track that is not in the queue sets the index to -1, because `findIndex(...) || 0` keeps the
  truthy -1. `SelectRules` states this.
- A second selection that arrives while the first selection's `play()` is pending is dropped. Only its
  queue, its index and the cleared played set take effect; the first track stays loaded and current.
  See `SecondSelectionDuringLoad`.
- Under shuffle, a one-track queue does not replay its track when it ends. The pool becomes empty and
  reading `.id` of its missing element throws. See `OneTrackShuffleEndThrows`. "Next" throws the same
  way (`ShuffleAdvanceRules`). "Previous" throws when every queued track has the current id, but on an
  empty queue it completes: `findIndex` on `[]` never calls the callback that reads `.id`
  (`PreviousRules`).
- A release of the progress handle before the length is known returns before clearing the drag flag.
  Clicks and `timeupdate` stay ignored until a later release (`DragRules`).
- The played set can hold one more id than the queue has tracks.
  - This happens when a track from outside the queue is playing when `ended` records it.
  - The bound that holds is `|queue| + 1`: `PlayedBound` and `ReachableInv` prove it, and
    `PlayedCanOutgrowQueue` reaches it.
  - The played set stays inside the queue's ids whenever it was inside them before the draw
    (`ShuffleKeepsPlayedInQueue`).
- `reset:player` does not reset everything:
  - it leaves the volume, the remembered volume and the volume icon as they were;
  - it leaves the load lock and the drag flag as they were;
  - assigning the empty source stops and unloads the element.

  See `ResetRules`.

## Model

| member | source | states |
|---|---|---|
| Duration.NatToString | spotify-clone/modules/player.js:97-99 | a whole number's `toString()` is a non-empty string of decimal digits without a leading zero that denotes the number; it is one digit exactly below 10 |
| Duration.PadStart | spotify-clone/modules/player.js:99 | `padStart(width, fill)`: the result has length max(length, width), ends with the input, and is fill characters before it |
| Duration.SecondsField | spotify-clone/modules/player.js:98-99 | for fewer than 60 seconds the padded seconds field is exactly two digits denoting them |
| Duration.FormatDuration | spotify-clone/modules/player.js:96-100 | `formatDuration`; what its label means is stated by FormatDurationRoundTrip and ZeroLabel |
| Duration.FormatDurationRoundTrip | spotify-clone/modules/player.js:96-100 | the label reads back as the seconds it shows: minutes `floor(s / 60)`, a colon, `s % 60` in two digits |
| Duration.ZeroLabel | spotify-clone/modules/player.js:302-303 | the label for 0 seconds is "0:00", the text reset writes into both time labels |
| Queue.FindById | spotify-clone/modules/player.js:156 | `findIndex` by id is -1 exactly when no queued track has the id, and otherwise the first position holding it |
| Queue.Without | spotify-clone/modules/player.js:149 | the filter by id keeps exactly the queued tracks whose id is not excluded |
| Queue.NextIndex | spotify-clone/modules/player.js:159-160 | "next" moves from index i to (i + 1) mod n and always lands inside a non-empty queue |
| Queue.PrevIndex | spotify-clone/modules/player.js:140-141 | "previous" moves from index i to (i - 1) mod n, and to the last index from 0 or below |
| Queue.PrevUndoesNext | spotify-clone/modules/player.js:140-141 | a step back after a step on returns to the index |
| Queue.NextUndoesPrev | spotify-clone/modules/player.js:159-160 | a step on after a step back returns to the index |
| Queue.Pick | spotify-clone/modules/player.js:154 | `Math.floor(Math.random() * n)` is a position of a non-empty list |
| Queue.PickReachesEvery | spotify-clone/modules/player.js:154 | every position of the list can be drawn |
| Queue.ShuffleRound | spotify-clone/modules/player.js:149-153 | the shuffle draws from the unplayed tracks, keeping the played set; once all are played it clears the set and draws from the tracks other than the current one |
| Queue.ShuffleRoundEmptyIff | spotify-clone/modules/player.js:149-154 | the pool is empty exactly when every queued track is played and has the current track's id |
| Playback.OrOne | spotify-clone/modules/player.js:76 | the volume a load or unmute sets, falling back to 1, is positive and is the remembered volume when that is positive |
| Playback.OrZero | spotify-clone/modules/player.js:316 | the fallback to 0 after `findIndex` changes no number, so -1 stays -1 |
| Playback.Percentage | spotify-clone/modules/player.js:246 | the seek percentage lies in [0, 100] and is `ratio * 100` when the mouse is over the bar |
| Playback.SeekTime | spotify-clone/modules/player.js:247 | the position a percentage stands for never exceeds the length |
| Properties.InitialInv | spotify-clone/modules/player.js:21-30 | the initial state satisfies the invariant |
| Properties.LoadingGuard | spotify-clone/modules/player.js:60 | `updatePlayerUI` changes nothing while a load is in flight |
| Properties.LoadReleases | spotify-clone/modules/player.js:59-94 | otherwise it adopts track, queue, index and length label and keeps every other field. It holds the lock exactly when it swapped a new source in: the element is then at position 0 of that source with its length unknown, at the remembered volume or 1, with the icon redrawn for that volume, and playing since `play()` was called. The lock is released whether `play()` resolves or rejects, and a rejection leaves the element paused |
| Properties.PauseDuringLoad | spotify-clone/modules/player.js:80 | while a load's `play()` is pending the element is not paused, so the play button pauses it, and it stays paused however that `play()` settles |
| Properties.PlayAtOnce | spotify-clone/modules/player.js:104 | a `play()` whose promise settles before the next event is the pending `play()` followed by its settling |
| Properties.UpdatePlayerUIKeepsInv | spotify-clone/modules/player.js:59-94 | `updatePlayerUI` keeps the invariant when the state it adopts satisfies it |
| Properties.PlayTrackAtIndexRules | spotify-clone/modules/player.js:113-119 | positions inside the queue become current with the queue's track there and nothing else of the queue state changes; other positions change nothing |
| Properties.PlayTrackAtIndexKeepsInv | spotify-clone/modules/player.js:113-119 | moving to a position inside the queue gives a state satisfying the invariant |
| Properties.SelectRules | spotify-clone/modules/player.js:312-319 | selection replaces the queue, empties the played set and sets the index to the first match, -1 when absent; the track becomes current unless a load is in flight |
| Properties.SelectKeepsInv | spotify-clone/modules/player.js:312-319 | selection keeps the invariant |
| Properties.SecondSelectionDuringLoad | spotify-clone/modules/player.js:312-318 | a second selection while the first loads leaves the first track current and loaded, takes only its queue and index, and the lock is released when the first `play()` settles |
| Properties.ShuffleAdvanceRules | spotify-clone/modules/player.js:148-157 | the shuffle draw throws exactly when its pool is empty, after clearing the played set. Otherwise the drawn track becomes current and is recorded; it was unplayed, or the round restarted with it and it is not the track that was current |
| Properties.ShuffleCanDrawAny | spotify-clone/modules/player.js:154 | every track of the pool is the one drawn for some value of `Math.random()` |
| Properties.ShuffleAdvanceKeepsInv | spotify-clone/modules/player.js:148-157 | the shuffle draw keeps the invariant |
| Properties.ShuffleKeepsPlayedInQueue | spotify-clone/modules/player.js:148-157 | a played set inside the queue's ids stays inside them after the draw |
| Properties.NextWithoutShuffle | spotify-clone/modules/player.js:158-162 | without shuffle "next" goes to index + 1, and to 0 after the last track, with the queue's track there current |
| Properties.NextPressesAdvance | spotify-clone/modules/player.js:158-162 | k presses of "next" without shuffle move from i to (i + k) mod n |
| Properties.NextFullCircle | spotify-clone/modules/player.js:158-162 | as many presses as the queue is long come back to the same index and track |
| Properties.PreviousRules | spotify-clone/modules/player.js:122-143 | "previous" is a no-op while the length is unknown. After 2 seconds it restarts the track at 0 with the index kept. Otherwise it goes one back, wrapping to the last track, or under shuffle to a random other track. It throws when the queue is non-empty and has no other track, and completes unchanged on an empty queue, since `findIndex` on `[]` never reads the missing track's id |
| Properties.PreviousKeepsInv | spotify-clone/modules/player.js:122-143 | "previous" keeps the invariant |
| Properties.NextKeepsInv | spotify-clone/modules/player.js:147-163 | "next" keeps the invariant |
| Properties.EndedRules | spotify-clone/modules/player.js:333-369 | `ended` in priority order: repeat-one replays at 0 with the index kept; shuffle records the finished id and then draws (throwing with no current track); repeat-all wraps on; otherwise it advances, and after the last track it changes nothing |
| Properties.OneTrackShuffleEndThrows | spotify-clone/modules/player.js:342-352 | with one queued track playing under shuffle, `ended` throws with the played set cleared |
| Properties.EndedUnderShuffle | spotify-clone/modules/player.js:342-352 | under shuffle with a current track, `ended` is the shuffle draw after recording the current id |
| Properties.EndedDraws | spotify-clone/modules/player.js:342-352 | under shuffle, while some queued track is neither played nor current, `ended` records the current id and draws an unplayed track, makes it current and starts its load exactly when its source is new |
| Properties.EndedKeepsInv | spotify-clone/modules/player.js:333-369 | `ended` keeps the invariant |
| Properties.TogglePlayPauseRules | spotify-clone/modules/player.js:102-111 | the play button pauses a playing element and starts a paused one if `play()` resolves, touching nothing else; a pause and a successful play restore the state |
| Properties.ShuffleToggleRules | spotify-clone/modules/player.js:166-169 | shuffle flips, the played set is cleared only when switching on, nothing else changes, and two presses only forget the round |
| Properties.RepeatCycle | spotify-clone/modules/player.js:176-186 | repeat steps off, all, one, off; every press changes only the mode; three presses are the identity |
| Properties.RepeatPressesModThree | spotify-clone/modules/player.js:176-186 | only the number of repeat presses modulo 3 matters |
| Properties.MuteRoundTrip | spotify-clone/modules/player.js:211-220 | muting an audible element remembers its volume and sets 0; a second press restores the exact volume and icon, and from a state whose icon matches its volume it gives back the whole session except that the remembered volume is now that volume |
| Properties.UnmuteRules | spotify-clone/modules/player.js:216-218 | unmuting restores the remembered volume, or 1 when it is 0, and the icon is no longer muted |
| Properties.VolumeIconRules | spotify-clone/modules/player.js:201-209 | the icon is "mute" exactly at volume 0 and "up" exactly from one half |
| Properties.ProgressClickRules | spotify-clone/modules/player.js:242-250 | a click is ignored while the length is unknown or during a drag. Otherwise it sets only the position and the bar: the percentage is clamped to [0, 100], and the position is that share of the length, never beyond it |
| Properties.DragRules | spotify-clone/modules/player.js:253-285 | pressing starts a drag. Moves never change the audio, and `timeupdate` and clicks are ignored during a drag. The release ends the drag, commits the clamped position and resumes a paused element. A release before the length is known changes nothing, so the drag flag stays set |
| Properties.DragScenario | spotify-clone/modules/player.js:253-285 | press, move to a spot and release there: the moves leave the audio as it was, the release seeks to that spot |
| Properties.TimeUpdateRules | spotify-clone/modules/player.js:324-330 | `timeupdate` is ignored while the length is unknown or during a drag; otherwise the bar shows the played share and the label the whole seconds elapsed, and the audio is untouched |
| Properties.ResetRules | spotify-clone/modules/player.js:289-309 | reset clears track, queue, index, modes, round, bar and labels and unloads the element; volume, remembered volume, icon, lock and drag flag are kept; a second reset changes nothing |
| Properties.ResetKeepsInv | spotify-clone/modules/player.js:289-309 | reset keeps the invariant |
| Properties.StepKeepsInv | spotify-clone/modules/player.js:102-369 | every handler keeps the invariant |
| Properties.RunKeepsInv | spotify-clone/modules/player.js:102-369 | any admissible sequence of events keeps the invariant |
| Properties.ReachableInv | spotify-clone/modules/player.js:21-30 | from the initial state the index is -1, inside the queue or 0, the played set has at most one id more than the queue has tracks, and the remembered volume is positive |
| Properties.PlayedBound | spotify-clone/modules/player.js:343-350 | with at most one played id outside the queue the played set is at most one larger than the queue |
| Properties.PlayedCanOutgrowQueue | spotify-clone/modules/player.js:342-352 | selecting a track outside a two-track queue, shuffling and letting two tracks end leaves three played ids |
| Properties.WrapScenario | spotify-clone/modules/player.js:158-162 | selecting A in [A, B, C] and pressing "next" goes to B, then C, then back to A, whatever the tracks' audio: `playTrackAtIndex` moves the index before `updatePlayerUI` looks at the lock |
| Playback.Initial | spotify-clone/modules/player.js:21-30 | the closure variables `initPlayer` starts with; InitialInv states they satisfy the invariant |
| Playback.UpdatePlayerUI | spotify-clone/modules/player.js:59-86 | `updatePlayerUI` up to its await; rules stated by LoadingGuard, LoadReleases and PauseDuringLoad |
| Playback.PlaySettled | spotify-clone/modules/player.js:79-93 | the rest of `updatePlayerUI` once `play()` settles; rules stated by LoadReleases and PauseDuringLoad |
| Playback.PlayTrackAtIndex | spotify-clone/modules/player.js:113-119 | `playTrackAtIndex`; rules stated by PlayTrackAtIndexRules |
| Playback.OnTrackSelected | spotify-clone/modules/player.js:312-319 | the `track:selected` handler; rules stated by SelectRules and SecondSelectionDuringLoad |
| Playback.TogglePlayPause | spotify-clone/modules/player.js:102-111 | `togglePlayPause`; rules stated by TogglePlayPauseRules |
| Playback.ShuffleAdvance | spotify-clone/modules/player.js:148-157 | the shuffle draw of "next" and `ended`; rules stated by ShuffleAdvanceRules and ShuffleCanDrawAny |
| Playback.OnPrevious | spotify-clone/modules/player.js:122-144 | the "previous" handler; rules stated by PreviousRules |
| Playback.OnNext | spotify-clone/modules/player.js:147-163 | the "next" handler; rules stated by NextWithoutShuffle, NextPressesAdvance and ShuffleAdvanceRules |
| Playback.OnEnded | spotify-clone/modules/player.js:333-369 | the `ended` handler; rules stated by EndedRules, EndedDraws and OneTrackShuffleEndThrows |
| Playback.ToggleShuffle | spotify-clone/modules/player.js:166-173 | the shuffle button; rules stated by ShuffleToggleRules |
| Playback.CycleRepeat | spotify-clone/modules/player.js:176-198 | the repeat button; rules stated by RepeatCycle and RepeatPressesModThree |
| Playback.ToggleMute | spotify-clone/modules/player.js:211-220 | the volume button; rules stated by MuteRoundTrip and UnmuteRules |
| Playback.VolumeIconFor | spotify-clone/modules/player.js:201-209 | `updateVolumeIcon`; rules stated by VolumeIconRules |
| Playback.OnProgressClick | spotify-clone/modules/player.js:242-250 | a click on the bar; rules stated by ProgressClickRules |
| Playback.OnHandleDown | spotify-clone/modules/player.js:253-257 | pressing the handle; rules stated by DragRules |
| Playback.OnDragMove | spotify-clone/modules/player.js:259-266 | moving during a drag; rules stated by DragRules and DragScenario |
| Playback.OnDragEnd | spotify-clone/modules/player.js:268-285 | releasing a drag; rules stated by DragRules and DragScenario |
| Playback.OnTimeUpdate | spotify-clone/modules/player.js:324-330 | the `timeupdate` handler; rules stated by TimeUpdateRules |
| Playback.OnReset | spotify-clone/modules/player.js:289-309 | the `reset:player` handler; rules stated by ResetRules |
| Player.AudioElement.constructor | spotify-clone/modules/player.js:21 | `new Audio()`: no source, position and length 0, paused, full volume |
| Player.AudioElement.StartPlay | spotify-clone/modules/player.js:80 | calling `play()` leaves the paused state at once |
| Player.AudioElement.Settle | spotify-clone/modules/player.js:80-93 | the pending `play()` settles; a rejection leaves the element paused |
| Player.AudioElement.Play | spotify-clone/modules/player.js:104 | `play()` on a paused element that settles at once: playing when it resolves, unchanged when it rejects |
| Player.AudioElement.Pause | spotify-clone/modules/player.js:108 | `pause()` sets the paused flag and nothing else |
| Player.AudioElement.Load | spotify-clone/modules/player.js:75 | `load()`: position 0, length unknown, paused; source and volume kept |
| Player.Controller.constructor | spotify-clone/modules/player.js:21-30 | the fields start as the initial state and satisfy the invariant |
| Player.Controller.UpdateVolumeIcon | spotify-clone/modules/player.js:201-209 | sets the icon for the element's volume and nothing else |
| Player.Controller.UpdatePlayerUI | spotify-clone/modules/player.js:59-86 | reaches the state of `Playback.UpdatePlayerUI` |
| Player.Controller.PlaySettled | spotify-clone/modules/player.js:79-93 | reaches the state of `Playback.PlaySettled` and keeps the invariant |
| Player.Controller.PlayTrackAtIndex | spotify-clone/modules/player.js:113-119 | reaches the state of `Playback.PlayTrackAtIndex` |
| Player.Controller.OnTrackSelected | spotify-clone/modules/player.js:312-319 | reaches the state of `Playback.OnTrackSelected` and keeps the invariant |
| Player.Controller.TogglePlayPause | spotify-clone/modules/player.js:102-111 | reaches the state of `Playback.TogglePlayPause`, changing only the element |
| Player.Controller.ShuffleAdvance | spotify-clone/modules/player.js:148-157 | reaches the state of `Playback.ShuffleAdvance` and reports whether it threw |
| Player.Controller.OnPrevious | spotify-clone/modules/player.js:122-144 | reaches the state of `Playback.OnPrevious`, reports whether it threw, keeps the invariant |
| Player.Controller.OnNext | spotify-clone/modules/player.js:147-163 | reaches the state of `Playback.OnNext`, reports whether it threw, keeps the invariant |
| Player.Controller.OnEnded | spotify-clone/modules/player.js:333-369 | reaches the state of `Playback.OnEnded`, reports whether it threw, keeps the invariant |
| Player.Controller.ToggleShuffle | spotify-clone/modules/player.js:166-173 | reaches the state of `Playback.ToggleShuffle` and keeps the invariant |
| Player.Controller.CycleRepeat | spotify-clone/modules/player.js:176-198 | reaches the state of `Playback.CycleRepeat` and keeps the invariant |
| Player.Controller.ToggleMute | spotify-clone/modules/player.js:211-220 | reaches the state of `Playback.ToggleMute` and keeps the invariant |
| Player.Controller.OnProgressClick | spotify-clone/modules/player.js:242-250 | reaches the state of `Playback.OnProgressClick` and keeps the invariant |
| Player.Controller.OnHandleDown | spotify-clone/modules/player.js:253-257 | reaches the state of `Playback.OnHandleDown` and keeps the invariant |
| Player.Controller.OnDragMove | spotify-clone/modules/player.js:259-266 | reaches the state of `Playback.OnDragMove` and keeps the invariant |
| Player.Controller.OnDragEnd | spotify-clone/modules/player.js:268-285 | reaches the state of `Playback.OnDragEnd` and keeps the invariant |
| Player.Controller.OnTimeUpdate | spotify-clone/modules/player.js:324-330 | reaches the state of `Playback.OnTimeUpdate` and keeps the invariant |
| Player.Controller.OnReset | spotify-clone/modules/player.js:289-309 | reaches the state of `Playback.OnReset` and keeps the invariant |

## Left out

- DOM work apart from the volume icon is not modelled:
  - the play/pause icon swaps and the shuffle and repeat button classes;
  - the tooltips (`addTooltips`) and the hover and dragging classes;
  - the image, title and artist texts and the `.playing` highlighting of cards;
  - console logging.
- Pixel geometry: the mouse's position is taken as `ratio`, the offset over the bar's width, instead of
  `clientX` and `getBoundingClientRect`.
- The audio element is five plain fields. Several of its behaviours are not modelled:
  - decoding, fetching and timing;
  - `MediaAdvanced` stands for the element's own progress and the arrival of its metadata;
  - an `ended` event is not required to come with the element at its end.
- The `play()` promise settles at once in `togglePlayPause`, in "previous", in `ended` and on the drag
  release (`OnDragEnd`). Its `.then` only swaps icons.
- A settling `play()` of `updatePlayerUI` applies to the element as it then is. Events queued before it
  settles are modelled by `Run` only in so far as they arrive before `PlayResolved`.
- `audio.src` is compared with the track's URL as a plain string. The browser's URL resolution is not modelled:
  it would make a relative URL differ from `src` every time.
- Track lengths are whole seconds (`nat`). A missing length counts as 0, as `track.duration || 0` does.
  Fractional or negative lengths would give other labels and are not modelled.
- Labels are kept as the number of seconds they show (`elapsedShown`, `totalShown`). The text on screen is
  `Duration.FormatDuration` of that number, and `FormatDurationRoundTrip` proves it denotes the number.
- Positions, percentages and volumes are exact reals; the program computes them in doubles. So
  `currentTime == ratio * duration` in `ProgressClickRules`, `DragRules` and `DragScenario` holds in the
  program only up to the rounding of `(ratio * 100) / 100 * duration`.
- `timeupdate` with an infinite length (a live stream) is not modelled, because lengths are finite reals.
- `initPlayer` sets no icon at start: `updateVolumeIcon` runs only from lines 77 and 219, and the other
  startup code only adds tooltips. The model's initial volume icon `Up`, the one for full volume, is an
  assumption about the page's markup, which is not part of this model.
- `spotify-clone/utils/httpRequest.js` is not part of this model (network calls). Neither are the
  catalog, authentication and library modules nor `spotify-clone/main.js`: they fetch data, render HTML
  and dispatch `track:selected`, which is modelled as an event.
