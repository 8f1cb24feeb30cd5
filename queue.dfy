/**
 * The queue-side helpers of the player: track descriptors, the id filters
 * behind `currentQueue.filter(...)`, `findIndex` by id, the linear
 * successor/predecessor with wrap-around, and the `Math.random()` pick.
 */
module Queue {
  import opened Wrappers

  type TrackId = string

  /**
   * A track as the controller reads it: `id`, `audio_url` ("" when absent)
   * and `duration` in whole seconds (0 when absent, as `track.duration || 0`).
   */
  datatype Track = Track(id: TrackId, audioUrl: string, duration: nat)

  /** The ids present in a queue. */
  function Ids(queue: seq<Track>): set<TrackId> {
    set t | t in queue :: t.id
  }

  /** A queue never holds more distinct ids than tracks. */
  lemma {:induction false} IdsBound(queue: seq<Track>)
    ensures |Ids(queue)| <= |queue|
  {
    if queue != [] {
      IdsBound(queue[1..]);
      assert Ids(queue) == Ids(queue[1..]) + {queue[0].id} by {
        forall id | id in Ids(queue) ensures id in Ids(queue[1..]) + {queue[0].id} {
          var t :| t in queue && t.id == id;
          if t != queue[0] {
            var k :| 0 <= k < |queue| && queue[k] == t;
            assert queue[1..][k - 1] == t;
          }
        }
      }
    }
  }

  /** `queue.findIndex(t => t.id === id)`: the first position holding `id`, or -1. */
  function FindById(queue: seq<Track>, id: TrackId): (r: int)
    ensures -1 <= r < |queue|
    ensures r == -1 <==> id !in Ids(queue)
    ensures 0 <= r ==> queue[r].id == id && forall j :: 0 <= j < r ==> queue[j].id != id
  {
    if queue == [] then
      -1
    else if queue[0].id == id then
      0
    else
      var r := FindById(queue[1..], id);
      assert Ids(queue) == Ids(queue[1..]) + {queue[0].id} by {
        assert forall t :: t in queue ==> t == queue[0] || t in queue[1..];
      }
      if r == -1 then -1 else r + 1
  }

  /** The ids a filter leaves out for `t.id !== currentTrack?.id`: none while there is no current track. */
  function CurrentIds(current: Option<Track>): set<TrackId> {
    if current.Some? then {current.value.id} else {}
  }

  /**
   * `queue.filter(t => !excluded.has(t.id))`, in queue order. With the played
   * set this is the shuffle's "unplayed" list; with `CurrentIds` it is the
   * list of tracks other than the current one.
   */
  function Without(queue: seq<Track>, excluded: set<TrackId>): (r: seq<Track>)
    ensures forall t :: t in r <==> t in queue && t.id !in excluded
    ensures |r| <= |queue|
  {
    if queue == [] then
      []
    else if queue[0].id in excluded then
      Without(queue[1..], excluded)
    else
      [queue[0]] + Without(queue[1..], excluded)
  }

  /** The index "next" moves to without shuffle: one on, and 0 past the last track. */
  function NextIndex(index: int, length: nat): (r: int)
    ensures 0 <= index < length ==> r == (index + 1) % length
    ensures length > 0 && -1 <= index < length ==> 0 <= r < length
  {
    if index + 1 >= length then 0 else index + 1
  }

  /** The index "previous" moves to without shuffle: one back, and the last track before 0. */
  function PrevIndex(index: int, length: nat): (r: int)
    ensures 0 <= index < length ==> r == (index - 1) % length
    ensures index <= 0 ==> r == length - 1
  {
    if index - 1 < 0 then length - 1 else index - 1
  }

  lemma PrevUndoesNext(index: int, length: nat)
    requires 0 <= index < length
    ensures PrevIndex(NextIndex(index, length), length) == index
  {
  }

  lemma NextUndoesPrev(index: int, length: nat)
    requires 0 <= index < length
    ensures NextIndex(PrevIndex(index, length), length) == index
  {
  }

  /** `Math.floor(random * length)`, the position the player draws with `random` from [0, 1). */
  function Pick(random: real, length: nat): (k: int)
    requires 0.0 <= random < 1.0
    ensures length > 0 ==> 0 <= k < length
  {
    PickBounds(random, length);
    (random * length as real).Floor
  }

  lemma PickBounds(random: real, length: nat)
    requires 0.0 <= random < 1.0
    ensures 0.0 <= random * length as real
    ensures length > 0 ==> random * length as real < length as real
  {
  }

  /** Every position of a non-empty list can be drawn: the pick is a free choice among them. */
  lemma PickReachesEvery(length: nat, k: nat)
    requires k < length
    ensures var random := k as real / length as real;
            0.0 <= random < 1.0 && Pick(random, length) == k
  {
    var random := k as real / length as real;
    assert random * length as real == k as real;
  }

  /**
   * The list the shuffle draws the next track from, and the played set it
   * draws against: the round's unplayed tracks, or, once every track of the
   * queue has been played, every track but the current one with the round
   * started afresh.
   */
  datatype Round = Round(pool: seq<Track>, played: set<TrackId>)

  function ShuffleRound(queue: seq<Track>, played: set<TrackId>, current: Option<Track>): (r: Round)
    ensures (exists t :: t in queue && t.id !in played) ==>
              r.played == played && forall t :: t in r.pool <==> t in queue && t.id !in played
    ensures (forall t :: t in queue ==> t.id in played) ==>
              r.played == {} && forall t :: t in r.pool <==> t in queue && t.id !in CurrentIds(current)
  {
    var unplayed := Without(queue, played);
    if |unplayed| == 0 then
      Round(Without(queue, CurrentIds(current)), {})
    else
      assert unplayed[0] in unplayed;
      Round(unplayed, played)
  }

  /**
   * The shuffle has nothing to draw exactly when every track of the queue
   * has been played and carries the current track's id (an empty queue, or
   * a queue of the current track alone).
   */
  lemma ShuffleRoundEmptyIff(queue: seq<Track>, played: set<TrackId>, current: Option<Track>)
    ensures ShuffleRound(queue, played, current).pool == [] <==>
              forall t :: t in queue ==> t.id in played && t.id in CurrentIds(current)
  {
    var r := ShuffleRound(queue, played, current);
    if r.pool != [] {
      assert r.pool[0] in r.pool;
    }
  }
}
