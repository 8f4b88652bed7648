/**
 * `GameSystem::run` of src/systems.rs, once per frame: the clock, the
 * player's offset keys, the dropping of notes whose window has passed, and
 * the judgement of the oldest note when a drum key is pressed.
 */
module Systems {
  import opened Wrappers
  import opened Components
  import opened Resources
  import opened Utils

  // ---------------------------------------------------------------------
  // Input
  // ---------------------------------------------------------------------

  /** The keys the game reacts to; every other key is `OtherKey`. */
  datatype Key = Z | X | N | M | Equals | Subtract | OtherKey

  datatype InputEvent = KeyPressed(key: Key) | KeyReleased(key: Key) | OtherEvent

  /** The six flags `run` derives from the frame's events. */
  datatype KeyFlags = KeyFlags(r1: bool, r2: bool, b1: bool, b2: bool, offsetUp: bool, offsetDown: bool)

  /** Some event of the frame presses `key`. */
  predicate Pressed(events: seq<InputEvent>, key: Key) {
    KeyPressed(key) in events
  }

  /** The flags for a frame: each is set when its key was pressed during the frame. */
  function KeysOf(events: seq<InputEvent>): KeyFlags {
    KeyFlags(Pressed(events, Z), Pressed(events, X), Pressed(events, N), Pressed(events, M),
             Pressed(events, Equals), Pressed(events, Subtract))
  }

  predicate DrumPressed(keys: KeyFlags) {
    keys.r1 || keys.r2 || keys.b1 || keys.b2
  }

  /** Reading one event more: a key is pressed in the longer prefix iff it was before or that event presses it. */
  lemma PressedPrefix(events: seq<InputEvent>, i: nat, key: Key)
    requires i < |events|
    ensures Pressed(events[..i + 1], key) <==> Pressed(events[..i], key) || events[i] == KeyPressed(key)
  {
    assert events[..i + 1] == events[..i] + [events[i]];
  }

  /** The loop over the frame's input events; releases and other events are ignored. */
  method ReadKeys(events: seq<InputEvent>) returns (keys: KeyFlags)
    ensures keys == KeysOf(events)
  {
    var r1, r2, b1, b2, offsetUp, offsetDown := false, false, false, false, false, false;
    for i := 0 to |events|
      invariant r1 == Pressed(events[..i], Z) && r2 == Pressed(events[..i], X)
      invariant b1 == Pressed(events[..i], N) && b2 == Pressed(events[..i], M)
      invariant offsetUp == Pressed(events[..i], Equals) && offsetDown == Pressed(events[..i], Subtract)
    {
      PressedPrefix(events, i, Z);
      PressedPrefix(events, i, X);
      PressedPrefix(events, i, N);
      PressedPrefix(events, i, M);
      PressedPrefix(events, i, Equals);
      PressedPrefix(events, i, Subtract);
      match events[i] {
        case KeyPressed(key) =>
          match key {
            case Z => r1 := true;
            case X => r2 := true;
            case N => b1 := true;
            case M => b2 := true;
            case Equals => offsetUp := true;
            case Subtract => offsetDown := true;
            case OtherKey =>
          }
        case KeyReleased(_) =>
        case OtherEvent =>
      }
    }
    assert events[..|events|] == events;
    keys := KeyFlags(r1, r2, b1, b2, offsetUp, offsetDown);
  }

  /** How far one press of `=` or `-` moves the player's offset, in seconds. */
  const OffsetStep: real := 0.005

  /** The player's offset after the frame: `=` raises it, otherwise `-` lowers it. */
  function AdjustedOffset(offset: real, up: bool, down: bool): (r: real)
    ensures up ==> r == offset + OffsetStep
    ensures !up && down ==> r == offset - OffsetStep
    ensures r == offset <==> !up && !down
  {
    if up then offset + OffsetStep else if down then offset - OffsetStep else offset
  }

  // ---------------------------------------------------------------------
  // The note queue
  // ---------------------------------------------------------------------

  /** A note whose hit window closed before `time`. */
  predicate Expired(hit: HitObject, maxHitOffset: real, time: real) {
    hit.time + maxHitOffset < time
  }

  /** The number of leading notes of `queue` that have expired at `time`. */
  function ExpiredRun(queue: seq<HitObject>, maxHitOffset: real, time: real): (k: nat)
    ensures k <= |queue|
    ensures forall i :: 0 <= i < k ==> Expired(queue[i], maxHitOffset, time)
    ensures k < |queue| ==> !Expired(queue[k], maxHitOffset, time)
  {
    if queue == [] || !Expired(queue[0], maxHitOffset, time) then 0
    else 1 + ExpiredRun(queue[1..], maxHitOffset, time)
  }

  /** `n` log entries for notes that were not hit. */
  function Misses(n: nat): (log: seq<Option<real>>)
    ensures |log| == n && forall i :: 0 <= i < n ==> log[i] == None
  {
    seq(n, _ => None)
  }

  /** The scheduled times of some notes, in order. */
  function Times(hits: seq<HitObject>): (times: seq<real>)
    ensures |times| == |hits| && forall i :: 0 <= i < |hits| ==> times[i] == hits[i].time
  {
    seq(|hits|, i requires 0 <= i < |hits| => hits[i].time)
  }

  /** What one frame does to the note queue: the notes left, the log entries added, the times of the notes removed. */
  datatype Tick = Tick(queue: seq<HitObject>, entries: seq<Option<real>>, dropped: seq<real>)

  /** The drain at time `curTime`: the leading notes whose window has passed leave the queue as misses. */
  function Drain(beatmap: BeatMap, queue: seq<HitObject>, curTime: real): Tick {
    var k := ExpiredRun(queue, beatmap.maxHitOffset, curTime);
    Tick(queue[k..], Misses(k), Times(queue[..k]))
  }

  /** A key press of colour `red` and size `dual` judges the oldest note, which leaves only if the press fell in its window. */
  function JudgeOldestNote(beatmap: BeatMap, queue: seq<HitObject>, curTime: real, red: bool, dual: bool): (t: Tick) {
    if queue == [] then Tick(queue, [], [])
    else match CheckHit(beatmap, queue[0], curTime, red, dual)
      case (None, _) => Tick(queue, [], [])
      case (Some(offset), clicked) => Tick(queue[1..], [if clicked then Some(offset) else None], [queue[0].time])
  }

  /** A frame's key press: without a drum key nothing happens, otherwise the oldest note is judged. */
  function KeyPress(beatmap: BeatMap, queue: seq<HitObject>, curTime: real, keys: KeyFlags): (t: Tick) {
    if !DrumPressed(keys) then Tick(queue, [], [])
    else
      var (red, dual) := KeyPressType(keys.r1, keys.r2, keys.b1, keys.b2);
      JudgeOldestNote(beatmap, queue, curTime, red, dual)
  }

  /**
   * The queue work of one frame at time `curTime`: the drain, then, if a
   * drum key was pressed, the judgement of the oldest note left.
   */
  function Advance(beatmap: BeatMap, queue: seq<HitObject>, curTime: real, keys: KeyFlags): (t: Tick)
    // the notes that leave are a prefix: the rest keep their order
    ensures |t.queue| <= |queue| && t.queue == queue[|queue| - |t.queue|..]
    // one log entry, and one dropped time, per note that leaves
    ensures |t.entries| == |queue| - |t.queue|
    ensures t.dropped == Times(queue[..|t.entries|])
  {
    var drained := Drain(beatmap, queue, curTime);
    var judged := KeyPress(beatmap, drained.queue, curTime, keys);
    var k := |drained.entries|;
      assert judged.dropped != [] ==> Times(queue[..k + 1]) == Times(queue[..k]) + judged.dropped by {
        if judged.dropped != [] {
          assert queue[..k + 1] == queue[..k] + [queue[k]];
        }
      }
      Tick(judged.queue, drained.entries + judged.entries, drained.dropped + judged.dropped)
  }

  /** The expired notes leave as misses, and at most one note more leaves; without a drum key, none does. */
  lemma AdvanceDrainsExpired(beatmap: BeatMap, queue: seq<HitObject>, curTime: real, keys: KeyFlags)
    ensures var t := Advance(beatmap, queue, curTime, keys);
      var k := ExpiredRun(queue, beatmap.maxHitOffset, curTime);
      && (|t.entries| == k || |t.entries| == k + 1)
      && t.entries[..k] == Misses(k)
      && (!DrumPressed(keys) ==> |t.entries| == k)
  {
  }

  /**
   * A judged note was in its window, and its entry is the offset of a
   * right hit, `None` for a wrong one; a press that judges nothing came
   * before the window of the oldest note opened; and when nothing is
   * judged, the oldest note left has not expired.
   */
  lemma AdvanceJudgesOldest(beatmap: BeatMap, queue: seq<HitObject>, curTime: real, keys: KeyFlags)
    ensures var t := Advance(beatmap, queue, curTime, keys);
      var k := ExpiredRun(queue, beatmap.maxHitOffset, curTime);
      var (red, dual) := KeyPressType(keys.r1, keys.r2, keys.b1, keys.b2);
      |t.entries| == k + 1 ==>
        && DrumPressed(keys)
        && ValueNear(curTime, queue[k].time, beatmap.maxHitOffset)
        && t.entries[k] == (if queue[k].red == red && queue[k].big == dual
                            then Some(curTime - queue[k].time) else None)
    ensures var t := Advance(beatmap, queue, curTime, keys);
      var k := ExpiredRun(queue, beatmap.maxHitOffset, curTime);
      DrumPressed(keys) && k < |queue| && |t.entries| == k ==>
        curTime < queue[k].time - beatmap.maxHitOffset
    ensures var t := Advance(beatmap, queue, curTime, keys);
      |t.entries| == ExpiredRun(queue, beatmap.maxHitOffset, curTime) && t.queue != [] ==>
        !Expired(t.queue[0], beatmap.maxHitOffset, curTime)
  {
  }

  /**
   * Playing a map keeps the log aligned with the map: the queue is the
   * notes of `objects` that have no log entry yet, so log entry `i` is the
   * outcome of note `i`.
   */
  predicate Aligned(objects: seq<HitObject>, queue: seq<HitObject>, offsets: seq<Option<real>>) {
    |offsets| <= |objects| && queue == objects[|offsets|..]
  }

  /** Removing some oldest notes while logging one entry for each keeps the alignment. */
  lemma DropKeepsAligned(objects: seq<HitObject>, queue: seq<HitObject>, offsets: seq<Option<real>>,
                         rest: seq<HitObject>, entries: seq<Option<real>>)
    requires Aligned(objects, queue, offsets)
    requires |rest| <= |queue| && rest == queue[|queue| - |rest|..]
    requires |entries| == |queue| - |rest|
    ensures Aligned(objects, rest, offsets + entries)
  {
    var n := |offsets| + |entries|;
    assert rest == objects[|offsets|..][|entries|..];
    assert objects[|offsets|..][|entries|..] == objects[n..];
  }

  /** A frame keeps the queue and the log aligned with the map's notes. */
  lemma AdvanceKeepsAligned(beatmap: BeatMap, objects: seq<HitObject>, queue: seq<HitObject>,
                            offsets: seq<Option<real>>, curTime: real, keys: KeyFlags)
    requires Aligned(objects, queue, offsets)
    ensures var t := Advance(beatmap, queue, curTime, keys);
      Aligned(objects, t.queue, offsets + t.entries)
  {
    var t := Advance(beatmap, queue, curTime, keys);
    DropKeepsAligned(objects, queue, offsets, t.queue, t.entries);
  }

  // ---------------------------------------------------------------------
  // The system
  // ---------------------------------------------------------------------

  /** The frame's time: seconds since the first frame, shifted by the player's offset. */
  function FrameTime(now: real, startTime: real, offset: real): (t: real)
    ensures t - offset == now - startTime
  {
    now - startTime + offset
  }

  class GameSystem {
    /** Clock reading at the first frame, in seconds; 0 until then. */
    var startTime: real

    /** The system as the game state creates it. */
    constructor ()
      ensures startTime == 0.0
    {
      startTime := 0.0;
    }

    /**
     * One frame. `now` is the engine clock's absolute time and `events`
     * the input events of the frame. The frame's time is measured from the
     * first frame and shifted by the player's offset as it was before this
     * frame's offset keys.
     */
    method Run(now: real, events: seq<InputEvent>, beatmap: BeatMap,
               hitqueue: HitObjectQueue, hitoffsets: HitOffsets, settings: UserSettings)
      returns (dropped: seq<real>)
      modifies this, hitqueue, hitoffsets, settings
      ensures startTime == if old(startTime) <= 0.0 then now else old(startTime)
      ensures settings.offset == AdjustedOffset(old(settings.offset), Pressed(events, Equals), Pressed(events, Subtract))
      ensures var t := Advance(beatmap, old(hitqueue.queue), FrameTime(now, startTime, old(settings.offset)), KeysOf(events));
        && hitqueue.queue == t.queue
        && hitoffsets.offsets == old(hitoffsets.offsets) + t.entries
        && dropped == t.dropped
    {
      StartClock(now);
      var curTime := FrameTime(now, startTime, settings.offset);
      var keys := ReadKeys(events);
      AdjustOffset(settings, keys);
      assert hitqueue.queue == old(hitqueue.queue) && hitoffsets.offsets == old(hitoffsets.offsets);
      dropped := AdvanceQueue(beatmap, curTime, keys, hitqueue, hitoffsets);
    }

    /** The queue work of a frame: the drain loop, then the judgement of a key press. */
    static method AdvanceQueue(beatmap: BeatMap, curTime: real, keys: KeyFlags,
                               hitqueue: HitObjectQueue, hitoffsets: HitOffsets)
      returns (dropped: seq<real>)
      modifies hitqueue, hitoffsets
      ensures var t := Advance(beatmap, old(hitqueue.queue), curTime, keys);
        && hitqueue.queue == t.queue
        && hitoffsets.offsets == old(hitoffsets.offsets) + t.entries
        && dropped == t.dropped
    {
      ghost var drained := Drain(beatmap, hitqueue.queue, curTime);
      dropped := DropExpired(beatmap, curTime, hitqueue, hitoffsets);
      ghost var pressed := KeyPress(beatmap, drained.queue, curTime, keys);
      var judged := JudgeKeyPress(beatmap, curTime, keys, hitqueue, hitoffsets);
      dropped := dropped + judged;
      assert hitoffsets.offsets == old(hitoffsets.offsets) + (drained.entries + pressed.entries);
    }

    /** The clock starts at the first frame: `startTime` is set while it is not positive. */
    method StartClock(now: real)
      modifies this
      ensures startTime == if old(startTime) <= 0.0 then now else old(startTime)
    {
      if startTime <= 0.0 {
        startTime := now;
      }
    }

    /** `=` raises the player's offset by one step, otherwise `-` lowers it. */
    static method AdjustOffset(settings: UserSettings, keys: KeyFlags)
      modifies settings
      ensures settings.offset == AdjustedOffset(old(settings.offset), keys.offsetUp, keys.offsetDown)
    {
      if keys.offsetUp {
        settings.offset := settings.offset + OffsetStep;
      } else if keys.offsetDown {
        settings.offset := settings.offset - OffsetStep;
      }
    }

    /** The judgement of a frame's drum keys, if any, against the oldest note. */
    static method JudgeKeyPress(beatmap: BeatMap, curTime: real, keys: KeyFlags,
                                hitqueue: HitObjectQueue, hitoffsets: HitOffsets)
      returns (dropped: seq<real>)
      modifies hitqueue, hitoffsets
      ensures var t := KeyPress(beatmap, old(hitqueue.queue), curTime, keys);
        && hitqueue.queue == t.queue
        && hitoffsets.offsets == old(hitoffsets.offsets) + t.entries
        && dropped == t.dropped
    {
      dropped := [];
      if keys.r1 || keys.r2 || keys.b1 || keys.b2 {
        var (red, dual) := KeyPressType(keys.r1, keys.r2, keys.b1, keys.b2);
        dropped := JudgeOldest(beatmap, curTime, red, dual, hitqueue, hitoffsets);
      }
    }

    /** The `while let` loop of `run`: pops expired notes, logging a miss for each, and puts the first live one back. */
    static method DropExpired(beatmap: BeatMap, curTime: real, hitqueue: HitObjectQueue, hitoffsets: HitOffsets)
      returns (dropped: seq<real>)
      modifies hitqueue, hitoffsets
      ensures var t := Drain(beatmap, old(hitqueue.queue), curTime);
        && hitqueue.queue == t.queue
        && hitoffsets.offsets == old(hitoffsets.offsets) + t.entries
        && dropped == t.dropped
    {
      dropped := [];
      ghost var queue0 := hitqueue.queue;
      ghost var log0 := hitoffsets.offsets;
      ghost var n := 0;
      while true
        invariant n <= |queue0| && hitqueue.queue == queue0[n..]
        invariant forall i :: 0 <= i < n ==> Expired(queue0[i], beatmap.maxHitOffset, curTime)
        invariant hitoffsets.offsets == log0 + Misses(n)
        invariant dropped == Times(queue0[..n])
        decreases |hitqueue.queue|
      {
        var head := hitqueue.PopFront();
        if head.None? {
          break;
        }
        var hit := head.value;
        if hit.time + beatmap.maxHitOffset < curTime {
          hitoffsets.Push(None);
          dropped := dropped + [hit.time];
          assert queue0[..n + 1] == queue0[..n] + [hit];
          n := n + 1;
        } else {
          hitqueue.PushFront(hit);
          break;
        }
      }
      assert n == ExpiredRun(queue0, beatmap.maxHitOffset, curTime);
    }

    /**
     * The judgement of a key press: the oldest note is taken off and judged;
     * it goes back to the front when the press missed its window, otherwise
     * the log records the offset of a right hit or `None` for a wrong one.
     */
    static method JudgeOldest(beatmap: BeatMap, curTime: real, red: bool, dual: bool,
                              hitqueue: HitObjectQueue, hitoffsets: HitOffsets)
      returns (dropped: seq<real>)
      modifies hitqueue, hitoffsets
      ensures var t := JudgeOldestNote(beatmap, old(hitqueue.queue), curTime, red, dual);
        && hitqueue.queue == t.queue
        && hitoffsets.offsets == old(hitoffsets.offsets) + t.entries
        && dropped == t.dropped
    {
      dropped := [];
      var head := hitqueue.PopFront();
      if head.Some? {
        var (offset, clicked) := CheckHit(beatmap, head.value, curTime, red, dual);
        if offset.Some? {
          if clicked {
            hitoffsets.Push(Some(offset.value));
          } else {
            hitoffsets.Push(None);
          }
          dropped := dropped + [head.value.time];
        } else {
          hitqueue.PushFront(head.value);
        }
      }
    }
  }
}
