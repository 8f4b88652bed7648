/** The world resources of src/resources.rs that the gameplay logic reads and writes. */
module Resources {
  import opened Wrappers
  import opened Components

  /** A loaded map: song name, path of its audio file, the notes in file order, and the hit window. */
  datatype BeatMap = BeatMap(name: string, songPath: string, objects: seq<HitObject>, maxHitOffset: real)

  /** The notes still to be played, oldest first; a `VecDeque` in the game. */
  class HitObjectQueue {
    var queue: seq<HitObject>

    /** `HitObjectQueue::new()` */
    constructor ()
      ensures queue == []
    {
      queue := [];
    }

    method PushBack(hit: HitObject)
      modifies this
      ensures queue == old(queue) + [hit]
    {
      queue := queue + [hit];
    }

    method PushFront(hit: HitObject)
      modifies this
      ensures queue == [hit] + old(queue)
    {
      queue := [hit] + queue;
    }

    /** Takes the oldest note off, or reports `None` on an empty queue. */
    method PopFront() returns (head: Option<HitObject>)
      modifies this
      ensures old(queue) == [] ==> head == None && queue == []
      ensures old(queue) != [] ==> head == Some(old(queue)[0]) && queue == old(queue)[1..]
    {
      if queue == [] {
        head := None;
      } else {
        head := Some(queue[0]);
        queue := queue[1..];
      }
    }
  }

  /** The log of judged notes: the timing offset of a good hit, or `None` for anything else. */
  class HitOffsets {
    var offsets: seq<Option<real>>

    constructor ()
      ensures offsets == []
    {
      offsets := [];
    }

    method Push(entry: Option<real>)
      modifies this
      ensures offsets == old(offsets) + [entry]
    {
      offsets := offsets + [entry];
    }
  }

  /** The player's audio offset in seconds, added to the clock. */
  class UserSettings {
    var offset: real

    constructor ()
      ensures offset == 0.0
    {
      offset := 0.0;
    }
  }
}
