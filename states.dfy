/**
 * The start of play in src/states.rs: the note queue is filled from the
 * loaded map, oldest note first, before the first frame runs.
 */
module States {
  import opened Components
  import opened Resources
  import opened Systems

  /** A new queue holding the map's notes in file order, pushed to the back one by one. */
  method FillQueue(beatmap: BeatMap) returns (hitqueue: HitObjectQueue)
    ensures fresh(hitqueue)
    ensures hitqueue.queue == beatmap.objects
    // with the empty log the game starts with, the queue is aligned with the map
    ensures Aligned(beatmap.objects, hitqueue.queue, [])
  {
    hitqueue := new HitObjectQueue();
    for i := 0 to |beatmap.objects|
      invariant hitqueue.queue == beatmap.objects[..i]
    {
      hitqueue.PushBack(beatmap.objects[i]);
      assert beatmap.objects[..i + 1] == beatmap.objects[..i] + [beatmap.objects[i]];
    }
    assert beatmap.objects[..|beatmap.objects|] == beatmap.objects;
  }
}
