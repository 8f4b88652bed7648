/** The ECS component of src/components.rs. */
module Components {

  /**
   * One note of a beatmap: its drum colour (red or blue), the time in
   * seconds at which it should be hit, and whether it is a big note.
   */
  datatype HitObject = HitObject(red: bool, time: real, big: bool)
}
