/**
 * The game logic of src/utils.rs: which drum a key combination plays, the
 * hit judgement of one input against one note, and the reader of `.osu`
 * beatmap text.
 */
module Utils {
  import opened Wrappers
  import opened RustStr
  import opened Components
  import opened Resources

  // ---------------------------------------------------------------------
  // Input and judgement
  // ---------------------------------------------------------------------

  /**
   * `get_key_press_type(z, x, two, three)`: Z and X are the red (centre)
   * keys, N and M (`two`, `three`) the blue (rim) keys. The result is
   * (red, dual): any red key makes the hit red, even with blue keys down,
   * and a hit is dual when both keys of one colour are down.
   */
  function KeyPressType(z: bool, x: bool, two: bool, three: bool): (bool, bool) {
    var dual := (z && x) || (two && three);
    var red := z || x;
    (red, dual)
  }

  /** How many of the four drum keys are down. */
  function KeysDown(z: bool, x: bool, two: bool, three: bool): nat {
    (if z then 1 else 0) + (if x then 1 else 0) + (if two then 1 else 0) + (if three then 1 else 0)
  }

  /**
   * What a chord of drum keys plays: a chord with a red key is red whatever
   * blue keys are down, and only blue keys make a blue hit; a single key is
   * never dual, nor is one red key with one blue key; both keys of a colour
   * are dual, even with keys of the other colour down.
   */
  lemma KeyPressChords(z: bool, x: bool, two: bool, three: bool)
    ensures var (red, dual) := KeyPressType(z, x, two, three);
      && (z || x ==> red)
      && (!z && !x ==> !red)
      && (KeysDown(z, x, two, three) == 1 ==> !dual)
      && (KeysDown(z, x, two, three) == 2 && (z || x) && (two || three) ==> !dual)
      && ((z && x) || (two && three) ==> dual)
    // Z with N and M is a big red hit; Z with N a small red one; N with M a big blue one
    ensures KeyPressType(true, false, true, true) == (true, true)
    ensures KeyPressType(true, false, true, false) == (true, false)
    ensures KeyPressType(false, false, true, true) == (false, true)
  {
  }

  function Abs(v: real): real { if v < 0.0 then -v else v }

  /**
   * `value_near(number, target, margin)` from the `amethyst_extra` crate,
   * whose code is not part of this model: it is taken to hold when
   * `number` is within `margin` of `target`, bounds included.
   */
  predicate ValueNear(number: real, target: real, margin: real)
    ensures ValueNear(number, target, margin) <==> target - margin <= number <= target + margin
  {
    Abs(number - target) <= margin
  }

  /**
   * `check_hit`: judges an input at `time`, of colour `redPressed` and
   * size `dual`, against the note `hit`. Outside the hit window there is
   * no offset; inside it the offset is always `time - hit.time`, and the
   * flag says whether colour and size both matched.
   */
  function CheckHit(beatmap: BeatMap, hit: HitObject, time: real, redPressed: bool, dual: bool)
    : (r: (Option<real>, bool))
    ensures r.0 == None <==> !ValueNear(time, hit.time, beatmap.maxHitOffset)
    ensures r.0 != None ==> r.0 == Some(time - hit.time)
    ensures r.1 <==> ValueNear(time, hit.time, beatmap.maxHitOffset) && hit.red == redPressed && hit.big == dual
  {
    if ValueNear(time, hit.time, beatmap.maxHitOffset) then
      if (hit.red && redPressed) || (!hit.red && !redPressed) then
        if (hit.big && dual) || (!hit.big && !dual) then
          (Some(time - hit.time), true)
        else
          (Some(time - hit.time), false)
      else
        (Some(time - hit.time), false)
    else
      (None, false)
  }

  // ---------------------------------------------------------------------
  // Beatmap reading
  // ---------------------------------------------------------------------

  /** The hit window every map read from a file gets, in seconds. */
  const MaxHitOffset: real := 0.05

  /** `osu_to_real_time`: an osu! time in milliseconds, in seconds. */
  function OsuToRealTime(time: i32): (r: real)
    ensures r * 1000.0 == time as real
    ensures r < 0.0 <==> time < 0
  {
    time as real / 1000.0
  }

  /**
   * The hitsound field of a hit-object line, as (red, big):
   * 0 is small red, 4 big red, 8 small blue, 12 big blue, and every other
   * value (sliders, spinners, other sounds) a small blue note.
   */
  function HitsoundKind(objectType: u8): (r: (bool, bool))
    ensures r.0 <==> objectType == 0 || objectType == 4
    ensures r.1 <==> objectType == 4 || objectType == 12
  {
    match objectType
    case 0 => (true, false)
    case 4 => (true, true)
    case 8 => (false, false)
    case 12 => (false, true)
    case _ => (false, false)
  }

  /** The section the reader is in: `""`, `"General"` or `"HitObjects"`. */
  datatype Mode = NoSection | General | HitObjects

  /** The ways `read_beatmap` panics on malformed text. */
  datatype Panic =
    | AudioLineTooShort   // `line[15..]` past the end of an "AudioFilename:" line
    | ModeLineTooShort    // `line[6..]` past the end of a "Mode:" line
    | HitsoundNotU8       // field 4 of a hit-object line is not a `u8`
    | TimeNotI32          // field 2 of a hit-object line is not an `i32`

  /** Why the reader stops early: it returns `None`, or it panics. */
  datatype Stop = Refused | Panicked(panic: Panic)

  /** What reading a beatmap gives: `Some(map)`, or one of the early stops. */
  datatype LoadOutcome = Loaded(beatmap: BeatMap) | Failed(stop: Stop)

  /** The reader's variables between two lines: `mode`, `songpath`, `hitobjects`. */
  datatype ScanState = ScanState(mode: Mode, songPath: string, objects: seq<HitObject>)

  /** The reader after some lines: still going, or returned. */
  datatype Scanned = Running(state: ScanState) | Stopped(stop: Stop)

  const AudioKey: string := "AudioFilename:"
  const ModeKey: string := "Mode:"

  /** The mode a section header selects, `NoSection` for any other line. */
  function HeaderMode(line: string): Mode {
    if line == "[HitObjects]" then HitObjects else if line == "[General]" then General else NoSection
  }

  /** Only the two exact section headers change the mode. */
  function SwitchMode(mode: Mode, line: string): Mode {
    if HeaderMode(line) != NoSection then HeaderMode(line) else mode
  }

  /** A line in the General section: the audio file must be `.ogg` and the game mode taiko (1). */
  function GeneralLine(st: ScanState, line: string): Scanned {
    if StartsWith(line, AudioKey) && |line| < 15 then Stopped(Panicked(AudioLineTooShort))
    else if StartsWith(line, AudioKey) && !EndsWith(line[15..], ".ogg") then Stopped(Refused)
    else
      var st' := if StartsWith(line, AudioKey) then st.(songPath := line[15..]) else st;
      if StartsWith(line, ModeKey) && |line| < 6 then Stopped(Panicked(ModeLineTooShort))
      else if StartsWith(line, ModeKey) && line[6..] != "1" then Stopped(Refused)
      else Running(st')
  }

  /** The note described by the six comma-separated fields of a hit-object line. */
  function DecodeHitObject(fields: seq<string>): (r: Result<HitObject, Panic>)
    requires |fields| == 6
    ensures ParseU8(fields[4]).None? ==> r == Failure(HitsoundNotU8)
    ensures ParseU8(fields[4]).Some? && ParseI32(fields[2]).None? ==> r == Failure(TimeNotI32)
    ensures r.Success? <==> ParseU8(fields[4]).Some? && ParseI32(fields[2]).Some?
    ensures r.Success? ==>
      && r.value.time * 1000.0 == ParseI32(fields[2]).value as real
      && (r.value.red, r.value.big) == HitsoundKind(ParseU8(fields[4]).value)
  {
    match ParseU8(fields[4])
    case None => Failure(HitsoundNotU8)
    case Some(objectType) =>
      var (red, big) := HitsoundKind(objectType);
      match ParseI32(fields[2])
      case None => Failure(TimeNotI32)
      case Some(ms) => Success(HitObject(red, OsuToRealTime(ms), big))
  }

  /** A line in the HitObjects section: a note when it has exactly six fields, otherwise skipped. */
  function HitObjectLine(st: ScanState, line: string): Scanned {
    var fields := Split(line, ',');
    if |fields| != 6 then Running(st)
    else match DecodeHitObject(fields)
      case Failure(p) => Stopped(Panicked(p))
      case Success(hit) => Running(st.(objects := st.objects + [hit]))
  }

  /** One turn of the reader's loop. */
  function StepLine(st: ScanState, line: string): Scanned {
    var st1 := st.(mode := SwitchMode(st.mode, line));
    if st1.mode == General then GeneralLine(st1, line)
    else if st1.mode == HitObjects then HitObjectLine(st1, line)
    else Running(st1)
  }

  /** The reader after the given lines, starting in no section with nothing read. */
  function Scan(lines: seq<string>): Scanned {
    if lines == [] then Running(ScanState(NoSection, "", []))
    else match Scan(lines[..|lines| - 1])
      case Stopped(why) => Stopped(why)
      case Running(st) => StepLine(st, lines[|lines| - 1])
  }

  /** What `read_beatmap` returns for a beatmap file in `folder` whose text is `content`. */
  function ParseBeatmap(folder: string, content: string): LoadOutcome {
    match Scan(Lines(content))
    case Stopped(why) => Failed(why)
    case Running(st) => Loaded(BeatMap(st.songPath, folder + "/" + st.songPath, st.objects, MaxHitOffset))
  }

  /** Once the reader has returned, later lines change nothing. */
  lemma {:induction false} ScanStopsForGood(lines: seq<string>, i: nat)
    requires i <= |lines| && Scan(lines[..i]).Stopped?
    ensures Scan(lines) == Scan(lines[..i])
  {
    if i < |lines| {
      var init := lines[..|lines| - 1];
      assert init[..i] == lines[..i];
      ScanStopsForGood(init, i);
    } else {
      assert lines[..i] == lines;
    }
  }

  /** A reader that returns at some line returns that outcome from the whole file. */
  lemma StopsAt(folder: string, content: string, i: nat, why: Stop)
    requires i < |Lines(content)| && Scan(Lines(content)[..i + 1]) == Stopped(why)
    ensures ParseBeatmap(folder, content) == Failed(why)
  {
    ScanStopsForGood(Lines(content), i + 1);
  }

  /**
   * `read_beatmap(folder, difficulty)`, given the text of the file instead
   * of its path: a loop over the lines that tracks the section, checks the
   * General section and collects the notes of the HitObjects section.
   */
  method ReadBeatmap(folder: string, content: string) returns (r: LoadOutcome)
    ensures r == ParseBeatmap(folder, content)
  {
    var lines := Lines(content);
    var hitObjects: seq<HitObject> := [];
    var mode := NoSection;
    var songPath: string := "";
    var i := 0;
    while i < |lines|
      invariant 0 <= i <= |lines|
      invariant Scan(lines[..i]) == Running(ScanState(mode, songPath, hitObjects))
    {
      var line := lines[i];
      assert lines[..i + 1][..i] == lines[..i];
      ghost var next := StepLine(ScanState(mode, songPath, hitObjects), line);
      assert Scan(lines[..i + 1]) == next;
      if line == "[HitObjects]" {
        mode := HitObjects;
      } else if line == "[General]" {
        mode := General;
      }
      ghost var st := ScanState(mode, songPath, hitObjects);
      assert next == if mode == General then GeneralLine(st, line)
                     else if mode == HitObjects then HitObjectLine(st, line)
                     else Running(st);
      if mode == General {
        if StartsWith(line, AudioKey) {
          if |line| < 15 {
            StopsAt(folder, content, i, Panicked(AudioLineTooShort));
            return Failed(Panicked(AudioLineTooShort));
          }
          songPath := line[15..];
          if !EndsWith(songPath, ".ogg") {
            StopsAt(folder, content, i, Refused);
            return Failed(Refused);
          }
        }
        if StartsWith(line, ModeKey) {
          if |line| < 6 {
            StopsAt(folder, content, i, Panicked(ModeLineTooShort));
            return Failed(Panicked(ModeLineTooShort));
          }
          if line[6..] != "1" {
            StopsAt(folder, content, i, Refused);
            return Failed(Refused);
          }
        }
      }
      if mode == HitObjects {
        var split := Split(line, ',');
        if |split| == 6 {
          var objectType := ParseU8(split[4]);
          if objectType.None? {
            StopsAt(folder, content, i, Panicked(HitsoundNotU8));
            return Failed(Panicked(HitsoundNotU8));
          }
          var (red, big) := HitsoundKind(objectType.value);
          var time := ParseI32(split[2]);
          if time.None? {
            StopsAt(folder, content, i, Panicked(TimeNotI32));
            return Failed(Panicked(TimeNotI32));
          }
          hitObjects := hitObjects + [HitObject(red, OsuToRealTime(time.value), big)];
        }
      }
      i := i + 1;
    }
    assert lines[..i] == lines;
    r := Loaded(BeatMap(songPath, folder + "/" + songPath, hitObjects, MaxHitOffset));
  }
}
