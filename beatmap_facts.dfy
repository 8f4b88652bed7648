/**
 * What `read_beatmap` guarantees, stated over whole files rather than one
 * line at a time: which section each line is read in, which lines become
 * notes and in what order, and exactly when a map is refused.
 */
module BeatmapFacts {
  import opened Wrappers
  import opened RustStr
  import opened Components
  import opened Resources
  import opened Utils

  /** The mode in force while the last of `lines` is read (its own header included). */
  function ModeAfter(lines: seq<string>): Mode {
    if lines == [] then NoSection else SwitchMode(ModeAfter(lines[..|lines| - 1]), lines[|lines| - 1])
  }

  /** Before any section header the mode is `NoSection`: no other line changes it. */
  lemma {:induction false} NoHeaderNoSection(lines: seq<string>)
    requires forall i :: 0 <= i < |lines| ==> HeaderMode(lines[i]) == NoSection
    ensures ModeAfter(lines) == NoSection
  {
    if lines != [] {
      var init := lines[..|lines| - 1];
      assert forall i :: 0 <= i < |init| ==> init[i] == lines[i];
      NoHeaderNoSection(init);
    }
  }

  /** The mode is that of the last section header among the lines read. */
  lemma {:induction false} LastHeaderDecides(lines: seq<string>, i: nat)
    requires i < |lines| && HeaderMode(lines[i]) != NoSection
    requires forall j :: i < j < |lines| ==> HeaderMode(lines[j]) == NoSection
    ensures ModeAfter(lines) == HeaderMode(lines[i])
  {
    if i < |lines| - 1 {
      var init := lines[..|lines| - 1];
      assert forall j :: 0 <= j < |init| ==> init[j] == lines[j];
      LastHeaderDecides(init, i);
    }
  }

  /** Any mode other than `NoSection` was selected by some header among the lines read. */
  lemma {:induction false} ModeComesFromHeader(lines: seq<string>) returns (i: nat)
    requires ModeAfter(lines) != NoSection
    ensures i < |lines| && HeaderMode(lines[i]) == ModeAfter(lines)
  {
    if HeaderMode(lines[|lines| - 1]) != NoSection {
      i := |lines| - 1;
    } else {
      var init := lines[..|lines| - 1];
      i := ModeComesFromHeader(init);
      assert lines[i] == init[i];
    }
  }

  /** The reader's `mode` variable is `ModeAfter` of the lines read. */
  lemma {:induction false} ScanTracksMode(lines: seq<string>)
    requires Scan(lines).Running?
    ensures Scan(lines).state.mode == ModeAfter(lines)
  {
    if lines != [] {
      ScanTracksMode(lines[..|lines| - 1]);
    }
  }

  /** The fields of the lines that describe notes: six-field lines read in the HitObjects section, in file order. */
  function NoteLines(lines: seq<string>): (r: seq<seq<string>>)
    ensures forall k :: 0 <= k < |r| ==> |r[k]| == 6
  {
    if lines == [] then []
    else
      var fields := Split(lines[|lines| - 1], ',');
      NoteLines(lines[..|lines| - 1]) + (if ModeAfter(lines) == HitObjects && |fields| == 6 then [fields] else [])
  }

  /** One line read normally adds the note it decodes to when it is a six-field line of the HitObjects section, and nothing otherwise. */
  lemma StepAddsNote(st: ScanState, line: string)
    requires StepLine(st, line).Running?
    ensures var fields := Split(line, ',');
      if SwitchMode(st.mode, line) == HitObjects && |fields| == 6 then
        && DecodeHitObject(fields).Success?
        && StepLine(st, line).state.objects == st.objects + [DecodeHitObject(fields).value]
      else StepLine(st, line).state.objects == st.objects
  {
  }

  /** The notes collected so far are the note lines read so far, decoded one for one. */
  lemma {:induction false} ScanCollectsNoteLines(lines: seq<string>)
    requires Scan(lines).Running?
    ensures |Scan(lines).state.objects| == |NoteLines(lines)|
    ensures forall k :: 0 <= k < |NoteLines(lines)| ==>
              DecodeHitObject(NoteLines(lines)[k]) == Success(Scan(lines).state.objects[k])
  {
    if lines != [] {
      var init := lines[..|lines| - 1];
      ScanCollectsNoteLines(init);
      ScanTracksMode(init);
      StepAddsNote(Scan(init).state, lines[|lines| - 1]);
    }
  }

  /** A file without a `[HitObjects]` header has no note lines. */
  lemma {:induction false} NoHeaderNoNotes(lines: seq<string>)
    requires "[HitObjects]" !in lines
    ensures NoteLines(lines) == []
  {
    if lines != [] {
      var init := lines[..|lines| - 1];
      assert "[HitObjects]" !in init by {
        assert forall i :: 0 <= i < |init| ==> init[i] == lines[i];
      }
      NoHeaderNoNotes(init);
      if ModeAfter(lines) == HitObjects {
        var i := ModeComesFromHeader(lines);
      }
    }
  }

  /**
   * A loaded map holds exactly one note per six-field line of its
   * HitObjects section, in file order: the note that line decodes to.
   */
  lemma LoadedNotes(folder: string, content: string, beatmap: BeatMap)
    requires ParseBeatmap(folder, content) == Loaded(beatmap)
    ensures |beatmap.objects| == |NoteLines(Lines(content))|
    ensures forall k :: 0 <= k < |beatmap.objects| ==>
              DecodeHitObject(NoteLines(Lines(content))[k]) == Success(beatmap.objects[k])
    ensures "[HitObjects]" !in Lines(content) ==> beatmap.objects == []
  {
    ScanCollectsNoteLines(Lines(content));
    if "[HitObjects]" !in Lines(content) {
      NoHeaderNoNotes(Lines(content));
    }
  }

  /** The audio path kept by the reader is empty or names an `.ogg` file. */
  lemma {:induction false} ScanKeepsOggPath(lines: seq<string>)
    requires Scan(lines).Running?
    ensures Scan(lines).state.songPath == [] || EndsWith(Scan(lines).state.songPath, ".ogg")
  {
    if lines != [] {
      ScanKeepsOggPath(lines[..|lines| - 1]);
    }
  }

  /**
   * A loaded map is named after its audio file, which is an `.ogg` file
   * (or no file at all), found under the beatmap's folder; its hit window
   * is 0.05 seconds.
   */
  lemma LoadedMapShape(folder: string, content: string, beatmap: BeatMap)
    requires ParseBeatmap(folder, content) == Loaded(beatmap)
    ensures beatmap.maxHitOffset == 0.05
    ensures beatmap.songPath == folder + "/" + beatmap.name
    ensures beatmap.name == [] || EndsWith(beatmap.name, ".ogg")
  {
    ScanKeepsOggPath(Lines(content));
  }

  /** A General-section line that makes the reader return `None`. */
  predicate RefusingLine(line: string) {
    || (StartsWith(line, AudioKey) && |line| >= 15 && !EndsWith(line[15..], ".ogg"))
    || (StartsWith(line, ModeKey) && |line| >= 6 && line[6..] != "1")
  }

  /** When the reader returns early, it does so at one line, and everything before it was read normally. */
  lemma {:induction false} StoppingLine(lines: seq<string>) returns (i: nat)
    requires Scan(lines).Stopped?
    ensures i < |lines| && Scan(lines[..i]).Running?
    ensures StepLine(Scan(lines[..i]).state, lines[i]) == Scan(lines)
  {
    var init := lines[..|lines| - 1];
    if Scan(init).Stopped? {
      i := StoppingLine(init);
      assert init[..i] == lines[..i];
    } else {
      i := |lines| - 1;
    }
  }

  /** In the General section, a line stops the reader with `None` exactly when it is a refusing line. */
  lemma GeneralLineRefuses(st: ScanState, line: string)
    ensures GeneralLine(st, line) == Stopped(Refused) <==> RefusingLine(line)
  {
    if StartsWith(line, AudioKey) {
      assert line[0] == 'A';
      assert !StartsWith(line, ModeKey);
    }
  }

  /** Line `i` is read normally up to the General-section check, which refuses it. */
  predicate RefusedAtLine(lines: seq<string>, i: nat)
    requires i < |lines|
  {
    Scan(lines[..i]).Running? && ModeAfter(lines[..i + 1]) == General && RefusingLine(lines[i])
  }

  lemma RefusedOnlyAtRefusingLine(lines: seq<string>) returns (i: nat)
    requires Scan(lines) == Stopped(Refused)
    ensures i < |lines| && RefusedAtLine(lines, i)
  {
    i := StoppingLine(lines);
    ScanTracksMode(lines[..i]);
    assert lines[..i + 1][..i] == lines[..i];
    GeneralLineRefuses(Scan(lines[..i]).state.(mode := ModeAfter(lines[..i + 1])), lines[i]);
  }

  /** A line read in the General section goes through the General-section checks only. */
  lemma StepInGeneral(st: ScanState, line: string)
    requires SwitchMode(st.mode, line) == General
    ensures StepLine(st, line) == GeneralLine(st.(mode := General), line)
  {
  }

  /** The reader returns `None` at a refusing line read in the General section. */
  lemma RefusedAtThatLine(lines: seq<string>, i: nat)
    requires i < |lines| && RefusedAtLine(lines, i)
    ensures Scan(lines[..i + 1]) == Stopped(Refused)
  {
    var st := Scan(lines[..i]).state;
    ScanTracksMode(lines[..i]);
    assert lines[..i + 1][..i] == lines[..i];
    StepInGeneral(st, lines[i]);
    GeneralLineRefuses(st.(mode := General), lines[i]);
  }

  /**
   * `read_beatmap` returns `None` exactly when, before anything else stops
   * it, it reads in the General section an `AudioFilename:` line that does
   * not end in `.ogg` or a `Mode:` line whose value is not `1`.
   */
  lemma RefusedExactly(folder: string, content: string)
    ensures ParseBeatmap(folder, content) == Failed(Refused) <==>
              exists i: nat :: i < |Lines(content)| && RefusedAtLine(Lines(content), i)
  {
    var lines := Lines(content);
    if ParseBeatmap(folder, content) == Failed(Refused) {
      var i := RefusedOnlyAtRefusingLine(lines);
    }
    if exists i: nat :: i < |lines| && RefusedAtLine(lines, i) {
      var i: nat :| i < |lines| && RefusedAtLine(lines, i);
      RefusedAtThatLine(lines, i);
      StopsAt(folder, content, i, Refused);
    }
  }

  /** A file without a `[General]` header is never refused, whatever its other lines say. */
  lemma NoGeneralNeverRefused(folder: string, content: string)
    requires "[General]" !in Lines(content)
    ensures ParseBeatmap(folder, content) != Failed(Refused)
  {
    var lines := Lines(content);
    if ParseBeatmap(folder, content) == Failed(Refused) {
      var i := RefusedOnlyAtRefusingLine(lines);
      var j := ModeComesFromHeader(lines[..i + 1]);
    }
  }
}
