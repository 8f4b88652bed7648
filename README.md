# Taiko gameplay core, modelled in Dafny

This project models the two pieces of game logic in a small osu!-taiko
clone written in Rust on the Amethyst engine:

* **Hit judgement and the note queue.** `get_key_press_type` turns the
  four drum keys into a colour and a size. `check_hit` judges one input
  against one note. `GameSystem::run` does the per-frame work:
  - it starts the clock and computes the frame time with the player's offset;
  - it reads the keys pressed during the frame;
  - it moves the offset with `=` and `-`;
  - it drains the notes whose hit window has passed, logging a miss for each;
  - on a drum key, it judges the oldest note left.
* **The `.osu` beatmap reader.** `read_beatmap` works line by line, given
  the text of the file:
  - it switches section on the exact lines `[General]` and `[HitObjects]`;
  - it refuses maps whose audio is not `.ogg` and maps that are not taiko
    (`Mode: 1`);
  - it turns every six-field line of the HitObjects section into a note.

Modules, one per source file (plus the string library the reader uses):

| module | models |
|---|---|
| `Wrappers` | `Option`, `Result` |
| `RustStr` | the parts of Rust's `str` the reader uses: `lines`, `split`, `starts_with`, `ends_with`, `parse::<u8>`, `parse::<i32>` |
| `Components` | `HitObject` (src/components.rs) |
| `Resources` | `BeatMap`, and the queue, log and settings resources as classes (src/resources.rs) |
| `Utils` | key type, `check_hit`, `osu_to_real_time`, the hitsound table, and `read_beatmap` (src/utils.rs) |
| `BeatmapFacts` | whole-file properties of `read_beatmap` |
| `Systems` | `GameSystem::run` (src/systems.rs) |
| `States` | the queue filled from the map when play starts (src/states.rs) |

How the model is built:

* **Time** is a `real` number of seconds. The hit window is 0.05, the
  offset step 0.005, and an osu! time of `ms` milliseconds is `ms / 1000`.
* **`value_near`** comes from the `amethyst_extra` crate, which is not part
  of this model. It is ASSUMED to hold when the number is within the margin
  of the target, bounds included (`Utils.ValueNear`).
* **`read_beatmap`** is a method with a `for` loop, as in the source. It is
  proved equal to `ParseBeatmap`, a left fold of one reader step (`StepLine`)
  over the lines. The early `return None` is the outcome `Failed(Refused)`.
  The four ways the reader panics on malformed text each have an outcome of
  their own, `Failed(Panicked(..))`:
  - `line[15..]` past the end of a short `AudioFilename:` line;
  - `line[6..]` past the end of a short `Mode:` line;
  - the `expect` after `parse::<u8>` fails;
  - the `expect` after `parse::<i32>` fails.
* **`GameSystem::run`** is a method of the class `GameSystem`. It mutates
  `startTime` and the `HitObjectQueue`, `HitOffsets` and `UserSettings`
  objects, as the source does. The `while let` drain loop pops and pushes
  the queue in place.
* **Pure specification of a frame.** The frame is proved against pure
  functions: `Drain`, then `KeyPress`, composed as `Advance`. What a frame
  guarantees is proved about `Advance`.
* **The engine's clock and input channel are parameters.** `now` is the
  absolute clock reading. `events` is the frame's input events.

A consequence of `get_key_press_type` that the model proves
(`Utils.KeyPressChords`): a red key always makes the hit red, and "dual"
only asks for both keys of one colour. So Z+N+M is judged as a big red hit.

## Model

| member | source | states |
|---|---|---|
| Utils.KeyPressChords | src/utils.rs:29-33 | a chord with a red key is red whatever blue keys are down, and only blue keys make a blue hit; one key alone, or one red key with one blue key, is never dual; both keys of one colour are dual; so Z+N+M is a big red hit, Z+N a small red one and N+M a big blue one |
| Utils.ValueNear | src/utils.rs:47 | assumption for the external `value_near`: true iff `number` lies in `[target - margin, target + margin]` |
| Utils.CheckHit | src/utils.rs:39-62 | no offset exactly when the time is outside the note's window; inside it the offset is always `time - hit.time`, right or wrong key; the flag is true iff the time is in the window and both colour and size match |
| Utils.OsuToRealTime | src/utils.rs:231-233 | the result times 1000 is the millisecond value, and is negative iff the input is |
| Utils.HitsoundKind | src/utils.rs:205-211 | red iff the hitsound is 0 or 4, big iff it is 4 or 12; every other value is a small blue note |
| Utils.DecodeHitObject | src/utils.rs:202-220 | a field 4 that is not a `u8` panics first; otherwise a field 2 that is not an `i32` panics; the line decodes to a note iff both fields parse, and that note has time field 2 / 1000 and the colour and size of its hitsound |
| Utils.ScanStopsForGood | src/utils.rs:176-222 | once the reader has returned at some line, the lines after it change nothing |
| Utils.StopsAt | src/utils.rs:176-222 | a reader that returns at some line gives that outcome for the whole file |
| Utils.ReadBeatmap | src/utils.rs:166-229 | the imperative loop over the lines, with its early returns, gives exactly `ParseBeatmap`, the line-by-line fold of the reader's step |
| BeatmapFacts.NoHeaderNoSection | src/utils.rs:174-181 | before any `[General]` or `[HitObjects]` line the reader is in no section |
| BeatmapFacts.LastHeaderDecides | src/utils.rs:177-181 | the section is that of the last exact header line read; no other line changes it |
| BeatmapFacts.ModeComesFromHeader | src/utils.rs:177-181 | whenever the reader is in a section, some line read so far is that section's exact header |
| BeatmapFacts.ScanTracksMode | src/utils.rs:174-181 | the reader's `mode` variable is always the section given by the header lines read |
| BeatmapFacts.NoteLines | src/utils.rs:196-201 | the lines kept as notes are split into exactly six fields |
| BeatmapFacts.StepAddsNote | src/utils.rs:196-221 | a line read normally adds the note it decodes to when it is a six-field line of the HitObjects section, and no note otherwise |
| BeatmapFacts.ScanCollectsNoteLines | src/utils.rs:196-221 | the notes collected are one per six-field HitObjects line, in file order, each the decoding of its line |
| BeatmapFacts.NoHeaderNoNotes | src/utils.rs:196-201 | without a `[HitObjects]` line no line is read as a note |
| BeatmapFacts.LoadedNotes | src/utils.rs:196-228 | a loaded map has exactly one note per six-field HitObjects line, in file order, that line's decoding; none without a `[HitObjects]` line |
| BeatmapFacts.ScanKeepsOggPath | src/utils.rs:183-188 | the audio path kept is empty or ends in `.ogg` |
| BeatmapFacts.LoadedMapShape | src/utils.rs:223-228 | a loaded map has hit window 0.05; its song path is the folder, `/`, then its name; its name is empty or an `.ogg` file |
| BeatmapFacts.StoppingLine | src/utils.rs:176-221 | a reader that returns early does so at one line, with every line before it read normally |
| BeatmapFacts.GeneralLineRefuses | src/utils.rs:182-195 | in the General section a line makes the reader return `None` iff it is an `AudioFilename:` line not ending in `.ogg` or a `Mode:` line whose value is not `1` |
| BeatmapFacts.RefusedOnlyAtRefusingLine | src/utils.rs:182-195 | a refused file has a line, read in the General section after normal lines, that is a refusing line |
| BeatmapFacts.RefusedAtThatLine | src/utils.rs:182-195 | a refusing line read in the General section after normal lines makes the reader return `None` at that line |
| BeatmapFacts.RefusedExactly | src/utils.rs:176-195 | `read_beatmap` returns `None` iff, before anything else stops it, it reads such a refusing line in the General section |
| BeatmapFacts.NoGeneralNeverRefused | src/utils.rs:179-195 | a file without a `[General]` line is never refused |
| RustStr.Split | src/utils.rs:197 | `split(",")` gives at least one piece, and no piece holds the separator |
| RustStr.JoinSplit | src/utils.rs:197 | the pieces joined back with the separator give the line again |
| RustStr.SplitCount | src/utils.rs:197-199 | there is one piece more than there are separators, so a line has six fields iff it has five commas |
| RustStr.RawLinesSplitTerminator | src/utils.rs:176 | the lines before `'\r'` is stripped are exactly `split('\n')` less a final empty piece (`split_terminator`) |
| RustStr.RawLinesUnlines | src/utils.rs:176 | a text written line by line, each line ended by `'\n'`, splits back into those lines |
| RustStr.RawLinesUnterminated | src/utils.rs:176 | the same when the last line has no `'\n'` after it |
| RustStr.LinesUnterminated | src/utils.rs:176 | `lines()` reads back lines that hold no line break and do not end in `'\r'`, when the last line has no `'\n'` after it |
| RustStr.LinesCrLf | src/utils.rs:176 | `lines()` reads back a text whose lines end in `"\r\n"`, without the `'\r'` |
| RustStr.LinesUnlines | src/utils.rs:176 | `lines()` reads back a text written line by line, each line ended by `'\n'`, when no line holds a line break or ends in `'\r'` |
| RustStr.ParseU8 | src/utils.rs:202-204 | accepts exactly an optional `+` then decimal digits of value at most 255, with that value |
| RustStr.ParseI32 | src/utils.rs:215-217 | accepts exactly an optional sign then decimal digits whose signed value fits in `i32`, with that value |
| RustStr.ParseU8ShowNat | src/utils.rs:202-204 | every `u8` written in decimal parses back to itself |
| RustStr.ParseI32ShowInt | src/utils.rs:215-217 | every `i32` written in decimal parses back to itself |
| Resources.HitObjectQueue.constructor | src/resources.rs:60-66 | a new queue is empty |
| Resources.HitObjectQueue.PushBack | src/states.rs:222 | the note is added at the back |
| Resources.HitObjectQueue.PushFront | src/systems.rs:102 | the note is put back at the front |
| Resources.HitObjectQueue.PopFront | src/systems.rs:96 | an empty queue gives nothing and stays empty; otherwise the oldest note is returned and removed |
| Resources.HitOffsets.constructor | src/resources.rs:71-74 | the log starts empty |
| Resources.HitOffsets.Push | src/systems.rs:98 | the entry is appended; earlier entries are kept |
| Resources.UserSettings.constructor | src/resources.rs:80-83 | the offset starts at 0 |
| States.FillQueue | src/states.rs:220-222 | a fresh queue holding the map's notes in file order, aligned with the empty log |
| Systems.ReadKeys | src/systems.rs:69-85 | each of the six flags is set iff its key was pressed in some event of the frame; releases and other events change nothing |
| Systems.AdjustedOffset | src/systems.rs:87-93 | `=` raises the offset by 0.005 and wins over `-`; otherwise `-` lowers it by 0.005; the offset is unchanged iff neither is pressed |
| Systems.ExpiredRun | src/systems.rs:96-105 | the drain stops at the first unexpired note: the notes before it have expired, and it has not |
| Systems.Advance | src/systems.rs:95-152 | the notes that leave in a frame are a prefix of the queue, and the rest keep their order; the log gains one entry, and the dropped list the time, of each note that leaves, in order |
| Systems.AdvanceDrainsExpired | src/systems.rs:95-107 | the expired notes leave as misses, and at most one note more leaves; without a drum key only the drain happens |
| Systems.AdvanceJudgesOldest | src/systems.rs:139-151 | a judged note was in its window, and it logs `Some(offset)` for a right hit and `None` for a wrong one; a press that judges nothing came before the oldest note's window opened; after a frame with no judgement the oldest note has not expired |
| Systems.AdvanceKeepsAligned | src/systems.rs:95-151 | a frame keeps the log aligned with the map: the queue is the notes that have no log entry yet, so entry `i` is note `i`'s outcome |
| Systems.GameSystem.constructor | src/states.rs:40-43 | the system starts with clock start 0 |
| Systems.GameSystem.Run | src/systems.rs:61-152 | the clock starts at the first frame; the offset moves by the frame's `=`/`-` keys; the queue and the log change as `Advance` prescribes at the frame time computed with the offset from before this frame's keys; the times of the notes removed are returned |
| Systems.GameSystem.StartClock | src/systems.rs:61-63 | the start time is set to the clock while it is not positive, and kept afterwards |
| Systems.GameSystem.AdjustOffset | src/systems.rs:87-93 | the settings' offset becomes `AdjustedOffset` of the old one |
| Systems.GameSystem.AdvanceQueue | src/systems.rs:95-152 | the drain then the judgement change the queue and the log as `Advance` prescribes |
| Systems.GameSystem.DropExpired | src/systems.rs:95-105 | the `while let` loop removes exactly the expired leading notes, logs `None` for each and returns their times; the first live note is back at the front |
| Systems.GameSystem.JudgeKeyPress | src/systems.rs:107-152 | without a drum key nothing changes; otherwise the oldest note is judged with the key type of the keys pressed |
| Systems.GameSystem.JudgeOldest | src/systems.rs:139-151 | the oldest note is judged: it goes back to the front when `check_hit` gives no offset; otherwise it leaves, and the log gets `Some(offset)` for a right hit or `None` |

## Left out

- Floating point: time is exact `real` arithmetic. The rounding of `f64` subtraction, addition and division by 1000 is not modelled.
- Utils.ValueNear: the body of `value_near` (crate `amethyst_extra`) is not part of this model. Its meaning is an assumption.
- `File::open` and `read_to_string` in `read_beatmap` (src/utils.rs:168-171): the file's text is a parameter, so the two `expect`s on I/O errors are not modelled.
- Character indexing: `line[15..]` and `line[6..]` count characters here and bytes in Rust. The two agree on ASCII text. A slice inside a multi-byte character, which also panics in Rust, is not modelled.
- RustStr.Lines: drops one trailing `'\r'` from every line, also from a last line that has no `'\n'` after it. The Rust standard library of the time did this; later releases keep a lone final `'\r'`. That later behaviour is not modelled.
- `list_directory` and `beatmap_list` (src/utils.rs:64-95), and the commented-out `BeatMapFormat` (src/utils.rs:97-164): file-system access and dead code.
- `reader_id` registration (src/systems.rs:57-59): it only connects the system to the engine's event channel. The frame's events are a parameter.
- The sounds played on a key press (src/systems.rs:110-136): audio output only.
- The entity loop after the judgement (src/systems.rs:155-172): it deletes the drawn notes whose time is among the dropped times and moves the others on screen. Engine and `f32` screen state only; `Run` returns the dropped times it consumes.
- `println!` and `error!` logging throughout.
- src/main.rs and the rest of src/states.rs: engine states, asset loading, UI and the application loop. Of src/states.rs only the system's creation and the filling of the queue are modelled.
