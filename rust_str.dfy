/**
 * The few operations of Rust's `str` that the beatmap reader relies on:
 * `lines`, `split`, `starts_with`, `ends_with` and `parse` for `u8` and `i32`.
 * A `&str` is a sequence of characters; every index is a character index,
 * which agrees with Rust's byte index on ASCII text.
 */
module RustStr {
  import opened Wrappers

  predicate StartsWith(s: string, prefix: string) {
    |prefix| <= |s| && s[..|prefix|] == prefix
  }

  predicate EndsWith(s: string, suffix: string) {
    |suffix| <= |s| && s[|s| - |suffix|..] == suffix
  }

  /** Number of occurrences of `c` in `s`. */
  function Count(s: string, c: char): nat {
    if s == [] then 0 else (if s[0] == c then 1 else 0) + Count(s[1..], c)
  }

  // ---------------------------------------------------------------------
  // str::split(sep)
  // ---------------------------------------------------------------------

  /** `s.split(sep)`: the pieces between separators; never empty. */
  function Split(s: string, sep: char): (pieces: seq<string>)
    ensures |pieces| >= 1
    ensures forall i :: 0 <= i < |pieces| ==> sep !in pieces[i]
  {
    if s == [] then [[]]
    else
      var rest := Split(s[1..], sep);
      if s[0] == sep then [[]] + rest
      else [[s[0]] + rest[0]] + rest[1..]
  }

  /** The inverse of `Split`: the pieces glued back with `sep` between them. */
  function Join(pieces: seq<string>, sep: char): string
    requires |pieces| >= 1
  {
    if |pieces| == 1 then pieces[0] else pieces[0] + [sep] + Join(pieces[1..], sep)
  }

  /** Splitting loses nothing: joining the pieces gives back the string. */
  lemma {:induction false} JoinSplit(s: string, sep: char)
    ensures Join(Split(s, sep), sep) == s
  {
    if s != [] {
      JoinSplit(s[1..], sep);
      var rest := Split(s[1..], sep);
      if s[0] != sep {
        if |rest| == 1 {
          assert Join(Split(s, sep), sep) == [s[0]] + rest[0];
        } else {
          assert rest == [rest[0]] + rest[1..];
          assert Join(Split(s, sep), sep) == [s[0]] + rest[0] + [sep] + Join(rest[1..], sep);
          assert Join(rest, sep) == rest[0] + [sep] + Join(rest[1..], sep);
        }
      }
    }
  }

  /** There is one piece more than there are separators. */
  lemma {:induction false} SplitCount(s: string, sep: char)
    ensures |Split(s, sep)| == Count(s, sep) + 1
  {
    if s != [] {
      SplitCount(s[1..], sep);
    }
  }

  // ---------------------------------------------------------------------
  // str::lines()
  // ---------------------------------------------------------------------

  /** `s.split_terminator('\n')`: like `Split`, but a final empty piece is dropped. */
  function RawLines(s: string): (ls: seq<string>)
    ensures forall i :: 0 <= i < |ls| ==> '\n' !in ls[i]
    ensures s != [] <==> ls != []
  {
    if s == [] then []
    else if s[0] == '\n' then [[]] + RawLines(s[1..])
    else
      var rest := RawLines(s[1..]);
      if rest == [] then [[s[0]]] else [[s[0]] + rest[0]] + rest[1..]
  }

  /** A line ending "\r\n" loses its '\r' as well. */
  function StripCr(line: string): string {
    if line != [] && line[|line| - 1] == '\r' then line[..|line| - 1] else line
  }

  /** `s.lines()` */
  function Lines(s: string): (ls: seq<string>)
    ensures forall i :: 0 <= i < |ls| ==> '\n' !in ls[i]
  {
    var raw := RawLines(s);
    seq(|raw|, i requires 0 <= i < |raw| => StripCr(raw[i]))
  }

  /** The pieces less a final empty one, as `split_terminator` gives them. */
  function DropEmptyLast(pieces: seq<string>): seq<string>
    requires |pieces| >= 1
  {
    if pieces[|pieces| - 1] == [] then pieces[..|pieces| - 1] else pieces
  }

  /** `s.split_terminator(sep)` */
  function SplitTerminator(s: string, sep: char): seq<string> {
    DropEmptyLast(Split(s, sep))
  }

  lemma DropEmptyLastCons(x: string, pieces: seq<string>)
    requires |pieces| >= 1
    ensures DropEmptyLast([x] + pieces) == [x] + DropEmptyLast(pieces)
  {
    if pieces[|pieces| - 1] == [] {
      assert ([x] + pieces)[..|pieces|] == [x] + pieces[..|pieces| - 1];
    }
  }

  /** `RawLines` is `split_terminator('\n')`: the text's pieces between line breaks, less a final empty one. */
  lemma {:induction false} RawLinesSplitTerminator(s: string)
    ensures RawLines(s) == SplitTerminator(s, '\n')
  {
    if s != [] {
      RawLinesSplitTerminator(s[1..]);
      var p := Split(s[1..], '\n');
      if s[0] == '\n' {
        DropEmptyLastCons([], p);
      } else if |p| == 1 {
        assert Split(s, '\n') == [[s[0]] + p[0]];
        if p[0] == [] {
          assert RawLines(s[1..]) == [];
          assert [s[0]] + p[0] == [s[0]];
        } else {
          assert RawLines(s[1..]) == p;
        }
      } else {
        assert p == [p[0]] + p[1..];
        DropEmptyLastCons(p[0], p[1..]);
        DropEmptyLastCons([s[0]] + p[0], p[1..]);
      }
    }
  }

  /** A text made of the given lines, each ended by '\n'. */
  function Unlines(ls: seq<string>): string {
    if ls == [] then [] else ls[0] + ['\n'] + Unlines(ls[1..])
  }

  /** `split_terminator` reads back a text written line by line, each line ended by '\n'. */
  lemma {:induction false} RawLinesUnlines(ls: seq<string>)
    requires forall i :: 0 <= i < |ls| ==> '\n' !in ls[i]
    ensures RawLines(Unlines(ls)) == ls
  {
    if ls != [] {
      RawLinesUnlines(ls[1..]);
      RawLinesOfLine(ls[0], Unlines(ls[1..]));
    }
  }

  /** The same holds when the last line has no '\n' after it. */
  lemma {:induction false} RawLinesUnterminated(ls: seq<string>, last: string)
    requires forall i :: 0 <= i < |ls| ==> '\n' !in ls[i]
    requires last != [] && '\n' !in last
    ensures RawLines(Unlines(ls) + last) == ls + [last]
  {
    if ls == [] {
      RawLinesOfText(last);
      assert Unlines(ls) + last == last;
    } else {
      RawLinesUnterminated(ls[1..], last);
      RawLinesOfLine(ls[0], Unlines(ls[1..]) + last);
      assert Unlines(ls) + last == ls[0] + ['\n'] + (Unlines(ls[1..]) + last);
      assert ls + [last] == [ls[0]] + (ls[1..] + [last]);
    }
  }

  /** `lines` reads back a text written line by line, when no line holds a line break or ends in '\r'. */
  lemma LinesUnlines(ls: seq<string>)
    requires forall i :: 0 <= i < |ls| ==> '\n' !in ls[i] && !EndsWith(ls[i], "\r")
    ensures Lines(Unlines(ls)) == ls
  {
    RawLinesUnlines(ls);
    forall i | 0 <= i < |ls|
      ensures StripCr(ls[i]) == ls[i]
    {
      NoCrStrip(ls[i]);
    }
  }

  /** ... and when the last line has no '\n' after it. */
  lemma LinesUnterminated(ls: seq<string>, last: string)
    requires forall i :: 0 <= i < |ls| ==> '\n' !in ls[i] && !EndsWith(ls[i], "\r")
    requires last != [] && '\n' !in last && !EndsWith(last, "\r")
    ensures Lines(Unlines(ls) + last) == ls + [last]
  {
    RawLinesUnterminated(ls, last);
    forall i | 0 <= i < |ls|
      ensures StripCr(ls[i]) == ls[i]
    {
      NoCrStrip(ls[i]);
    }
    NoCrStrip(last);
  }

  /** Each line ended by "\r\n" instead of '\n'. */
  function CrLf(ls: seq<string>): (r: seq<string>)
    ensures |r| == |ls|
  {
    seq(|ls|, i requires 0 <= i < |ls| => ls[i] + ['\r'])
  }

  /** `lines` also reads back a text whose lines end in "\r\n". */
  lemma LinesCrLf(ls: seq<string>)
    requires forall i :: 0 <= i < |ls| ==> '\n' !in ls[i]
    ensures Lines(Unlines(CrLf(ls))) == ls
  {
    var crlf := CrLf(ls);
    forall i | 0 <= i < |crlf|
      ensures '\n' !in crlf[i] && StripCr(crlf[i]) == ls[i]
    {
      assert crlf[i] == ls[i] + ['\r'];
      assert crlf[i][..|crlf[i]| - 1] == ls[i];
    }
    RawLinesUnlines(crlf);
  }

  lemma NoCrStrip(line: string)
    requires !EndsWith(line, "\r")
    ensures StripCr(line) == line
  {
    if line != [] {
      assert line[|line| - 1..] == [line[|line| - 1]];
    }
  }

  /** A text without line breaks is one line. */
  lemma {:induction false} RawLinesOfText(line: string)
    requires line != [] && '\n' !in line
    ensures RawLines(line) == [line]
  {
    assert line[0] != '\n' by {
      assert line[0] in line;
    }
    if |line| > 1 {
      assert '\n' !in line[1..] by {
        forall c | c in line[1..]
          ensures c in line
        {
          var i :| 0 <= i < |line[1..]| && line[1..][i] == c;
          assert line[i + 1] == c;
        }
      }
      RawLinesOfText(line[1..]);
      assert [line[0]] + line[1..] == line;
    } else {
      assert line[1..] == [];
      assert line == [line[0]];
    }
  }

  lemma {:induction false} RawLinesOfLine(line: string, rest: string)
    requires '\n' !in line
    ensures RawLines(line + ['\n'] + rest) == [line] + RawLines(rest)
  {
    if line == [] {
      assert ([] + ['\n'] + rest)[1..] == rest;
    } else {
      var t := line[1..] + ['\n'] + rest;
      assert line + ['\n'] + rest == [line[0]] + t;
      assert ([line[0]] + t)[1..] == t;
      RawLinesOfLine(line[1..], rest);
      assert [line[0]] + line[1..] == line;
    }
  }

  // ---------------------------------------------------------------------
  // str::parse::<u8>() and str::parse::<i32>()
  // ---------------------------------------------------------------------

  type u8 = x: int | 0 <= x < 0x100
  type i32 = x: int | -0x8000_0000 <= x < 0x8000_0000

  predicate IsDigit(c: char) { '0' <= c <= '9' }

  predicate AllDigits(s: string) { forall i :: 0 <= i < |s| ==> IsDigit(s[i]) }

  /** The value of a string of decimal digits. */
  function DigitsValue(s: string): nat
    requires AllDigits(s)
  {
    if s == [] then 0 else 10 * DigitsValue(s[..|s| - 1]) + (s[|s| - 1] as int - '0' as int)
  }

  /** Body of a parse after the sign: at least one digit, and only digits. */
  function Magnitude(digits: string): Option<nat> {
    if digits != [] && AllDigits(digits) then Some(DigitsValue(digits)) else None
  }

  /** `s.parse::<u8>()`: an optional '+', then decimal digits, at most 255. */
  function ParseU8(s: string): (r: Option<u8>)
    ensures r.Some? ==> exists d :: (s == d || s == ['+'] + d) && Magnitude(d) == Some(r.value as nat)
    ensures forall d :: (s == d || s == ['+'] + d) && Magnitude(d).Some? && Magnitude(d).value < 0x100 ==>
              r == Some(Magnitude(d).value)
  {
    var digits := if s != [] && s[0] == '+' then s[1..] else s;
    assert s != [] && s[0] == '+' ==> s == ['+'] + digits;
    match Magnitude(digits)
    case Some(v) => if v < 0x100 then Some(v) else None
    case None => None
  }

  /** `s.parse::<i32>()`: an optional '+' or '-', then decimal digits, within the range of `i32`. */
  function ParseI32(s: string): (r: Option<i32>)
    ensures r.Some? ==> exists d ::
      || ((s == d || s == ['+'] + d) && Magnitude(d).Some? && Magnitude(d).value == r.value)
      || (s == ['-'] + d && Magnitude(d).Some? && Magnitude(d).value == -(r.value as int))
    ensures forall d :: (s == d || s == ['+'] + d) && Magnitude(d).Some? && Magnitude(d).value < 0x8000_0000 ==>
              r == Some(Magnitude(d).value)
    ensures forall d :: s == ['-'] + d && Magnitude(d).Some? && Magnitude(d).value <= 0x8000_0000 ==>
              r == Some(-(Magnitude(d).value as int))
  {
    var negative := s != [] && s[0] == '-';
    var digits := if s != [] && (s[0] == '+' || s[0] == '-') then s[1..] else s;
    assert s != [] && (s[0] == '+' || s[0] == '-') ==> s == [s[0]] + digits;
    match Magnitude(digits)
    case Some(v) =>
      var n: int := if negative then -(v as int) else v;
      if -0x8000_0000 <= n < 0x8000_0000 then Some(n) else None
    case None => None
  }

  /** Decimal rendering of a natural number, without sign or leading zeros. */
  function ShowNat(n: nat): (s: string)
    ensures s != [] && AllDigits(s)
  {
    var d := ['0' + (n % 10) as char];
    if n < 10 then d else ShowNat(n / 10) + d
  }

  /** Decimal rendering of an integer, with '-' for negative values. */
  function ShowInt(n: int): string {
    if n < 0 then ['-'] + ShowNat(-n) else ShowNat(n)
  }

  lemma {:induction false} DigitsValueShowNat(n: nat)
    ensures DigitsValue(ShowNat(n)) == n
  {
    var d := ['0' + (n % 10) as char];
    if n >= 10 {
      DigitsValueShowNat(n / 10);
      var s := ShowNat(n / 10) + d;
      assert s[..|s| - 1] == ShowNat(n / 10);
    }
  }

  /** `parse::<u8>` reads back every value of `u8` written in decimal. */
  lemma ParseU8ShowNat(n: u8)
    ensures ParseU8(ShowNat(n)) == Some(n)
  {
    DigitsValueShowNat(n);
  }

  /** `parse::<i32>` reads back every value of `i32` written in decimal. */
  lemma ParseI32ShowInt(n: i32)
    ensures ParseI32(ShowInt(n)) == Some(n)
  {
    if n < 0 {
      var m: nat := -(n as int);
      DigitsValueShowNat(m);
      assert (['-'] + ShowNat(m))[1..] == ShowNat(m);
    } else {
      DigitsValueShowNat(n);
    }
  }
}
