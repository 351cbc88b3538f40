/** The line serializer of the headless snapshot, and a terminal that reads its output back.
    The terminal follows ECMA-48: control sequences (section 5.4), SELECT GRAPHIC RENDITION
    (section 8.3.117) with the common 38/48 extended colours, CURSOR POSITION (section 8.3.21), and
    SET MODE and RESET MODE (sections 8.3.125 and 8.3.106) with private parameters. */
module Sgr {
  import opened Wrappers
  import opened Decimal

  const ESC: char := 0x1B as char
  const CRLF: string := [0x0D as char, 0x0A as char]

  const MODE_DEFAULT: nat := 0
  const MODE_P16: nat := 0x100_0000
  const MODE_P256: nat := 0x200_0000
  const MODE_RGB: nat := 0x300_0000

  datatype Cell = Cell(chars: string, width: nat, bold: bool, italic: bool, underline: bool,
                       fgMode: nat, fg: int, bgMode: nat, bg: int)

  type Line = seq<Cell>

  // ---------------------------------------------------------------- the serializer

  function ColorSgr(mode: nat, color: int, foreground: bool): seq<nat> {
    var base := if foreground then 30 else 40;
    if mode == MODE_DEFAULT || color < 0 then []
    else if mode == MODE_P16 then [if color < 8 then base + color else base + 60 + (color - 8)]
    else if mode == MODE_P256 then [base + 8, 5, color]
    else if mode == MODE_RGB then [base + 8, 2, color / 0x1_0000 % 256, color / 256 % 256, color % 256]
    else []
  }

  function CellCodes(cell: Cell): seq<nat> {
    (if cell.bold then [1] else []) + (if cell.italic then [3] else []) + (if cell.underline then [4] else []) +
    ColorSgr(cell.fgMode, cell.fg, true) + ColorSgr(cell.bgMode, cell.bg, false)
  }

  /** `codes.join(";")`. */
  function Join(codes: seq<nat>): string
    requires codes != []
  {
    var n := |codes| - 1;
    if n == 0 then Numeral(codes[0]) else Join(codes[..n]) + ";" + Numeral(codes[n])
  }

  function Csi(codes: seq<nat>): string
    requires codes != []
  {
    [ESC, '['] + Join(codes) + "m"
  }

  /** `ESC [ row ; column H`. */
  function CupSequence(row: nat, column: nat): string {
    [ESC, '['] + Numeral(row) + ";" + Numeral(column) + "H"
  }

  /** `ESC [ ? code h`. */
  function SetPrivate(code: nat): string {
    [ESC, '['] + "?" + Numeral(code) + "h"
  }

  function CellSgr(cell: Cell): string {
    if CellCodes(cell) == [] then "" else Csi(CellCodes(cell))
  }

  predicate HasSerializedAttrs(cell: Cell) {
    cell.bold || cell.italic || cell.underline || cell.fgMode != 0 || cell.bgMode != 0
  }

  predicate SameAttrs(left: Option<Cell>, right: Cell) {
    left.Some? &&
    left.value.(chars := right.chars, width := right.width) == right
  }

  function CharsOf(cell: Cell): string {
    if cell.chars == "" then " " else cell.chars
  }

  predicate Visible(cell: Cell) {
    cell.width != 0 && !(CharsOf(cell) == " " && !HasSerializedAttrs(cell))
  }

  /** One past the last column that has anything to say, among the first `n`. */
  function ContentEnd(line: Line, n: nat): (end: nat)
    requires n <= |line|
    ensures end <= n && (end > 0 ==> Visible(line[end - 1])) && forall i :: end <= i < n ==> !Visible(line[i])
  {
    if n == 0 then 0 else if Visible(line[n - 1]) then n else ContentEnd(line, n - 1)
  }

  datatype Emitted = Emitted(text: string, previous: Option<Cell>, hasAttrs: bool)

  function EmitCell(e: Emitted, cell: Cell): Emitted {
    if cell.width == 0 then e
    else if SameAttrs(e.previous, cell) then e.(text := e.text + CharsOf(cell))
    else
      var reset := if e.hasAttrs then e.text + Csi([0]) else e.text;
      Emitted(reset + CellSgr(cell) + CharsOf(cell), Some(cell), CellSgr(cell) != "")
  }

  function EmitCells(line: Line, n: nat): Emitted
    requires n <= |line|
  {
    if n == 0 then Emitted("", None, false) else EmitCell(EmitCells(line, n - 1), line[n - 1])
  }

  function Serialized(line: Option<Line>): string {
    if line.None? then ""
    else
      var e := EmitCells(line.value, ContentEnd(line.value, |line.value|));
      if e.hasAttrs then e.text + Csi([0]) else e.text
  }

  /** The scan from the right that trims trailing blanks. */
  method LastColumn(cells: Line) returns (lastColumn: int)
    ensures lastColumn + 1 == ContentEnd(cells, |cells|)
  {
    lastColumn := -1;
    var column := |cells| - 1;
    while column >= 0
      invariant -1 <= column < |cells|
      invariant lastColumn == -1 && ContentEnd(cells, column + 1) == ContentEnd(cells, |cells|)
    {
      var cell := cells[column];
      if cell.width != 0 && !(CharsOf(cell) == " " && !HasSerializedAttrs(cell)) {
        lastColumn := column;
        break;
      }
      column := column - 1;
    }
  }

  method SerializeLine(line: Option<Line>) returns (serialized: string)
    ensures serialized == Serialized(line)
  {
    if line.None? {
      return "";
    }
    var cells := line.value;
    var lastColumn := LastColumn(cells);
    if lastColumn < 0 {
      return "";
    }
    serialized := "";
    var previousCell, hasAttrs: bool := None, false;
    for i := 0 to lastColumn + 1
      invariant EmitCells(cells, i) == Emitted(serialized, previousCell, hasAttrs)
    {
      var cell := cells[i];
      if cell.width != 0 {
        if !SameAttrs(previousCell, cell) {
          if hasAttrs {
            serialized := serialized + Csi([0]);
          }
          var sgr := CellSgr(cell);
          if sgr != "" {
            serialized := serialized + sgr;
            hasAttrs := true;
          } else {
            hasAttrs := false;
          }
          previousCell := Some(cell);
        }
        serialized := serialized + CharsOf(cell);
      }
    }
    if hasAttrs {
      serialized := serialized + Csi([0]);
    }
  }

  // ---------------------------------------------------------------- a terminal that reads it back

  datatype Color = DefaultColor | Palette16(n: int) | Palette256(n: int) | Rgb(r: int, g: int, b: int)

  datatype Attrs = Attrs(bold: bool, italic: bool, underline: bool, fg: Color, bg: Color)

  const DEFAULT_ATTRS := Attrs(false, false, false, DefaultColor, DefaultColor)

  /** What the terminal is made to do, in order. */
  datatype Shown =
    | Glyph(c: char, attrs: Attrs)
    | Control(c: char)
    | PrivateMode(code: nat, on: bool)
    | MoveTo(row: nat, column: nat)

  datatype Parsing = Ground | Escape | Params(done: seq<nat>, current: nat) | Private(done: seq<nat>, current: nat)

  datatype Terminal = Terminal(parsing: Parsing, attrs: Attrs, shown: seq<Shown>)

  function ApplySgr(a: Attrs, codes: seq<nat>): Attrs
    decreases |codes|
  {
    if codes == [] then a
    else
      var c := codes[0];
      if c == 38 || c == 48 then
        if |codes| >= 3 && codes[1] == 5 then ApplySgr(WithColor(a, c == 38, Palette256(codes[2])), codes[3..])
        else if |codes| >= 5 && codes[1] == 2 then
          ApplySgr(WithColor(a, c == 38, Rgb(codes[2], codes[3], codes[4])), codes[5..])
        else a
      else ApplySgr(ApplyCode(a, c), codes[1..])
  }

  function WithColor(a: Attrs, foreground: bool, color: Color): Attrs {
    if foreground then a.(fg := color) else a.(bg := color)
  }

  function ApplyCode(a: Attrs, c: nat): Attrs {
    if c == 0 then DEFAULT_ATTRS
    else if c == 1 then a.(bold := true)
    else if c == 3 then a.(italic := true)
    else if c == 4 then a.(underline := true)
    else if c == 22 then a.(bold := false)
    else if c == 23 then a.(italic := false)
    else if c == 24 then a.(underline := false)
    else if 30 <= c < 38 then a.(fg := Palette16(c - 30))
    else if c == 39 then a.(fg := DefaultColor)
    else if 40 <= c < 48 then a.(bg := Palette16(c - 40))
    else if c == 49 then a.(bg := DefaultColor)
    else if 90 <= c < 98 then a.(fg := Palette16(c - 82))
    else if 100 <= c < 108 then a.(bg := Palette16(c - 92))
    else a
  }

  function Modes(codes: seq<nat>, on: bool): seq<Shown> {
    seq(|codes|, i requires 0 <= i < |codes| => PrivateMode(codes[i], on))
  }

  /** An absent or zero parameter of CURSOR POSITION stands for one. */
  function Position(codes: seq<nat>): Shown {
    var row := if |codes| > 0 && codes[0] > 0 then codes[0] else 1;
    var column := if |codes| > 1 && codes[1] > 0 then codes[1] else 1;
    MoveTo(row, column)
  }

  function Read(t: Terminal, c: char): Terminal {
    match t.parsing
    case Ground =>
      if c == ESC then t.(parsing := Escape)
      else if c as int < 0x20 then t.(shown := t.shown + [Control(c)])
      else t.(shown := t.shown + [Glyph(c, t.attrs)])
    case Escape => t.(parsing := if c == '[' then Params([], 0) else Ground)
    case Params(done, current) =>
      if IsDigit(c) then t.(parsing := Params(done, current * 10 + DigitValue(c)))
      else if c == ';' then t.(parsing := Params(done + [current], 0))
      else if c == 'm' then t.(parsing := Ground, attrs := ApplySgr(t.attrs, done + [current]))
      else if c == 'H' then t.(parsing := Ground, shown := t.shown + [Position(done + [current])])
      else if c == '?' && done == [] && current == 0 then t.(parsing := Private([], 0))
      else t.(parsing := Ground)
    case Private(done, current) =>
      if IsDigit(c) then t.(parsing := Private(done, current * 10 + DigitValue(c)))
      else if c == ';' then t.(parsing := Private(done + [current], 0))
      else if c == 'h' || c == 'l' then t.(parsing := Ground, shown := t.shown + Modes(done + [current], c == 'h'))
      else t.(parsing := Ground)
  }

  function Feed(t: Terminal, text: string): Terminal {
    if text == "" then t else Read(Feed(t, text[..|text| - 1]), text[|text| - 1])
  }

  function Start(shown: seq<Shown>): Terminal {
    Terminal(Ground, DEFAULT_ATTRS, shown)
  }

  lemma {:induction false} FeedConcat(t: Terminal, a: string, b: string)
    ensures Feed(t, a + b) == Feed(Feed(t, a), b)
  {
    if b == "" {
      assert a + b == a;
    } else {
      FeedConcat(t, a, b[..|b| - 1]);
      assert (a + b)[..|a + b| - 1] == a + b[..|b| - 1];
    }
  }

  lemma FeedOne(t: Terminal, c: char)
    ensures Feed(t, [c]) == Read(t, c)
  {
    assert [c][..0] == "";
  }

  // ---------------------------------------------------------------- what a cell looks like

  /** The four colour modes of the terminal's cells, with the values each can hold. */
  predicate ValidColor(mode: nat, color: int) {
    || mode == MODE_DEFAULT
    || (mode == MODE_P16 && 0 <= color < 16)
    || (mode == MODE_P256 && 0 <= color < 256)
    || (mode == MODE_RGB && 0 <= color < 0x100_0000)
  }

  predicate Printable(s: string) {
    forall i :: 0 <= i < |s| ==> s[i] as int >= 0x20
  }

  predicate ValidCell(cell: Cell) {
    ValidColor(cell.fgMode, cell.fg) && ValidColor(cell.bgMode, cell.bg) && Printable(cell.chars)
  }

  predicate ValidLine(line: Line) {
    forall i :: 0 <= i < |line| ==> ValidCell(line[i])
  }

  function ColorOf(mode: nat, color: int): Color
    requires ValidColor(mode, color)
  {
    if mode == MODE_DEFAULT then DefaultColor
    else if mode == MODE_P16 then Palette16(color)
    else if mode == MODE_P256 then Palette256(color)
    else Rgb(color / 0x1_0000, color / 256 % 256, color % 256)
  }

  function AttrsOf(cell: Cell): Attrs
    requires ValidCell(cell)
  {
    Attrs(cell.bold, cell.italic, cell.underline, ColorOf(cell.fgMode, cell.fg), ColorOf(cell.bgMode, cell.bg))
  }

  function Styled(s: string, a: Attrs): (r: seq<Shown>)
    ensures |r| == |s|
  {
    seq(|s|, i requires 0 <= i < |s| => Glyph(s[i], a))
  }

  /** What the line shows: every cell's characters (a blank for none) in its attributes. */
  function Look(line: Line, n: nat): seq<Shown>
    requires n <= |line| && ValidLine(line)
  {
    if n == 0 then []
    else Look(line, n - 1) + if line[n - 1].width == 0 then [] else Styled(CharsOf(line[n - 1]), AttrsOf(line[n - 1]))
  }

  /** The codes of section 8.3.117 of ECMA-48 that the serializer relies on … */
  lemma StandardCodes(a: Attrs, n: nat)
    ensures ApplyCode(a, 0) == Attrs(false, false, false, DefaultColor, DefaultColor)
    ensures ApplyCode(a, 1) == a.(bold := true) && ApplyCode(a, 3) == a.(italic := true)
    ensures ApplyCode(a, 4) == a.(underline := true)
    ensures n < 8 ==> ApplyCode(a, 30 + n) == a.(fg := Palette16(n)) && ApplyCode(a, 40 + n) == a.(bg := Palette16(n))
    ensures n < 8 ==> ApplyCode(a, 90 + n) == a.(fg := Palette16(8 + n)) && ApplyCode(a, 100 + n) == a.(bg := Palette16(8 + n))
  {
  }

  /** … and the extended colours, wherever they stand among other codes. */
  lemma ExtendedColours(a: Attrs, n: nat, r: nat, g: nat, b: nat, rest: seq<nat>)
    ensures ApplySgr(a, [38, 5, n] + rest) == ApplySgr(a.(fg := Palette256(n)), rest)
    ensures ApplySgr(a, [48, 5, n] + rest) == ApplySgr(a.(bg := Palette256(n)), rest)
    ensures ApplySgr(a, [38, 2, r, g, b] + rest) == ApplySgr(a.(fg := Rgb(r, g, b)), rest)
    ensures ApplySgr(a, [48, 2, r, g, b] + rest) == ApplySgr(a.(bg := Rgb(r, g, b)), rest)
  {
    hide ApplyCode;
    assert ([38, 5, n] + rest)[3..] == rest && ([48, 5, n] + rest)[3..] == rest;
    assert ([38, 2, r, g, b] + rest)[5..] == rest && ([48, 2, r, g, b] + rest)[5..] == rest;
  }

  // ---------------------------------------------------------------- reading back one sequence

  lemma {:induction false} FeedNumeral(t: Terminal, done: seq<nat>, n: nat)
    requires t.parsing == Params(done, 0)
    ensures Feed(t, Numeral(n)) == t.(parsing := Params(done, n))
    decreases n
  {
    var s := Numeral(n);
    if n >= 10 {
      FeedNumeral(t, done, n / 10);
      assert s[..|s| - 1] == Numeral(n / 10);
    } else {
      FeedOne(t, s[0]);
    }
  }

  lemma {:induction false} FeedJoin(t: Terminal, codes: seq<nat>)
    requires codes != [] && t.parsing == Params([], 0)
    ensures Feed(t, Join(codes)) == t.(parsing := Params(codes[..|codes| - 1], codes[|codes| - 1]))
  {
    var n := |codes| - 1;
    if n == 0 {
      FeedNumeral(t, [], codes[0]);
    } else {
      FeedJoin(t, codes[..n]);
      var head := Join(codes[..n]);
      FeedConcat(t, head, ";");
      FeedOne(Feed(t, head), ';');
      assert codes[..n][..n - 1] + [codes[n - 1]] == codes[..n];
      FeedConcat(t, head + ";", Numeral(codes[n]));
      FeedNumeral(Feed(t, head + ";"), codes[..n], codes[n]);
    }
  }

  /** A control sequence is consumed whole and changes nothing but the attributes. */
  lemma FeedCsi(t: Terminal, codes: seq<nat>)
    requires codes != [] && t.parsing == Ground
    ensures Feed(t, Csi(codes)) == t.(attrs := ApplySgr(t.attrs, codes))
  {
    hide Join, ApplySgr;
    var open: string := [ESC, '['];
    FeedJoined(t, codes);
    FeedConcat(t, open + Join(codes), "m");
    FeedOne(Feed(t, open + Join(codes)), 'm');
    assert codes[..|codes| - 1] + [codes[|codes| - 1]] == codes;
  }

  lemma {:induction false} FeedPrintable(t: Terminal, s: string)
    requires t.parsing == Ground && Printable(s)
    ensures Feed(t, s) == t.(shown := t.shown + Styled(s, t.attrs))
  {
    if s == "" {
      assert t.shown + [] == t.shown;
    } else {
      var n := |s| - 1;
      FeedPrintable(t, s[..n]);
      assert Styled(s, t.attrs) == Styled(s[..n], t.attrs) + [Glyph(s[n], t.attrs)];
    }
  }

  /** CURSOR POSITION is consumed whole. */
  lemma FeedCup(t: Terminal, row: nat, column: nat)
    requires t.parsing == Ground && row > 0 && column > 0
    ensures Feed(t, CupSequence(row, column)) == t.(shown := t.shown + [MoveTo(row, column)])
  {
    CupIsJoined(row, column);
    FeedJoined(t, [row, column]);
    var open: string := [ESC, '['];
    var before := t.(parsing := Params([row], column));
    FeedConcat(t, open + Join([row, column]), "H");
    FeedOne(before, 'H');
    hide Join, CupSequence, Feed;
  }

  lemma CupIsJoined(row: nat, column: nat)
    ensures CupSequence(row, column) == [ESC, '['] + Join([row, column]) + "H"
  {
    hide Numeral;
    var codes := [row, column];
    assert codes[..1] == [row] && Join(codes) == Numeral(row) + ";" + Numeral(column);
    var open: string := [ESC, '['];
    assert open + Numeral(row) + ";" + Numeral(column) + "H" == open + Join(codes) + "H";
  }

  lemma FeedJoined(t: Terminal, codes: seq<nat>)
    requires codes != [] && t.parsing == Ground
    ensures Feed(t, [ESC, '['] + Join(codes))
            == t.(parsing := Params(codes[..|codes| - 1], codes[|codes| - 1]))
  {
    var open: string := [ESC, '['];
    FeedOpen(t);
    FeedJoin(Feed(t, open), codes);
    FeedConcat(t, open, Join(codes));
    hide Join, Feed;
  }

  lemma FeedOpen(t: Terminal)
    requires t.parsing == Ground
    ensures Feed(t, [ESC, '[']) == t.(parsing := Params([], 0))
  {
    var open: string := [ESC, '['];
    assert open == [ESC] + ['['];
    FeedConcat(t, [ESC], ['[']);
    FeedOne(t, ESC);
    FeedOne(t.(parsing := Escape), '[');
  }

  lemma {:induction false} FeedPrivateNumeral(t: Terminal, n: nat)
    requires t.parsing == Private([], 0)
    ensures Feed(t, Numeral(n)) == t.(parsing := Private([], n))
    decreases n
  {
    var s := Numeral(n);
    if n >= 10 {
      FeedPrivateNumeral(t, n / 10);
      assert s[..|s| - 1] == Numeral(n / 10);
    } else {
      FeedOne(t, s[0]);
    }
  }

  /** So is SET MODE with a private parameter. */
  lemma FeedSetPrivate(t: Terminal, code: nat)
    requires t.parsing == Ground
    ensures Feed(t, SetPrivate(code)) == t.(shown := t.shown + [PrivateMode(code, true)])
  {
    hide Numeral;
    var open: string := [ESC, '['];
    FeedOpen(t);
    FeedConcat(t, open, "?");
    FeedOne(Feed(t, open), '?');
    FeedPrivateNumeral(Feed(t, open + "?"), code);
    FeedConcat(t, open + "?", Numeral(code));
    FeedConcat(t, open + "?" + Numeral(code), "h");
    FeedOne(Feed(t, open + "?" + Numeral(code)), 'h');
    assert [] + [code] == [code] && Modes([code], true) == [PrivateMode(code, true)];
  }

  // ---------------------------------------------------------------- a cell's codes set its attributes

  lemma ApplyPlain(a: Attrs, c: nat, rest: seq<nat>)
    requires c != 38 && c != 48
    ensures ApplySgr(a, [c] + rest) == ApplySgr(ApplyCode(a, c), rest)
  {
    hide ApplyCode;
    assert ([c] + rest)[1..] == rest;
  }

  lemma ApplyColor(a: Attrs, mode: nat, color: int, foreground: bool, rest: seq<nat>)
    requires ValidColor(mode, color)
    requires (if foreground then a.fg else a.bg) == DefaultColor
    ensures ApplySgr(a, ColorSgr(mode, color, foreground) + rest)
            == ApplySgr(WithColor(a, foreground, ColorOf(mode, color)), rest)
  {
    var codes := ColorSgr(mode, color, foreground);
    if mode == MODE_DEFAULT || mode == MODE_P16 {
      if mode == MODE_P16 {
        ApplyPlain(a, codes[0], rest);
      } else {
        assert codes + rest == rest;
      }
    } else if mode == MODE_P256 {
      assert (codes + rest)[3..] == rest;
    } else {
      assert (codes + rest)[5..] == rest;
    }
  }

  lemma ApplyFlag(a: Attrs, on: bool, c: nat, rest: seq<nat>)
    requires c != 38 && c != 48
    ensures ApplySgr(a, (if on then [c] else []) + rest) == ApplySgr(if on then ApplyCode(a, c) else a, rest)
  {
    if on {
      ApplyPlain(a, c, rest);
    } else {
      assert [] + rest == rest;
    }
  }

  lemma CodesSetAttrs(cell: Cell)
    requires ValidCell(cell)
    ensures ApplySgr(DEFAULT_ATTRS, CellCodes(cell)) == AttrsOf(cell)
  {
    hide ApplySgr, ColorSgr, ColorOf;
    var fg, bg := ColorSgr(cell.fgMode, cell.fg, true), ColorSgr(cell.bgMode, cell.bg, false);
    var b, i, u := if cell.bold then [1] else [], if cell.italic then [3] else [], if cell.underline then [4] else [];
    assert CellCodes(cell) == b + (i + (u + (fg + (bg + []))));
    var a0 := DEFAULT_ATTRS;
    ApplyFlag(a0, cell.bold, 1, i + (u + (fg + (bg + []))));
    var a1 := if cell.bold then ApplyCode(a0, 1) else a0;
    ApplyFlag(a1, cell.italic, 3, u + (fg + (bg + [])));
    var a2 := if cell.italic then ApplyCode(a1, 3) else a1;
    ApplyFlag(a2, cell.underline, 4, fg + (bg + []));
    var a3 := if cell.underline then ApplyCode(a2, 4) else a2;
    ApplyColor(a3, cell.fgMode, cell.fg, true, bg + []);
    var a4 := WithColor(a3, true, ColorOf(cell.fgMode, cell.fg));
    ApplyColor(a4, cell.bgMode, cell.bg, false, []);
    NothingToApply(WithColor(a4, false, ColorOf(cell.bgMode, cell.bg)));
  }

  lemma NothingToApply(a: Attrs)
    ensures ApplySgr(a, []) == a
  {
  }

  /** Only a cell in default attributes has no codes. */
  lemma NoCodesIffDefault(cell: Cell)
    requires ValidCell(cell)
    ensures CellCodes(cell) == [] <==> AttrsOf(cell) == DEFAULT_ATTRS
    ensures HasSerializedAttrs(cell) <==> AttrsOf(cell) != DEFAULT_ATTRS
    ensures CellSgr(cell) == "" <==> CellCodes(cell) == []
  {
    var fg, bg := ColorSgr(cell.fgMode, cell.fg, true), ColorSgr(cell.bgMode, cell.bg, false);
    assert fg == [] <==> ColorOf(cell.fgMode, cell.fg) == DefaultColor;
    assert bg == [] <==> ColorOf(cell.bgMode, cell.bg) == DefaultColor;
    assert |CellCodes(cell)| == (if cell.bold then 1 else 0) + (if cell.italic then 1 else 0) +
                                (if cell.underline then 1 else 0) + |fg| + |bg|;
  }

  // ---------------------------------------------------------------- round trip of a line

  /** What the terminal is in after reading what was emitted so far. */
  predicate InStep(e: Emitted, line: Line, n: nat, shown: seq<Shown>)
    requires n <= |line| && ValidLine(line)
  {
    && (e.previous.Some? ==> ValidCell(e.previous.value))
    && var attrs := if e.previous.Some? then AttrsOf(e.previous.value) else DEFAULT_ATTRS;
       && (e.hasAttrs <==> attrs != DEFAULT_ATTRS)
       && Feed(Start(shown), e.text) == Terminal(Ground, attrs, shown + Look(line, n))
  }

  lemma FeedReset(t: Terminal)
    requires t.parsing == Ground
    ensures Feed(t, Csi([0])) == t.(attrs := DEFAULT_ATTRS)
  {
    FeedCsi(t, [0]);
    assert ApplySgr(t.attrs, [0]) == DEFAULT_ATTRS;
  }

  lemma FeedCellSgr(t: Terminal, cell: Cell)
    requires t.parsing == Ground && t.attrs == DEFAULT_ATTRS && ValidCell(cell)
    ensures Feed(t, CellSgr(cell)) == t.(attrs := AttrsOf(cell))
  {
    hide ApplySgr, Csi, AttrsOf, CellCodes;
    NoCodesIffDefault(cell);
    CodesSetAttrs(cell);
    if CellCodes(cell) != [] {
      FeedCsi(t, CellCodes(cell));
    }
  }

  lemma CharsArePrintable(cell: Cell)
    requires ValidCell(cell)
    ensures Printable(CharsOf(cell))
  {
  }

  /** A cell in new attributes: reset if needed, select, print. */
  lemma EmitChange(e: Emitted, cell: Cell, attrs: Attrs, shown: seq<Shown>, start: Terminal)
    requires ValidCell(cell) && cell.width != 0 && !SameAttrs(e.previous, cell)
    requires e.hasAttrs <==> attrs != DEFAULT_ATTRS
    requires Feed(start, e.text) == Terminal(Ground, attrs, shown)
    ensures var f := EmitCell(e, cell);
            && f.previous == Some(cell) && (f.hasAttrs <==> AttrsOf(cell) != DEFAULT_ATTRS)
            && Feed(start, f.text) == Terminal(Ground, AttrsOf(cell), shown + Styled(CharsOf(cell), AttrsOf(cell)))
  {
    hide Feed, Csi, AttrsOf, CellSgr, CharsOf, Styled, SameAttrs, Printable;
    var reset := if e.hasAttrs then e.text + Csi([0]) else e.text;
    FeedConcat(start, e.text, Csi([0]));
    FeedReset(Feed(start, e.text));
    assert Feed(start, reset) == Terminal(Ground, DEFAULT_ATTRS, shown);
    FeedConcat(start, reset, CellSgr(cell));
    FeedCellSgr(Feed(start, reset), cell);
    FeedConcat(start, reset + CellSgr(cell), CharsOf(cell));
    CharsArePrintable(cell);
    FeedPrintable(Feed(start, reset + CellSgr(cell)), CharsOf(cell));
    NoCodesIffDefault(cell);
  }

  lemma SameAttrsLookTheSame(left: Cell, right: Cell)
    requires SameAttrs(Some(left), right) && ValidCell(left) && ValidCell(right)
    ensures AttrsOf(left) == AttrsOf(right)
  {
  }

  lemma {:induction false} EmitCellsInStep(line: Line, n: nat, shown: seq<Shown>)
    requires n <= |line| && ValidLine(line)
    ensures InStep(EmitCells(line, n), line, n, shown)
  {
    hide ValidCell, AttrsOf, Styled, CharsOf, SameAttrs, EmitCell;
    if n == 0 {
      assert shown + [] == shown;
    } else {
      EmitCellsInStep(line, n - 1, shown);
      assert ValidCell(line[n - 1]);
      EmitCellInStep(EmitCells(line, n - 1), line, n, shown);
    }
  }

  lemma EmitCellInStep(e: Emitted, line: Line, n: nat, shown: seq<Shown>)
    requires 0 < n <= |line| && ValidLine(line) && InStep(e, line, n - 1, shown)
    ensures InStep(EmitCell(e, line[n - 1]), line, n, shown)
  {
    hide ValidCell, AttrsOf, Styled, CharsOf, SameAttrs, Feed, Csi, CellSgr;
    var cell, before := line[n - 1], Look(line, n - 1);
    assert ValidCell(cell);
    var attrs := if e.previous.Some? then AttrsOf(e.previous.value) else DEFAULT_ATTRS;
    assert shown + before + Styled(CharsOf(cell), AttrsOf(cell)) == shown + (before + Styled(CharsOf(cell), AttrsOf(cell)));
    if cell.width == 0 {
      assert before + [] == before;
    } else if SameAttrs(e.previous, cell) {
      assert e.previous.Some? by { OnlySome(e.previous, cell); }
      SameAttrsLookTheSame(e.previous.value, cell);
      FeedConcat(Start(shown), e.text, CharsOf(cell));
      CharsArePrintable(cell);
      FeedPrintable(Feed(Start(shown), e.text), CharsOf(cell));
    } else {
      EmitChange(e, cell, attrs, shown + before, Start(shown));
    }
  }

  lemma OnlySome(left: Option<Cell>, right: Cell)
    requires SameAttrs(left, right)
    ensures left.Some?
  {
  }

  function Blanks(n: nat): seq<Shown> {
    seq(n, _ => Glyph(' ', DEFAULT_ATTRS))
  }

  lemma InvisibleIsBlank(cell: Cell)
    requires ValidCell(cell) && cell.width != 0 && !Visible(cell)
    ensures Styled(CharsOf(cell), AttrsOf(cell)) == Blanks(1)
  {
    NoCodesIffDefault(cell);
    hide AttrsOf, HasSerializedAttrs;
  }

  lemma BlanksAdd(a: nat, b: nat)
    ensures Blanks(a) + Blanks(b) == Blanks(a + b) && |Blanks(a + b)| == a + b
  {
  }

  /** What the trimmed end of a line would have shown: blanks in default attributes. */
  lemma {:induction false} TrimmedIsBlank(line: Line, n: nat)
    requires n <= |line| && ValidLine(line)
    ensures OnlyBlanksAfter(Look(line, n), Look(line, ContentEnd(line, n)))
  {
    hide ValidCell, AttrsOf, Styled, CharsOf, Visible, Blanks;
    if n == 0 || Visible(line[n - 1]) {
      assert Blanks(0) == [] by { NoBlanks(); }
    } else {
      TrimmedIsBlank(line, n - 1);
      var cell := line[n - 1];
      assert ValidCell(cell);
      if cell.width != 0 {
        var content := Look(line, ContentEnd(line, n));
        var before := |Look(line, n - 1)| - |content|;
        InvisibleIsBlank(cell);
        BlanksAdd(before, 1);
        BlanksAdd(0, 1);
        ConcatAssociates(content, Blanks(before), Blanks(1));
      }
    }
  }

  predicate OnlyBlanksAfter(all: seq<Shown>, content: seq<Shown>) {
    |content| <= |all| && all == content + Blanks(|all| - |content|)
  }

  lemma NoBlanks()
    ensures Blanks(0) == []
  {
  }

  /** Main result: reading a serialized line from default attributes shows exactly the line, its
      trimmed end being default blanks, and ends in default attributes. */
  lemma RoundTrip(line: Line, shown: seq<Shown>)
    requires ValidLine(line)
    ensures var content := Look(line, ContentEnd(line, |line|));
            && Feed(Start(shown), Serialized(Some(line))) == Start(shown + content)
            && OnlyBlanksAfter(Look(line, |line|), content)
  {
    hide Feed, Look, Csi, AttrsOf;
    TrimmedIsBlank(line, |line|);
    var end := ContentEnd(line, |line|);
    var e := EmitCells(line, end);
    EmitCellsInStep(line, end, shown);
    if e.hasAttrs {
      FeedConcat(Start(shown), e.text, Csi([0]));
      FeedReset(Feed(Start(shown), e.text));
    }
  }

  // ---------------------------------------------------------------- the tail of a line

  /** Read from the middle, `s` still leaves the terminal between sequences, in default attributes or
      in those that the whole of `s` would have left. */
  ghost predicate Settles(s: string) {
    forall i :: 0 <= i <= |s| ==>
      var u := Feed(Start([]), s[i..]);
      u.parsing == Ground && (u.attrs == DEFAULT_ATTRS || u.attrs == Feed(Start([]), s).attrs)
  }

  /** A suffix of `s + x` is a suffix of `s` and then `x`, or a suffix of `x`. */
  lemma SuffixOfConcat(s: string, x: string, i: nat)
    requires i <= |s + x|
    ensures (s + x)[i..] == if i <= |s| then s[i..] + x else x[i - |s|..]
  {
  }

  lemma NothingSettles()
    ensures Settles("")
  {
  }

  lemma SettlesAt(s: string, i: nat)
    requires Settles(s) && i <= |s|
    ensures var u := Feed(Start([]), s[i..]);
            u.parsing == Ground && (u.attrs == DEFAULT_ATTRS || u.attrs == Feed(Start([]), s).attrs)
  {
  }

  lemma PrintableSettles(s: string, x: string)
    requires Settles(s) && Printable(x)
    ensures Settles(s + x)
  {
    hide Feed, Settles;
    assert s[0..] == s;
    SettlesAt(s, 0);
    FeedConcat(Start([]), s, x);
    FeedPrintable(Feed(Start([]), s), x);
    forall i | 0 <= i <= |s + x|
      ensures var u := Feed(Start([]), (s + x)[i..]);
              u.parsing == Ground && (u.attrs == DEFAULT_ATTRS || u.attrs == Feed(Start([]), s + x).attrs)
    {
      SuffixOfConcat(s, x, i);
      if i <= |s| {
        SettlesAt(s, i);
        FeedConcat(Start([]), s[i..], x);
        FeedPrintable(Feed(Start([]), s[i..]), x);
      } else {
        FeedPrintable(Start([]), x[i - |s|..]);
      }
    }
    SettlesIf(s + x);
  }

  lemma SettlesIf(s: string)
    requires forall i :: 0 <= i <= |s| ==>
               var u := Feed(Start([]), s[i..]);
               u.parsing == Ground && (u.attrs == DEFAULT_ATTRS || u.attrs == Feed(Start([]), s).attrs)
    ensures Settles(s)
  {
  }

  lemma {:induction false} NumeralIsPrintable(n: nat)
    ensures Printable(Numeral(n))
    decreases n
  {
    if n >= 10 {
      NumeralIsPrintable(n / 10);
    }
  }

  lemma {:induction false} JoinIsPrintable(codes: seq<nat>)
    requires codes != []
    ensures Printable(Join(codes))
  {
    hide Numeral;
    NumeralIsPrintable(codes[|codes| - 1]);
    if |codes| > 1 {
      JoinIsPrintable(codes[..|codes| - 1]);
    }
  }

  /** Everything of a control sequence but its first character is printable. */
  lemma RestOfCsiIsPrintable(codes: seq<nat>, i: nat)
    requires codes != [] && 0 < i <= |Csi(codes)|
    ensures Printable(Csi(codes)[i..])
  {
    JoinIsPrintable(codes);
    hide Join;
  }

  lemma CsiSettles(s: string, codes: seq<nat>)
    requires Settles(s) && codes != []
    requires codes == [0] || Feed(Start([]), s).attrs == DEFAULT_ATTRS
    ensures Settles(s + Csi(codes))
  {
    hide Feed, Settles, Csi;
    var x := Csi(codes);
    assert s[0..] == s;
    SettlesAt(s, 0);
    FeedConcat(Start([]), s, x);
    FeedCsi(Feed(Start([]), s), codes);
    assert forall a: Attrs :: ApplySgr(a, [0]) == DEFAULT_ATTRS;
    hide ApplySgr;
    forall i | 0 <= i <= |s + x|
      ensures var u := Feed(Start([]), (s + x)[i..]);
              u.parsing == Ground && (u.attrs == DEFAULT_ATTRS || u.attrs == Feed(Start([]), s + x).attrs)
    {
      SuffixOfConcat(s, x, i);
      if i <= |s| {
        SettlesAt(s, i);
        FeedConcat(Start([]), s[i..], x);
        FeedCsi(Feed(Start([]), s[i..]), codes);
      } else {
        RestOfCsiIsPrintable(codes, i - |s|);
        FeedPrintable(Start([]), x[i - |s|..]);
      }
    }
    SettlesIf(s + x);
  }

  lemma CellSgrSettles(s: string, cell: Cell)
    requires Settles(s) && Feed(Start([]), s).attrs == DEFAULT_ATTRS
    ensures Settles(s + CellSgr(cell))
  {
    hide Settles, Csi, CellCodes;
    if CellCodes(cell) == [] {
      assert s + "" == s;
    } else {
      CsiSettles(s, CellCodes(cell));
    }
  }

  /** The text emitted so far settles. */
  lemma EmitSettles(e: Emitted, cell: Cell, attrs: Attrs, shown: seq<Shown>)
    requires ValidCell(cell) && Settles(e.text)
    requires e.hasAttrs <==> attrs != DEFAULT_ATTRS
    requires Feed(Start([]), e.text) == Terminal(Ground, attrs, shown)
    ensures Settles(EmitCell(e, cell).text)
  {
    hide Feed, Settles, Csi, CellSgr, CharsOf, SameAttrs, Printable;
    CharsArePrintable(cell);
    if SameAttrs(e.previous, cell) {
      PrintableSettles(e.text, CharsOf(cell));
    } else {
      var reset := if e.hasAttrs then e.text + Csi([0]) else e.text;
      CsiSettles(e.text, [0]);
      FeedConcat(Start([]), e.text, Csi([0]));
      FeedReset(Feed(Start([]), e.text));
      CellSgrSettles(reset, cell);
      PrintableSettles(reset + CellSgr(cell), CharsOf(cell));
    }
  }

  lemma {:induction false} EmitCellsSettle(line: Line, n: nat)
    requires n <= |line| && ValidLine(line)
    ensures Settles(EmitCells(line, n).text)
  {
    hide ValidCell, EmitCell, Settles, Feed, Look, AttrsOf;
    if n == 0 {
      NothingSettles();
    } else {
      EmitCellsSettle(line, n - 1);
      EmitCellsInStep(line, n - 1, []);
      var e := EmitCells(line, n - 1);
      assert ValidCell(line[n - 1]);
      var attrs := if e.previous.Some? then AttrsOf(e.previous.value) else DEFAULT_ATTRS;
      EmitSettles(e, line[n - 1], attrs, [] + Look(line, n - 1));
    }
  }

  /** What reading `text` from the beginning makes a terminal do. */
  function ShownBy(text: string): seq<Shown> {
    Feed(Start([]), text).shown
  }

  /** Main result: whatever tail of a serialized line is read, even one that begins inside a control
      sequence, the terminal is left between sequences and in default attributes. */
  lemma TailSettles(line: Line, i: nat)
    requires ValidLine(line) && i <= |Serialized(Some(line))|
    ensures var tail := Serialized(Some(line))[i..]; Feed(Start([]), tail) == Start(ShownBy(tail))
  {
    hide Feed, Settles, Look, Csi, AttrsOf, EmitCells, ValidLine;
    var n := ContentEnd(line, |line|);
    var e := EmitCells(line, n);
    EmitCellsSettle(line, n);
    EmitCellsInStep(line, n, []);
    if e.hasAttrs {
      CsiSettles(e.text, [0]);
      FeedConcat(Start([]), e.text, Csi([0]));
      FeedReset(Feed(Start([]), e.text));
    }
    SettlesAt(Serialized(Some(line)), i);
  }

  /** What was shown before does not matter to what is read. */
  lemma {:induction false} FeedAfter(p: Parsing, a: Attrs, x: seq<Shown>, y: seq<Shown>, s: string)
    ensures var r := Feed(Terminal(p, a, y), s); Feed(Terminal(p, a, x + y), s) == Terminal(r.parsing, r.attrs, x + r.shown)
  {
    hide ApplySgr, Modes, Position;
    if s != "" {
      FeedAfter(p, a, x, y, s[..|s| - 1]);
      ReadAfter(Feed(Terminal(p, a, y), s[..|s| - 1]), x, s[|s| - 1]);
    }
  }

  lemma ReadAfter(t: Terminal, x: seq<Shown>, c: char)
    ensures var r := Read(t, c); Read(t.(shown := x + t.shown), c) == r.(shown := x + r.shown)
  {
    hide ApplySgr, Modes, Position;
    forall y: seq<Shown> ensures x + t.shown + y == x + (t.shown + y) {
      ConcatAssociates(x, t.shown, y);
    }
  }

  // ---------------------------------------------------------------- lines under the CRLF join

  function JoinLines(texts: seq<string>): string {
    if |texts| == 0 then "" else if |texts| == 1 then texts[0]
    else JoinLines(texts[..|texts| - 1]) + CRLF + texts[|texts| - 1]
  }

  function LineBreak(): seq<Shown> {
    [Control(CRLF[0]), Control(CRLF[1])]
  }

  function Looks(lines: seq<Line>): seq<Shown>
    requires forall i :: 0 <= i < |lines| ==> ValidLine(lines[i])
  {
    if |lines| == 0 then []
    else
      var n := |lines| - 1;
      (if n == 0 then [] else Looks(lines[..n]) + LineBreak()) + Look(lines[n], ContentEnd(lines[n], |lines[n]|))
  }

  function SerializedAll(lines: seq<Line>): (r: seq<string>)
    ensures |r| == |lines|
  {
    seq(|lines|, i requires 0 <= i < |lines| => Serialized(Some(lines[i])))
  }

  lemma FeedBreak(shown: seq<Shown>)
    ensures Feed(Start(shown), CRLF) == Start(shown + LineBreak())
  {
    assert CRLF[..1][..0] == "" && CRLF[..1][0] == CRLF[0];
    assert Feed(Start(shown), CRLF[..1]) == Read(Start(shown), CRLF[0]);
    assert shown + [Control(CRLF[0])] + [Control(CRLF[1])] == shown + LineBreak();
  }

  lemma LooksGrow(lines: seq<Line>, shown: seq<Shown>)
    requires |lines| > 1 && forall i :: 0 <= i < |lines| ==> ValidLine(lines[i])
    ensures var last := lines[|lines| - 1];
            shown + Looks(lines) ==
            shown + Looks(lines[..|lines| - 1]) + LineBreak() + Look(last, ContentEnd(last, |last|))
  {
    hide Look, ValidLine;
    var last, head := lines[|lines| - 1], Looks(lines[..|lines| - 1]);
    var look := Look(last, ContentEnd(last, |last|));
    ConcatAssociates(shown, head, LineBreak());
    ConcatAssociates(shown, head + LineBreak(), look);
  }

  /** Lines compose: joined by CRLF, each shows what it shows alone. */
  lemma {:induction false} LinesCompose(lines: seq<Line>, shown: seq<Shown>)
    requires forall i :: 0 <= i < |lines| ==> ValidLine(lines[i])
    ensures Feed(Start(shown), JoinLines(SerializedAll(lines))) == Start(shown + Looks(lines))
  {
    hide ValidLine, Serialized, Look, Read, OnlyBlanksAfter, LineBreak, Feed, ContentEnd;
    var texts := SerializedAll(lines);
    if |lines| == 0 {
      assert shown + [] == shown;
      FeedNothing(Start(shown));
    } else {
      var n := |lines| - 1;
      if n == 0 {
        RoundTrip(lines[0], shown);
      } else {
        LinesCompose(lines[..n], shown);
        assert texts[..n] == SerializedAll(lines[..n]);
        var head := JoinLines(texts[..n]);
        FeedConcat(Start(shown), head, CRLF);
        FeedBreak(shown + Looks(lines[..n]));
        FeedConcat(Start(shown), head + CRLF, texts[n]);
        RoundTrip(lines[n], shown + Looks(lines[..n]) + LineBreak());
        LooksGrow(lines, shown);
      }
    }
  }

  lemma FeedNothing(t: Terminal)
    ensures Feed(t, "") == t
  {
  }
}
