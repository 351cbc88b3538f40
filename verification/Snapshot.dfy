/** The byte-budgeted snapshot of a headless terminal: as many of the last lines as fit, a tail of
    the line before them, and the cursor put back where it was. */
module Snapshot {
  import opened Wrappers
  import opened Utf8
  import opened Decimal
  import opened Sgr

  datatype Options = Options(scrollbackLines: nat, rows: nat, maxBytes: nat)

  datatype MouseTracking = NoTracking | X10 | Vt200 | Drag | AnyMotion

  datatype MouseEncoding = DefaultEncoding | SgrEncoding | SgrPixels

  /** What the snapshot reads of the terminal. */
  datatype Buffer = Buffer(lines: seq<Line>, baseY: nat, cursorY: nat, cursorX: int, cols: nat, tracking: MouseTracking,
                           encoding: MouseEncoding)

  /** The private modes that bring a fresh terminal into the buffer's mouse state. */
  function MouseModes(b: Buffer): seq<nat> {
    TrackingModes(b.tracking) + EncodingModes(b.encoding)
  }

  function TrackingModes(t: MouseTracking): seq<nat> {
    match t
    case NoTracking => []
    case X10 => [9]
    case Vt200 => [1000]
    case Drag => [1002]
    case AnyMotion => [1003]
  }

  function EncodingModes(e: MouseEncoding): seq<nat> {
    match e
    case DefaultEncoding => []
    case SgrEncoding => [1006]
    case SgrPixels => [1016]
  }

  function SetAll(codes: seq<nat>): string {
    if codes == [] then "" else SetAll(codes[..|codes| - 1]) + SetPrivate(codes[|codes| - 1])
  }

  /** `terminalModePrologue`. */
  function Prologue(b: Buffer): string {
    SetAll(MouseModes(b))
  }

  datatype Row = Row(bufferIndex: nat, text: string, complete: bool)

  /** CURSOR POSITION (section 8.3.21 of ECMA-48). */
  datatype CursorPosition = CursorPosition(row: nat, column: nat)

  datatype Snapshot = Snapshot(text: string, snapshotBytes: nat, bufferLines: nat, emittedLines: nat)

  function Min(a: int, b: int): int { if a <= b then a else b }

  function Max(a: int, b: int): int { if a >= b then a else b }

  function ClampInteger(value: int, min: int, max: int): int {
    Min(Max(value, min), max)
  }

  /** Where the cursor would be left after a line is printed. */
  function LineCursorEndColumn(line: Line, n: nat): nat
    requires n <= |line|
  {
    if n == 0 then 0
    else if line[n - 1].width == 0 || CharsOf(line[n - 1]) == " " then LineCursorEndColumn(line, n - 1)
    else Min(|line| - 1, n - 1 + Max(1, line[n - 1].width))
  }

  predicate LineHasContent(line: Line) {
    exists i :: 0 <= i < |line| && Visible(line[i])
  }

  function Texts(rows: seq<Row>): (r: seq<string>)
    ensures |r| == |rows|
  {
    seq(|rows|, i requires 0 <= i < |rows| => rows[i].text)
  }

  function LineText(lines: seq<Line>, i: nat): string
    requires i < |lines|
  {
    Serialized(Some(lines[i]))
  }

  /** The bytes a line costs in front of `rows` that are there already. */
  function Separator(rows: seq<Row>): nat {
    if rows == [] then 0 else 2
  }

  function JoinedBytes(rows: seq<Row>): nat {
    ByteLength(JoinLines(Texts(rows)))
  }

  // ---------------------------------------------------------------- joining at the front

  lemma {:induction false} JoinInFront(t: string, ts: seq<string>)
    requires ts != []
    ensures JoinLines([t] + ts) == t + CRLF + JoinLines(ts)
  {
    var n := |ts| - 1;
    var all := [t] + ts;
    if n == 0 {
      assert all[..1] == [t];
    } else {
      JoinInFront(t, ts[..n]);
      assert all[..|all| - 1] == [t] + ts[..n];
      assert t + CRLF + JoinLines(ts[..n]) + CRLF + ts[n] == t + CRLF + (JoinLines(ts[..n]) + CRLF + ts[n]);
    }
  }

  lemma CrlfBytes()
    ensures ByteLength(CRLF) == 2
  {
    assert CRLF[1..][1..] == "";
    assert Encode(CRLF[1..]) == EncodeChar(CRLF[1]) + Encode("");
    assert Encode(CRLF) == EncodeChar(CRLF[0]) + Encode(CRLF[1..]);
  }

  lemma BytesInFront(row: Row, rows: seq<Row>)
    ensures JoinedBytes([row] + rows) == ByteLength(row.text) + Separator(rows) + JoinedBytes(rows)
  {
    hide Encode, EncodeChar;
    assert Texts([row] + rows) == [row.text] + Texts(rows);
    if rows == [] {
      assert [row.text] + Texts(rows) == [row.text];
      assert Texts(rows) == [];
      assert JoinLines([]) == "" && Encode("") == [] by { EmptyBytes(); }
    } else {
      JoinInFront(row.text, Texts(rows));
      EncodeConcat(row.text + CRLF, JoinLines(Texts(rows)));
      EncodeConcat(row.text, CRLF);
      CrlfBytes();
    }
  }

  lemma EmptyBytes()
    ensures JoinLines([]) == "" && Encode("") == []
  {
  }

  // ---------------------------------------------------------------- which rows are emitted

  /** Complete rows for the buffer lines `from..end`. */
  ghost predicate CompleteRows(lines: seq<Line>, from: nat, end: nat, rows: seq<Row>) {
    && from <= end <= |lines| && |rows| == end - from
    && forall i :: 0 <= i < |rows| ==> rows[i] == Row(from + i, LineText(lines, from + i), true)
  }

  /** The rows are the lines from `from` on, complete, and before them what fits of the line that would
      not have fitted whole. */
  ghost predicate BestFrom(lines: seq<Line>, start: nat, end: nat, maxBytes: nat, rows: seq<Row>, from: nat,
                           complete: seq<Row>) {
    && start <= from && CompleteRows(lines, from, end, complete)
    && JoinedBytes(complete) <= maxBytes && JoinedBytes(rows) <= maxBytes
    && (if from == start then rows == complete
        else
          var line := LineText(lines, from - 1);
          var left := maxBytes - JoinedBytes(complete) - Separator(complete);
          && ByteLength(line) > left
          && rows == if left > 0 && TailText(line, left) != "" then
                       [Row(from - 1, TailText(line, left), false)] + complete
                     else complete)
  }

  /** The rows are the lines before `end`, complete except possibly the first; they fit; the line
      before the complete ones would not have fitted whole; and if part of it fitted, its longest
      tail that does is there. */
  ghost predicate BestRows(lines: seq<Line>, start: nat, end: nat, maxBytes: nat, rows: seq<Row>) {
    exists from: nat, complete: seq<Row> :: BestFrom(lines, start, end, maxBytes, rows, from, complete)
  }

  method CollectRows(lines: seq<Line>, start: nat, end: nat, maxBytes: nat) returns (rows: seq<Row>)
    requires start <= end <= |lines|
    ensures BestRows(lines, start, end, maxBytes, rows)
  {
    hide Encode, Serialized, TailText, JoinLines;
    rows := [];
    var snapshotBytes, i := 0, end;
    assert JoinedBytes([]) == 0 by { NoBytes(); }
    while i > start
      invariant start <= i <= end && CompleteRows(lines, i, end, rows)
      invariant snapshotBytes == JoinedBytes(rows) <= maxBytes
    {
      var line := LineText(lines, i - 1);
      var separatorBytes := if rows == [] then 0 else 2;
      var lineBytes := ByteLength(line);
      var nextBytes := snapshotBytes + separatorBytes + lineBytes;
      if nextBytes > maxBytes {
        var remainingBytes := maxBytes - snapshotBytes - separatorBytes;
        ghost var complete := rows;
        if remainingBytes > 0 {
          var partialLine := Utf8Tail(line, remainingBytes);
          if |partialLine| > 0 {
            BytesInFront(Row(i - 1, partialLine, false), rows);
            rows := [Row(i - 1, partialLine, false)] + rows;
          }
        }
        assert BestFrom(lines, start, end, maxBytes, rows, i, complete);
        return;
      }
      BytesInFront(Row(i - 1, line, true), rows);
      rows := [Row(i - 1, line, true)] + rows;
      snapshotBytes := nextBytes;
      i := i - 1;
    }
    assert BestFrom(lines, start, end, maxBytes, rows, start, rows);
  }

  lemma NoBytes()
    ensures JoinedBytes([]) == 0
  {
    assert Texts([]) == [];
  }

  /** Consecutive buffer lines, the last of them just before `end`. */
  predicate Consecutive(rows: seq<Row>, end: nat) {
    |rows| <= end && forall i :: 0 <= i < |rows| ==> rows[i].bufferIndex == end - |rows| + i
  }

  /** What a reader may use of it: consecutive lines up to `end`, complete after the first. */
  lemma RowsAreConsecutive(lines: seq<Line>, start: nat, end: nat, maxBytes: nat, rows: seq<Row>)
    ensures BestRows(lines, start, end, maxBytes, rows) ==>
              && |rows| <= end - start && end <= |lines| && Consecutive(rows, end)
              && (forall i :: 1 <= i < |rows| ==> rows[i].complete)
              && (forall i :: 0 <= i < |rows| && rows[i].complete ==>
                    rows[i].text == LineText(lines, end - |rows| + i))
              && JoinedBytes(rows) <= maxBytes
  {
    hide JoinedBytes, LineText, TailText, Encode;
  }

  function CompletePart(rows: seq<Row>): seq<Row> {
    if rows != [] && !rows[0].complete then rows[1..] else rows
  }

  /** Maximality: one more complete line would not have fitted. */
  lemma NoFurtherLineFits(lines: seq<Line>, start: nat, end: nat, maxBytes: nat, rows: seq<Row>)
    ensures BestRows(lines, start, end, maxBytes, rows) && |CompletePart(rows)| < end - start ==>
              var next := end - |CompletePart(rows)| - 1;
              next < |lines| &&
              JoinedBytes([Row(next, LineText(lines, next), true)] + CompletePart(rows)) > maxBytes
  {
    hide JoinedBytes, LineText, TailText, Encode;
    if BestRows(lines, start, end, maxBytes, rows) {
      var from: nat, complete: seq<Row> :| BestFrom(lines, start, end, maxBytes, rows, from, complete);
      if from > start {
        BytesInFront(Row(from - 1, LineText(lines, from - 1), true), complete);
      }
    }
  }

  // ---------------------------------------------------------------- the cursor

  function Cup(p: CursorPosition): string {
    CupSequence(p.row, p.column)
  }

  /** The position to restore, if the cursor's row is shown whole and the cursor is not there. */
  function CursorRestore(rows: seq<Row>, screenRows: nat, cursorAbsY: nat, cursorX: nat, naturalX: nat)
    : Option<CursorPosition>
  {
    if rows == [] then None
    else
      var first, last := rows[0].bufferIndex, rows[|rows| - 1].bufferIndex;
      var visibleStart := Max(0, |rows| - screenRows);
      var visibleCursorRow := cursorAbsY - first - visibleStart;
      var naturalRow := Min(|rows| - 1, screenRows - 1);
      var rowComplete := exists i :: 0 <= i < |rows| && rows[i].bufferIndex == cursorAbsY && rows[i].complete &&
                                     forall j :: 0 <= j < i ==> rows[j].bufferIndex != cursorAbsY;
      var visible := rowComplete && first <= cursorAbsY <= last && 0 <= visibleCursorRow < screenRows;
      if visible && (visibleCursorRow != naturalRow || cursorX != naturalX) then
        Some(CursorPosition(visibleCursorRow + 1, cursorX + 1))
      else None
  }

  /** The first of the emitted rows that the screen shows. */
  function FirstVisible(rows: seq<Row>, screenRows: nat): nat {
    Max(0, |rows| - screenRows)
  }

  /** Row `k` is on the screen, holds the cursor's line whole, and the cursor is not where printing
      the rows has left it. */
  predicate CursorIsElsewhere(rows: seq<Row>, screenRows: nat, cursorAbsY: nat, cursorX: nat, naturalX: nat, k: nat) {
    && FirstVisible(rows, screenRows) <= k < |rows|
    && rows[k].bufferIndex == cursorAbsY && rows[k].complete
    && (k != |rows| - 1 || cursorX != naturalX)
  }

  /** The cursor is put back exactly if it is needed, and the position names the row that holds it. */
  lemma RestoreNamesTheCursorRow(rows: seq<Row>, end: nat, screenRows: nat, cursorAbsY: nat, cursorX: nat, naturalX: nat)
    requires Consecutive(rows, end)
    ensures var p := CursorRestore(rows, screenRows, cursorAbsY, cursorX, naturalX);
            && (p.Some? <==> exists k :: CursorIsElsewhere(rows, screenRows, cursorAbsY, cursorX, naturalX, k))
            && (p.Some? ==>
                  && 1 <= p.value.row <= screenRows && p.value.column == cursorX + 1
                  && CursorIsElsewhere(rows, screenRows, cursorAbsY, cursorX, naturalX,
                                       FirstVisible(rows, screenRows) + p.value.row - 1))
  {
    forall k | CursorIsElsewhere(rows, screenRows, cursorAbsY, cursorX, naturalX, k)
      ensures CursorRestore(rows, screenRows, cursorAbsY, cursorX, naturalX).Some?
    {
      assert forall j :: 0 <= j < k ==> rows[j].bufferIndex != cursorAbsY;
      assert cursorAbsY - rows[0].bufferIndex == k;
    }
    var p := CursorRestore(rows, screenRows, cursorAbsY, cursorX, naturalX);
    if p.Some? {
      assert CursorIsElsewhere(rows, screenRows, cursorAbsY, cursorX, naturalX,
                               FirstVisible(rows, screenRows) + p.value.row - 1);
    }
  }

  // ---------------------------------------------------------------- the snapshot

  /** Trailing lines are dropped only below the cursor, only while the whole buffer fits the
      screen, and only if they have no content. */
  ghost predicate DropsOnlyBlanks(b: Buffer, o: Options, start: nat, end: nat) {
    && start <= end <= |b.lines|
    && (|b.lines| > o.rows ==> end == |b.lines|)
    && forall i :: end <= i < |b.lines| ==> i > b.baseY + b.cursorY && !LineHasContent(b.lines[i])
  }

  /** … and every such line is dropped. */
  ghost predicate TrimmedEnd(b: Buffer, o: Options, start: nat, end: nat) {
    && DropsOnlyBlanks(b, o, start, end)
    && (|b.lines| <= o.rows && end > start ==> end - 1 <= b.baseY + b.cursorY || LineHasContent(b.lines[end - 1]))
  }

  function CursorX(b: Buffer): nat
    requires b.cols >= 1
  {
    ClampInteger(b.cursorX, 0, Max(0, b.cols - 1))
  }

  /** The position to restore, unless its sequence no longer fits. */
  ghost function FittingRestore(b: Buffer, o: Options, maxBytes: nat, rows: seq<Row>): Option<CursorPosition>
    requires b.cols >= 1 && (rows != [] ==> rows[|rows| - 1].bufferIndex < |b.lines|)
  {
    if rows == [] then None
    else
      var last := b.lines[rows[|rows| - 1].bufferIndex];
      var p := CursorRestore(rows, o.rows, b.baseY + b.cursorY, CursorX(b), LineCursorEndColumn(last, |last|));
      if p.Some? && ByteLength(JoinLines(Texts(rows)) + Cup(p.value)) <= maxBytes then p else None
  }

  /** Printing the line leaves the cursor in column `n`: behind its last character that is not a blank,
      but not beyond the last column, and in column 0 if there is none. */
  ghost predicate LeavesCursorAt(line: Line, n: nat) {
    if forall i :: 0 <= i < |line| ==> !Inked(line[i]) then n == 0
    else exists i: nat :: LastInked(line, i) && n == if i + line[i].width < |line| then i + line[i].width else |line| - 1
  }

  predicate Inked(cell: Cell) {
    cell.width != 0 && cell.chars != "" && cell.chars != " "
  }

  predicate LastInked(line: Line, i: nat) {
    i < |line| && Inked(line[i]) && forall j :: i < j < |line| ==> !Inked(line[j])
  }

  lemma {:induction false} EndColumn(line: Line, n: nat)
    requires n <= |line| && forall j :: n <= j < |line| ==> !Inked(line[j])
    ensures LeavesCursorAt(line, LineCursorEndColumn(line, n))
  {
    if n > 0 {
      if Inked(line[n - 1]) {
        assert LastInked(line, n - 1);
      } else {
        EndColumn(line, n - 1);
      }
    }
  }

  /** The cursor belongs into row `k` of the emitted rows, at `p`: the row is on the screen and shows the
      cursor's line whole; the cursor is not where printing the rows has left it; and the sequence fits. */
  ghost predicate OwedAt(b: Buffer, o: Options, maxBytes: nat, rows: seq<Row>, k: nat, p: CursorPosition) {
    && k < |rows| && rows[k].bufferIndex == b.baseY + b.cursorY && rows[k].complete
    && p.row == k + 1 - (if |rows| > o.rows then |rows| - o.rows else 0) && p.row >= 1
    && p.column == (if b.cursorX < 0 then 1 else if b.cursorX < b.cols then b.cursorX + 1 else b.cols)
    && b.baseY + b.cursorY < |b.lines| && p.column >= 1
    && (k == |rows| - 1 ==> !LeavesCursorAt(b.lines[b.baseY + b.cursorY], p.column - 1))
    && ByteLength(JoinLines(Texts(rows)) + CupSequence(p.row, p.column)) <= maxBytes
  }

  lemma OneEndColumn(line: Line, n: nat)
    ensures LeavesCursorAt(line, n) <==> n == LineCursorEndColumn(line, |line|)
  {
    EndColumn(line, |line|);
    var m := LineCursorEndColumn(line, |line|);
    if LeavesCursorAt(line, n) && exists i :: 0 <= i < |line| && Inked(line[i]) {
      var i: nat :| LastInked(line, i) && n == if i + line[i].width < |line| then i + line[i].width else |line| - 1;
      var j: nat :| LastInked(line, j) && m == if j + line[j].width < |line| then j + line[j].width else |line| - 1;
      assert i == j;
    }
  }

  /** The position restored is the one owed, if any is. */
  ghost predicate RestoreIsOwed(b: Buffer, o: Options, maxBytes: nat, rows: seq<Row>, restore: Option<CursorPosition>)
  {
    && (restore.Some? ==> exists k :: OwedAt(b, o, maxBytes, rows, k, restore.value))
    && (restore.None? ==> forall k, p :: !OwedAt(b, o, maxBytes, rows, k, p))
  }

  lemma FittingRestoreIsOwed(b: Buffer, o: Options, end: nat, maxBytes: nat, rows: seq<Row>)
    requires b.cols >= 1 && Consecutive(rows, end) && end <= |b.lines|
    requires rows != [] ==> rows[|rows| - 1].bufferIndex < |b.lines|
    ensures RestoreIsOwed(b, o, maxBytes, rows, FittingRestore(b, o, maxBytes, rows))
  {
    hide LeavesCursorAt, LineCursorEndColumn, JoinLines, Encode, CupSequence, CursorRestore;
    var y, x := b.baseY + b.cursorY, CursorX(b);
    if rows != [] {
      var last := b.lines[rows[|rows| - 1].bufferIndex];
      var natural := LineCursorEndColumn(last, |last|);
      var p := CursorRestore(rows, o.rows, y, x, natural);
      RestoreNamesTheCursorRow(rows, end, o.rows, y, x, natural);
      OneEndColumn(last, x);
      if p.Some? {
        var k := FirstVisible(rows, o.rows) + p.value.row - 1;
        assert CursorIsElsewhere(rows, o.rows, y, x, natural, k);
        assert FittingRestore(b, o, maxBytes, rows).Some? ==> OwedAt(b, o, maxBytes, rows, k, p.value);
      }
      forall k: nat, q | OwedAt(b, o, maxBytes, rows, k, q) ensures FittingRestore(b, o, maxBytes, rows).Some? {
        assert CursorIsElsewhere(rows, o.rows, y, x, natural, k);
        var l := FirstVisible(rows, o.rows) + p.value.row - 1;
        assert CursorIsElsewhere(rows, o.rows, y, x, natural, l);
        assert rows[k].bufferIndex == rows[l].bufferIndex;
        assert p.value == q;
      }
    }
  }

  /** The mode prologue is sent if it fits at all, and then the content has that much less room. */
  function PrologueBytes(b: Buffer, o: Options): (n: nat)
    ensures n <= o.maxBytes
  {
    if ByteLength(Prologue(b)) <= o.maxBytes then ByteLength(Prologue(b)) else 0
  }

  /** The room that a prologue leaves for the content; one that does not fit is left out. */
  function ContentBudget(b: Buffer, o: Options): nat {
    if ByteLength(Prologue(b)) <= o.maxBytes then o.maxBytes - ByteLength(Prologue(b)) else o.maxBytes
  }

  /** The prologue is the mouse tracking mode and then the encoding, each set if it is not the default. */
  lemma PrologueText(b: Buffer)
    ensures Prologue(b) ==
      (match b.tracking
       case NoTracking => ""
       case X10 => [ESC] + "[?9h"
       case Vt200 => [ESC] + "[?1000h"
       case Drag => [ESC] + "[?1002h"
       case AnyMotion => [ESC] + "[?1003h") +
      (match b.encoding
       case DefaultEncoding => ""
       case SgrEncoding => [ESC] + "[?1006h"
       case SgrPixels => [ESC] + "[?1016h")
  {
    TrackingText(b.tracking);
    EncodingText(b.encoding);
    SetAllJoins(TrackingModes(b.tracking), EncodingModes(b.encoding));
    hide SetAll;
  }

  lemma TrackingText(t: MouseTracking)
    ensures SetAll(TrackingModes(t)) ==
      match t
      case NoTracking => ""
      case X10 => [ESC] + "[?9h"
      case Vt200 => [ESC] + "[?1000h"
      case Drag => [ESC] + "[?1002h"
      case AnyMotion => [ESC] + "[?1003h"
  {
    SetOneMode(9, "9");
    SetOneMode(1000, "1000");
    SetOneMode(1002, "1002");
    SetOneMode(1003, "1003");
    hide SetPrivate, SetAll;
  }

  lemma EncodingText(e: MouseEncoding)
    ensures SetAll(EncodingModes(e)) ==
      match e
      case DefaultEncoding => ""
      case SgrEncoding => [ESC] + "[?1006h"
      case SgrPixels => [ESC] + "[?1016h"
  {
    SetOneMode(1006, "1006");
    SetOneMode(1016, "1016");
    hide SetPrivate, SetAll;
  }

  lemma SetAllJoins(a: seq<nat>, b: seq<nat>)
    requires |b| <= 1
    ensures SetAll(a + b) == SetAll(a) + SetAll(b)
  {
    if b == [] {
      assert a + b == a;
    } else {
      assert (a + b)[..|a + b| - 1] == a && b[..0] == [];
      assert SetAll(b) == "" + SetPrivate(b[0]);
    }
  }

  lemma SetOneMode(code: nat, digits: string)
    requires Numeral(code) == digits
    ensures SetAll([code]) == [ESC] + "[?" + digits + "h"
  {
    assert [code][..0] == [];
    assert SetAll([code]) == "" + SetPrivate(code);
  }

  /** A line has content if some cell shows more than a default blank. */
  lemma ContentIsAnythingShown(line: Line)
    ensures LineHasContent(line) <==>
      exists i :: 0 <= i < |line| && line[i].width != 0 &&
        ((line[i].chars != "" && line[i].chars != " ") || line[i].bold || line[i].italic || line[i].underline ||
         line[i].fgMode != MODE_DEFAULT || line[i].bgMode != MODE_DEFAULT)
  {
    if i :| 0 <= i < |line| && Visible(line[i]) {
      assert line[i].width != 0;
    }
  }

  method SnapshotTerminal(b: Buffer, o: Options)
    returns (s: Snapshot, rows: seq<Row>, restore: Option<CursorPosition>, end: nat)
    requires b.cols >= 1
    ensures s.snapshotBytes == ByteLength(s.text) <= o.maxBytes
    ensures s.bufferLines == |b.lines| && s.emittedLines == |rows|
    ensures var start := Max(0, |b.lines| - (o.scrollbackLines + o.rows));
            && TrimmedEnd(b, o, start, end)
            && BestRows(b.lines, start, end, o.maxBytes - PrologueBytes(b, o), rows)
            && s.text == SnapshotText(b, o, rows, restore)
    ensures (rows != [] ==> rows[|rows| - 1].bufferIndex < |b.lines|) &&
            restore == FittingRestore(b, o, o.maxBytes - PrologueBytes(b, o), rows)
    ensures restore.Some? ==> AtCursor(b, o, rows, restore.value)
    ensures var budget := ContentBudget(b, o);
            && BestRows(b.lines, (if |b.lines| > o.scrollbackLines + o.rows then |b.lines| - o.scrollbackLines - o.rows else 0),
                        end, budget, rows)
            && RestoreIsOwed(b, o, budget, rows, restore)
            && s.text == (if ByteLength(Prologue(b)) <= o.maxBytes then Prologue(b) else "") + JoinLines(Texts(rows)) +
                         (if restore.Some? then CupSequence(restore.value.row, restore.value.column) else "")
  {
    hide Encode, LineText, JoinLines, CupText, BestRows, TrimmedEnd, AtCursor, Consecutive, FittingRestore, RestoreIsOwed,
         SnapshotText, ContentBudget;
    var prologueBytes := ByteLength(Prologue(b));
    var includePrologue := prologueBytes > 0 && prologueBytes <= o.maxBytes;
    var contentMaxBytes := if includePrologue then o.maxBytes - prologueBytes else o.maxBytes;
    var start := Max(0, |b.lines| - (o.scrollbackLines + o.rows));
    end := TrimEnd(b, o, start);
    assert start <= end <= |b.lines| by { TrimmedEndInBuffer(b, o, start, end); }
    rows := CollectRows(b.lines, start, end, contentMaxBytes);
    var text := JoinLines(Texts(rows));
    RowsAreConsecutive(b.lines, start, end, contentMaxBytes, rows);
    assert rows != [] ==> rows[|rows| - 1].bufferIndex < |b.lines| by { LastRowInBuffer(rows, end); }
    restore := RestoreCursor(b, o, end, contentMaxBytes, rows, text);
    var body := text + CupText(restore);
    assert "" + body == body;
    EncodeConcat(Prologue(b), body);
    var whole := (if includePrologue then Prologue(b) else "") + body;
    assert whole == SnapshotText(b, o, rows, restore) by { SameText(b, o, rows, restore); }
    WholeText(b, o, rows, restore);
    s := Snapshot(whole, ByteLength(whole), |b.lines|, |rows|);
  }

  lemma LastRowInBuffer(rows: seq<Row>, end: nat)
    requires Consecutive(rows, end)
    ensures rows != [] ==> rows[|rows| - 1].bufferIndex < end
  {
  }

  lemma TrimmedEndInBuffer(b: Buffer, o: Options, start: nat, end: nat)
    requires TrimmedEnd(b, o, start, end)
    ensures start <= end <= |b.lines|
  {
  }

  function SnapshotText(b: Buffer, o: Options, rows: seq<Row>, restore: Option<CursorPosition>): string {
    (if PrologueBytes(b, o) > 0 then Prologue(b) else "") + (JoinLines(Texts(rows)) + CupText(restore))
  }

  lemma WholeText(b: Buffer, o: Options, rows: seq<Row>, restore: Option<CursorPosition>)
    ensures SnapshotText(b, o, rows, restore) ==
              (if ByteLength(Prologue(b)) <= o.maxBytes then Prologue(b) else "") + JoinLines(Texts(rows)) +
              (if restore.Some? then CupSequence(restore.value.row, restore.value.column) else "")
    ensures ContentBudget(b, o) == o.maxBytes - PrologueBytes(b, o)
  {
    NoBytesNoText(Prologue(b));
    hide Encode, Prologue, JoinLines, CupSequence;
    var prologue := if PrologueBytes(b, o) > 0 then Prologue(b) else "";
    assert prologue + (JoinLines(Texts(rows)) + CupText(restore)) == prologue + JoinLines(Texts(rows)) + CupText(restore);
  }

  lemma SameText(b: Buffer, o: Options, rows: seq<Row>, restore: Option<CursorPosition>)
    ensures var prologueBytes := ByteLength(Prologue(b));
            SnapshotText(b, o, rows, restore) ==
              (if prologueBytes > 0 && prologueBytes <= o.maxBytes then Prologue(b) else "") +
              (JoinLines(Texts(rows)) + CupText(restore))
  {
  }

  lemma NoBytesNoText(t: string)
    ensures ByteLength(t) == 0 <==> t == ""
  {
  }

  function CupText(p: Option<CursorPosition>): string {
    if p.Some? then Cup(p.value) else ""
  }

  /** The position is on the screen, and the row it addresses shows, whole, the line of the cursor. */
  predicate AtCursor(b: Buffer, o: Options, rows: seq<Row>, p: CursorPosition) {
    && 1 <= p.row <= o.rows && 1 <= p.column <= b.cols
    && var k := FirstVisible(rows, o.rows) + p.row - 1;
       0 <= k < |rows| && rows[k].bufferIndex == b.baseY + b.cursorY && rows[k].complete
  }

  /** The cursor part: restored only if it is needed and still fits. */
  method RestoreCursor(b: Buffer, o: Options, ghost end: nat, contentMaxBytes: nat, rows: seq<Row>, text: string)
    returns (restore: Option<CursorPosition>)
    requires b.cols >= 1 && Consecutive(rows, end) && end <= |b.lines|
    requires text == JoinLines(Texts(rows)) && ByteLength(text) <= contentMaxBytes
    ensures ByteLength(text + CupText(restore)) <= contentMaxBytes
    ensures restore == FittingRestore(b, o, contentMaxBytes, rows)
    ensures RestoreIsOwed(b, o, contentMaxBytes, rows, restore)
    ensures restore.Some? ==> AtCursor(b, o, rows, restore.value)
  {
    hide Encode, Cup, CursorRestore, LineCursorEndColumn, JoinLines, OwedAt;
    FittingRestoreIsOwed(b, o, end, contentMaxBytes, rows);
    var cursorAbsY := b.baseY + b.cursorY;
    var cursorX := ClampInteger(b.cursorX, 0, Max(0, b.cols - 1));
    assert text + "" == text;
    if rows == [] {
      return None;
    }
    var last := rows[|rows| - 1].bufferIndex;
    var naturalX := LineCursorEndColumn(b.lines[last], |b.lines[last]|);
    restore := CursorRestore(rows, o.rows, cursorAbsY, cursorX, naturalX);
    RestoreNamesTheCursorRow(rows, end, o.rows, cursorAbsY, cursorX, naturalX);
    if restore.Some? {
      if ByteLength(text + Cup(restore.value)) > contentMaxBytes {
        restore := None;
      }
    }
  }

  method TrimEnd(b: Buffer, o: Options, start: nat) returns (end: nat)
    requires start <= |b.lines|
    ensures TrimmedEnd(b, o, start, end)
  {
    hide Visible;
    end := |b.lines|;
    var bottomAnchored := |b.lines| > o.rows;
    if !bottomAnchored {
      while end > start
        invariant DropsOnlyBlanks(b, o, start, end)
        decreases end
      {
        if end - 1 <= b.baseY + b.cursorY {
          break;
        }
        if LineHasContent(b.lines[end - 1]) {
          break;
        }
        end := end - 1;
      }
    }
  }

  // ---------------------------------------------------------------- reading the snapshot back

  /** What the rows should show: the buffer's last lines, the first of them perhaps cut. */
  function RowsShown(lines: seq<Line>, end: nat, rows: seq<Row>): seq<Shown>
    requires |rows| <= end <= |lines|
    requires forall i :: 0 <= i < |lines| ==> ValidLine(lines[i])
  {
    if rows == [] || rows[0].complete then Looks(lines[end - |rows|..end])
    else if |rows| == 1 then ShownBy(rows[0].text)
    else ShownBy(rows[0].text) + LineBreak() + Looks(lines[end - |rows| + 1..end])
  }

  /** A first row that is not complete is a tail of its line. */
  lemma PartialRowIsATail(lines: seq<Line>, start: nat, end: nat, maxBytes: nat, rows: seq<Row>) returns (cut: nat)
    requires BestRows(lines, start, end, maxBytes, rows) && rows != [] && !rows[0].complete
    ensures 0 < |rows| <= end <= |lines|
    ensures var line := LineText(lines, end - |rows|); cut <= |line| && rows[0].text == line[cut..]
  {
    hide JoinedBytes, LineText, TailText, Encode;
    var from: nat, complete: seq<Row> :| BestFrom(lines, start, end, maxBytes, rows, from, complete);
    var line := LineText(lines, from - 1);
    cut := |line| - |TailText(line, maxBytes - JoinedBytes(complete) - Separator(complete))|;
  }

  lemma TextsOfRows(lines: seq<Line>, end: nat, rows: seq<Row>)
    requires |rows| <= end <= |lines|
    requires forall i :: 0 <= i < |rows| ==> rows[i].text == LineText(lines, end - |rows| + i)
    ensures Texts(rows) == SerializedAll(lines[end - |rows|..end])
  {
    hide Serialized;
  }

  lemma CompleteRowsShow(lines: seq<Line>, end: nat, rows: seq<Row>, shown: seq<Shown>)
    requires |rows| <= end <= |lines| && forall i :: 0 <= i < |lines| ==> ValidLine(lines[i])
    requires forall i :: 0 <= i < |rows| ==> rows[i].text == LineText(lines, end - |rows| + i)
    ensures Feed(Start(shown), JoinLines(Texts(rows))) == Start(shown + Looks(lines[end - |rows|..end]))
  {
    hide Feed, JoinLines, Looks, Serialized, ValidLine, Start;
    TextsOfRows(lines, end, rows);
    LinesCompose(lines[end - |rows|..end], shown);
  }

  /** A cut first row, and then the complete ones. */
  lemma CutRowsShow(lines: seq<Line>, end: nat, rows: seq<Row>, cut: nat, shown: seq<Shown>)
    requires 0 < |rows| <= end <= |lines| && forall i :: 0 <= i < |lines| ==> ValidLine(lines[i])
    requires cut <= |LineText(lines, end - |rows|)| && rows[0].text == LineText(lines, end - |rows|)[cut..]
    requires forall i :: 1 <= i < |rows| ==> rows[i].text == LineText(lines, end - |rows| + i)
    ensures Feed(Start(shown), JoinLines(Texts(rows))) ==
            Start(shown + if |rows| == 1 then ShownBy(rows[0].text)
                          else ShownBy(rows[0].text) + LineBreak() + Looks(lines[end - |rows| + 1..end]))
  {
    hide Feed, JoinLines, Looks, Serialized, ValidLine, ShownBy, LineBreak;
    var first, rest := rows[0].text, rows[1..];
    TailSettles(lines[end - |rows|], cut);
    FeedAfter(Ground, DEFAULT_ATTRS, shown, [], first);
    assert shown + [] == shown;
    var partial := shown + ShownBy(first);
    assert Feed(Start(shown), first) == Start(partial);
    assert Texts(rows) == [first] + Texts(rest);
    if rest == [] {
      OneText(first);
      assert Texts(rest) == [] && [first] + [] == [first];
    } else {
      JoinInFront(first, Texts(rest));
      FeedConcat(Start(shown), first, CRLF);
      FeedBreak(partial);
      FeedConcat(Start(shown), first + CRLF, JoinLines(Texts(rest)));
      CompleteRowsShow(lines, end, rest, partial + LineBreak());
      var looks := Looks(lines[end - |rest|..end]);
      assert partial + LineBreak() + looks == shown + (ShownBy(first) + LineBreak() + looks);
    }
  }

  lemma OneText(t: string)
    ensures JoinLines([t]) == t
  {
  }

  /** Replaying the rows shows the lines: whether or not the first row is complete, a terminal that
      reads the joined text shows each complete row's buffer line as it looked, and is left between
      sequences and in default attributes. */
  lemma RowsShowTheirLines(lines: seq<Line>, start: nat, end: nat, maxBytes: nat, rows: seq<Row>, shown: seq<Shown>)
    requires forall i :: 0 <= i < |lines| ==> ValidLine(lines[i])
    ensures BestRows(lines, start, end, maxBytes, rows) ==>
              |rows| <= end <= |lines| &&
              Feed(Start(shown), JoinLines(Texts(rows))) == Start(shown + RowsShown(lines, end, rows))
  {
    hide BestRows, Feed, JoinLines, Looks, Serialized, ValidLine, Start, ShownBy, LineBreak;
    if BestRows(lines, start, end, maxBytes, rows) {
      RowsAreConsecutive(lines, start, end, maxBytes, rows);
      if rows == [] || rows[0].complete {
        CompleteRowsShow(lines, end, rows, shown);
      } else {
        var cut := PartialRowIsATail(lines, start, end, maxBytes, rows);
        CutRowsShow(lines, end, rows, cut, shown);
      }
    }
  }

  lemma {:induction false} SetAllSets(codes: seq<nat>)
    ensures Feed(Start([]), SetAll(codes)) == Start(Modes(codes, true))
  {
    hide Feed, SetPrivate;
    if codes == [] {
      FeedNothing(Start([]));
    } else {
      var n := |codes| - 1;
      SetAllSets(codes[..n]);
      FeedConcat(Start([]), SetAll(codes[..n]), SetPrivate(codes[n]));
      FeedSetPrivate(Start(Modes(codes[..n], true)), codes[n]);
      assert Modes(codes, true) == Modes(codes[..n], true) + [PrivateMode(codes[n], true)];
    }
  }

  /** What the whole text should make a fresh terminal do. */
  function SnapshotShown(b: Buffer, o: Options, end: nat, rows: seq<Row>, restore: Option<CursorPosition>): seq<Shown>
    requires |rows| <= end <= |b.lines| && forall i :: 0 <= i < |b.lines| ==> ValidLine(b.lines[i])
  {
    (if PrologueBytes(b, o) > 0 then Modes(MouseModes(b), true) else []) + RowsShown(b.lines, end, rows) +
    if restore.Some? then [MoveTo(restore.value.row, restore.value.column)] else []
  }

  /** Main result: a fresh terminal that reads the whole snapshot enters the mouse modes, shows the
      buffer's lines as they looked, puts the cursor where it was, and is left between sequences and
      in default attributes. */
  lemma SnapshotReadsBack(b: Buffer, o: Options, start: nat, end: nat, maxBytes: nat, rows: seq<Row>,
                          restore: Option<CursorPosition>)
    requires forall i :: 0 <= i < |b.lines| ==> ValidLine(b.lines[i])
    requires restore.Some? ==> AtCursor(b, o, rows, restore.value)
    ensures BestRows(b.lines, start, end, maxBytes, rows) ==>
              |rows| <= end <= |b.lines| &&
              Feed(Start([]), SnapshotText(b, o, rows, restore)) == Start(SnapshotShown(b, o, end, rows, restore))
  {
    hide BestRows, Feed, JoinLines, RowsShown, Modes, MouseModes, SetAll, PrologueBytes, CupSequence, ValidLine;
    if BestRows(b.lines, start, end, maxBytes, rows) {
      var prologue := if PrologueBytes(b, o) > 0 then Prologue(b) else "";
      var modes := if PrologueBytes(b, o) > 0 then Modes(MouseModes(b), true) else [];
      SetAllSets(MouseModes(b));
      FeedNothing(Start([]));
      var body := JoinLines(Texts(rows));
      RowsShowTheirLines(b.lines, start, end, maxBytes, rows, modes);
      var t := Start(modes + RowsShown(b.lines, end, rows));
      FeedConcat(Start([]), prologue, body + CupText(restore));
      FeedConcat(Start(modes), body, CupText(restore));
      FeedNothing(t);
      if restore.Some? {
        FeedCup(t, restore.value.row, restore.value.column);
      } else {
        assert t.shown + [] == t.shown;
      }
    }
  }
}
