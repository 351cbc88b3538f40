/** The binary terminal frames on the WebSocket: a prefix byte, big-endian fields, a payload. */
module FrameCodec {
  import opened Wrappers
  import opened Utf8

  type Bytes = seq<byte>

  const TWO_32: int := 0x1_0000_0000
  const TWO_64: int := 0x1_0000_0000_0000_0000
  const TWO_31: int := 0x8000_0000

  const INPUT: byte := 0x00
  const RESIZE: byte := 0x01
  const REFRESH: byte := 0x02
  const FLOW_PAUSE: byte := 0x03
  const FLOW_RESUME: byte := 0x04
  const OUTPUT: byte := 0x10
  const EXIT: byte := 0x11

  const RESIZE_MAX_DIM: nat := 8192

  datatype Frame =
    | Input(generation: nat, data: Bytes)
    | Resize(cols: nat, rows: nat)
    | Refresh
    | FlowPause
    | FlowResume
    | Output(generation: nat, seqNo: nat, data: Bytes)
    | Exit(exitCode: int)

  datatype Decoded = Ok(frame: Frame) | Bad(reason: string)

  predicate InRange(f: Frame) {
    match f
    case Input(generation, _) => generation < TWO_32
    case Resize(cols, rows) => 1 <= cols <= RESIZE_MAX_DIM && 1 <= rows <= RESIZE_MAX_DIM
    case Output(generation, seqNo, _) => generation < TWO_32 && seqNo < TWO_64
    case Exit(exitCode) => -TWO_31 <= exitCode < TWO_31
    case _ => true
  }

  // ---------------------------------------------------------------- fields

  function U32(n: nat): (r: Bytes)
    requires n < TWO_32
    ensures |r| == 4
  {
    [n / 0x100_0000, n / 0x1_0000 % 256, n / 256 % 256, n % 256]
  }

  function ReadU32(b: Bytes, at: nat): (n: nat)
    requires at + 4 <= |b|
    ensures n < TWO_32
  {
    var b0: int, b1: int, b2: int, b3: int := b[at], b[at + 1], b[at + 2], b[at + 3];
    b0 * 0x100_0000 + b1 * 0x1_0000 + b2 * 256 + b3
  }

  function U64(n: nat): (r: Bytes)
    requires n < TWO_64
    ensures |r| == 8
  {
    U32(n / TWO_32) + U32(n % TWO_32)
  }

  function ReadU64(b: Bytes, at: nat): (n: nat)
    requires at + 8 <= |b|
    ensures n < TWO_64
  {
    ReadU32(b, at) * TWO_32 + ReadU32(b, at + 4)
  }

  /** The two's-complement word of a signed 32-bit number, and back. */
  function Word(n: int): (r: nat)
    requires -TWO_31 <= n < TWO_31
    ensures r < TWO_32
  {
    if n < 0 then n + TWO_32 else n
  }

  function Signed(word: nat): (r: int)
    requires word < TWO_32
    ensures -TWO_31 <= r < TWO_31 && Word(r) == word
  {
    if word < TWO_31 then word else word - TWO_32
  }

  lemma U32RoundTrip(n: nat, before: Bytes, after: Bytes)
    requires n < TWO_32
    ensures ReadU32(before + U32(n) + after, |before|) == n
  {
    var b, k := before + U32(n) + after, |before|;
    assert b[k] == U32(n)[0] && b[k + 1] == U32(n)[1] && b[k + 2] == U32(n)[2] && b[k + 3] == U32(n)[3];
    assert n / 256 / 256 == n / 0x1_0000 && n / 0x1_0000 / 256 == n / 0x100_0000;
  }

  lemma ReadU32RoundTrip(b: Bytes, at: nat)
    requires at + 4 <= |b|
    ensures U32(ReadU32(b, at)) == b[at..at + 4]
  {
    var n := ReadU32(b, at);
    var b0: int, b1: int, b2: int, b3: int := b[at], b[at + 1], b[at + 2], b[at + 3];
    assert n % 256 == b3 && n / 256 == b0 * 0x1_0000 + b1 * 256 + b2;
    assert n / 0x1_0000 == b0 * 256 + b1;
    assert n / 0x100_0000 == b0;
    assert n / 256 % 256 == b2 && n / 0x1_0000 % 256 == b1;
  }

  lemma U64RoundTrip(n: nat, before: Bytes, after: Bytes)
    requires n < TWO_64
    ensures ReadU64(before + U64(n) + after, |before|) == n
  {
    hide U32, ReadU32;
    var hi, lo := U32(n / TWO_32), U32(n % TWO_32);
    var b := before + U64(n) + after;
    U32RoundTrip(n / TWO_32, before, lo + after);
    assert b == before + hi + (lo + after);
    U32RoundTrip(n % TWO_32, before + hi, after);
    assert b == (before + hi) + lo + after;
  }

  lemma ReadU64RoundTrip(b: Bytes, at: nat)
    requires at + 8 <= |b|
    ensures U64(ReadU64(b, at)) == b[at..at + 8]
  {
    ReadU32RoundTrip(b, at);
    ReadU32RoundTrip(b, at + 4);
    hide U32, ReadU32;
    var hi, lo := ReadU32(b, at), ReadU32(b, at + 4);
    assert (hi * TWO_32 + lo) / TWO_32 == hi && (hi * TWO_32 + lo) % TWO_32 == lo;
    assert b[at..at + 4] + b[at + 4..at + 8] == b[at..at + 8];
  }

  // ---------------------------------------------------------------- frames

  function Encode(f: Frame): Bytes
    requires InRange(f)
  {
    match f
    case Input(generation, data) => [INPUT] + U32(generation) + data
    case Resize(cols, rows) => [RESIZE] + U32(cols) + U32(rows)
    case Refresh => [REFRESH]
    case FlowPause => [FLOW_PAUSE]
    case FlowResume => [FLOW_RESUME]
    case Output(generation, seqNo, data) => [OUTPUT] + U32(generation) + U64(seqNo) + data
    case Exit(exitCode) => [EXIT] + U32(Word(exitCode))
  }

  function Decode(buf: Bytes): Decoded {
    if |buf| < 1 then Bad("empty buffer")
    else if buf[0] == INPUT then
      if |buf| < 5 then Bad("input header") else Ok(Input(ReadU32(buf, 1), buf[5..]))
    else if buf[0] == RESIZE then
      if |buf| != 9 then Bad("resize length")
      else
        var cols, rows := ReadU32(buf, 1), ReadU32(buf, 5);
        if cols == 0 || rows == 0 || cols > RESIZE_MAX_DIM || rows > RESIZE_MAX_DIM then Bad("resize range")
        else Ok(Resize(cols, rows))
    else if buf[0] == REFRESH then
      if |buf| != 1 then Bad("refresh length") else Ok(Refresh)
    else if buf[0] == FLOW_PAUSE then
      if |buf| != 1 then Bad("flow-pause length") else Ok(FlowPause)
    else if buf[0] == FLOW_RESUME then
      if |buf| != 1 then Bad("flow-resume length") else Ok(FlowResume)
    else if buf[0] == OUTPUT then
      if |buf| < 13 then Bad("output header") else Ok(Output(ReadU32(buf, 1), ReadU64(buf, 5), buf[13..]))
    else if buf[0] == EXIT then
      if |buf| != 5 then Bad("exit length") else Ok(Exit(Signed(ReadU32(buf, 1))))
    else Bad("unknown prefix")
  }

  /** Decoding inverts encoding on every frame whose fields fit the wire. */
  lemma DecodeInvertsEncode(f: Frame)
    requires InRange(f)
    ensures Decode(Encode(f)) == Ok(f)
  {
    var b := Encode(f);
    match f
    case Input(generation, data) =>
      U32RoundTrip(generation, [INPUT], data);
      hide U32, ReadU32;
      assert b[5..] == data;
    case Resize(cols, rows) =>
      U32RoundTrip(cols, [RESIZE], U32(rows));
      U32RoundTrip(rows, [RESIZE] + U32(cols), []);
      hide U32, ReadU32;
      assert b == [RESIZE] + U32(cols) + U32(rows) + [];
    case Output(generation, seqNo, data) =>
      U32RoundTrip(generation, [OUTPUT], U64(seqNo) + data);
      U64RoundTrip(seqNo, [OUTPUT] + U32(generation), data);
      hide U32, ReadU32, U64, ReadU64;
      assert b == [OUTPUT] + U32(generation) + (U64(seqNo) + data);
      assert b[13..] == data;
    case Exit(exitCode) =>
      U32RoundTrip(Word(exitCode), [EXIT], []);
      hide U32, ReadU32;
      assert b == [EXIT] + U32(Word(exitCode)) + [];
    case _ =>
  }

  /** Every accepted buffer is the one encoding of the frame it decodes to. */
  lemma EncodeInvertsDecode(buf: Bytes)
    requires Decode(buf).Ok?
    ensures InRange(Decode(buf).frame) && Encode(Decode(buf).frame) == buf
  {
    hide U32, ReadU32, U64, ReadU64;
    var f := Decode(buf).frame;
    assert buf == buf[..1] + buf[1..] && buf[..1] == [buf[0]];
    match f
    case Input(_, data) =>
      ReadU32RoundTrip(buf, 1);
      assert buf == [buf[0]] + buf[1..5] + buf[5..];
    case Resize(_, _) =>
      ReadU32RoundTrip(buf, 1);
      ReadU32RoundTrip(buf, 5);
      assert buf == [buf[0]] + buf[1..5] + buf[5..9];
    case Output(_, _, data) =>
      ReadU32RoundTrip(buf, 1);
      ReadU64RoundTrip(buf, 5);
      assert buf == [buf[0]] + buf[1..5] + buf[5..13] + buf[13..];
    case Exit(_) =>
      ReadU32RoundTrip(buf, 1);
      assert buf == [buf[0]] + buf[1..5];
    case _ =>
  }

  /** The layout on the wire: the prefix, big-endian fields at fixed places, the payload behind them. */
  lemma WireLayout(f: Frame)
    requires InRange(f)
    ensures var b := Encode(f);
            match f
            case Input(generation, data) =>
              |b| == 5 + |data| && b[0] == 0x00 && BigEndian(b[1..5]) == generation && b[5..] == data
            case Resize(cols, rows) => |b| == 9 && b[0] == 0x01 && BigEndian(b[1..5]) == cols && BigEndian(b[5..9]) == rows
            case Refresh => b == [0x02]
            case FlowPause => b == [0x03]
            case FlowResume => b == [0x04]
            case Output(generation, seqNo, data) =>
              && |b| == 13 + |data| && b[0] == 0x10 && BigEndian(b[1..5]) == generation
              && BigEndian(b[5..13]) == seqNo && b[13..] == data
            case Exit(exitCode) =>
              && |b| == 5 && b[0] == 0x11
              && BigEndian(b[1..5]) == if exitCode < 0 then exitCode + 0x1_0000_0000 else exitCode
  {
    var b := Encode(f);
    match f
    case Input(generation, data) =>
      assert b[1..5] == U32(generation) && b[5..] == data;
      U32IsBigEndian(generation);
      hide U32;
    case Resize(cols, rows) =>
      assert b[1..5] == U32(cols) && b[5..9] == U32(rows);
      U32IsBigEndian(cols);
      U32IsBigEndian(rows);
      hide U32;
    case Output(generation, seqNo, data) =>
      assert b[1..5] == U32(generation) && b[5..13] == U64(seqNo) && b[13..] == data;
      U32IsBigEndian(generation);
      U64IsBigEndian(seqNo);
      hide U32, U64;
    case Exit(exitCode) =>
      assert b[1..5] == U32(Word(exitCode));
      U32IsBigEndian(Word(exitCode));
      hide U32;
    case _ =>
  }

  /** The number that bytes spell, most significant first. */
  function BigEndian(b: Bytes): nat {
    if b == [] then 0 else BigEndian(b[..|b| - 1]) * 256 + b[|b| - 1]
  }

  lemma BigEndianNext(b: Bytes, x: byte)
    ensures BigEndian(b + [x]) == BigEndian(b) * 256 + x
  {
    assert (b + [x])[..|b + [x]| - 1] == b;
  }

  lemma BigEndianFour(a: Bytes, b: Bytes)
    requires |b| == 4
    ensures BigEndian(a + b) == BigEndian(a) * 0x1_0000_0000 +
              (b[0] as int * 0x100_0000 + b[1] as int * 0x1_0000 + b[2] as int * 256 + b[3])
  {
    BigEndianNext(a, b[0]);
    BigEndianNext(a + [b[0]], b[1]);
    BigEndianNext(a + [b[0]] + [b[1]], b[2]);
    BigEndianNext(a + [b[0]] + [b[1]] + [b[2]], b[3]);
    assert a + b == a + [b[0]] + [b[1]] + [b[2]] + [b[3]];
    hide BigEndian;
  }

  lemma U32IsBigEndian(n: nat)
    requires n < TWO_32
    ensures BigEndian(U32(n)) == n
  {
    assert n / 256 / 256 == n / 0x1_0000 && n / 0x1_0000 / 256 == n / 0x100_0000;
    BigEndianFour([], U32(n));
    assert [] + U32(n) == U32(n) && BigEndian([]) == 0;
    hide BigEndian;
  }

  lemma BigEndianJoins(a: Bytes, b: Bytes)
    requires |b| == 4
    ensures BigEndian(a + b) == BigEndian(a) * 0x1_0000_0000 + BigEndian(b)
  {
    BigEndianFour(a, b);
    BigEndianFour([], b);
    assert [] + b == b && BigEndian([]) == 0;
    hide BigEndian;
  }

  lemma U64IsBigEndian(n: nat)
    requires n < TWO_64
    ensures BigEndian(U64(n)) == n
  {
    U32IsBigEndian(n / TWO_32);
    U32IsBigEndian(n % TWO_32);
    BigEndianJoins(U32(n / TWO_32), U32(n % TWO_32));
    hide U32, BigEndian;
  }

  /** Whether a buffer is accepted depends on its prefix, its length and, for a resize, on the range. */
  lemma AcceptsExactly(b: Bytes)
    ensures Decode(b).Ok? <==>
              |b| >= 1 &&
              match b[0] as int
              case 0x00 => |b| >= 5
              case 0x01 => |b| == 9 && 1 <= ReadU32(b, 1) <= 8192 && 1 <= ReadU32(b, 5) <= 8192
              case 0x02 => |b| == 1
              case 0x03 => |b| == 1
              case 0x04 => |b| == 1
              case 0x10 => |b| >= 13
              case 0x11 => |b| == 5
              case _ => false
  {
  }

  // ---------------------------------------------------------------- the encoders

  /** `view.setUint32(at, value, false)`. */
  method SetUint32(out: array<byte>, at: nat, value: nat)
    requires at + 4 <= out.Length && value < TWO_32
    modifies out
    ensures out[..] == old(out[..at]) + U32(value) + old(out[at + 4..])
  {
    var w := U32(value);
    out[at], out[at + 1], out[at + 2], out[at + 3] := w[0], w[1], w[2], w[3];
  }

  method SetBytes(out: array<byte>, at: nat, data: Bytes)
    requires at + |data| == out.Length
    modifies out
    ensures out[..] == old(out[..at]) + data
  {
    for i := 0 to |data|
      invariant out[..at] == old(out[..at]) && out[at..at + i] == data[..i]
    {
      out[at + i] := data[i];
    }
  }

  /** Arguments are reduced to the width of their field (`>>> 0`, `BigInt.asUintN`, `| 0`). */
  method EncodeOutputFrame(generation: int, seqNo: int, data: Bytes) returns (out: array<byte>)
    ensures Decode(out[..]) == Ok(Output(generation % TWO_32, seqNo % TWO_64, data))
    ensures InRange(Decode(out[..]).frame) && out[..] == Encode(Decode(out[..]).frame)
  {
    hide U32, Decode, ReadU32, ReadU64;
    var g, s := generation % TWO_32, seqNo % TWO_64;
    out := new byte[13 + |data|](_ => 0);
    out[0] := OUTPUT;
    SetUint32(out, 1, g);
    SetUint32(out, 5, s / TWO_32);
    SetUint32(out, 9, s % TWO_32);
    SetBytes(out, 13, data);
    assert out[..] == [OUTPUT] + U32(g) + U64(s) + data;
    DecodeInvertsEncode(Output(g, s, data));
  }

  method EncodeInputFrame(generation: int, data: Bytes) returns (out: array<byte>)
    ensures Decode(out[..]) == Ok(Input(generation % TWO_32, data))
  {
    hide U32, Decode, ReadU32, ReadU64;
    var g := generation % TWO_32;
    out := new byte[5 + |data|](_ => 0);
    out[0] := INPUT;
    SetUint32(out, 1, g);
    SetBytes(out, 5, data);
    assert out[..] == [INPUT] + U32(g) + data;
    DecodeInvertsEncode(Input(g, data));
  }

  method EncodeResizeFrame(cols: int, rows: int) returns (out: array<byte>)
    ensures var c, r := cols % TWO_32, rows % TWO_32;
            Decode(out[..]) == if InRange(Resize(c, r)) then Ok(Resize(c, r)) else Bad("resize range")
  {
    hide U32, ReadU64;
    var c, r := cols % TWO_32, rows % TWO_32;
    out := new byte[9](_ => 0);
    out[0] := RESIZE;
    SetUint32(out, 1, c);
    SetUint32(out, 5, r);
    assert out[..] == [RESIZE] + U32(c) + U32(r) + [];
    U32RoundTrip(c, [RESIZE], U32(r));
    U32RoundTrip(r, [RESIZE] + U32(c), []);
    hide ReadU32;
    assert out[..] == [RESIZE] + U32(c) + U32(r);
  }

  method EncodeExitFrame(exitCode: int) returns (out: array<byte>)
    ensures Decode(out[..]) == Ok(Exit(Signed(exitCode % TWO_32)))
  {
    hide U32, Decode, ReadU32, ReadU64;
    var w := exitCode % TWO_32;
    out := new byte[5](_ => 0);
    out[0] := EXIT;
    SetUint32(out, 1, w);
    assert out[..] == [EXIT] + U32(w);
    DecodeInvertsEncode(Exit(Signed(w)));
  }

  method EncodeBareFrame(f: Frame) returns (out: array<byte>)
    requires f.Refresh? || f.FlowPause? || f.FlowResume?
    ensures Decode(out[..]) == Ok(f)
  {
    out := new byte[1](_ => if f.Refresh? then REFRESH else if f.FlowPause? then FLOW_PAUSE else FLOW_RESUME);
  }
}
