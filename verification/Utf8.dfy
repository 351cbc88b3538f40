/** UTF-8 as the hosts use it: text becomes bytes, a byte-budgeted tail is cut, and the
    bytes become text again. A `char` is a Unicode scalar value. */
module Utf8 {
  import opened Wrappers

  type byte = x: int | 0 <= x < 256

  /** 10xx_xxxx, the test `(b & 0xc0) === 0x80`. */
  predicate IsContinuation(b: byte) {
    0x80 <= b < 0xC0
  }

  /** One scalar value in the one- to four-byte form of section 3 of RFC 3629. */
  function EncodeChar(c: char): (r: seq<byte>)
    ensures 1 <= |r| <= 4
    ensures !IsContinuation(r[0])
    ensures forall i :: 1 <= i < |r| ==> IsContinuation(r[i])
  {
    var n := c as int;
    if n < 0x80 then [n]
    else if n < 0x800 then [0xC0 + n / 64, 0x80 + n % 64]
    else if n < 0x10000 then [0xE0 + n / 4096, 0x80 + n / 64 % 64, 0x80 + n % 64]
    else [0xF0 + n / 262144, 0x80 + n / 4096 % 64, 0x80 + n / 64 % 64, 0x80 + n % 64]
  }

  function Encode(s: string): (r: seq<byte>)
  {
    if s == [] then [] else EncodeChar(s[0]) + Encode(s[1..])
  }

  function ByteLength(s: string): nat {
    |Encode(s)|
  }

  ghost predicate WellFormed(b: seq<byte>) {
    exists s: string :: Encode(s) == b
  }

  lemma {:induction false} EncodeConcat(a: string, b: string)
    ensures Encode(a + b) == Encode(a) + Encode(b)
  {
    if a == [] {
      assert a + b == b;
    } else {
      EncodeConcat(a[1..], b);
      assert (a + b)[1..] == a[1..] + b;
    }
  }

  /** Characters read back off the wire, or `None` when the bytes are not the encoding of any text. */
  function Decode(b: seq<byte>): (r: Option<string>)
    ensures r.Some? ==> Encode(r.value) == b
    decreases |b|
  {
    if b == [] then Some("")
    else
      var first := DecodeChar(b);
      if first.None? then None
      else
        var rest := Decode(b[|EncodeChar(first.value)|..]);
        if rest.None? then None else Some([first.value] + rest.value)
  }

  predicate IsScalar(n: int) {
    0 <= n < 0xD800 || 0xE000 <= n < 0x110000
  }

  /** The scalar value that the leading bytes spell, or -1. */
  function CodePoint(b: seq<byte>): int
    requires b != []
  {
    var b0: int := b[0];
    if b0 < 0x80 then b0
    else if 0xC0 <= b0 < 0xE0 && |b| >= 2 then
      var b1: int := b[1]; (b0 - 0xC0) * 64 + (b1 - 0x80)
    else if 0xE0 <= b0 < 0xF0 && |b| >= 3 then
      var b1: int, b2: int := b[1], b[2]; (b0 - 0xE0) * 4096 + (b1 - 0x80) * 64 + (b2 - 0x80)
    else if 0xF0 <= b0 && |b| >= 4 then
      var b1: int, b2: int, b3: int := b[1], b[2], b[3];
      (b0 - 0xF0) * 262144 + (b1 - 0x80) * 4096 + (b2 - 0x80) * 64 + (b3 - 0x80)
    else 0 - 1
  }

  function DecodeChar(b: seq<byte>): (r: Option<char>)
    requires b != []
    ensures r.Some? ==> EncodeChar(r.value) <= b
  {
    var n := CodePoint(b);
    if IsScalar(n) && EncodeChar(n as char) <= b then Some(n as char) else None
  }

  /** The forms of section 3 of RFC 3629: how many bytes a scalar value takes, that the first one is the mark
      of that length plus the leading bits, and that every other one is 0x80 plus six bits in order. */
  lemma FormOfChar(c: char)
    ensures var b, n := EncodeChar(c), c as int;
            && (|b| == 1 <==> n < 0x80) && (|b| == 2 <==> 0x80 <= n < 0x800)
            && (|b| == 3 <==> 0x800 <= n < 0x10000) && (|b| == 4 <==> 0x10000 <= n)
            && b[0] as int - n / Power64(|b| - 1) == (if |b| == 1 then 0 else if |b| == 2 then 0xC0
                                                      else if |b| == 3 then 0xE0 else 0xF0)
            && forall i :: 1 <= i < |b| ==> b[i] as int == 0x80 + n / Power64(|b| - 1 - i) % 64
  {
    assert Power64(0) == 1 && Power64(1) == 64 && Power64(2) == 4096 && Power64(3) == 262144;
    hide Power64;
  }

  function Power64(k: nat): (r: nat)
    ensures r > 0
  {
    if k == 0 then 1 else 64 * Power64(k - 1)
  }

  lemma BaseSixtyFour(n: nat)
    ensures n == n / 64 * 64 + n % 64
    ensures n == n / 4096 * 4096 + n / 64 % 64 * 64 + n % 64
    ensures n == n / 262144 * 262144 + n / 4096 % 64 * 4096 + n / 64 % 64 * 64 + n % 64
  {
    assert n / 64 / 64 == n / 4096;
    assert n / 4096 / 64 == n / 262144;
  }

  lemma DecodeCharEncoded(c: char, rest: seq<byte>)
    ensures DecodeChar(EncodeChar(c) + rest) == Some(c)
  {
    var b, n := EncodeChar(c) + rest, c as int;
    assert CodePoint(b) == n by {
      BaseSixtyFour(n);
      if n < 0x80 {
      } else if n < 0x800 {
        assert b[0] == 0xC0 + n / 64 && b[1] == 0x80 + n % 64;
      } else if n < 0x10000 {
        assert b[0] == 0xE0 + n / 4096 && b[1] == 0x80 + n / 64 % 64 && b[2] == 0x80 + n % 64;
      } else {
        assert b[0] == 0xF0 + n / 262144 && b[1] == 0x80 + n / 4096 % 64;
        assert b[2] == 0x80 + n / 64 % 64 && b[3] == 0x80 + n % 64;
      }
    }
  }

  lemma {:induction false} DecodeInvertsEncode(s: string)
    ensures Decode(Encode(s)) == Some(s)
  {
    if s != [] {
      DecodeCharEncoded(s[0], Encode(s[1..]));
      assert Encode(s)[|EncodeChar(s[0])|..] == Encode(s[1..]);
      DecodeInvertsEncode(s[1..]);
      assert [s[0]] + s[1..] == s;
    }
  }

  /** Two texts with the same bytes are the same text. */
  lemma EncodeInjective(s: string, t: string)
    requires Encode(s) == Encode(t)
    ensures s == t
  {
    DecodeInvertsEncode(s);
    DecodeInvertsEncode(t);
  }

  // ---------------------------------------------------------------- the tail cut

  /** Drop up to three leading continuation bytes. */
  function DropContinuation(b: seq<byte>, limit: nat): seq<byte>
    decreases limit
  {
    if limit == 0 || b == [] || !IsContinuation(b[0]) then b else DropContinuation(b[1..], limit - 1)
  }

  lemma {:induction false} DropContinuationShape(b: seq<byte>, limit: nat) returns (k: nat)
    ensures k <= |b| && k <= limit && DropContinuation(b, limit) == b[k..]
    ensures forall i :: 0 <= i < k ==> IsContinuation(b[i])
    ensures k < limit && k < |b| ==> !IsContinuation(b[k])
  {
    if limit == 0 || b == [] || !IsContinuation(b[0]) {
      k := 0;
    } else {
      var j := DropContinuationShape(b[1..], limit - 1);
      k := j + 1;
      assert forall i :: 1 <= i < k ==> b[i] == b[1..][i - 1];
      assert b[1..][j..] == b[k..];
    }
  }

  /** The last `n` bytes, moved forward to a character boundary when something was cut off. */
  function TailBytes(b: seq<byte>, n: nat): seq<byte> {
    if |b| <= n then b else DropContinuation(b[|b| - n..], 3)
  }

  /** The longest suffix of the text whose bytes fit. */
  function TailText(s: string, n: nat): (r: string)
    ensures |r| <= |s| && r == s[|s| - |r|..]
    ensures ByteLength(r) <= n
  {
    if ByteLength(s) <= n then s else if s == [] then s else TailText(s[1..], n)
  }

  /** Every longer suffix exceeds the budget. */
  lemma {:induction false} TailTextIsLongest(s: string, n: nat, k: nat)
    requires k < |s| - |TailText(s, n)|
    ensures ByteLength(s[k..]) > n
  {
    assert s != [];
    if k > 0 {
      TailTextIsLongest(s[1..], n, k - 1);
      assert s[1..][k - 1..] == s[k..];
    } else {
      assert s[0..] == s;
    }
  }

  /** A scalar whose bytes straddle the cut leaves only continuation bytes behind. */
  lemma CutInside(e: seq<byte>, rest: seq<byte>, n: nat, limit: nat)
    requires |e| <= limit + 1 && forall i :: 1 <= i < |e| ==> IsContinuation(e[i])
    requires rest == [] || !IsContinuation(rest[0])
    requires |rest| <= n < |e| + |rest|
    ensures DropContinuation((e + rest)[|e| + |rest| - n..], limit) == rest
  {
    var inside := e[|e| + |rest| - n..];
    assert (e + rest)[|e| + |rest| - n..] == inside + rest;
    DropRun(inside, rest, limit);
  }

  lemma CutInFirstScalar(s: string, n: nat, limit: nat)
    requires limit >= 3 && s != [] && ByteLength(s[1..]) <= n < ByteLength(s)
    ensures DropContinuation(Encode(s)[ByteLength(s) - n..], limit) == Encode(s[1..])
    ensures TailText(s, n) == s[1..]
    ensures n - 3 <= ByteLength(s[1..])
  {
    FirstByteIsNotContinuation(s[1..]);
    CutInside(EncodeChar(s[0]), Encode(s[1..]), n, limit);
  }

  lemma {:induction false} TailOfEncoded(s: string, n: nat, limit: nat)
    requires ByteLength(s) > n && limit >= 3
    ensures DropContinuation(Encode(s)[ByteLength(s) - n..], limit) == Encode(TailText(s, n))
    ensures n - 3 <= ByteLength(TailText(s, n))
  {
    hide Encode, EncodeChar, DropContinuation, TailText;
    FirstScalar(s, n);
    if ByteLength(s[1..]) > n {
      TailOfConcat(EncodeChar(s[0]), Encode(s[1..]), n);
      TailOfEncoded(s[1..], n, limit);
    } else {
      CutInFirstScalar(s, n, limit);
    }
  }

  lemma TailOfConcat(a: seq<byte>, b: seq<byte>, n: nat)
    requires n <= |b|
    ensures (a + b)[|a + b| - n..] == b[|b| - n..]
  {
  }

  lemma FirstScalar(s: string, n: nat)
    requires ByteLength(s) > n
    ensures s != [] && Encode(s) == EncodeChar(s[0]) + Encode(s[1..]) && TailText(s, n) == TailText(s[1..], n)
  {
    hide EncodeChar;
  }

  lemma FirstByteIsNotContinuation(s: string)
    ensures Encode(s) != [] ==> !IsContinuation(Encode(s)[0])
  {
    if s != [] {
      assert Encode(s)[0] == EncodeChar(s[0])[0];
    }
  }

  lemma {:induction false} DropRun(run: seq<byte>, rest: seq<byte>, limit: nat)
    requires |run| <= limit
    requires forall i :: 0 <= i < |run| ==> IsContinuation(run[i])
    requires rest == [] || !IsContinuation(rest[0])
    ensures DropContinuation(run + rest, limit) == rest
  {
    if run == [] {
      assert run + rest == rest;
    } else {
      assert (run + rest)[0] == run[0];
      assert (run + rest)[1..] == run[1..] + rest;
      DropRun(run[1..], rest, limit - 1);
    }
  }

  /** Main result: on the bytes of any text and for any budget, the cut is exactly the bytes
      of the longest suffix of the text that fits, so it is well formed, no well-formed byte
      suffix within the budget is longer, and at most three bytes are lost against it. */
  lemma TailCut(s: string, n: nat)
    ensures TailBytes(Encode(s), n) == Encode(TailText(s, n))
    ensures ByteLength(s) > n ==> n - 3 <= |TailBytes(Encode(s), n)| <= n
    ensures forall i :: 0 <= i <= ByteLength(s) && ByteLength(s) - i <= n && WellFormed(Encode(s)[i..])
                        ==> ByteLength(s) - i <= |TailBytes(Encode(s), n)|
  {
    hide Encode, WellFormed, DropContinuation;
    if ByteLength(s) > n {
      TailOfEncoded(s, n, 3);
      forall i | 0 <= i <= ByteLength(s) && ByteLength(s) - i <= n && WellFormed(Encode(s)[i..])
        ensures ByteLength(s) - i <= |TailBytes(Encode(s), n)|
      {
        NoLongerSuffix(s, n, i);
      }
    }
  }

  lemma NoLongerSuffix(s: string, n: nat, i: nat)
    requires ByteLength(s) - n <= i <= ByteLength(s) && n < ByteLength(s)
    requires WellFormed(Encode(s)[i..])
    ensures ByteLength(s) - i <= |TailBytes(Encode(s), n)|
  {
    hide Encode, DropContinuation, TailText;
    var b := Encode(s);
    var cut := b[|b| - n..];
    var k := DropContinuationShape(cut, 3);
    var t: string :| Encode(t) == b[i..];
    FirstByteIsNotContinuation(t);
    var j := i - (|b| - n);
    assert i < |b| ==> b[i] == cut[j] && !IsContinuation(b[i]);
    if j < k {
      assert false;
    }
  }

  /** The scan over a slice, as the three call sites run it. */
  method DecodeFromBoundary(slice: seq<byte>) returns (r: seq<byte>)
    ensures r == DropContinuation(slice, 3)
  {
    var i := 0;
    while i < |slice| && i < 3 && IsContinuation(slice[i])
      invariant 0 <= i <= |slice| && i <= 3
      invariant DropContinuation(slice, 3) == DropContinuation(slice[i..], 3 - i)
    {
      assert slice[i..][1..] == slice[i + 1..];
      i := i + 1;
    }
    r := slice[i..];
  }

  /** `utf8Tail`: text to bytes, cut, back to text. */
  method Utf8Tail(text: string, maxBytes: nat) returns (r: string)
    ensures r == TailText(text, maxBytes)
  {
    hide Encode, Decode, DropContinuation;
    var buf := Encode(text);
    if |buf| <= maxBytes {
      return text;
    }
    var cut := DecodeFromBoundary(buf[|buf| - maxBytes..]);
    TailCut(text, maxBytes);
    DecodeInvertsEncode(TailText(text, maxBytes));
    r := Decode(cut).value;
  }
}
