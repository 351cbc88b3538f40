/** The incremental OSC 7 (working directory) parser. Text is a sequence of UTF-16 code units; the
    URI parser is a parameter. */
module Osc7 {
  import opened Wrappers

  type Unit = u: nat | u < 0x1_0000
  type Text = seq<Unit>

  const ESC: Unit := 0x1B
  const BEL: Unit := 0x07
  const BACKSLASH: Unit := 0x5C
  const PREFIX: Text := [0x1B, 0x5D, 0x37, 0x3B]
  const MAX_PARTIAL: nat := 4096

  /** Where a payload ends and how long its terminator is. */
  datatype Terminator = Terminator(at: nat, length: nat)

  predicate StartsWith(s: Text, i: nat) {
    i + 4 <= |s| && s[i..i + 4] == PREFIX
  }

  /** `indexOf(PREFIX, from)`. */
  function IndexOfPrefix(s: Text, from: nat): (r: Option<nat>)
    requires from <= |s|
    ensures r.Some? ==> r.value + 4 <= |s|
    ensures r.Some? ==> from <= r.value && StartsWith(s, r.value) && forall j :: from <= j < r.value ==> !StartsWith(s, j)
    ensures r.None? ==> forall j :: from <= j ==> !StartsWith(s, j)
    decreases |s| - from
  {
    if StartsWith(s, from) then Some(from)
    else if from == |s| then None
    else IndexOfPrefix(s, from + 1)
  }

  predicate EndsAt(s: Text, i: nat) {
    i < |s| && (s[i] == BEL || (s[i] == ESC && i + 1 < |s| && s[i + 1] == BACKSLASH))
  }

  /** The first terminator at or after `from`. */
  function FindTerminator(s: Text, from: nat): (r: Option<Terminator>)
    requires from <= |s|
    ensures r.Some? ==>
              from <= r.value.at && EndsAt(s, r.value.at) && r.value.length == (if s[r.value.at] == BEL then 1 else 2) &&
              r.value.at + r.value.length <= |s| &&
              forall j :: from <= j < r.value.at ==> !EndsAt(s, j)
    ensures r.None? ==> forall j :: from <= j ==> !EndsAt(s, j)
    decreases |s| - from
  {
    if from == |s| then None
    else if EndsAt(s, from) then Some(Terminator(from, if s[from] == BEL then 1 else 2))
    else FindTerminator(s, from + 1)
  }

  datatype Recognised = Recognised(payloads: seq<Text>, rest: Text)

  function InFront(payload: Text, after: Recognised): Recognised {
    Recognised([payload] + after.payloads, after.rest)
  }

  /** What a text contains: the payloads of its finished sequences in order, and the last sequence if
      it is unfinished. */
  function Recognise(s: Text): (r: Recognised)
    ensures |r.rest| <= |s|
    decreases |s|
  {
    var start := IndexOfPrefix(s, 0);
    if start.None? then Recognised([], [])
    else
      var end := FindTerminator(s, start.value + 4);
      if end.None? then Recognised([], s[start.value..])
      else
        InFront(s[start.value + 4..end.value.at], Recognise(s[end.value.at + end.value.length..]))
  }

  function Or<C>(later: Option<C>, earlier: Option<C>): Option<C> {
    if later.Some? then later else earlier
  }

  /** The directory a payload announces; one that is too long is not looked at. */
  function Announced<C>(parse: Text -> Option<C>, uri: Text): Option<C> {
    if |uri| > MAX_PARTIAL then None else parse(uri)
  }

  function LastAnnounced<C>(parse: Text -> Option<C>, payloads: seq<Text>): Option<C> {
    if payloads == [] then None
    else
      var n := |payloads| - 1;
      Or(Announced(parse, payloads[n]), LastAnnounced(parse, payloads[..n]))
  }

  /** One call of `feed`: the new partial and the result. */
  function FeedPartial(partial: Text, data: Text): Text {
    var rest := Recognise(partial + data).rest;
    if |rest| <= MAX_PARTIAL then rest else []
  }

  function FeedResult<C>(parse: Text -> Option<C>, partial: Text, data: Text): Option<C> {
    LastAnnounced(parse, Recognise(partial + data).payloads)
  }

  // ---------------------------------------------------------------- cutting a text in two

  /** The cut between `a` and `b` falls inside an introducer. */
  ghost predicate CutsIntroducer(a: Text, b: Text) {
    exists k :: |a| - 4 < k < |a| && k >= 0 && StartsWith(a + b, k)
  }

  lemma StartsWithShift(s: Text, k: nat, i: nat)
    requires k <= |s|
    ensures StartsWith(s[k..], i) <==> StartsWith(s, k + i)
  {
    if k + i + 4 <= |s| {
      assert s[k..][i..i + 4] == s[k + i..k + i + 4];
    }
  }

  /** Inside `a`, an introducer of `a + b` is an introducer of `a`, unless the cut splits it. */
  lemma StartsWithPrefix(a: Text, b: Text, i: nat)
    ensures i + 4 <= |a| ==> (StartsWith(a + b, i) <==> StartsWith(a, i))
    ensures i < |a| && StartsWith(a + b, i) && !CutsIntroducer(a, b) ==> StartsWith(a, i)
  {
    if i + 4 <= |a| {
      assert (a + b)[i..i + 4] == a[i..i + 4];
    }
  }

  lemma IndexIsUnique(s: Text, i: nat)
    requires StartsWith(s, i) && forall j :: 0 <= j < i ==> !StartsWith(s, j)
    ensures IndexOfPrefix(s, 0) == Some(i)
  {
    var r := IndexOfPrefix(s, 0);
    assert i <= |s|;
    if r.None? {
      assert false;
    }
  }

  lemma TerminatorIsUnique(s: Text, from: nat, i: nat)
    requires from <= i && EndsAt(s, i) && forall j :: from <= j < i ==> !EndsAt(s, j)
    ensures FindTerminator(s, from) == Some(Terminator(i, if s[i] == BEL then 1 else 2))
  {
    var r := FindTerminator(s, from);
    if r.None? {
      assert false;
    }
  }

  /** Searching what is left of a text is searching the text from there. */
  lemma {:induction false} IndexShift(s: Text, pos: nat, from: nat)
    requires pos + from <= |s|
    ensures var r := IndexOfPrefix(s, pos + from);
            IndexOfPrefix(s[pos..], from) == if r.None? then None else Some(r.value - pos)
    decreases |s| - from
  {
    StartsWithShift(s, pos, from);
    hide StartsWith;
    if pos + from < |s| {
      IndexShift(s, pos, from + 1);
    }
  }

  lemma {:induction false} TerminatorShift(s: Text, pos: nat, from: nat)
    requires pos + from <= |s|
    ensures var r := FindTerminator(s, pos + from);
            FindTerminator(s[pos..], from) == if r.None? then None else Some(Terminator(r.value.at - pos, r.value.length))
    decreases |s| - from
  {
    assert EndsAt(s[pos..], from) <==> EndsAt(s, pos + from);
    if pos + from < |s| {
      TerminatorShift(s, pos, from + 1);
    }
  }

  /** What a text contains, once its next introducer has been looked for. */
  function RecogniseFrom(s: Text, start: Option<nat>): Recognised
    requires start.Some? ==> start.value + 4 <= |s|
  {
    if start.None? then Recognised([], [])
    else
      var end := FindTerminator(s, start.value + 4);
      if end.None? then Recognised([], s[start.value..])
      else
        InFront(s[start.value + 4..end.value.at], Recognise(s[end.value.at + end.value.length..]))
  }

  lemma Unfold(s: Text)
    ensures Recognise(s) == RecogniseFrom(s, IndexOfPrefix(s, 0))
  {
    hide IndexOfPrefix, FindTerminator, EndsAt, InFront;
  }

  lemma SliceShift(s: Text, pos: nat, i: nat, j: nat)
    requires pos <= i <= j <= |s|
    ensures s[pos..][i - pos..j - pos] == s[i..j] && s[pos..][i - pos..] == s[i..] && s[pos..][j - pos..] == s[j..]
  {
  }

  lemma FoundShift(s: Text, pos: nat, start: nat, end: Terminator)
    requires pos <= start && start + 4 <= end.at && end.at + end.length <= |s|
    ensures var t, shifted := s[pos..], Terminator(end.at - pos, end.length);
            && t[start - pos + 4..shifted.at] == s[start + 4..end.at]
            && t[shifted.at + shifted.length..] == s[end.at + end.length..]
  {
    SliceShift(s, pos, start + 4, end.at);
    SliceShift(s, pos, end.at + end.length, |s|);
  }

  lemma FoundFrom(s: Text, start: nat, end: Option<Terminator>)
    requires start + 4 <= |s| && FindTerminator(s, start + 4) == end
    ensures RecogniseFrom(s, Some(start)) ==
            if end.None? then Recognised([], s[start..])
            else InFront(s[start + 4..end.value.at], Recognise(s[end.value.at + end.value.length..]))
  {
    hide FindTerminator, EndsAt, InFront, Recognise;
  }

  lemma FromShift(s: Text, pos: nat, start: nat)
    requires pos <= start && start + 4 <= |s|
    ensures RecogniseFrom(s[pos..], Some(start - pos)) == RecogniseFrom(s, Some(start))
  {
    hide RecogniseFrom, Recognise, FindTerminator, EndsAt, InFront;
    TerminatorShift(s, pos, start - pos + 4);
    var end := FindTerminator(s, start + 4);
    FoundFrom(s, start, end);
    if end.Some? {
      FoundFrom(s[pos..], start - pos, Some(Terminator(end.value.at - pos, end.value.length)));
      FoundShift(s, pos, start, end.value);
    } else {
      FoundFrom(s[pos..], start - pos, None);
      SliceShift(s, pos, start, |s|);
    }
  }

  lemma NothingFrom(s: Text)
    ensures RecogniseFrom(s, None) == Recognised([], [])
  {
  }

  /** What the remainder of a text contains, in positions of the text. */
  lemma UnfoldAt(s: Text, pos: nat)
    requires pos <= |s|
    ensures Recognise(s[pos..]) == RecogniseFrom(s, IndexOfPrefix(s, pos))
  {
    hide *;
    var start := IndexOfPrefix(s, pos);
    Unfold(s[pos..]);
    IndexShift(s, pos, 0);
    if start.Some? {
      FromShift(s, pos, start.value);
    } else {
      NothingFrom(s);
      NothingFrom(s[pos..]);
    }
  }

  /** Dropping text before the introducer changes nothing. */
  lemma FromIntroducer(s: Text, i: nat)
    requires IndexOfPrefix(s, 0) == Some(i)
    ensures Recognise(s) == Recognise(s[i..])
  {
    assert IndexOfPrefix(s, i) == Some(i);
    hide *;
    Unfold(s);
    UnfoldAt(s, i);
  }

  /** No introducer starts in `a`: the text `a + b` contains what `b` contains. */
  lemma Skips(a: Text, b: Text)
    requires IndexOfPrefix(a, 0).None? && !CutsIntroducer(a, b)
    ensures Recognise(a + b) == Recognise(b)
  {
    forall j: nat ensures j < |a| ==> !StartsWith(a + b, j) {
      StartsWithPrefix(a, b, j);
    }
    SearchSkips(a + b, 0, |a|);
    hide *;
    assert (a + b)[|a|..] == b;
    Unfold(a + b);
    UnfoldAt(a + b, |a|);
  }

  lemma {:induction false} SearchSkips(s: Text, from: nat, to: nat)
    requires from <= to <= |s| && forall j :: from <= j < to ==> !StartsWith(s, j)
    ensures IndexOfPrefix(s, from) == IndexOfPrefix(s, to)
    decreases |s| - from
  {
    if from < to {
      SearchSkips(s, from + 1, to);
    }
  }

  /** A finished sequence at the front of `a` is the same sequence at the front of `a + b`. */
  lemma SameFirstSequence(a: Text, b: Text)
    requires IndexOfPrefix(a, 0).Some? && FindTerminator(a, IndexOfPrefix(a, 0).value + 4).Some?
    ensures IndexOfPrefix(a + b, 0) == IndexOfPrefix(a, 0)
    ensures FindTerminator(a + b, IndexOfPrefix(a, 0).value + 4) == FindTerminator(a, IndexOfPrefix(a, 0).value + 4)
  {
    SameIntroducer(a, b);
    var i := IndexOfPrefix(a, 0).value;
    var e := FindTerminator(a, i + 4).value.at;
    forall j | i + 4 <= j < e ensures !EndsAt(a + b, j) {
      assert !EndsAt(a, j);
    }
    TerminatorIsUnique(a + b, i + 4, e);
  }

  lemma SameIntroducer(a: Text, b: Text)
    requires IndexOfPrefix(a, 0).Some?
    ensures IndexOfPrefix(a + b, 0) == IndexOfPrefix(a, 0)
  {
    var i := IndexOfPrefix(a, 0).value;
    forall j: nat | j <= i ensures StartsWith(a + b, j) <==> StartsWith(a, j) {
      StartsWithPrefix(a, b, j);
    }
    IndexIsUnique(a + b, i);
  }

  lemma CutAfter(a: Text, b: Text, k: nat)
    requires k <= |a| && !CutsIntroducer(a, b)
    ensures !CutsIntroducer(a[k..], b) && a[k..] + b == (a + b)[k..]
  {
    var t := a[k..];
    assert t + b == (a + b)[k..];
    if CutsIntroducer(t, b) {
      var j :| |t| - 4 < j < |t| && j >= 0 && StartsWith(t + b, j);
      StartsWithShift(a + b, k, j);
      assert CutsIntroducer(a, b);
    }
  }

  /** What is left unfinished by `a` is picked up by `b`. */
  ghost predicate Splits(a: Text, b: Text) {
    var first := Recognise(a);
    var second := Recognise(first.rest + b);
    Recognise(a + b) == Recognised(first.payloads + second.payloads, second.rest)
  }

  /** The cut loses nothing: a sequence is pending, so that `b` continues it, or no introducer is cut. */
  ghost predicate Clean(a: Text, b: Text) {
    Recognise(a).rest != [] || !CutsIntroducer(a, b)
  }

  lemma UnfoldPending(s: Text, i: nat)
    requires IndexOfPrefix(s, 0) == Some(i) && FindTerminator(s, i + 4).None?
    ensures Recognise(s) == Recognised([], s[i..])
  {
    hide IndexOfPrefix, FindTerminator, EndsAt, StartsWith;
    Unfold(s);
  }

  lemma UnfoldFound(s: Text, i: nat, end: Terminator)
    requires IndexOfPrefix(s, 0) == Some(i) && FindTerminator(s, i + 4) == Some(end)
    ensures var after := Recognise(s[end.at + end.length..]);
            Recognise(s) == Recognised([s[i + 4..end.at]] + after.payloads, after.rest)
  {
    hide IndexOfPrefix, FindTerminator, EndsAt, StartsWith, Recognise;
    Unfold(s);
  }

  lemma PendingContinues(a: Text, b: Text, i: nat)
    requires IndexOfPrefix(a, 0) == Some(i)
    ensures Recognise(a + b) == Recognise(a[i..] + b)
  {
    hide Recognise, FindTerminator, StartsWith;
    SameIntroducer(a, b);
    FromIntroducer(a + b, i);
    assert a[i..] + b == (a + b)[i..];
  }

  lemma SplitsWhenPending(a: Text, b: Text, i: nat)
    requires IndexOfPrefix(a, 0) == Some(i) && FindTerminator(a, i + 4).None?
    ensures Splits(a, b)
  {
    hide Recognise, IndexOfPrefix, FindTerminator;
    PendingContinues(a, b, i);
    UnfoldPending(a, i);
    assert [] + Recognise(a[i..] + b).payloads == Recognise(a[i..] + b).payloads;
  }

  lemma FoundContinues(a: Text, b: Text, i: nat, end: Terminator)
    requires IndexOfPrefix(a, 0) == Some(i) && FindTerminator(a, i + 4) == Some(end)
    ensures var after := Recognise(a[end.at + end.length..] + b);
            Recognise(a + b) == Recognised([a[i + 4..end.at]] + after.payloads, after.rest)
  {
    hide Recognise, StartsWith, EndsAt;
    SameFirstSequence(a, b);
    UnfoldFound(a + b, i, end);
    assert a[end.at + end.length..] + b == (a + b)[end.at + end.length..];
    assert (a + b)[i + 4..end.at] == a[i + 4..end.at];
  }

  /** A finished sequence in front does not matter. */
  lemma SplitsAfterSequence(a: Text, b: Text, i: nat, end: Terminator)
    requires IndexOfPrefix(a, 0) == Some(i) && FindTerminator(a, i + 4) == Some(end)
    ensures Splits(a[end.at + end.length..], b) ==> Splits(a, b)
    ensures Recognise(a).rest == Recognise(a[end.at + end.length..]).rest
  {
    hide Recognise, IndexOfPrefix, FindTerminator;
    UnfoldFound(a, i, end);
    FoundContinues(a, b, i, end);
    var inner := Recognise(a[end.at + end.length..]);
    var payload := [a[i + 4..end.at]];
    ConcatAssociates(payload, inner.payloads, Recognise(inner.rest + b).payloads);
  }

  /** What `a + b` contains is what `a` contains and then what `b` makes of what `a` left unfinished. */
  lemma {:induction false} CleanSplits(a: Text, b: Text)
    requires Clean(a, b)
    ensures Splits(a, b)
    decreases |a|
  {
    hide Recognise, CutsIntroducer, Splits, FindTerminator, EndsAt;
    var start := IndexOfPrefix(a, 0);
    if start.None? {
      assert Recognise(a) == Recognised([], []) by { Unfold(a); }
      Skips(a, b);
      SplitsWhenQuiet(a, b);
    } else {
      var i, end := start.value, FindTerminator(a, start.value + 4);
      if end.None? {
        SplitsWhenPending(a, b, i);
      } else {
        var k := end.value.at + end.value.length;
        SplitsAfterSequence(a, b, i, end.value);
        if !CutsIntroducer(a, b) { CutAfter(a, b, k); }
        CleanSplits(a[k..], b);
      }
    }
  }

  lemma SplitsWhenQuiet(a: Text, b: Text)
    requires Recognise(a) == Recognised([], []) && Recognise(a + b) == Recognise(b)
    ensures Splits(a, b)
  {
    hide Recognise;
    assert [] + b == b;
    assert [] + Recognise(b).payloads == Recognise(b).payloads;
  }

  // ---------------------------------------------------------------- a cut that loses

  /** With nothing pending, the text `a + b` contains something that `a` and then `b` do not: a payload
      more or a longer one, or a pending sequence that is not `b`'s. */
  ghost predicate Loses(a: Text, b: Text) {
    var whole, later := Recognise(a + b), Recognise(b);
    || whole.payloads != Recognise(a).payloads + later.payloads
    || (whole.rest != [] && whole.rest != later.rest)
  }

  /** Introducers do not overlap each other or a terminator. */
  lemma Apart(s: Text, i: nat, q: nat, at: nat)
    requires StartsWith(s, i) && i < q
    ensures StartsWith(s, q) ==> i + 4 <= q
    ensures StartsWith(s, q) && EndsAt(s, at) && q <= at ==> q + 4 <= at
    ensures StartsWith(s, q) && EndsAt(s, at) && at <= q ==> at + (if s[at] == BEL then 1 else 2) <= q
  {
    assert s[i..i + 4][1] == s[i + 1] && s[i..i + 4][2] == s[i + 2] && s[i..i + 4][3] == s[i + 3];
    if StartsWith(s, q) {
      assert s[q..q + 4][0] == s[q] && s[q..q + 4][1] == s[q + 1] && s[q..q + 4][2] == s[q + 2] && s[q..q + 4][3] == s[q + 3];
    }
  }

  /** The first introducer that is cut is the first of `a + b` when none is complete in `a`. */
  lemma FirstCut(a: Text, b: Text) returns (i: nat)
    requires IndexOfPrefix(a, 0).None? && CutsIntroducer(a, b)
    ensures i < |a| < i + 4 && IndexOfPrefix(a + b, 0) == Some(i) && StartsWith(a + b, i)
  {
    var j :| |a| - 4 < j < |a| && j >= 0 && StartsWith(a + b, j);
    var first := IndexOfPrefix(a + b, 0);
    assert first.Some? && first.value <= j;
    i := first.value;
    StartsWithPrefix(a, b, i);
  }

  /** Without a terminator the cut sequence is pending, and longer than anything that starts later. */
  lemma CutPending(s: Text, i: nat, pos: nat)
    requires IndexOfPrefix(s, 0) == Some(i) && i < pos <= |s| && FindTerminator(s, i + 4).None?
    ensures |Recognise(s).rest| > |Recognise(s[pos..]).rest|
  {
    UnfoldPending(s, i);
    UnfoldAt(s, pos);
    var q := IndexOfPrefix(s, pos);
    if q.Some? {
      Apart(s, i, q.value, 0);
      NoTerminatorLater(s, i + 4, q.value + 4);
    }
    hide Recognise, IndexOfPrefix, FindTerminator, EndsAt, StartsWith;
  }

  lemma NestedEndsWith(s: Text, i: nat, q: nat, end: Terminator)
    requires StartsWith(s, i) && StartsWith(s, q) && i < q < end.at && FindTerminator(s, i + 4) == Some(end)
    ensures q + 4 <= end.at && FindTerminator(s, q + 4) == Some(end)
  {
    Apart(s, i, q, end.at);
    SameTerminator(s, i + 4, q + 4, end);
  }

  /** A sequence nested in the payload of the cut one ends with it, and has a shorter payload. */
  lemma CutAroundAnother(s: Text, i: nat, pos: nat, q: nat, end: Terminator)
    requires IndexOfPrefix(s, 0) == Some(i) && i < pos <= |s| && FindTerminator(s, i + 4) == Some(end)
    requires IndexOfPrefix(s, pos) == Some(q) && q < end.at
    ensures Recognise(s).payloads != Recognise(s[pos..]).payloads
  {
    NestedEndsWith(s, i, q, end);
    assert StartsWith(s, q);
    hide Recognise, IndexOfPrefix, FindTerminator, EndsAt, StartsWith;
    UnfoldFound(s, i, end);
    UnfoldAt(s, pos);
    FoundFrom(s, q, Some(end));
    var after := Recognise(s[end.at + end.length..]).payloads;
    OnePayloadMore(s[i + 4..end.at], after);
    OnePayloadMore(s[q + 4..end.at], after);
  }

  /** Otherwise what follows is the same, and the cut sequence itself is missing. */
  lemma CutBeforeOthers(s: Text, i: nat, pos: nat, end: Terminator)
    requires IndexOfPrefix(s, 0) == Some(i) && i < pos < i + 4 && pos <= |s| && FindTerminator(s, i + 4) == Some(end)
    requires IndexOfPrefix(s, pos).Some? ==> IndexOfPrefix(s, pos).value >= end.at
    ensures Recognise(s).payloads != Recognise(s[pos..]).payloads
  {
    var q, k := IndexOfPrefix(s, pos), end.at + end.length;
    if q.Some? {
      Apart(s, i, q.value, end.at);
      SearchBetween(s, pos, k, q.value);
    }
    hide Recognise, IndexOfPrefix, FindTerminator, EndsAt, StartsWith;
    UnfoldFound(s, i, end);
    UnfoldAt(s, pos);
    UnfoldAt(s, k);
    OnePayloadMore(s[i + 4..end.at], Recognise(s[k..]).payloads);
  }

  /** A cut introducer with nothing before it. */
  lemma CutLosesFirst(a: Text, b: Text)
    requires IndexOfPrefix(a, 0).None? && CutsIntroducer(a, b)
    ensures Recognise(a) == Recognised([], []) && Loses(a, b)
  {
    var i := FirstCut(a, b);
    Unfold(a);
    var s := a + b;
    assert s[|a|..] == b;
    var end, q := FindTerminator(s, i + 4), IndexOfPrefix(s, |a|);
    hide Recognise, IndexOfPrefix, FindTerminator, EndsAt, StartsWith, CutsIntroducer;
    assert [] + Recognise(b).payloads == Recognise(b).payloads;
    if end.None? {
      CutPending(s, i, |a|);
    } else if q.Some? && q.value < end.value.at {
      CutAroundAnother(s, i, |a|, q.value, end.value);
    } else {
      CutBeforeOthers(s, i, |a|, end.value);
    }
  }

  lemma OnePayloadMore(p: Text, ps: seq<Text>)
    ensures |[p] + ps| == |ps| + 1 && ([p] + ps)[0] == p
  {
  }

  lemma {:induction false} NoTerminatorLater(s: Text, from: nat, to: nat)
    requires from <= to <= |s| && FindTerminator(s, from).None?
    ensures FindTerminator(s, to).None?
    decreases |s| - from
  {
    if from < to {
      NoTerminatorLater(s, from + 1, to);
    }
  }

  lemma {:induction false} SameTerminator(s: Text, from: nat, to: nat, end: Terminator)
    requires from <= to <= end.at < |s| && FindTerminator(s, from) == Some(end)
    ensures FindTerminator(s, to) == Some(end)
    decreases |s| - from
  {
    if from < to {
      SameTerminator(s, from + 1, to, end);
    }
  }

  lemma {:induction false} SearchBetween(s: Text, from: nat, to: nat, q: nat)
    requires from <= to <= q <= |s| && IndexOfPrefix(s, from) == Some(q)
    ensures IndexOfPrefix(s, to) == Some(q)
    decreases |s| - from
  {
    if from < to {
      SearchBetween(s, from + 1, to, q);
    }
  }

  lemma StartsAfterTerminator(s: Text, i: nat, j: nat, at: nat)
    requires StartsWith(s, i) && StartsWith(s, j) && i < j && EndsAt(s, at) && at < j + 4
    ensures at + (if s[at] == BEL then 1 else 2) <= j
  {
    Apart(s, i, j, at);
    hide StartsWith, EndsAt;
  }

  lemma CutRemains(a: Text, b: Text, j: nat, k: nat)
    requires k <= j < |a| < j + 4 && StartsWith(a + b, j)
    ensures CutsIntroducer(a[k..], b)
  {
    StartsWithShift(a + b, k, j - k);
    assert (a + b)[k..] == a[k..] + b;
    hide StartsWith;
  }

  /** A cut introducer is not part of the sequence before it. */
  lemma CutIsLater(a: Text, b: Text, i: nat, end: Terminator)
    requires IndexOfPrefix(a, 0) == Some(i) && FindTerminator(a, i + 4) == Some(end) && CutsIntroducer(a, b)
    ensures CutsIntroducer(a[end.at + end.length..], b)
  {
    hide FindTerminator, IndexOfPrefix, StartsWith;
    SameIntroducer(a, b);
    var j :| |a| - 4 < j < |a| && j >= 0 && StartsWith(a + b, j);
    assert EndsAt(a + b, end.at) && (a + b)[end.at] == a[end.at];
    hide EndsAt, CutsIntroducer;
    StartsAfterTerminator(a + b, i, j, end.at);
    CutRemains(a, b, j, end.at + end.length);
  }

  lemma LosesAfterSequence(a: Text, b: Text, i: nat, end: Terminator)
    requires IndexOfPrefix(a, 0) == Some(i) && FindTerminator(a, i + 4) == Some(end)
    requires Loses(a[end.at + end.length..], b)
    ensures Loses(a, b)
  {
    hide Recognise, IndexOfPrefix, FindTerminator;
    UnfoldFound(a, i, end);
    FoundContinues(a, b, i, end);
    var inner, payload := Recognise(a[end.at + end.length..]), a[i + 4..end.at];
    var whole := Recognise(a[end.at + end.length..] + b);
    ConcatAssociates([payload], inner.payloads, Recognise(b).payloads);
    if [payload] + whole.payloads == [payload] + (inner.payloads + Recognise(b).payloads) {
      assert ([payload] + whole.payloads)[1..] == whole.payloads;
      assert ([payload] + (inner.payloads + Recognise(b).payloads))[1..] == inner.payloads + Recognise(b).payloads;
    }
  }

  lemma {:induction false} UncleanLoses(a: Text, b: Text)
    requires !Clean(a, b)
    ensures Recognise(a).rest == [] && Loses(a, b)
    decreases |a|
  {
    hide Recognise, CutsIntroducer, Loses, FindTerminator, EndsAt;
    var start := IndexOfPrefix(a, 0);
    if start.None? {
      CutLosesFirst(a, b);
    } else {
      var i, end := start.value, FindTerminator(a, start.value + 4);
      if end.None? {
        UnfoldPending(a, i);
        assert false;
      } else {
        SplitsAfterSequence(a, b, i, end.value);
        CutIsLater(a, b, i, end.value);
        UncleanLoses(a[end.value.at + end.value.length..], b);
        LosesAfterSequence(a, b, i, end.value);
      }
    }
  }

  /** Main result for one cut: the two parts together contain what the text contains exactly if a
      sequence is pending at the cut or no introducer is cut. */
  lemma SplitsIff(a: Text, b: Text)
    ensures Splits(a, b) <==> Clean(a, b)
  {
    if Clean(a, b) {
      CleanSplits(a, b);
    } else {
      UncleanLoses(a, b);
      hide Recognise, CutsIntroducer;
      assert [] + b == b;
    }
  }

  // ---------------------------------------------------------------- the grammar

  /** ESC ] 7 ; stands at `i`. */
  predicate IntroducesAt(s: Text, i: nat) {
    i + 4 <= |s| && s[i] == 0x1B && s[i + 1] == 0x5D && s[i + 2] == 0x37 && s[i + 3] == 0x3B
  }

  /** No introducer begins in `junk`, also not one that what follows would complete. */
  predicate IsJunk(junk: Text) {
    forall i :: 0 <= i < |junk| ==> !IntroducesAt(junk + [0x1B, 0x5D, 0x37, 0x3B], i)
  }

  /** Neither BEL nor ESC \ stands in `uri`. */
  predicate IsPayload(uri: Text) {
    forall i :: 0 <= i < |uri| ==> uri[i] != 0x07 && !(uri[i] == 0x1B && i + 1 < |uri| && uri[i + 1] == 0x5C)
  }

  lemma StartsWithIsIntroduces(s: Text, i: nat)
    ensures StartsWith(s, i) <==> IntroducesAt(s, i)
  {
    if i + 4 <= |s| {
      var w := s[i..i + 4];
      assert w[0] == s[i] && w[1] == s[i + 1] && w[2] == s[i + 2] && w[3] == s[i + 3];
      if IntroducesAt(s, i) {
        assert w == PREFIX;
      }
    }
  }

  lemma FirstIntroducer(junk: Text, after: Text)
    requires IsJunk(junk)
    ensures IndexOfPrefix(junk + [0x1B, 0x5D, 0x37, 0x3B] + after, 0) == Some(|junk|)
  {
    var open := junk + [0x1B, 0x5D, 0x37, 0x3B];
    var s := open + after;
    StartsWithIsIntroduces(s, |junk|);
    forall i | 0 <= i < |junk| ensures !StartsWith(s, i) {
      StartsWithIsIntroduces(s, i);
      assert IntroducesAt(s, i) <==> IntroducesAt(open, i);
    }
    IndexIsUnique(s, |junk|);
  }

  /** What the parser recognises in any text, by its grammar: text without an introducer is nothing; a
      sequence runs from the first introducer to the first BEL or ESC \, its payload lies between, and
      the rest of the text is recognised behind it; a sequence without a terminator is pending. Every
      text has exactly one of these forms. */
  lemma RecogniseGrammar(junk: Text, uri: Text, end: Text, rest: Text)
    requires IsPayload(uri) && (end == [0x07] || end == [0x1B, 0x5C])
    ensures (forall i: nat :: !IntroducesAt(junk, i)) ==> Recognise(junk) == Recognised([], [])
    ensures IsJunk(junk) ==>
              Recognise(junk + [0x1B, 0x5D, 0x37, 0x3B] + uri) == Recognised([], [0x1B, 0x5D, 0x37, 0x3B] + uri)
    ensures IsJunk(junk) ==>
              Recognise(junk + [0x1B, 0x5D, 0x37, 0x3B] + uri + end + rest) ==
                Recognised([uri] + Recognise(rest).payloads, Recognise(rest).rest)
  {
    hide Recognise, FindTerminator, IndexOfPrefix;
    if forall i: nat :: !IntroducesAt(junk, i) {
      forall j: nat ensures !StartsWith(junk, j) {
        StartsWithIsIntroduces(junk, j);
      }
      Unfold(junk);
      assert IndexOfPrefix(junk, 0).None?;
    }
    if IsJunk(junk) {
      PendingForm(junk, uri);
      FinishedForm(junk, uri, end, rest);
    }
  }

  lemma PendingForm(junk: Text, uri: Text)
    requires IsJunk(junk) && IsPayload(uri)
    ensures Recognise(junk + [0x1B, 0x5D, 0x37, 0x3B] + uri) == Recognised([], [0x1B, 0x5D, 0x37, 0x3B] + uri)
  {
    hide Recognise, IndexOfPrefix;
    var s := junk + [0x1B, 0x5D, 0x37, 0x3B] + uri;
    FirstIntroducer(junk, uri);
    Unfold(s);
    forall j | |junk| + 4 <= j < |s| ensures !EndsAt(s, j) {
      assert s[j] == uri[j - |junk| - 4];
    }
    assert FindTerminator(s, |junk| + 4).None?;
    assert s[|junk|..] == [0x1B, 0x5D, 0x37, 0x3B] + uri;
  }

  lemma FinishedForm(junk: Text, uri: Text, end: Text, rest: Text)
    requires IsJunk(junk) && IsPayload(uri) && (end == [0x07] || end == [0x1B, 0x5C])
    ensures Recognise(junk + [0x1B, 0x5D, 0x37, 0x3B] + uri + end + rest) ==
              Recognised([uri] + Recognise(rest).payloads, Recognise(rest).rest)
  {
    var open: Text := junk + [0x1B, 0x5D, 0x37, 0x3B];
    FirstIntroducer(junk, uri + end + rest);
    PayloadEnds(open, uri, end, rest);
    FourParts(open, uri, end, rest);
    FirstSequence(open + uri + end + rest, |junk|, Terminator(|open| + |uri|, |end|));
    hide *;
  }

  lemma FirstSequence(s: Text, i: nat, t: Terminator)
    requires IndexOfPrefix(s, 0) == Some(i) && FindTerminator(s, i + 4) == Some(t)
    ensures Recognise(s) == Recognised([s[i + 4..t.at]] + Recognise(s[t.at + t.length..]).payloads,
                                       Recognise(s[t.at + t.length..]).rest)
  {
    Unfold(s);
    hide Recognise, IndexOfPrefix, FindTerminator, EndsAt, StartsWith;
  }

  lemma FourParts(a: Text, b: Text, c: Text, d: Text)
    ensures var s := a + b + c + d;
            && s == a + (b + c + d) && s[|a|..|a| + |b|] == b && s[|a| + |b| + |c|..] == d
  {
  }

  lemma PayloadEnds(before: Text, uri: Text, end: Text, rest: Text)
    requires IsPayload(uri) && (end == [0x07] || end == [0x1B, 0x5C])
    ensures FindTerminator(before + uri + end + rest, |before|) == Some(Terminator(|before| + |uri|, |end|))
  {
    var s, from, at := before + uri + end + rest, |before|, |before| + |uri|;
    assert s[at] == end[0] && (|end| == 2 ==> s[at + 1] == end[1]);
    forall j | from <= j < at ensures !EndsAt(s, j) {
      assert s[j] == uri[j - from];
      assert s[j + 1] == if j + 1 < at then uri[j + 1 - from] else end[0];
    }
    TerminatorIsUnique(s, from, at);
    hide FindTerminator;
  }

  /** What a call of `feed` announces: of the payloads it comes across, the last that is no longer than
      4096 units and that the URI parser accepts; what it keeps: the pending sequence, if that is no
      longer than 4096 units. */
  lemma FeedAnnounces<C>(parse: Text -> Option<C>, partial: Text, data: Text)
    ensures var found := Recognise(partial + data);
            && FeedPartial(partial, data) == (if |found.rest| <= 4096 then found.rest else [])
            && LastAccepted(parse, found.payloads, FeedResult(parse, partial, data))
  {
    AnnouncesLast(parse, Recognise(partial + data).payloads);
  }

  predicate Accepts<C>(parse: Text -> Option<C>, uri: Text) {
    |uri| <= 4096 && parse(uri).Some?
  }

  ghost predicate LastAccepted<C>(parse: Text -> Option<C>, payloads: seq<Text>, r: Option<C>) {
    if forall i :: 0 <= i < |payloads| ==> !Accepts(parse, payloads[i]) then r == None
    else exists i :: 0 <= i < |payloads| && Accepts(parse, payloads[i]) && r == parse(payloads[i]) &&
                     forall j :: i < j < |payloads| ==> !Accepts(parse, payloads[j])
  }

  lemma {:induction false} AnnouncesLast<C>(parse: Text -> Option<C>, payloads: seq<Text>)
    ensures LastAccepted(parse, payloads, LastAnnounced(parse, payloads))
  {
    if payloads != [] {
      var n := |payloads| - 1;
      AnnouncesLast(parse, payloads[..n]);
      if !Accepts(parse, payloads[n]) {
        assert forall i :: 0 <= i < n ==> payloads[..n][i] == payloads[i];
      }
    }
  }

  // ---------------------------------------------------------------- any number of chunks

  function Concat(chunks: seq<Text>): Text {
    if chunks == [] then [] else Concat(chunks[..|chunks| - 1]) + chunks[|chunks| - 1]
  }

  /** The partial after feeding the chunks one by one to a fresh parser. */
  function PartialAfter(chunks: seq<Text>): Text {
    if chunks == [] then []
    else
      var n := |chunks| - 1;
      FeedPartial(PartialAfter(chunks[..n]), chunks[n])
  }

  /** All payloads that those calls have come across. */
  function HeardAfter(chunks: seq<Text>): seq<Text> {
    if chunks == [] then []
    else
      var n := |chunks| - 1;
      HeardAfter(chunks[..n]) + Recognise(PartialAfter(chunks[..n]) + chunks[n]).payloads
  }

  /** The last directory any of those calls returned. */
  function LastResult<C>(parse: Text -> Option<C>, chunks: seq<Text>): Option<C> {
    if chunks == [] then None
    else
      var n := |chunks| - 1;
      Or(FeedResult(parse, PartialAfter(chunks[..n]), chunks[n]), LastResult(parse, chunks[..n]))
  }

  /** The parser has come across exactly what the text so far contains, and holds what is unfinished. */
  predicate Follows(chunks: seq<Text>) {
    Recognised(HeardAfter(chunks), PartialAfter(chunks)) == Recognise(Concat(chunks))
  }

  ghost predicate CutsAreClean(chunks: seq<Text>) {
    forall k :: 0 <= k < |chunks| ==> Clean(Concat(chunks[..k]), chunks[k])
  }

  /** No sequence is pending for so long that its partial is dropped. */
  predicate PartialsFit(chunks: seq<Text>) {
    forall k :: 0 <= k <= |chunks| ==> |Recognise(Concat(chunks[..k])).rest| <= MAX_PARTIAL
  }

  /** One more chunk. */
  lemma FollowsOn(chunks: seq<Text>)
    requires chunks != [] && Follows(chunks[..|chunks| - 1])
    ensures Follows(chunks) <==>
              && Clean(Concat(chunks[..|chunks| - 1]), chunks[|chunks| - 1])
              && |Recognise(Concat(chunks)).rest| <= MAX_PARTIAL
  {
    hide Recognise, CutsIntroducer;
    var a, b := Concat(chunks[..|chunks| - 1]), chunks[|chunks| - 1];
    var first, second := Recognise(a), Recognise(Recognise(a).rest + b);
    if Clean(a, b) {
      CleanSplits(a, b);
    } else {
      UncleanLoses(a, b);
      assert [] + b == b;
    }
  }

  lemma NothingFollowed()
    ensures Follows([]) && CutsAreClean([]) && PartialsFit([])
  {
    Unfold([]);
    var none: seq<Text> := [];
    assert none[..0] == none;
  }

  lemma ConditionsGrow(chunks: seq<Text>)
    requires chunks != []
    ensures var before, n := chunks[..|chunks| - 1], |chunks| - 1;
            CutsAreClean(chunks) && PartialsFit(chunks) <==>
              CutsAreClean(before) && PartialsFit(before) && Clean(Concat(before), chunks[n]) &&
              |Recognise(Concat(chunks)).rest| <= MAX_PARTIAL
  {
    hide Recognise, Concat, Clean;
    var before, n := chunks[..|chunks| - 1], |chunks| - 1;
    assert chunks[..|chunks|] == chunks && forall k :: 0 <= k <= n ==> before[..k] == chunks[..k];
  }

  /** Main result: the parser keeps up with the text, chunk by chunk, exactly if every cut is clean
      and no pending sequence outgrows the partial. */
  lemma {:induction false} ParserFollowsIff(chunks: seq<Text>)
    ensures (forall k :: 0 <= k <= |chunks| ==> Follows(chunks[..k])) <==> CutsAreClean(chunks) && PartialsFit(chunks)
    decreases |chunks|
  {
    hide Follows, CutsAreClean, PartialsFit, Clean, Recognise, Concat;
    assert chunks[..|chunks|] == chunks;
    if chunks == [] {
      NothingFollowed();
      forall k | 0 <= k <= |chunks| ensures chunks[..k] == [] {
      }
    } else {
      var before := chunks[..|chunks| - 1];
      ParserFollowsIff(before);
      ConditionsGrow(chunks);
      forall k | 0 <= k <= |before| ensures before[..k] == chunks[..k] {
      }
      assert before[..|before|] == before;
      if Follows(before) {
        FollowsOn(chunks);
      }
    }
  }

  lemma {:induction false} AnnouncedJoins<C>(parse: Text -> Option<C>, a: seq<Text>, b: seq<Text>)
    ensures LastAnnounced(parse, a + b) == Or(LastAnnounced(parse, b), LastAnnounced(parse, a))
    decreases |b|
  {
    if b == [] {
      assert a + b == a;
    } else {
      AnnouncedJoins(parse, a, b[..|b| - 1]);
      assert (a + b)[..|a + b| - 1] == a + b[..|b| - 1];
    }
  }

  lemma {:induction false} ResultIsLastHeard<C>(parse: Text -> Option<C>, chunks: seq<Text>)
    ensures LastResult(parse, chunks) == LastAnnounced(parse, HeardAfter(chunks))
  {
    hide Recognise;
    if chunks != [] {
      var n := |chunks| - 1;
      ResultIsLastHeard(parse, chunks[..n]);
      AnnouncedJoins(parse, HeardAfter(chunks[..n]), Recognise(PartialAfter(chunks[..n]) + chunks[n]).payloads);
    }
  }

  /** The same before the last chunk: what that one leaves unfinished may be of any length. */
  predicate EarlierPartialsFit(chunks: seq<Text>) {
    forall k :: 0 <= k < |chunks| ==> |Recognise(Concat(chunks[..k])).rest| <= MAX_PARTIAL
  }

  lemma EarlierFollows(chunks: seq<Text>)
    requires chunks != [] && CutsAreClean(chunks) && EarlierPartialsFit(chunks)
    ensures Follows(chunks[..|chunks| - 1]) && Clean(Concat(chunks[..|chunks| - 1]), chunks[|chunks| - 1])
  {
    hide Recognise, Concat, Clean, Follows;
    var before := chunks[..|chunks| - 1];
    assert before[..|before|] == before && forall k :: 0 <= k <= |before| ==> before[..k] == chunks[..k];
    assert CutsAreClean(before) && PartialsFit(before);
    ParserFollowsIff(before);
  }

  lemma LastChunkAgrees(chunks: seq<Text>)
    requires chunks != [] && Follows(chunks[..|chunks| - 1])
    requires Clean(Concat(chunks[..|chunks| - 1]), chunks[|chunks| - 1])
    ensures HeardAfter(chunks) == Recognise(Concat(chunks)).payloads
    ensures PartialAfter(chunks) == FeedPartial([], Concat(chunks))
  {
    CleanSplits(Concat(chunks[..|chunks| - 1]), chunks[|chunks| - 1]);
    hide Recognise, Clean;
    assert [] + Concat(chunks) == Concat(chunks);
  }

  /** Main result: fed in any such chunks, the parser ends with the same partial and has announced the
      same last directory as when it is fed the whole text at once, also when what the last chunk
      leaves unfinished is too long to be kept. */
  lemma ChunkingInvariance<C>(parse: Text -> Option<C>, chunks: seq<Text>)
    requires CutsAreClean(chunks) && EarlierPartialsFit(chunks)
    ensures PartialAfter(chunks) == FeedPartial([], Concat(chunks))
    ensures LastResult(parse, chunks) == FeedResult(parse, [], Concat(chunks))
  {
    ResultIsLastHeard(parse, chunks);
    assert [] + Concat(chunks) == Concat(chunks);
    if chunks == [] {
      NothingToFind();
    } else {
      EarlierFollows(chunks);
      LastChunkAgrees(chunks);
    }
    hide Recognise;
  }

  // ---------------------------------------------------------------- both conditions are needed

  predicate Plain(uri: Text) {
    forall i :: 0 <= i < |uri| ==> uri[i] != ESC && uri[i] != BEL
  }

  lemma NothingToFind()
    ensures Recognise([]) == Recognised([], [])
  {
  }

  lemma NoIntroducer(s: Text)
    requires forall j: nat :: !StartsWith(s, j)
    ensures Recognise(s) == Recognised([], [])
  {
    hide FindTerminator;
  }

  /** A whole sequence is recognised; without its terminator it is pending. */
  lemma WholeSequence(uri: Text)
    requires Plain(uri)
    ensures Recognise(PREFIX + uri + [BEL]) == Recognised([uri], [])
    ensures Recognise(PREFIX + uri) == Recognised([], PREFIX + uri)
  {
    var whole, open := PREFIX + uri + [BEL], PREFIX + uri;
    assert whole[0..4] == PREFIX && open[0..4] == PREFIX;
    IndexIsUnique(whole, 0);
    IndexIsUnique(open, 0);
    forall j | 4 <= j < |open| ensures !EndsAt(whole, j) && !EndsAt(open, j) {
      assert whole[j] == open[j] == uri[j - 4];
    }
    TerminatorIsUnique(whole, 4, |whole| - 1);
    assert FindTerminator(open, 4).None?;
    hide Recognise, IndexOfPrefix, FindTerminator, EndsAt, StartsWith;
    Unfold(whole);
    Unfold(open);
    assert whole[4..|whole| - 1] == uri && whole[|whole|..] == [] && open[0..] == open;
    NothingToFind();
    assert [uri] + [] == [uri];
  }

  lemma AnnouncesOnly<C>(parse: Text -> Option<C>, uri: Text)
    ensures LastAnnounced(parse, [uri]) == Announced(parse, uri)
    ensures LastAnnounced(parse, []) == None
  {
    var one := [uri];
    assert one[..0] == [];
  }

  lemma TwoChunks<C>(parse: Text -> Option<C>, first: Text, second: Text)
    ensures LastResult(parse, [first, second]) ==
            Or(FeedResult(parse, FeedPartial([], first), second), FeedResult(parse, [], first))
  {
    hide FeedResult, FeedPartial;
    var chunks, one := [first, second], [first];
    assert one[..0] == [];
    assert PartialAfter(one) == FeedPartial([], first) && LastResult(parse, one) == FeedResult(parse, [], first);
    assert chunks[..1] == one;
  }

  lemma TailHasNoIntroducer(uri: Text)
    requires Plain(uri)
    ensures forall j: nat :: !StartsWith(PREFIX[1..] + uri + [BEL], j)
  {
    var second := PREFIX[1..] + uri + [BEL];
    forall j: nat ensures !StartsWith(second, j) {
      if j + 4 <= |second| {
        assert second[j] != ESC by {
          if 3 <= j < |second| - 1 { assert second[j] == uri[j - 3]; }
        }
        assert second[j..j + 4][0] == second[j];
      }
    }
  }

  /** An introducer that is split after its first unit, with nothing pending, is lost. */
  lemma SplitIntroducerIsLost<C>(parse: Text -> Option<C>, uri: Text, cwd: C)
    requires Plain(uri) && |uri| <= MAX_PARTIAL && parse(uri) == Some(cwd)
    ensures FeedResult(parse, [], [ESC] + (PREFIX[1..] + uri + [BEL])) == Some(cwd)
    ensures LastResult(parse, [[ESC], PREFIX[1..] + uri + [BEL]]) == None
  {
    var first: Text, second := [ESC], PREFIX[1..] + uri + [BEL];
    assert [] + (first + second) == PREFIX + uri + [BEL];
    WholeSequence(uri);
    AnnouncesOnly(parse, uri);
    assert forall j: nat :: !StartsWith(first, j);
    TailHasNoIntroducer(uri);
    hide Recognise, StartsWith, LastAnnounced;
    assert [] + first == first && [] + second == second;
    NoIntroducer(first);
    NoIntroducer(second);
    TwoChunks(parse, first, second);
  }

  /** A sequence whose partial outgrows the bound by its introducer is lost, although its payload is
      not too long: fed at once it is announced. */
  lemma LongPartialIsLost<C>(parse: Text -> Option<C>, uri: Text, cwd: C)
    requires Plain(uri) && MAX_PARTIAL - 4 < |uri| <= MAX_PARTIAL && parse(uri) == Some(cwd)
    ensures FeedResult(parse, [], PREFIX + uri + [BEL]) == Some(cwd)
    ensures LastResult(parse, [PREFIX + uri, [BEL]]) == None
  {
    var first: Text, second := PREFIX + uri, [BEL];
    assert |PREFIX| == 4 && |first| > MAX_PARTIAL;
    assert [] + (first + second) == PREFIX + uri + [BEL];
    WholeSequence(uri);
    AnnouncesOnly(parse, uri);
    assert forall j: nat :: !StartsWith(second, j);
    hide Recognise, StartsWith, LastAnnounced;
    assert [] + first == first && [] + second == second;
    NoIntroducer(second);
    TwoChunks(parse, PREFIX + uri, [BEL]);
    assert FeedPartial([], first) == [];
  }

  // ---------------------------------------------------------------- the parser

  class Osc7Parser<C> {
    const parse: Text -> Option<C>
    var partial: Text

    predicate Valid()
      reads this
    {
      |partial| <= MAX_PARTIAL
    }

    constructor (parse: Text -> Option<C>)
      ensures Valid() && partial == [] && this.parse == parse
    {
      this.parse := parse;
      partial := [];
    }

    /** The first terminator of a payload, or `None`: the inner scanning loop. */
    method ScanPayload(input: Text, payloadStart: nat) returns (r: Option<Terminator>)
      requires payloadStart <= |input|
      ensures r == FindTerminator(input, payloadStart)
    {
      var i := payloadStart;
      while i < |input|
        invariant payloadStart <= i <= |input|
        invariant FindTerminator(input, payloadStart) == FindTerminator(input, i)
      {
        if input[i] == BEL {
          return Some(Terminator(i, 1));
        }
        if input[i] == ESC && i + 1 < |input| && input[i + 1] == BACKSLASH {
          return Some(Terminator(i, 2));
        }
        i := i + 1;
      }
      return None;
    }

    method Feed(data: Text) returns (result: Option<C>)
      requires Valid()
      modifies this
      ensures Valid()
      ensures partial == FeedPartial(old(partial), data)
      ensures result == FeedResult(parse, old(partial), data)
    {
      hide Recognise, IndexOfPrefix, FindTerminator, EndsAt, LastAnnounced;
      result := None;
      var input := partial + data;
      partial := [];
      var pos := 0;
      ghost var heard: seq<Text> := [];
      assert input[0..] == input && heard + Recognise(input).payloads == Recognise(input).payloads;
      AnnouncesOnly(parse, []);
      while pos < |input|
        invariant 0 <= pos <= |input| && partial == []
        invariant result == LastAnnounced(parse, heard)
        invariant Recognise(input) == Recognised(heard + Recognise(input[pos..]).payloads, Recognise(input[pos..]).rest)
      {
        UnfoldAt(input, pos);
        var oscStart := IndexOfPrefix(input, pos);
        if oscStart.None? {
          assert heard + [] == heard;
          return;
        }
        var payloadStart := oscStart.value + 4;
        var end := ScanPayload(input, payloadStart);
        if end.None? {
          var remaining := input[oscStart.value..];
          partial := if |remaining| <= MAX_PARTIAL then remaining else [];
          assert heard + [] == heard;
          return;
        }
        var uri := input[payloadStart..end.value.at];
        pos := end.value.at + end.value.length;
        ConcatAssociates(heard, [uri], Recognise(input[pos..]).payloads);
        AnnouncedJoins(parse, heard, [uri]);
        AnnouncesOnly(parse, uri);
        heard := heard + [uri];
        if |uri| > MAX_PARTIAL {
          continue;
        }
        var cwd := parse(uri);
        if cwd.Some? {
          result := cwd;
        }
      }
      assert input[pos..] == [];
      NothingToFind();
      assert heard + [] == heard;
    }

    method Reset()
      modifies this
      ensures Valid() && partial == []
    {
      partial := [];
    }
  }
}
