/**
 The attach-stream demultiplexer (packages/slas-container/slas_container/api.py): frames of
 an 8-byte header and a payload, split into stdout and stderr.
 */
module Demultiplex {

  type byte = b: int | 0 <= b < 256

  const STDOUT: byte := 1
  const STDERR: byte := 2

  function BigEndian(h: seq<byte>): (n: nat)
    requires |h| == 4
    ensures n < 0x1_0000_0000
  {
    var a: int, b: int, c: int, d: int := h[0], h[1], h[2], h[3];
    ((a * 256 + b) * 256 + c) * 256 + d
  }

  /** The first byte weighs most. */
  lemma {:induction false} BigEndianIs(a: byte, b: byte, c: byte, d: byte)
    ensures BigEndian([a, b, c, d]) == (a as int) * 0x100_0000 + (b as int) * 0x1_0000 + (c as int) * 0x100 + (d as int)
  {
  }

  predicate IsHeader(s: seq<byte>) {
    |s| >= 8 && (s[0] == 0 || s[0] == STDOUT || s[0] == STDERR) && s[1] == 0 && s[2] == 0 && s[3] == 0
  }

  function Least(a: nat, b: nat): (m: nat) { if a < b then a else b }

  /** What the loop leaves: it gave up on the framing, or it ran out of headers. */
  datatype Scan = NotFramed | Ended(out: seq<byte>, err: seq<byte>, leftover: bool)

  function ScanFrames(s: seq<byte>, out: seq<byte>, err: seq<byte>): (r: Scan)
    decreases |s|
  {
    if |s| < 8 then Ended(out, err, s != [])
    else if !IsHeader(s) then NotFramed
    else
      var size := BigEndian(s[4..8]);
      var end := Least(8 + size, |s|);
      if s[0] == STDERR then ScanFrames(s[end..], out, err + s[8..end])
      else ScanFrames(s[end..], out + s[8..end], err)
  }

  function Split(payload: seq<byte>): (r: (seq<byte>, seq<byte>))
  {
    match ScanFrames(payload, [], [])
    case NotFramed => (payload, [])
    case Ended(out, err, leftover) => if leftover && out == [] && err == [] then (payload, []) else (out, err)
  }

  /** The bytes from `offset` on, none where the offset is past the end. */
  function From(payload: seq<byte>, offset: nat): (s: seq<byte>)
  {
    payload[Least(offset, |payload|)..]
  }

  /** One turn of the loop. */
  lemma {:induction false} ScanOne(payload: seq<byte>, offset: nat, size: nat, out: seq<byte>, err: seq<byte>)
    requires offset + 8 <= |payload| && IsHeader(payload[offset..]) && size == BigEndian(payload[offset + 4..offset + 8])
    ensures var chunk := payload[offset + 8..Least(offset + 8 + size, |payload|)];
      ScanFrames(payload[offset..], out, err) ==
        if payload[offset] == STDERR then ScanFrames(From(payload, offset + 8 + size), out, err + chunk)
        else ScanFrames(From(payload, offset + 8 + size), out + chunk, err)
  {
    hide BigEndian;
    var s, end := payload[offset..], Least(offset + 8 + size, |payload|);
    assert s[4..8] == payload[offset + 4..offset + 8];
    assert payload[offset + 8..end] == s[8..end - offset] && s[end - offset..] == payload[end..];
  }

  /** Where the loop stands: a header to read, none, or too few bytes for one. */
  lemma {:induction false} ScanAt(payload: seq<byte>, offset: nat, out: seq<byte>, err: seq<byte>)
    ensures offset + 8 <= |payload| ==>
      (IsHeader(payload[offset..]) <==>
         && (payload[offset] == 0 || payload[offset] == STDOUT || payload[offset] == STDERR)
         && payload[offset + 1] == 0 && payload[offset + 2] == 0 && payload[offset + 3] == 0)
    ensures offset + 8 <= |payload| && !IsHeader(payload[offset..]) ==> ScanFrames(From(payload, offset), out, err) == NotFramed
    ensures offset + 8 > |payload| ==> ScanFrames(From(payload, offset), out, err) == Ended(out, err, offset < |payload|)
  {
    hide BigEndian;
  }

  method Demultiplex(payload: seq<byte>) returns (out: seq<byte>, err: seq<byte>)
    ensures (out, err) == Split(payload)
  {
    hide BigEndian, IsHeader, ScanFrames;
    out, err := [], [];
    var offset := 0;
    assert From(payload, 0) == payload;
    while offset + 8 <= |payload|
      invariant 0 <= offset
      invariant ScanFrames(payload, [], []) == ScanFrames(From(payload, offset), out, err)
      decreases |payload| - offset
    {
      var kind := payload[offset];
      var framed := (kind == 0 || kind == STDOUT || kind == STDERR) && payload[offset + 1] == 0 && payload[offset + 2] == 0 && payload[offset + 3] == 0;
      ScanAt(payload, offset, out, err);
      if !framed {
        return payload, [];
      }
      var size := BigEndian(payload[offset + 4..offset + 8]);
      ScanOne(payload, offset, size, out, err);
      var chunk := payload[offset + 8..Least(offset + 8 + size, |payload|)];
      if payload[offset] == STDERR { err := err + chunk; } else { out := out + chunk; }
      offset := offset + 8 + size;
    }
    ScanAt(payload, offset, out, err);
    if offset < |payload| && out == [] && err == [] {
      return payload, [];
    }
  }

  // ---- framing --------------------------------------------------------------------------------

  datatype Frame = Frame(kind: byte, data: seq<byte>)

  ghost predicate Valid(frames: seq<Frame>) {
    forall i :: 0 <= i < |frames| ==> frames[i].kind <= 2 && |frames[i].data| < 0x1_0000_0000
  }

  function Digits(n: nat): (h: seq<byte>)
    requires n < 0x1_0000_0000
    ensures |h| == 4 && BigEndian(h) == n
  {
    var a, b, c := n / 256, n / 0x1_0000, n / 0x100_0000;
    assert b == a / 256 && c == b / 256;
    [c, b % 256, a % 256, n % 256]
  }

  function EncodeOne(f: Frame): (s: seq<byte>)
    requires |f.data| < 0x1_0000_0000
  {
    [f.kind, 0, 0, 0] + Digits(|f.data|) + f.data
  }

  function Encode(frames: seq<Frame>): (s: seq<byte>)
    requires Valid(frames)
  {
    if frames == [] then [] else EncodeOne(frames[0]) + Encode(frames[1..])
  }

  /** The payloads of one stream, concatenated. */
  function Payloads(frames: seq<Frame>, stderr: bool): (s: seq<byte>)
  {
    if frames == [] then []
    else (if (frames[0].kind == STDERR) == stderr then frames[0].data else []) + Payloads(frames[1..], stderr)
  }

  /** One encoded frame in front of anything. */
  lemma {:induction false} ScanEncoded(f: Frame, rest: seq<byte>, out: seq<byte>, err: seq<byte>)
    requires f.kind <= 2 && |f.data| < 0x1_0000_0000
    ensures ScanFrames(EncodeOne(f) + rest, out, err) ==
      if f.kind == STDERR then ScanFrames(rest, out, err + f.data) else ScanFrames(rest, out + f.data, err)
  {
    hide BigEndian;
    var s, n := EncodeOne(f) + rest, |f.data|;
    assert s[4..8] == Digits(n) && s[8..8 + n] == f.data && s[8 + n..] == rest;
  }

  /** Whole frames in front of a stump. */
  lemma {:induction false} ScanCut(frames: seq<Frame>, stump: seq<byte>, out: seq<byte>, err: seq<byte>)
    requires Valid(frames)
    ensures ScanFrames(Encode(frames) + stump, out, err)
         == ScanFrames(stump, out + Payloads(frames, false), err + Payloads(frames, true))
  {
    hide ScanFrames, EncodeOne;
    if frames == [] {
      assert Encode(frames) + stump == stump;
      assert out + [] == out && err + [] == err;
    } else {
      var f, rest := frames[0], Encode(frames[1..]) + stump;
      assert Encode(frames) + stump == EncodeOne(f) + rest;
      ScanEncoded(f, rest, out, err);
      var o, e := if f.kind == STDERR then [] else f.data, if f.kind == STDERR then f.data else [];
      assert out + [] == out && err + [] == err;
      ScanCut(frames[1..], stump, out + o, err + e);
      assert out + o + Payloads(frames[1..], false) == out + Payloads(frames, false);
      assert err + e + Payloads(frames[1..], true) == err + Payloads(frames, true);
    }
  }

  /** Demultiplexing inverts framing. */
  lemma {:induction false} SplitInvertsEncode(frames: seq<Frame>)
    requires Valid(frames)
    ensures Split(Encode(frames)) == (Payloads(frames, false), Payloads(frames, true))
  {
    ScanCut(frames, [], [], []);
    assert Encode(frames) + [] == Encode(frames);
    assert [] + Payloads(frames, false) == Payloads(frames, false) && [] + Payloads(frames, true) == Payloads(frames, true);
  }

  /** The stump of one frame: its header decides whether anything is taken from it. */
  lemma {:induction false} ScanStump(f: Frame, n: nat, out: seq<byte>, err: seq<byte>)
    requires f.kind <= 2 && |f.data| < 0x1_0000_0000 && n < |EncodeOne(f)|
    ensures ScanFrames(EncodeOne(f)[..n], out, err) ==
      if n < 8 then Ended(out, err, n > 0)
      else if f.kind == STDERR then Ended(out, err + f.data[..n - 8], false)
      else Ended(out + f.data[..n - 8], err, false)
  {
    hide BigEndian, Digits;
    var stump := EncodeOne(f)[..n];
    if n >= 8 {
      assert stump[4..8] == Digits(|f.data|);
      assert stump[8..n] == f.data[..n - 8];
      assert stump[n..] == [];
    }
  }

  /**
   A stream cut inside a frame. Cut inside its payload, the result is what whole frames and the
   received part of that payload hold. Cut inside its header, the stump is dropped, except that
   when nothing was received before it the raw bytes come back as stdout.
   */
  lemma {:induction false} SplitOfCut(frames: seq<Frame>, f: Frame, n: nat)
    requires Valid(frames) && f.kind <= 2 && |f.data| < 0x1_0000_0000 && n < |EncodeOne(f)|
    ensures var out, err := Payloads(frames, false), Payloads(frames, true);
      var payload := Encode(frames) + EncodeOne(f)[..n];
      Split(payload) ==
        if n < 8 then (if n > 0 && out == [] && err == [] then (payload, []) else (out, err))
        else if f.kind == STDERR then (out, err + f.data[..n - 8]) else (out + f.data[..n - 8], err)
  {
    var stump := EncodeOne(f)[..n];
    var out, err := Payloads(frames, false), Payloads(frames, true);
    ScanCut(frames, stump, [], []);
    assert [] + out == out && [] + err == err;
    ScanStump(f, n, out, err);
    hide ScanFrames, EncodeOne, Payloads;
  }

  /** Eight bytes that begin with no stream number and three zeros make everything raw stdout, whatever came before. */
  lemma {:induction false} BadHeaderIsRaw(frames: seq<Frame>, rest: seq<byte>)
    requires Valid(frames) && |rest| >= 8 && (rest[0] > 2 || rest[1] != 0 || rest[2] != 0 || rest[3] != 0)
    ensures Split(Encode(frames) + rest) == (Encode(frames) + rest, [])
  {
    ScanCut(frames, rest, [], []);
    hide Encode, Payloads;
  }

  // ---- when a payload comes back whole -------------------------------------------------------------

  function SizeAt(payload: seq<byte>, p: nat): (n: nat)
    requires p + 8 <= |payload|
  {
    BigEndian(payload[p + 4..p + 8])
  }

  /** Where the loop looks for headers from p on: behind each frame, up to the first that is none. */
  function Headers(payload: seq<byte>, p: nat): (r: seq<nat>)
    ensures forall i :: 0 <= i < |r| ==> r[i] + 8 <= |payload|
    decreases |payload| - p
  {
    if p + 8 > |payload| then []
    else if !IsHeader(payload[p..]) then [p]
    else [p] + Headers(payload, p + 8 + SizeAt(payload, p))
  }

  predicate AllFramed(payload: seq<byte>, p: nat) {
    forall i :: 0 <= i < |Headers(payload, p)| ==> IsHeader(payload[Headers(payload, p)[i]..])
  }

  predicate AllEmpty(payload: seq<byte>, p: nat) {
    forall i :: 0 <= i < |Headers(payload, p)| ==> SizeAt(payload, Headers(payload, p)[i]) == 0
  }

  lemma {:induction false} ScanSizes(s: seq<byte>, out: seq<byte>, err: seq<byte>)
    ensures var r := ScanFrames(s, out, err);
      r.Ended? ==>
        && |out| <= |r.out| && |err| <= |r.err|
        && |r.out| + |r.err| + (if |s| >= 8 then 8 else 0) <= |out| + |err| + |s|
    decreases |s|
  {
    hide BigEndian;
    if |s| >= 8 && IsHeader(s) {
      var end := Least(8 + BigEndian(s[4..8]), |s|);
      if s[0] == STDERR { ScanSizes(s[end..], out, err + s[8..end]); } else { ScanSizes(s[end..], out + s[8..end], err); }
    }
  }

  lemma {:induction false} HeadersFrom(payload: seq<byte>, p: nat)
    requires p + 8 <= |payload| && IsHeader(payload[p..])
    ensures var n := p + 8 + SizeAt(payload, p);
      && (AllFramed(payload, p) <==> AllFramed(payload, n))
      && (AllEmpty(payload, p) <==> SizeAt(payload, p) == 0 && AllEmpty(payload, n))
      && |Headers(payload, p)| == 1 + |Headers(payload, n)|
  {
    hide BigEndian, IsHeader, SizeAt;
    var n := p + 8 + SizeAt(payload, p);
    var h, t := Headers(payload, p), Headers(payload, n);
    assert h == [p] + t;
    assert forall i :: 0 <= i < |t| ==> h[i + 1] == t[i];
    assert forall i :: 0 < i < |h| ==> h[i] == t[i - 1];
    if AllEmpty(payload, p) {
      forall i | 0 <= i < |t| ensures SizeAt(payload, t[i]) == 0 { assert SizeAt(payload, h[i + 1]) == 0; }
      assert SizeAt(payload, h[0]) == 0;
    }
    if AllFramed(payload, p) {
      forall i | 0 <= i < |t| ensures IsHeader(payload[t[i]..]) { assert IsHeader(payload[h[i + 1]..]); }
    }
  }

  /** How the scan from p ends, read off the header positions. */
  lemma {:induction false} ScanByHeaders(payload: seq<byte>, p: nat, out: seq<byte>, err: seq<byte>)
    ensures var r := ScanFrames(From(payload, p), out, err);
      && (r.NotFramed? <==> !AllFramed(payload, p))
      && (r.Ended? ==> (r.leftover && r.out == out && r.err == err <==> AllEmpty(payload, p) && p + 8 * |Headers(payload, p)| < |payload|))
    decreases |payload| - p
  {
    hide ScanFrames, Headers, AllFramed, AllEmpty, IsHeader, BigEndian, From;
    if p + 8 > |payload| {
      NoHeader(payload, p, out, err);
    } else if !IsHeader(payload[p..]) {
      BadHeader(payload, p, out, err);
    } else {
      var size := SizeAt(payload, p);
      HeadersFrom(payload, p);
      FrameTaken(payload, p, out, err);
      var chunk := payload[p + 8..Least(p + 8 + size, |payload|)];
      var o, e := if payload[p] == STDERR then out else out + chunk, if payload[p] == STDERR then err + chunk else err;
      ScanByHeaders(payload, p + 8 + size, o, e);
      if size == 0 { assert out + chunk == out && err + chunk == err; } else { FullFrame(payload, p + 8, size, out, err, chunk, o, e); }
    }
  }

  lemma {:induction false} BadHeader(payload: seq<byte>, p: nat, out: seq<byte>, err: seq<byte>)
    requires p + 8 <= |payload| && !IsHeader(payload[p..])
    ensures ScanFrames(From(payload, p), out, err) == NotFramed && !AllFramed(payload, p)
  {
    assert Headers(payload, p)[0] == p;
  }

  lemma {:induction false} FrameTaken(payload: seq<byte>, p: nat, out: seq<byte>, err: seq<byte>)
    requires p + 8 <= |payload| && IsHeader(payload[p..])
    ensures var n := p + 8 + SizeAt(payload, p);
      var chunk := payload[p + 8..Least(n, |payload|)];
      ScanFrames(From(payload, p), out, err) ==
        if payload[p] == STDERR then ScanFrames(From(payload, n), out, err + chunk) else ScanFrames(From(payload, n), out + chunk, err)
  {
    hide ScanFrames, IsHeader, BigEndian;
    assert From(payload, p) == payload[p..];
    ScanOne(payload, p, SizeAt(payload, p), out, err);
  }

  lemma {:induction false} NoHeader(payload: seq<byte>, p: nat, out: seq<byte>, err: seq<byte>)
    requires p + 8 > |payload|
    ensures ScanFrames(From(payload, p), out, err) == Ended(out, err, p < |payload|)
    ensures Headers(payload, p) == [] && AllFramed(payload, p) && AllEmpty(payload, p)
  {
  }

  /** Behind a frame that announces something, the scan took something or nothing is left over. */
  lemma {:induction false} FullFrame(payload: seq<byte>, p: nat, size: nat, out: seq<byte>, err: seq<byte>, chunk: seq<byte>, o: seq<byte>, e: seq<byte>)
    requires p <= |payload| && size > 0 && chunk == payload[p..Least(p + size, |payload|)]
    requires (o == out + chunk && e == err) || (o == out && e == err + chunk)
    ensures var r := ScanFrames(From(payload, p + size), o, e);
      r.Ended? ==> !(r.leftover && r.out == out && r.err == err)
  {
    ScanSizes(From(payload, p + size), o, e);
    if chunk == [] {
      assert From(payload, p + size) == [];
      ScanOfNothing(o, e);
    }
    hide ScanFrames;
  }

  lemma {:induction false} ScanOfNothing(out: seq<byte>, err: seq<byte>)
    ensures ScanFrames([], out, err) == Ended(out, err, false)
  {
  }

  /**
   A payload comes back whole as stdout if and only if it is empty, or one of its header positions
   holds no header, or bytes are left behind headers that all announce nothing.
   */
  lemma {:induction false} WholeIff(payload: seq<byte>)
    ensures Split(payload) == (payload, []) <==>
      || payload == []
      || !AllFramed(payload, 0)
      || (AllEmpty(payload, 0) && 8 * |Headers(payload, 0)| < |payload|)
  {
    hide AllFramed, AllEmpty, Headers;
    assert From(payload, 0) == payload;
    ScanByHeaders(payload, 0, [], []);
    ScanSizes(payload, [], []);
    var r := ScanFrames(payload, [], []);
    if r.Ended? {
      assert payload != [] && |payload| < 8 ==> r == Ended([], [], true);
      assert payload == [] ==> r == Ended([], [], false);
      assert |payload| >= 8 ==> |r.out| < |payload|;
      assert Split(payload) == if r.leftover && r.out == [] && r.err == [] then (payload, []) else (r.out, r.err);
    }
  }

  /** Raw bytes that look framed are not handed back: this output of eight bytes is lost. */
  lemma {:induction false} FramedLooksAreLost()
    ensures Split([1, 0, 0, 0, 0, 0, 0, 0]) == ([], [])
  {
    var s: seq<byte> := [1, 0, 0, 0, 0, 0, 0, 0];
    assert IsHeader(s) && s[4..8] == [0, 0, 0, 0] && BigEndian([0, 0, 0, 0]) == 0;
    assert s[8..8] == [] && s[8..] == [];
    ScanOfNothing([], []);
    assert [] + s[8..8] == [];
  }
}
