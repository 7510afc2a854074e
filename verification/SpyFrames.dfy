/** SpyServer's wire format: little-endian words, command encoders, and a frame parser that gives the
    same frames however TCP splits the stream. */
module SpyFrames {
  import opened Bytes

  const HEADER_BYTES: nat := 20
  const MAX_BODY_BYTES: nat := 2 * 1024 * 1024
  const PROTOCOL_VERSION: Word := 0x200_0000 + 1700
  const CMD_HELLO: Word := 0
  const CMD_SET_SETTING: Word := 2

  /** Four bytes, least significant first. */
  function Put(v: Word): (b: seq<Byte>)
    ensures |b| == 4
  {
    var v1 := v / 0x100;
    var v2 := v1 / 0x100;
    [v % 0x100, v1 % 0x100, v2 % 0x100, v2 / 0x100]
  }

  /** put: appends a word byte by byte. */
  method Append(b: seq<Byte>, v: Word) returns (r: seq<Byte>)
    ensures r == b + Put(v)
  {
    r := b;
    var left: nat := v;
    for i := 0 to 4
      invariant |r| == |b| + i && r[..|b|] == b
      invariant left == if i == 0 then v else if i == 1 then v / 0x100 else if i == 2 then v / 0x100 / 0x100
        else if i == 3 then v / 0x100 / 0x100 / 0x100 else 0
      invariant r[|b|..] == Put(v)[..i]
    {
      r := r + [left % 0x100];
      left := left / 0x100;
    }
    assert r == r[..|b|] + r[|b|..];
  }

  function Get(p: seq<Byte>, word: nat): (v: Word)
    requires 4 * word + 4 <= |p|
  {
    var b0: nat, b1: nat, b2: nat, b3: nat := p[4 * word], p[4 * word + 1], p[4 * word + 2], p[4 * word + 3];
    b0 + b1 * 0x100 + b2 * 0x1_0000 + b3 * 0x100_0000
  }

  lemma GetPut(before: seq<Byte>, v: Word, after: seq<Byte>, word: nat)
    requires |before| == 4 * word
    ensures Get(before + Put(v) + after, word) == v
  {}

  // ---- Commands

  function EncodeSetting(setting: Word, value: Word): seq<Byte> {
    Put(CMD_SET_SETTING) + Put(8) + Put(setting) + Put(value)
  }

  function EncodeHello(clientId: seq<Byte>): seq<Byte>
    requires |clientId| < 0x1000_0000
  {
    Put(CMD_HELLO) + Put(4 + |clientId|) + Put(PROTOCOL_VERSION) + clientId
  }

  /** A command reads back as what was meant: its code, its body's length, and the body. */
  lemma SettingReadsBack(setting: Word, value: Word)
    ensures var b := EncodeSetting(setting, value);
      |b| == 16 && Get(b, 0) == CMD_SET_SETTING && Get(b, 1) == |b| - 8 && Get(b, 2) == setting && Get(b, 3) == value
  {
    hide Put, Get;
    var c, n, s, v := Put(CMD_SET_SETTING), Put(8), Put(setting), Put(value);
    assert EncodeSetting(setting, value) == [] + c + (n + s + v) == c + n + (s + v) == (c + n) + s + v == (c + n + s)
      + v + [];
    GetPut([], CMD_SET_SETTING, n + s + v, 0);
    GetPut(c, 8, s + v, 1);
    GetPut(c + n, setting, v, 2);
    GetPut(c + n + s, value, [], 3);
  }

  lemma HelloReadsBack(clientId: seq<Byte>)
    requires |clientId| < 0x1000_0000
    ensures var b := EncodeHello(clientId);
      Get(b, 0) == CMD_HELLO && Get(b, 1) == |b| - 8 && Get(b, 2) == PROTOCOL_VERSION && b[12..] == clientId
  {
    hide Put, Get;
    var c, n, v := Put(CMD_HELLO), Put(4 + |clientId|), Put(PROTOCOL_VERSION);
    assert EncodeHello(clientId) == [] + c + (n + v + clientId) == c + n + (v + clientId) == (c + n) + v + clientId;
    GetPut([], CMD_HELLO, n + v + clientId, 0);
    GetPut(c, 4 + |clientId|, v + clientId, 1);
    GetPut(c + n, PROTOCOL_VERSION, clientId, 2);
  }

  // ---- Frames

  datatype Header = Header(protocol: Word, msgType: nat, streamType: Word, sequence: Word, bodySize: Word, flags: nat)

  datatype Frame = Frame(header: Header, body: seq<Byte>)

  function ParseHeader(h: seq<Byte>): Header
    requires |h| >= HEADER_BYTES
  {
    Header(Get(h, 0), Get(h, 1) % 0x1_0000, Get(h, 2), Get(h, 3), Get(h, 4), Get(h, 1) / 0x1_0000)
  }

  datatype Parsed = Parsed(frames: seq<Frame>, rest: seq<Byte>, failed: bool)

  /** Every whole frame of a buffer, and what is left. An oversize header ends everything. */
  function Parse(b: seq<Byte>): (p: Parsed)
    ensures |p.rest| <= |b|
    decreases |b|
  {
    if |b| < HEADER_BYTES then Parsed([], b, false)
    else
      var h := ParseHeader(b);
      if h.bodySize > MAX_BODY_BYTES then Parsed([], [], true)
      else if |b| < HEADER_BYTES + h.bodySize then Parsed([], b, false)
      else
        var end := HEADER_BYTES + h.bodySize;
        var p := Parse(b[end..]);
        p.(frames := [Frame(h, b[HEADER_BYTES..end])] + p.frames)
  }

  /** Frames already delivered, then those of a later parse. */
  function Onto(frames: seq<Frame>, p: Parsed): Parsed { p.(frames := frames + p.frames) }

  /** One whole frame taken off the front. */
  lemma ParseStep(buf: seq<Byte>, at: nat, frames: seq<Frame>)
    requires at + HEADER_BYTES <= |buf|
    requires ParseHeader(buf[at..]).bodySize <= MAX_BODY_BYTES
      && at + HEADER_BYTES + ParseHeader(buf[at..]).bodySize <= |buf|
    ensures var h := ParseHeader(buf[at..]);
      var end := at + HEADER_BYTES + h.bodySize;
      Onto(frames, Parse(buf[at..])) == Onto(frames + [Frame(h, buf[at + HEADER_BYTES..end])], Parse(buf[end..]))
  {
    hide Get, ParseHeader;
    var h, b := ParseHeader(buf[at..]), buf[at..];
    var end := HEADER_BYTES + h.bodySize;
    assert b[end..] == buf[at + end..] && b[HEADER_BYTES..end] == buf[at + HEADER_BYTES..at + end];
    var f, rest := Frame(h, b[HEADER_BYTES..end]), Parse(b[end..]).frames;
    assert frames + ([f] + rest) == frames + [f] + rest;
  }

  class FrameParser {
    var buf: seq<Byte>
    var failed: bool

    constructor ()
      ensures buf == [] && !failed
    {
      buf, failed := [], false;
    }

    /** Takes in some bytes and delivers the frames they complete. */
    method Feed(p: seq<Byte>) returns (frames: seq<Frame>)
      modifies this
      ensures Parsed(frames, buf, failed) == FeedOf(old(buf), old(failed), p)
    {
      hide Get, ParseHeader;
      frames := [];
      if failed { return; }
      buf := buf + p;
      var at := 0;
      ghost var all := Parse(buf);
      assert buf[0..] == buf;
      while |buf| - at >= HEADER_BYTES
        invariant at <= |buf| && !failed && buf == old(buf) + p
        invariant all == Onto(frames, Parse(buf[at..]))
      {
        var h := ParseHeader(buf[at..]);
        if h.bodySize > MAX_BODY_BYTES {
          failed := true;
          buf := [];
          return;
        }
        if |buf| - at < HEADER_BYTES + h.bodySize { break; }
        var end := HEADER_BYTES + h.bodySize;
        ParseStep(buf, at, frames);
        frames := frames + [Frame(h, buf[at + HEADER_BYTES..at + end])];
        at := at + end;
      }
      buf := buf[at..];
    }
  }

  function FeedOf(buf: seq<Byte>, failed: bool, p: seq<Byte>): Parsed {
    if failed then Parsed([], buf, true) else Parse(buf + p)
  }

  /** A buffer that starts with a whole frame. */
  predicate HasFrame(b: seq<Byte>) {
    |b| >= HEADER_BYTES && ParseHeader(b).bodySize <= MAX_BODY_BYTES && |b| >= HEADER_BYTES + ParseHeader(b).bodySize
  }

  function FirstEnd(b: seq<Byte>): (n: nat)
    requires HasFrame(b)
    ensures 0 < n <= |b|
  {
    HEADER_BYTES + ParseHeader(b).bodySize
  }

  function First(b: seq<Byte>): Frame
    requires HasFrame(b)
  {
    Frame(ParseHeader(b), b[HEADER_BYTES..FirstEnd(b)])
  }

  lemma ParseFirst(b: seq<Byte>)
    requires HasFrame(b)
    ensures Parse(b) == Onto([First(b)], Parse(b[FirstEnd(b)..]))
  {
    hide ParseHeader;
  }

  lemma FirstStays(b: seq<Byte>, c: seq<Byte>)
    requires HasFrame(b)
    ensures HasFrame(b + c) && First(b + c) == First(b) && FirstEnd(b + c) == FirstEnd(b)
    ensures (b + c)[FirstEnd(b)..] == b[FirstEnd(b)..] + c
  {
    SameHeader(b, c);
    hide ParseHeader;
  }

  lemma ParseRest(b: seq<Byte>, c: seq<Byte>)
    requires !HasFrame(b)
    ensures Parse(b) == Parsed([], b, false) || (Parse(b) == Parsed([], [], true) == Parse(b + c))
  {
    if |b| >= HEADER_BYTES { SameHeader(b, c); }
    hide ParseHeader;
  }

  lemma OntoOnto(a: seq<Frame>, b: seq<Frame>, p: Parsed)
    ensures Onto(a, Onto(b, p)) == Onto(a + b, p)
  {
    assert a + (b + p.frames) == a + b + p.frames;
  }

  /** Parsing goes on from what an earlier part left. */
  lemma {:induction false} ParseGoesOn(b: seq<Byte>, c: seq<Byte>)
    ensures var p := Parse(b);
      Parse(b + c) == if p.failed then p else Onto(p.frames, Parse(p.rest + c))
    decreases |b|
  {
    hide Parse, HasFrame, First, FirstEnd;
    if HasFrame(b) {
      var tail := b[FirstEnd(b)..];
      FirstStays(b, c);
      ParseFirst(b);
      ParseFirst(b + c);
      ParseGoesOn(tail, c);
      OntoOnto([First(b)], Parse(tail).frames, Parse(Parse(tail).rest + c));
    } else {
      ParseRest(b, c);
    }
  }

  lemma SameHeader(b: seq<Byte>, c: seq<Byte>)
    requires |b| >= HEADER_BYTES
    ensures ParseHeader(b + c) == ParseHeader(b)
  {}

  function Concat(chunks: seq<seq<Byte>>): seq<Byte> {
    if chunks == [] then [] else Concat(chunks[..|chunks| - 1]) + chunks[|chunks| - 1]
  }

  /** A parser fed chunk by chunk: all frames delivered, and its state after. */
  function FeedAll(chunks: seq<seq<Byte>>): Parsed {
    if chunks == [] then Parsed([], [], false)
    else
      var p := FeedAll(chunks[..|chunks| - 1]);
      var q := FeedOf(p.rest, p.failed, chunks[|chunks| - 1]);
      q.(frames := p.frames + q.frames)
  }

  /** The same frames for every split of the stream as for the whole at once. */
  lemma {:induction false} AnySplit(chunks: seq<seq<Byte>>)
    ensures FeedAll(chunks) == Parse(Concat(chunks))
  {
    if chunks != [] {
      var k := |chunks| - 1;
      AnySplit(chunks[..k]);
      ParseGoesOn(Concat(chunks[..k]), chunks[k]);
      var p := Parse(Concat(chunks[..k]));
      if p.failed { FailedIsEmpty(Concat(chunks[..k])); }
    }
  }

  lemma {:induction false} FailedIsEmpty(b: seq<Byte>)
    requires Parse(b).failed
    ensures Parse(b).rest == []
    decreases |b|
  {
    hide Get, ParseHeader;
    var h := ParseHeader(b);
    if h.bodySize <= MAX_BODY_BYTES { FailedIsEmpty(b[HEADER_BYTES + h.bodySize..]); }
  }

  /** After an oversize header nothing more is delivered. */
  lemma DeafAfterFailure(chunks: seq<seq<Byte>>, c: seq<Byte>)
    requires FeedAll(chunks).failed
    ensures FeedAll(chunks + [c]) == FeedAll(chunks)
  {
    assert (chunks + [c])[..|chunks|] == chunks;
  }

  // ---- Frames as a server sends them

  predicate Sendable(f: Frame) {
    && f.header.msgType < 0x1_0000 && f.header.flags < 0x1_0000
    && |f.body| == f.header.bodySize <= MAX_BODY_BYTES
  }

  function EncodeHeader(h: Header): (b: seq<Byte>)
    requires h.msgType < 0x1_0000 && h.flags < 0x1_0000
    ensures |b| == HEADER_BYTES
  {
    Put(h.protocol) + Put(h.msgType + h.flags * 0x1_0000) + Put(h.streamType) + Put(h.sequence) + Put(h.bodySize)
  }

  function EncodeAll(fs: seq<Frame>): seq<Byte>
    requires forall k :: 0 <= k < |fs| ==> Sendable(fs[k])
  {
    if fs == [] then []
    else
      assert Sendable(fs[0]);
      EncodeHeader(fs[0].header) + fs[0].body + EncodeAll(fs[1..])
  }

  lemma HeaderReadsBack(h: Header, tail: seq<Byte>)
    requires h.msgType < 0x1_0000 && h.flags < 0x1_0000
    ensures ParseHeader(EncodeHeader(h) + tail) == h
  {
    hide Put, Get;
    var p, t, s, q, n := Put(h.protocol), Put(h.msgType + h.flags * 0x1_0000), Put(h.streamType), Put(h.sequence),
      Put(h.bodySize);
    var b := EncodeHeader(h) + tail;
    assert b == [] + p + (t + s + q + n + tail) == p + t + (s + q + n + tail) == (p + t) + s + (q + n + tail);
    assert b == (p + t + s) + q + (n + tail) == (p + t + s + q) + n + tail;
    GetPut([], h.protocol, t + s + q + n + tail, 0);
    GetPut(p, h.msgType + h.flags * 0x1_0000, s + q + n + tail, 1);
    GetPut(p + t, h.streamType, q + n + tail, 2);
    GetPut(p + t + s, h.sequence, n + tail, 3);
    GetPut(p + t + s + q, h.bodySize, tail, 4);
  }

  /** Round trip: any frames a server can send come out as sent, however they are split. */
  lemma {:induction false} FramesComeBack(fs: seq<Frame>)
    requires forall k :: 0 <= k < |fs| ==> Sendable(fs[k])
    ensures Parse(EncodeAll(fs)) == Parsed(fs, [], false)
  {
    hide Get, ParseHeader, EncodeHeader;
    if fs != [] {
      var f, b := fs[0], EncodeAll(fs);
      assert Sendable(f);
      FramesComeBack(fs[1..]);
      assert b == EncodeHeader(f.header) + (f.body + EncodeAll(fs[1..]));
      HeaderReadsBack(f.header, f.body + EncodeAll(fs[1..]));
      var end := HEADER_BYTES + f.header.bodySize;
      assert b[end..] == EncodeAll(fs[1..]) && b[HEADER_BYTES..end] == f.body;
    }
  }
}
