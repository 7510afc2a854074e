/** The chunk layer of the streaming PNG reader: signature, chunk headers, bodies and checksums parsed
    as bytes arrive. Image data goes to the inflater; the header chunk decides whether it is wanted. */
module PngChunks {
  import opened Bytes
  import opened Options
  import opened PngRows

  function Signature(): seq<Byte> { [137, 80, 78, 71, 13, 10, 26, 10] }

  const IHDR: seq<Byte> := [73, 72, 68, 82]
  const IDAT: seq<Byte> := [73, 68, 65, 84]
  const IEND: seq<Byte> := [73, 69, 78, 68]

  datatype Fault = NotPng | BadHeaderLength | MissingHeader | Unsupported | OutsideImage

  datatype Stage = Sig | Head | Body | Crc | End

  /** `head` are the bytes kept of the piece being read, `left` how many are still to come; `header`
      is the accepted header chunk and `sent` the image data passed on since. */
  datatype Parser = Parser(stage: Stage, left: nat, head: seq<Byte>, kind: seq<Byte>, header: Option<seq<Byte>>,
      sent: seq<Byte>)

  datatype Parse = Going(p: Parser) | Failed(fault: Fault)

  // ---- Fields

  function BigEndian(n: Word): (b: seq<Byte>)
    ensures |b| == 4
  {
    var high := n / 0x100;
    var top := high / 0x100;
    [top / 0x100, top % 0x100, high % 0x100, n % 0x100]
  }

  function Number(b: seq<Byte>, at: nat): (n: Word)
    requires at + 4 <= |b|
  {
    var b0: nat, b1: nat, b2: nat, b3: nat := b[at], b[at + 1], b[at + 2], b[at + 3];
    b0 * 0x100_0000 + b1 * 0x1_0000 + b2 * 0x100 + b3
  }

  lemma NumberReadsBack(b: seq<Byte>, at: nat, n: Word)
    requires at + 4 <= |b| && b[at..at + 4] == BigEndian(n)
    ensures Number(b, at) == n
  {
    var c := b[at..at + 4];
    assert b[at] == c[0] && b[at + 1] == c[1] && b[at + 2] == c[2] && b[at + 3] == c[3];
  }

  /** The window a caller asks for; it may lie anywhere. */
  datatype Request = Request(x0: int, y0: int, width: int, height: int)

  /** What the row decoder's constructor makes of the header chunk. */
  function HeaderFault(h: seq<Byte>, w: Request): Option<Fault>
    requires |h| == 13
  {
    var width, height := Number(h, 0), Number(h, 4);
    if h[8] != 8 || h[9] != 3 || h[12] != 0 then Some(Unsupported)
    else if width == 0 || height == 0 then Some(MissingHeader)
    else if w.x0 < 0 || w.y0 < 0 || w.width <= 0 || w.height <= 0 || w.x0 + w.width > width
      || w.y0 + w.height > height then Some(OutsideImage)
    else None
  }

  /** An accepted request is a window inside the image. */
  function Granted(h: seq<Byte>, w: Request): (win: Window)
    requires |h| == 13 && HeaderFault(h, w).None?
    ensures 0 < win.width && 0 < win.height && win.x0 + win.width <= Number(h, 0) && win.y0 + win.height <= Number(h, 4)
  {
    Window(w.x0, w.y0, w.width, w.height)
  }

  // ---- One byte at a time

  predicate Wf(p: Parser) {
    && (p.stage != End ==> p.left > 0)
    && (p.stage == Sig || p.stage == Head ==> |p.head| + p.left == 8)
    && (p.stage == Body && p.kind == IHDR ==> |p.head| + p.left == 13)
    && (p.stage == Body && p.kind == IDAT ==> p.header.Some?)
  }

  function Start(): Parser { Parser(Sig, 8, [], [], None, []) }

  function AtHead(header: Option<seq<Byte>>, kind: seq<Byte>, sent: seq<Byte>): Parser {
    Parser(Head, 8, [], kind, header, sent)
  }

  predicate Keeps(p: Parser) { p.stage == Sig || p.stage == Head || (p.stage == Body && p.kind == IHDR) }

  predicate Sends(p: Parser) { p.stage == Body && p.kind == IDAT }

  /** Bytes of the current piece. */
  function Gather(p: Parser, b: seq<Byte>): Parser
    requires |b| <= p.left
  {
    if Sends(p) then p.(sent := p.sent + b, left := p.left - |b|)
    else if Keeps(p) then p.(head := p.head + b, left := p.left - |b|)
    else p.(left := p.left - |b|)
  }

  /** A chunk header. */
  function Open(p: Parser, len: nat, kind: seq<Byte>): Parse {
    if kind == IHDR && len != 13 then Failed(BadHeaderLength)
    else if kind == IDAT && p.header.None? then Failed(MissingHeader)
    else if kind == IEND then Going(p.(stage := End, left := 0, kind := kind, head := []))
    else if len == 0 then Going(p.(stage := Crc, left := 4, kind := kind, head := []))
    else Going(p.(stage := Body, left := len, kind := kind, head := []))
  }

  /** The end of a piece. */
  function Turn(p: Parser, w: Request): Parse
    requires (p.stage == Sig || p.stage == Head ==> |p.head| == 8)
      && (p.stage == Body && p.kind == IHDR ==> |p.head| == 13)
  {
    match p.stage
    case Sig => if p.head != Signature() then Failed(NotPng) else Going(p.(stage := Head, left := 8, head := []))
    case Head => Open(p, Number(p.head, 0), p.head[4..8])
    case Body =>
      if p.kind != IHDR then Going(p.(stage := Crc, left := 4, head := []))
      else (match HeaderFault(p.head, w)
        case Some(f) => Failed(f)
        case None => Going(p.(stage := Crc, left := 4, head := [], header := Some(p.head), sent := [])))
    case Crc => Going(p.(stage := Head, left := 8, head := []))
    case End => Going(p)
  }

  function Piece(p: Parser, b: seq<Byte>, w: Request): Parse
    requires Wf(p) && |b| <= p.left
  {
    var q := Gather(p, b);
    if q.left > 0 then Going(q) else Turn(q, w)
  }

  lemma PieceWf(p: Parser, b: seq<Byte>, w: Request)
    requires Wf(p) && p.stage != End && |b| <= p.left
    ensures Piece(p, b, w).Going? ==> Wf(Piece(p, b, w).p)
  {}

  predicate Fine(s: Parse) { s.Going? ==> Wf(s.p) }

  function Step(s: Parse, b: Byte, w: Request): (t: Parse)
    requires Fine(s)
    ensures Fine(t)
  {
    if s.Failed? || s.p.stage == End then s else
      PieceWf(s.p, [b], w);
      Piece(s.p, [b], w)
  }

  /** The reader as a function of the byte stream. */
  function Run(s: Parse, bytes: seq<Byte>, w: Request): (t: Parse)
    requires Fine(s)
    ensures Fine(t)
    decreases |bytes|
  {
    if bytes == [] then s else Run(Step(s, bytes[0], w), bytes[1..], w)
  }

  lemma {:induction false} RunSplit(s: Parse, a: seq<Byte>, b: seq<Byte>, w: Request)
    requires Fine(s)
    ensures Run(s, a + b, w) == Run(Run(s, a, w), b, w)
    decreases |a|
  {
    hide Step, Fine;
    if a == [] {
      assert a + b == b;
    } else {
      assert (a + b)[0] == a[0] && (a + b)[1..] == a[1..] + b;
      RunSplit(Step(s, a[0], w), a[1..], b, w);
    }
  }

  lemma {:induction false} RunStops(s: Parse, b: seq<Byte>, w: Request)
    requires Fine(s) && (s.Failed? || s.p.stage == End)
    ensures Run(s, b, w) == s
    decreases |b|
  {
    if b != [] { RunStops(s, b[1..], w); }
  }

  lemma GatherTwice(p: Parser, a: seq<Byte>, b: seq<Byte>)
    requires |a| + |b| <= p.left
    ensures Gather(Gather(p, a), b) == Gather(p, a + b)
  {
    assert p.sent + (a + b) == p.sent + a + b && p.head + (a + b) == p.head + a + b;
  }

  /** Reading a run of bytes within one piece at once is reading them one by one. */
  lemma {:induction false} PieceIsBytes(p: Parser, b: seq<Byte>, w: Request)
    requires Wf(p) && p.stage != End && 0 < |b| <= p.left
    ensures Run(Going(p), b, w) == Piece(p, b, w)
    decreases |b|
  {
    if |b| == 1 {
      assert b == [b[0]] && b[1..] == [];
    } else {
      var q := Gather(p, [b[0]]);
      assert Step(Going(p), b[0], w) == Going(q);
      PieceWf(p, [b[0]], w);
      PieceIsBytes(q, b[1..], w);
      GatherTwice(p, [b[0]], b[1..]);
      assert [b[0]] + b[1..] == b;
    }
  }

  // ---- Files

  datatype Chunk = Chunk(kind: seq<Byte>, data: seq<Byte>, crc: seq<Byte>)

  predicate Plain(c: Chunk) {
    |c.kind| == 4 && |c.crc| == 4 && |c.data| < 0x1_0000_0000 && c.kind != IHDR && c.kind != IEND
  }

  ghost predicate AllPlain(cs: seq<Chunk>) { forall k :: 0 <= k < |cs| ==> Plain(cs[k]) }

  function ChunkBytes(c: Chunk): seq<Byte>
    requires |c.data| < 0x1_0000_0000
  {
    BigEndian(|c.data|) + c.kind + c.data + c.crc
  }

  function AllBytes(cs: seq<Chunk>): seq<Byte>
    requires AllPlain(cs)
  {
    if cs == [] then [] else ChunkBytes(cs[0]) + AllBytes(cs[1..])
  }

  function ImageData(cs: seq<Chunk>): seq<Byte> {
    if cs == [] then [] else (if cs[0].kind == IDAT then cs[0].data else []) + ImageData(cs[1..])
  }

  lemma HeadRuns(p: Parser, len: Word, kind: seq<Byte>, w: Request)
    requires p.stage == Head && p.left == 8 && p.head == [] && |kind| == 4
    ensures Fine(Open(p, len, kind)) && Run(Going(p), BigEndian(len) + kind, w) == Open(p, len, kind)
  {
    var b := BigEndian(len) + kind;
    NumberReadsBack(b, 0, len);
    assert b[4..8] == kind && [] + b == b;
    PieceIsBytes(p, b, w);
    hide BigEndian, Number, Open, Run;
    assert Gather(p, b) == p.(head := b, left := 0);
  }

  lemma CrcRuns(p: Parser, crc: seq<Byte>, w: Request)
    requires p.stage == Crc && p.left == 4 && |crc| == 4
    ensures Run(Going(p), crc, w) == Going(p.(stage := Head, left := 8, head := []))
  {
    PieceIsBytes(p, crc, w);
  }

  /** A chunk body; a chunk without one goes straight to its checksum. */
  lemma BodyRuns(p: Parser, kind: seq<Byte>, data: seq<Byte>, w: Request)
    requires p.stage == Head && |kind| == 4 && kind != IHDR && kind != IEND && (kind == IDAT ==> p.header.Some?)
    ensures Open(p, |data|, kind).Going? && Fine(Open(p, |data|, kind))
    ensures Run(Open(p, |data|, kind), data, w)
      == Going(p.(stage := Crc, left := 4, kind := kind, head := [], sent := if kind == IDAT then p.sent + data
        else p.sent))
  {
    if data != [] { PieceIsBytes(Open(p, |data|, kind).p, data, w); }
  }

  /** An image-data chunk is passed on whole and any other chunk is skipped whole. */
  lemma ChunkRuns(header: Option<seq<Byte>>, kind: seq<Byte>, sent: seq<Byte>, c: Chunk, w: Request)
    requires Plain(c) && (c.kind == IDAT ==> header.Some?)
    ensures Run(Going(AtHead(header, kind, sent)), ChunkBytes(c), w)
      == Going(AtHead(header, c.kind, if c.kind == IDAT then sent + c.data else sent))
  {
    var p := AtHead(header, kind, sent);
    HeadRuns(p, |c.data|, c.kind, w);
    BodyRuns(p, c.kind, c.data, w);
    var q := p.(stage := Crc, left := 4, kind := c.kind, head := [], sent := if c.kind == IDAT then sent + c.data
      else sent);
    CrcRuns(q, c.crc, w);
    hide Run, Open;
    RunSplit(Going(p), BigEndian(|c.data|) + c.kind, c.data, w);
    RunSplit(Going(p), BigEndian(|c.data|) + c.kind + c.data, c.crc, w);
  }

  lemma {:induction false} ChunksRun(header: Option<seq<Byte>>, kind: seq<Byte>, sent: seq<Byte>, cs: seq<Chunk>,
      w: Request) returns (last: seq<Byte>)
    requires header.Some? && AllPlain(cs)
    ensures Run(Going(AtHead(header, kind, sent)), AllBytes(cs), w) == Going(AtHead(header, last, sent + ImageData(cs)))
    decreases |cs|
  {
    hide Run, ChunkBytes, BigEndian;
    var s := Going(AtHead(header, kind, sent));
    if cs == [] {
      last := kind;
      assert sent + [] == sent;
      RunNone(s, w);
    } else {
      var more := if cs[0].kind == IDAT then cs[0].data else [];
      assert sent + [] == sent && sent + more + ImageData(cs[1..]) == sent + ImageData(cs);
      last := ChunksRun(header, cs[0].kind, sent + more, cs[1..], w);
      assert Plain(cs[0]);
      ChunkRuns(header, kind, sent, cs[0], w);
      RunSplit(s, ChunkBytes(cs[0]), AllBytes(cs[1..]), w);
    }
  }

  lemma RunNone(s: Parse, w: Request)
    requires Fine(s)
    ensures Run(s, [], w) == s
  {}

  function Opened(h: seq<Byte>, w: Request): (s: Parse)
    requires |h| == 13
    ensures Fine(s)
  {
    match HeaderFault(h, w)
    case Some(f) => Failed(f)
    case None => Going(AtHead(Some(h), IHDR, []))
  }

  lemma SignatureRuns(w: Request)
    ensures Fine(Going(Start())) && Fine(Going(AtHead(None, [], [])))
    ensures Run(Going(Start()), Signature(), w) == Going(AtHead(None, [], []))
  {
    PieceIsBytes(Start(), Signature(), w);
    assert [] + Signature() == Signature();
  }

  /** The header chunk's body and checksum. */
  lemma HeaderRuns(h: seq<Byte>, crc: seq<Byte>, w: Request)
    requires |h| == 13 && |crc| == 4
    ensures var b := Parser(Body, 13, [], IHDR, None, []);
      Fine(Going(b)) && Run(Going(b), h + crc, w) == Opened(h, w)
  {
    hide HeaderFault, Run;
    var b := Parser(Body, 13, [], IHDR, None, []);
    PieceIsBytes(b, h, w);
    assert [] + h == h;
    RunSplit(Going(b), h, crc, w);
    match HeaderFault(h, w)
    case Some(f) => RunStops(Failed(f), crc, w);
    case None => CrcRuns(b.(stage := Crc, left := 4, head := [], header := Some(h)), crc, w);
  }

  lemma OpeningHeadRuns(len: Word, kind: seq<Byte>, w: Request)
    requires |kind| == 4
    ensures Fine(Going(Start())) && Fine(Open(AtHead(None, [], []), len, kind))
    ensures Run(Going(Start()), Signature() + (BigEndian(len) + kind), w) == Open(AtHead(None, [], []), len, kind)
  {
    SignatureRuns(w);
    HeadRuns(AtHead(None, [], []), len, kind, w);
    hide *;
    RunSplit(Going(Start()), Signature(), BigEndian(len) + kind, w);
  }

  lemma OpenHeader(p: Parser, len: Word, kind: seq<Byte>)
    requires kind == IHDR && len == 13 && p == AtHead(None, [], [])
    ensures Open(p, len, kind) == Going(Parser(Body, 13, [], IHDR, None, []))
  {}

  /** The signature and the header chunk. */
  lemma OpeningRuns(c: Chunk, w: Request)
    requires c.kind == IHDR && |c.data| == 13 && |c.crc| == 4
    ensures Run(Going(Start()), Signature() + ChunkBytes(c), w) == Opened(c.data, w)
  {
    assert |c.kind| == 4;
    hide *;
    OpeningHeadRuns(|c.data|, c.kind, w);
    OpenHeader(AtHead(None, [], []), |c.data|, c.kind);
    HeaderRuns(c.data, c.crc, w);
    ChunkBytesOf(c);
    RunJoins(Going(Start()), Signature(), BigEndian(|c.data|) + c.kind, c.data + c.crc, w);
  }

  /** Which header chunks are accepted: depth 8, palette color, no interlace, a real size, the window inside it;
      and what the others are refused for. */
  lemma HeaderAccepted(h: seq<Byte>, w: Request, width: Word, height: Word)
    requires |h| == 13 && h[0..4] == BigEndian(width) && h[4..8] == BigEndian(height)
    ensures var supported, sized := h[8] == 8 && h[9] == 3 && h[12] == 0, width > 0 && height > 0;
      var inside := 0 <= w.x0 && 0 <= w.y0 && 0 < w.width && 0 < w.height
        && w.x0 + w.width <= width && w.y0 + w.height <= height;
      && (HeaderFault(h, w).None? <==> supported && sized && inside)
      && (HeaderFault(h, w) == Some(Unsupported) <==> !supported)
      && (HeaderFault(h, w) == Some(MissingHeader) <==> supported && !sized)
      && (HeaderFault(h, w) == Some(OutsideImage) <==> supported && sized && !inside)
  {
    NumberReadsBack(h, 0, width);
    NumberReadsBack(h, 4, height);
    hide Number, BigEndian;
  }

  /** Anything but the signature is no PNG. */
  lemma SignatureFault(b: seq<Byte>, w: Request)
    requires |b| == 8 && b != [137, 80, 78, 71, 13, 10, 26, 10]
    ensures Fine(Going(Start())) && Run(Going(Start()), b, w) == Failed(NotPng)
  {
    PieceIsBytes(Start(), b, w);
    assert [] + b == b;
  }

  /** A header chunk of another length, and image data before it, are refused at their own header. */
  lemma FirstChunkFaults(len: Word, w: Request)
    ensures Fine(Going(Start()))
    ensures len != 13 ==>
      Run(Going(Start()), Signature() + (BigEndian(len) + IHDR), w) == Failed(BadHeaderLength)
    ensures Run(Going(Start()), Signature() + (BigEndian(len) + IDAT), w) == Failed(MissingHeader)
  {
    OpeningHeadRuns(len, IHDR, w);
    OpeningHeadRuns(len, IDAT, w);
    hide Run, BigEndian;
  }

  lemma ChunkBytesOf(c: Chunk)
    requires |c.data| < 0x1_0000_0000
    ensures ChunkBytes(c) == (BigEndian(|c.data|) + c.kind) + (c.data + c.crc)
  {}

  lemma RunJoins(s: Parse, a: seq<Byte>, b: seq<Byte>, c: seq<Byte>, w: Request)
    requires Fine(s)
    ensures Run(s, a + (b + c), w) == Run(Run(s, a + b, w), c, w)
  {
    assert a + (b + c) == a + b + c;
    RunSplit(s, a + b, c, w);
  }

  /** Any layout of the image data over chunks, with other chunks between them: what reaches the
      inflater is the image data in order, and nothing after the end chunk's header matters. */
  lemma FileRuns(c: Chunk, cs: seq<Chunk>, len: Word, tail: seq<Byte>, w: Request)
    requires c.kind == IHDR && |c.data| == 13 && |c.crc| == 4 && HeaderFault(c.data, w).None?
    requires AllPlain(cs)
    ensures var s := Run(Going(Start()), Signature() + ChunkBytes(c) + AllBytes(cs) + (BigEndian(len) + IEND) + tail,
      w);
      s.Going? && s.p.stage == End && s.p.header == Some(c.data) && s.p.sent == ImageData(cs)
  {
    hide Run, ChunkBytes, AllBytes, ImageData, HeaderFault, BigEndian;
    var s, a, h := Going(Start()), Signature() + ChunkBytes(c), c.data;
    OpeningRuns(c, w);
    var last := ChunksRun(Some(h), IHDR, [], cs, w);
    assert [] + ImageData(cs) == ImageData(cs);
    HeadRuns(AtHead(Some(h), last, ImageData(cs)), len, IEND, w);
    RunSplit(s, a, AllBytes(cs), w);
    RunSplit(s, a + AllBytes(cs), BigEndian(len) + IEND, w);
    RunSplit(s, a + AllBytes(cs) + (BigEndian(len) + IEND), tail, w);
    RunStops(Run(s, a + AllBytes(cs) + (BigEndian(len) + IEND), w), tail, w);
  }

  /** The whole way: a file of an image, its scanlines under any filters, deflated, laid out over chunks
      in any way and read in parts of any size. What the inflater is given inflates to scanlines that
      decode to the image's rows, down to the last one the request needs. */
  lemma ImageComesBack(c: Chunk, cs: seq<Chunk>, len: Word, tail: seq<Byte>, w: Request,
      inflate: seq<Byte> -> seq<Byte>,
                       rows: seq<Row>, filters: seq<nat>, rest: seq<Byte>)
    requires c.kind == IHDR && |c.data| == 13 && |c.crc| == 4 && HeaderFault(c.data, w).None? && AllPlain(cs)
    requires Filters(filters, rows) && |rows| == Number(c.data, 4) && AllWide(rows, Number(c.data, 0))
    requires inflate(ImageData(cs)) == Encode(rows, filters, Zeros(Number(c.data, 0))) + rest
    ensures var s := Run(Going(Start()), Signature() + ChunkBytes(c) + AllBytes(cs) + (BigEndian(len) + IEND) + tail,
      w);
      && s.Going? && s.p.header == Some(c.data)
      && var win, width := Granted(c.data, w), Number(c.data, 0);
        Decode(inflate(s.p.sent), Zeros(width), win.y0 + win.height) == Progress(rows[..win.y0 + win.height], [])
  {
    hide Run, ChunkBytes, AllBytes, BigEndian, Signature, Decode, Encode, Number, HeaderFault;
    FileRuns(c, cs, len, tail, w);
    var win := Granted(c.data, w);
    DecodeEncoded(rows, filters, Zeros(Number(c.data, 0)), win.y0 + win.height, rest);
  }

  // ---- The reader

  /** The parsing half of decodeIndexedCrop. */
  class ChunkReader {
    const win: Request
    const head: array<Byte>
    var stage: Stage
    var headFill: nat
    var left: nat
    var kind: seq<Byte>
    var header: Option<seq<Byte>>
    var sent: seq<Byte>

    ghost function State(): Parser
      requires headFill <= head.Length
      reads this, head
    {
      Parser(stage, left, head[..headFill], kind, header, sent)
    }

    ghost predicate Valid()
      reads this, head
    {
      head.Length == 13 && headFill <= 13 && Wf(State()) && (!Keeps(State()) ==> headFill == 0)
    }

    constructor (win: Request)
      ensures Valid() && State() == Start() && this.win == win && fresh(head)
    {
      this.win := win;
      head := new Byte[13](_ => 0);
      stage, headFill, left, kind, header, sent := Sig, 0, 8, [], None, [];
    }

    /** Bytes of the current piece; the caller turns when it is complete. */
    method TakePiece(b: seq<Byte>)
      requires Valid() && stage != End && |b| <= left
      modifies this, head
      ensures head.Length == 13 && headFill <= 13 && State() == Gather(old(State()), b)
        && (!Keeps(State()) ==> headFill == 0)
      ensures stage == old(stage) && left == old(left) - |b|
      ensures left == 0 ==>
        (stage == Sig || stage == Head ==> headFill == 8)
        && (stage == Body && kind == IHDR ==> headFill == 13)
    {
      if stage == Body && kind == IDAT {
        sent := sent + b;
      } else if (stage == Body && kind != IHDR) || stage == Crc {
      } else {
        Place(head, headFill, b);
        headFill := headFill + |b|;
      }
      left := left - |b|;
    }

    method TurnPiece() returns (fault: Option<Fault>)
      requires head.Length == 13 && headFill <= 13 && stage != End && left == 0
      requires (stage == Sig || stage == Head ==> headFill == 8) && (stage == Body && kind == IHDR ==> headFill == 13)
      modifies this
      ensures fault.None? ==> headFill == 0 && Going(State()) == Turn(old(State()), win)
      ensures fault.Some? ==> Failed(fault.value) == Turn(old(State()), win)
    {
      hide HeaderFault, Number;
      ghost var was := head[..headFill];
      headFill := 0;
      if stage == Sig {
        if head[..8] != Signature() { return Some(NotPng); }
        stage, left := Head, 8;
      } else if stage == Head {
        var len := Number(head[..8], 0);
        kind := head[4..8];
        assert was[4..8] == head[4..8] && was == head[..8];
        if kind == IHDR && len != 13 { return Some(BadHeaderLength); }
        if kind == IDAT && header.None? { return Some(MissingHeader); }
        if kind == IEND { stage := End; return None; }
        stage, left := Body, len;
        if len == 0 { stage, left := Crc, 4; }
      } else if stage == Body {
        if kind == IHDR {
          var f := HeaderFault(head[..], win);
          assert head[..] == was;
          if f.Some? { return f; }
          header, sent := Some(head[..]), [];
        }
        stage, left := Crc, 4;
      } else {
        stage, left := Head, 8;
      }
      return None;
    }

    /** One part of the stream as it arrives, of any size. */
    method Part(part: seq<Byte>) returns (fault: Option<Fault>)
      requires Valid() && stage != End
      modifies this, head
      ensures fault.None? ==> Valid() && Going(State()) == Run(Going(old(State())), part, win)
      ensures fault.Some? ==> Run(Going(old(State())), part, win) == Failed(fault.value)
    {
      hide Run, Turn, Gather;
      var i := 0;
      ghost var s := Going(State());
      RunNone(s, win);
      assert part[..0] == [];
      while i < |part| && stage != End
        invariant i <= |part| && Valid() && Going(State()) == Run(s, part[..i], win)
        decreases |part| - i
      {
        var take := if left < |part| - i then left else |part| - i;
        ghost var p, b := State(), part[i..i + take];
        PieceIsBytes(p, b, win);
        PieceWf(p, b, win);
        RunSplit(s, part[..i], b, win);
        assert part[..i + take] == part[..i] + b;
        TakePiece(part[i..i + take]);
        i := i + take;
        if left == 0 {
          assert Wf(p);
          fault := TurnPiece();
          if fault.Some? {
            RunSplit(s, part[..i], part[i..], win);
            RunStops(Failed(fault.value), part[i..], win);
            assert part[..i] + part[i..] == part;
            return;
          }
        }
      }
      RunSplit(s, part[..i], part[i..], win);
      assert part[..i] + part[i..] == part;
      if i < |part| { RunStops(Going(State()), part[i..], win); } else { RunNone(Going(State()), win); }
      return None;
    }
  }
}
