/** Row un-filtering and cropping of an 8-bit palette image, fed in chunks of any size. The filters
    are those of section 9 of the W3C PNG specification (one byte per pixel). */
module PngRows {
  import opened Arithmetic
  import opened Bytes
  import opened Options

  type Row = seq<Byte>

  // ---- The filters

  function Abs(x: int): nat { if x < 0 then 0 - x else x }

  /** Of left, above and upper left, the one nearest to left + above - upper left. */
  function Paeth(a: Byte, b: Byte, c: Byte): (p: Byte)
    ensures p == a || p == b || p == c
    ensures var goal := a + b - c;
      Abs(p - goal) <= Abs(a - goal) && Abs(p - goal) <= Abs(b - goal)
      && Abs(p - goal) <= Abs(c - goal)
  {
    var goal := a + b - c;
    var pa, pb, pc := Abs(goal - a), Abs(goal - b), Abs(goal - c);
    if pa <= pb && pa <= pc then a else if pb <= pc then b else c
  }

  function Predict(filter: nat, a: Byte, b: Byte, c: Byte): nat
    requires filter <= 4
  {
    match filter
    case 0 => 0
    case 1 => a
    case 2 => b
    case 3 => (a + b) / 2
    case _ => Paeth(a, b, c)
  }

  function LeftOf(row: Row, x: nat): Byte
    requires x <= |row|
  {
    if x > 0 then row[x - 1] else 0
  }

  function PredictAt(filter: nat, row: Row, above: Row, x: nat): nat
    requires filter <= 4 && x <= |row| && x < |above|
  {
    Predict(filter, LeftOf(row, x), above[x], LeftOf(above, x))
  }

  /** What a PNG encoder stores for a row. */
  function Filtered(filter: nat, row: Row, above: Row): Row
    requires filter <= 4 && |row| == |above|
  {
    seq(|row|, x requires 0 <= x < |row| => (row[x] - PredictAt(filter, row, above, x)) % 256)
  }

  /** What the decoder makes of a stored row. */
  function Unfiltered(filter: nat, raw: Row, above: Row): (row: Row)
    requires filter <= 4 && |raw| <= |above|
    ensures |row| == |raw|
  {
    if raw == [] then []
    else
      var x := |raw| - 1;
      var row := Unfiltered(filter, raw[..x], above);
      row + [(raw[x] + PredictAt(filter, row, above, x)) % 256]
  }

  lemma AddBack(v: Byte, p: nat)
    ensures ((v - p) % 256 + p) % 256 == v
  {
    var q := (v - p) / 256;
    assert v - p == 256 * q + (v - p) % 256;
    Quotient(256, (v - p) % 256 + p, 0 - q, v);
  }

  lemma {:induction false} UnfilteredPrefix(filter: nat, row: Row, above: Row, n: nat)
    requires filter <= 4 && |row| == |above| && n <= |row|
    ensures Unfiltered(filter, Filtered(filter, row, above)[..n], above) == row[..n]
  {
    hide Predict;
    if n > 0 {
      var raw := Filtered(filter, row, above)[..n];
      assert raw[..n - 1] == Filtered(filter, row, above)[..n - 1];
      UnfilteredPrefix(filter, row, above, n - 1);
      AddBack(row[n - 1], PredictAt(filter, row, above, n - 1));
      assert PredictAt(filter, row[..n - 1], above, n - 1) == PredictAt(filter, row, above, n - 1);
      assert row[..n] == row[..n - 1] + [row[n - 1]];
    }
  }

  /** Every filter is undone, whatever the row above. */
  lemma FilterUndone(filter: nat, row: Row, above: Row)
    requires filter <= 4 && |row| == |above|
    ensures Unfiltered(filter, Filtered(filter, row, above), above) == row
  {
    UnfilteredPrefix(filter, row, above, |row|);
    assert row[..|row|] == row && Filtered(filter, row, above)[..|row|] == Filtered(filter, row, above);
  }

  /** Of left, above and upper left, in that order, p is the first that is nearest to left + above - upper left. */
  predicate FirstNearest(p: Byte, a: Byte, b: Byte, c: Byte) {
    var goal := a + b - c;
    var da, db, dc := Abs(a - goal), Abs(b - goal), Abs(c - goal);
    || (p == a && da <= db && da <= dc)
    || (p == b && db < da && db <= dc)
    || (p == b && dc < da && db <= dc)
    || (p == c && dc < da && dc < db)
  }

  /** The pixel a stored byte stands for: itself plus, by filter, nothing, the pixel on the left, the pixel above,
      half their sum, or the one of left, above and upper left nearest to their gradient. */
  predicate PixelOk(filter: nat, stored: nat, left: nat, up: nat, upperLeft: nat, pixel: nat)
    requires left < 256 && up < 256 && upperLeft < 256
  {
    && (filter == 0 ==> pixel == stored)
    && (filter == 1 ==> pixel == (stored + left) % 256)
    && (filter == 2 ==> pixel == (stored + up) % 256)
    && (filter == 3 ==> pixel == (stored + (left + up) / 2) % 256)
    && (filter == 4 ==>
      || (FirstNearest(left, left, up, upperLeft) && pixel == (stored + left) % 256)
      || (FirstNearest(up, left, up, upperLeft) && pixel == (stored + up) % 256)
      || (FirstNearest(upperLeft, left, up, upperLeft) && pixel == (stored + upperLeft) % 256))
  }

  lemma PaethIsFirst(a: Byte, b: Byte, c: Byte)
    ensures FirstNearest(Paeth(a, b, c), a, b, c)
  {}

  lemma PredictedOk(filter: nat, stored: Byte, a: Byte, b: Byte, c: Byte)
    requires filter <= 4
    ensures PixelOk(filter, stored, a, b, c, (stored + Predict(filter, a, b, c)) % 256)
  {
    hide Paeth, FirstNearest;
    PaethIsFirst(a, b, c);
  }

  lemma {:induction false} PixelIsPredicted(filter: nat, raw: Row, above: Row, x: nat)
    requires filter <= 4 && x < |raw| <= |above|
    ensures var row := Unfiltered(filter, raw, above);
      row[x] == (raw[x] + PredictAt(filter, row, above, x)) % 256
    decreases |raw|
  {
    var n := |raw| - 1;
    var row, less := Unfiltered(filter, raw, above), Unfiltered(filter, raw[..n], above);
    assert row == less + [(raw[n] + PredictAt(filter, less, above, n)) % 256];
    hide Unfiltered, Predict;
    if x < n { PixelIsPredicted(filter, raw[..n], above, x); }
    assert PredictAt(filter, row, above, x) == PredictAt(filter, less, above, x);
  }

  /** Every decoded row has the pixels of its filter, whatever was stored; there is nothing to the left of the
      first pixel. */
  lemma FilterEquations(filter: nat, raw: Row, above: Row, x: nat)
    requires filter <= 4 && x < |raw| <= |above|
    ensures var row := Unfiltered(filter, raw, above);
      if x == 0 then PixelOk(filter, raw[0], 0, above[0], 0, row[0])
      else PixelOk(filter, raw[x], row[x - 1], above[x], above[x - 1], row[x])
  {
    PixelIsPredicted(filter, raw, above, x);
    var row := Unfiltered(filter, raw, above);
    PredictedOk(filter, raw[x], LeftOf(row, x), above[x], LeftOf(above, x));
    hide Unfiltered, Predict, PixelOk;
  }

  // ---- The byte stream

  /** The rows found so far and the bytes of the next one; or the row with an unknown filter. */
  datatype Progress = Progress(rows: seq<Row>, rest: seq<Byte>) | BadFilter(row: nat)

  function After(row: Row, p: Progress): Progress {
    match p
    case Progress(rows, rest) => Progress([row] + rows, rest)
    case BadFilter(k) => BadFilter(k + 1)
  }

  /** The next `want` rows of a stream of filtered rows; bytes past them are not looked at. */
  function Decode(s: seq<Byte>, above: Row, want: nat): Progress
    decreases want
  {
    var width := |above|;
    if want == 0 then Progress([], [])
    else if |s| <= width then Progress([], s)
    else if s[0] > 4 then BadFilter(0)
    else
      var row := Unfiltered(s[0], s[1..width + 1], above);
      After(row, Decode(s[width + 1..], row, want - 1))
  }

  function LastOr(rows: seq<Row>, above: Row): Row { if rows == [] then above else rows[|rows| - 1] }

  function Join(rows: seq<Row>, p: Progress): Progress {
    match p
    case Progress(more, rest) => Progress(rows + more, rest)
    case BadFilter(k) => BadFilter(|rows| + k)
  }

  ghost predicate AllWide(rows: seq<Row>, width: nat) { forall k :: 0 <= k < |rows| ==> |rows[k]| == width }

  lemma {:induction false} DecodeShape(s: seq<Byte>, above: Row, want: nat)
    ensures var p := Decode(s, above, want);
      p.Progress? ==>
        |p.rows| <= want && AllWide(p.rows, |above|) && |p.rest| <= |above|
        && (|p.rows| == want ==> p.rest == [])
    decreases want
  {
    if want > 0 && |s| > |above| && s[0] <= 4 {
      var row := Unfiltered(s[0], s[1..|above| + 1], above);
      DecodeShape(s[|above| + 1..], row, want - 1);
    }
  }

  lemma JoinAfter(row: Row, rows: seq<Row>, p: Progress)
    ensures Join([row] + rows, p) == After(row, Join(rows, p))
  {
    match p
    case Progress(more, _) => assert [row] + (rows + more) == [row] + rows + more;
    case BadFilter(_) =>
  }

  lemma JoinNone(p: Progress)
    ensures Join([], p) == p
  {
    match p
    case Progress(more, _) => assert [] + more == more;
    case BadFilter(_) =>
  }

  /** One unfolding of Decode. */
  lemma DecodeRow(s: seq<Byte>, above: Row, want: nat)
    requires want > 0 && |s| > |above| && s[0] <= 4
    ensures var n := |above| + 1; var row := Unfiltered(s[0], s[1..n], above);
      |row| == |above| && Decode(s, above, want) == After(row, Decode(s[n..], row, want - 1))
  {}

  lemma DecodeNone(s: seq<Byte>, above: Row, want: nat)
    requires want == 0 || |s| <= |above|
    ensures Decode(s, above, want) == Progress([], if want == 0 then [] else s)
  {}

  lemma LastOfMore(row: Row, rows: seq<Row>, above: Row)
    ensures LastOr([row] + rows, above) == LastOr(rows, row)
  {}

  /** Where decoding stands after t more bytes. */
  function Continue(p: Progress, t: seq<Byte>, above: Row, want: nat): Progress {
    match p
    case Progress(rows, rest) => if |rows| <= want then
      Join(rows, Decode(rest + t, LastOr(rows, above), want - |rows|)) else p
    case BadFilter(_) => p
  }

  lemma ContinueAfter(row: Row, p: Progress, t: seq<Byte>, above: Row, want: nat)
    requires want > 0
    ensures Continue(After(row, p), t, above, want) == After(row, Continue(p, t, row, want - 1))
  {
    hide Decode, LastOr, Join;
    match p
    case Progress(rows, rest) =>
      LastOfMore(row, rows, above);
      if |rows| <= want - 1 { JoinAfter(row, rows, Decode(rest + t, LastOr(rows, row), want - 1 - |rows|)); }
    case BadFilter(_) =>
  }

  lemma DecodeRowMore(s: seq<Byte>, t: seq<Byte>, above: Row, want: nat)
    requires want > 0 && |s| > |above| && s[0] <= 4
    ensures var n := |above| + 1; var row := Unfiltered(s[0], s[1..n], above);
      Decode(s + t, above, want) == After(row, Decode(s[n..] + t, row, want - 1))
  {
    var n := |above| + 1;
    assert (s + t)[1..n] == s[1..n] && (s + t)[n..] == s[n..] + t;
    DecodeRow(s + t, above, want);
  }

  lemma DecodeMoreEnds(s: seq<Byte>, t: seq<Byte>, above: Row, want: nat)
    requires want == 0 || |s| <= |above| || s[0] > 4
    ensures Decode(s + t, above, want) == Continue(Decode(s, above, want), t, above, want)
  {
    if want == 0 || |s| <= |above| {
      DecodeNone(s, above, want);
      JoinNone(Decode((if want == 0 then [] else s) + t, above, want));
    }
  }

  /** However a stream is split, the second part is decoded from where the first left off. */
  lemma {:induction false} DecodeMore(s: seq<Byte>, t: seq<Byte>, above: Row, want: nat)
    ensures Decode(s + t, above, want) == Continue(Decode(s, above, want), t, above, want)
    decreases want
  {
    hide *;
    var n := |above| + 1;
    if want == 0 || |s| < n || s[0] > 4 {
      DecodeMoreEnds(s, t, above, want);
    } else {
      var row := Unfiltered(s[0], s[1..n], above);
      DecodeRow(s, above, want);
      DecodeRowMore(s, t, above, want);
      DecodeMore(s[n..], t, row, want - 1);
      ContinueAfter(row, Decode(s[n..], row, want - 1), t, above, want);
    }
  }

  // ---- Images

  ghost predicate Filters(filters: seq<nat>, rows: seq<Row>) {
    |filters| == |rows| && forall k :: 0 <= k < |filters| ==> filters[k] <= 4
  }

  /** The scanlines of an image, each with a filter of the encoder's choice. */
  function Encode(rows: seq<Row>, filters: seq<nat>, above: Row): seq<Byte>
    requires Filters(filters, rows) && AllWide(rows, |above|)
  {
    if rows == [] then []
    else [filters[0]] + Filtered(filters[0], rows[0], above) + Encode(rows[1..], filters[1..], rows[0])
  }

  /** Any image, under any choice of filters, decodes to its own rows; rows past `want` and any
      bytes after them change nothing. */
  lemma {:induction false} DecodeEncoded(rows: seq<Row>, filters: seq<nat>, above: Row, want: nat, tail: seq<Byte>)
    requires Filters(filters, rows) && AllWide(rows, |above|) && want <= |rows|
    ensures Decode(Encode(rows, filters, above) + tail, above, want) == Progress(rows[..want], [])
    decreases want
  {
    if want > 0 {
      var raw, n := Filtered(filters[0], rows[0], above), |above| + 1;
      var later := Encode(rows[1..], filters[1..], rows[0]);
      var s := Encode(rows, filters, above) + tail;
      assert s == [filters[0]] + raw + (later + tail);
      assert s[1..n] == raw && s[n..] == later + tail;
      FilterUndone(filters[0], rows[0], above);
      DecodeEncoded(rows[1..], filters[1..], rows[0], want - 1, tail);
      assert rows[..want] == [rows[0]] + rows[1..][..want - 1];
    }
  }

  // ---- The crop

  datatype Window = Window(x0: nat, y0: nat, width: nat, height: nat)

  /** The window's pixels of the rows so far, row by row. */
  function Crop(rows: seq<Row>, w: Window): seq<Byte>
    requires forall k :: 0 <= k < |rows| ==> w.x0 + w.width <= |rows[k]|
  {
    if |rows| <= w.y0 then [] else Crop(rows[..|rows| - 1], w) + rows[|rows| - 1][w.x0..w.x0 + w.width]
  }

  lemma {:induction false} CropLength(rows: seq<Row>, w: Window)
    requires forall k :: 0 <= k < |rows| ==> w.x0 + w.width <= |rows[k]|
    ensures |Crop(rows, w)| == if |rows| <= w.y0 then 0 else (|rows| - w.y0) * w.width
  {
    if |rows| > w.y0 {
      CropLength(rows[..|rows| - 1], w);
      assert (|rows| - w.y0) * w.width == (|rows| - 1 - w.y0) * w.width + w.width;
    }
  }

  /** Pixel (x, y) of the crop is pixel (x0 + x, y0 + y) of the image. */
  lemma {:induction false} CropAt(rows: seq<Row>, w: Window, x: nat, y: nat)
    requires forall k :: 0 <= k < |rows| ==> w.x0 + w.width <= |rows[k]|
    requires x < w.width && w.y0 + y < |rows|
    ensures 0 <= y * w.width + x < |Crop(rows, w)| && Crop(rows, w)[y * w.width + x] == rows[w.y0 + y][w.x0 + x]
  {
    var less := rows[..|rows| - 1];
    CropLength(less, w);
    if w.y0 + y < |less| { CropAt(less, w, x, y); }
  }

  // ---- The decoder, in place

  function Zeros(width: nat): Row { seq(width, _ => 0) }

  /** Decode of no more than one row's bytes. */
  lemma DecodeOne(buf: seq<Byte>, above: Row, want: nat)
    requires want > 0 && |buf| <= |above| + 1
    ensures Decode(buf, above, want) ==
      if |buf| <= |above| then Progress([], buf)
      else if buf[0] > 4 then BadFilter(0)
      else Progress([Unfiltered(buf[0], buf[1..], above)], [])
  {
    hide Unfiltered;
    if |buf| == |above| + 1 && buf[0] <= 4 {
      assert buf[1..|above| + 1] == buf[1..];
      DecodeNone([], Unfiltered(buf[0], buf[1..], above), want - 1);
    }
  }

  /** One more run of bytes that stays within the row being filled. */
  lemma Advance(s: seq<Byte>, t: seq<Byte>, above: Row, want: nat, rows: seq<Row>, rest: seq<Byte>, last: Row)
    requires Decode(s, above, want) == Progress(rows, rest) && |rows| < want && last == LastOr(rows, above)
    requires |last| == |above| && |rest| + |t| <= |above| + 1
    ensures var buf := rest + t;
      Decode(s + t, above, want) ==
        if |buf| <= |above| then Progress(rows, buf)
        else if buf[0] > 4 then BadFilter(|rows|)
        else Progress(rows + [Unfiltered(buf[0], buf[1..], last)], [])
  {
    hide Unfiltered, Decode, LastOr;
    DecodeMore(s, t, above, want);
    DecodeOne(rest + t, last, want - |rows|);
    assert rows + [] == rows;
  }

  /** Once the wanted rows are there, nothing that follows is looked at. */
  lemma PastTheCrop(s: seq<Byte>, t: seq<Byte>, above: Row, want: nat)
    requires var p := Decode(s, above, want); p.Progress? && |p.rows| == want
    ensures Decode(s + t, above, want) == Decode(s, above, want)
  {
    DecodeMore(s, t, above, want);
    DecodeShape(s, above, want);
    var p := Decode(s, above, want);
    assert p.rows + [] == p.rows;
  }

  lemma CropFits(rows: nat, w: Window)
    requires w.y0 <= rows < w.y0 + w.height
    ensures 0 <= (rows - w.y0) * w.width && (rows - w.y0) * w.width + w.width <= w.height * w.width
  {
    RowsFit(rows - w.y0, w.height, w.width);
  }

  lemma {:induction false} RowsFit(k: nat, height: nat, width: nat)
    requires k < height
    ensures 0 <= k * width && k * width + width <= height * width
  {
    assert height * width == (height - 1) * width + width;
    if k + 1 < height { RowsFit(k, height - 1, width); }
  }

  lemma CropNext(rows: seq<Row>, row: Row, w: Window)
    requires AllWide(rows, |row|) && w.x0 + w.width <= |row|
    ensures AllWide(rows + [row], |row|) && |Crop(rows, w)| == if |rows| < w.y0 then 0 else (|rows| - w.y0) * w.width
    ensures Crop(rows + [row], w) == if |rows| < w.y0 then [] else Crop(rows, w) + row[w.x0..w.x0 + w.width]
  {
    CropLength(rows, w);
    assert (rows + [row])[..|rows|] == rows;
  }

  /** Uint8Array.set. */
  method Place(a: array<Byte>, at: nat, xs: seq<Byte>)
    requires at + |xs| <= a.Length
    modifies a
    ensures a[..at + |xs|] == old(a[..at]) + xs
  {
    forall k | 0 <= k < |xs| { a[at + k] := xs[k]; }
    assert a[..at] == old(a[..at]) && a[at..at + |xs|] == xs;
    assert a[..at + |xs|] == a[..at] + a[at..at + |xs|];
  }

  /** cropRows: the buffers behind one decode. */
  class RowDecoder {
    const win: Window
    const width: nat
    const rowBuf: array<Byte>
    const out: array<Byte>
    var prev: array<Byte>
    var cur: array<Byte>
    var fill: nat
    var row: nat
    ghost var fed: seq<Byte>
    ghost var pixels: seq<Row>

    ghost predicate Buffers()
      reads this
    {
      && width > 0 && win.x0 + win.width <= width && rowBuf.Length == width + 1
      && prev.Length == width && cur.Length == width && out.Length == win.height * win.width
      && rowBuf != prev && rowBuf != cur && rowBuf != out && prev != cur && prev != out && cur != out
    }

    function EndRow(): nat { win.y0 + win.height }

    /** The state is a function of the bytes fed so far, however they were split. */
    ghost predicate Valid()
      reads this, rowBuf, out, prev, cur
    {
      && Buffers() && fill <= width && row == |pixels| <= EndRow() && AllWide(pixels, width)
      && Decode(fed, Zeros(width), EndRow()) == Progress(pixels, rowBuf[..fill])
      && prev[..] == LastOr(pixels, Zeros(width))
      && |Crop(pixels, win)| <= out.Length && out[..|Crop(pixels, win)|] == Crop(pixels, win)
    }

    constructor (width: nat, win: Window)
      requires width > 0 && win.x0 + win.width <= width
      ensures Valid() && fed == [] && this.width == width && this.win == win
      ensures fresh(rowBuf) && fresh(out) && fresh(prev) && fresh(cur)
    {
      this.width, this.win := width, win;
      rowBuf, prev, cur := new Byte[width + 1](_ => 0), new Byte[width](_ => 0), new Byte[width](_ => 0);
      out := new Byte[win.height * win.width](_ => 0);
      fill, row, fed, pixels := 0, 0, [], [];
    }

    /** Undoes the filter of the full row buffer; false for an unknown filter. */
    method Unfilter() returns (ok: bool)
      requires Buffers()
      modifies cur
      ensures ok == (rowBuf[0] <= 4)
      ensures ok ==> cur[..] == Unfiltered(rowBuf[0], rowBuf[1..], prev[..])
    {
      var f := rowBuf[0];
      ghost var raw, above := rowBuf[1..], prev[..];
      for x := 0 to width
        invariant rowBuf[1..] == raw && prev[..] == above && rowBuf[0] == f
        invariant x > 0 ==> f <= 4
        invariant f <= 4 ==> cur[..x] == Unfiltered(f, raw[..x], above)
      {
        var a := if x > 0 then cur[x - 1] else 0;
        var b := prev[x];
        var c := if x > 0 then prev[x - 1] else 0;
        if f > 4 { return false; }
        cur[x] := (rowBuf[x + 1] + Predict(f, a, b, c)) % 256;
        assert raw[..x + 1][..x] == raw[..x];
        assert cur[..x + 1] == cur[..x] + [cur[x]];
      }
      assert raw[..width] == raw && cur[..width] == cur[..];
      return true;
    }

    /** Copies the crop's part of the finished row out. */
    method CopyOut()
      requires Buffers() && row == |pixels| < EndRow() && AllWide(pixels, width)
      requires |Crop(pixels, win)| <= out.Length && out[..|Crop(pixels, win)|] == Crop(pixels, win)
      modifies out
      ensures AllWide(pixels + [cur[..]], width)
      ensures var c := Crop(pixels + [cur[..]], win); |c| <= out.Length && out[..|c|] == c
    {
      CropNext(pixels, cur[..], win);
      hide Crop;
      if row >= win.y0 {
        CropFits(row, win);
        Place(out, (row - win.y0) * win.width, cur[win.x0..win.x0 + win.width]);
      }
    }

    /** A finished row: its part of the crop goes out and it becomes the row above. */
    method Emit(ghost s: seq<Byte>)
      requires Buffers() && row == |pixels| < EndRow() && AllWide(pixels, width)
      requires |Crop(pixels, win)| <= out.Length && out[..|Crop(pixels, win)|] == Crop(pixels, win)
      requires Decode(s, Zeros(width), EndRow()) == Progress(pixels + [cur[..]], [])
      modifies this, out
      ensures Valid() && fed == s && {prev, cur} == old({prev, cur})
    {
      hide Decode, Crop;
      CopyOut();
      ghost var next := pixels + [cur[..]];
      prev, cur := cur, prev;
      row, fill, fed, pixels := row + 1, 0, s, next;
    }

    /** A run of bytes that stays within one row. */
    method TakeRun(t: seq<Byte>) returns (ok: bool)
      requires Valid() && row < EndRow() && fill + |t| <= width + 1
      modifies this, rowBuf, out, prev, cur
      ensures ok ==> Valid() && fed == old(fed) + t && {prev, cur} == old({prev, cur})
      ensures !ok ==> row == old(row) && Decode(old(fed) + t, Zeros(width), EndRow()) == BadFilter(row)
    {
      hide Decode, Crop, Unfiltered;
      ghost var s, buf := fed + t, rowBuf[..fill] + t;
      Advance(fed, t, Zeros(width), EndRow(), pixels, rowBuf[..fill], prev[..]);
      Place(rowBuf, fill, t);
      fill := fill + |t|;
      if fill <= width {
        fed := s;
        return true;
      }
      assert rowBuf[..] == buf && rowBuf[1..] == buf[1..];
      ok := Unfilter();
      if ok { Emit(s); }
    }

    /** Takes a chunk of the scanline stream. The error is the row with an unknown filter. */
    method Consume(chunk: seq<Byte>) returns (bad: Option<nat>)
      requires Valid()
      modifies this, rowBuf, out, prev, cur
      ensures bad.None? ==> Valid() && fed == old(fed) + chunk && {prev, cur} == old({prev, cur})
      ensures bad.Some? ==> Decode(old(fed) + chunk, Zeros(width), EndRow()) == BadFilter(bad.value)
    {
      hide Decode, Crop, AllWide;
      var i := 0;
      ghost var start := fed;
      assert start + chunk[..0] == start;
      while i < |chunk| && row < EndRow()
        invariant i <= |chunk| && Valid() && fed == start + chunk[..i] && {prev, cur} == old({prev, cur})
        decreases |chunk| - i
      {
        var take := if width + 1 - fill < |chunk| - i then width + 1 - fill else |chunk| - i;
        ghost var s := start + chunk[..i + take];
        assert s == fed + chunk[i..i + take];
        var ok := TakeRun(chunk[i..i + take]);
        i := i + take;
        if !ok {
          DecodeMore(s, chunk[i..], Zeros(width), EndRow());
          assert s + chunk[i..] == start + chunk;
          return Some(row);
        }
      }
      assert start + chunk == fed + chunk[i..];
      if i < |chunk| { PastTheCrop(fed, chunk[i..], Zeros(width), EndRow()); }
      fed := start + chunk;
      assert i == |chunk| ==> start + chunk == start + chunk[..i];
      return None;
    }

    /** At the end of the stream: the crop is there, or the data ended too early. */
    method Finish() returns (crop: Option<seq<Byte>>)
      requires Valid()
      ensures crop == if |pixels| == EndRow() then Some(Crop(pixels, win)) else None
    {
      hide Decode;
      CropLength(pixels, win);
      assert out[..out.Length] == out[..];
      crop := if row >= EndRow() then Some(out[..]) else None;
    }

    /** Any image that contains the window, any filters, any split into chunks, anything after the
        window's last row: the decoder has the window's pixels. */
    lemma CropOfImage(rows: seq<Row>, filters: seq<nat>, tail: seq<Byte>)
      requires Valid() && Filters(filters, rows) && AllWide(rows, width) && EndRow() <= |rows|
      requires fed == Encode(rows, filters, Zeros(width)) + tail
      ensures pixels == rows[..EndRow()] && Crop(pixels, win) == Crop(rows[..EndRow()], win)
    {
      DecodeEncoded(rows, filters, Zeros(width), EndRow(), tail);
    }
  }
}
