/**
The PNG reader of the icon pipeline: the chunk walk, the five scanline filters of
section 9 of the W3C PNG Specification undone in place, and the widening of RGB to RGBA.
Inflating is a parameter.
*/
module Png {
  import opened Prelude

  type byte = b: int | 0 <= b < 256

  datatype PngError =
    | NotPng
    | OutOfRange
    | Unsupported(depth: Option<byte>, colorType: Option<byte>, interlace: Option<byte>)
    | NoIdat
    | BadStream
    | UnknownFilter(filter: Option<byte>, row: nat)

  datatype DecodedPng = DecodedPng(width: nat, height: nat, rgba: seq<byte>)

  // ---------------------------------------------------------------- filters

  function Abs(n: int): nat { if n < 0 then -n else n }

  /** The Paeth choice among left, above and upper left. */
  function Paeth(a: byte, up: byte, ul: byte): byte {
    var est := a + up - ul;
    var da, db, dc := Abs(est - a), Abs(est - up), Abs(est - ul);
    if da <= db && da <= dc then a else if db <= dc then up else ul
  }

  /** What filter type `filter` predicts from the three neighbours. */
  function Predictor(filter: byte, a: byte, up: byte, ul: byte): byte
    requires filter <= 4
  {
    match filter
    case 0 => 0
    case 1 => a
    case 2 => up
    case 3 => (a + up) / 2
    case _ => Paeth(a, up, ul)
  }

  /**
  The five filter types as the standard words them: nothing, the byte to the left, the byte above, the mean of the
  two rounded down, and whichever of left, above and upper left is nearest to left + above - upper left, taken in
  that order when equally near.
  */
  predicate Standard(filter: byte, a: byte, up: byte, ul: byte, p: byte) {
    var est := a + up - ul;
    match filter
    case 0 => p == 0
    case 1 => p == a
    case 2 => p == up
    case 3 => 2 * p <= a + up <= 2 * p + 1
    case _ =>
      && (p == a || p == up || p == ul)
      && Abs(est - p) <= Abs(est - a) && Abs(est - p) <= Abs(est - up) && Abs(est - p) <= Abs(est - ul)
      && (p != a ==> Abs(est - p) < Abs(est - a))
      && (p != a && p != up ==> Abs(est - p) < Abs(est - up))
  }

  lemma PredictorIsStandard(filter: byte, a: byte, up: byte, ul: byte, p: byte)
    requires filter <= 4
    ensures Standard(filter, a, up, ul, p) <==> p == Predictor(filter, a, up, ul)
  {}

  /** A neighbour outside the image reads as zero. */
  function Neighbour(row: seq<byte>, x: int): byte {
    if 0 <= x < |row| then row[x] else 0
  }

  function Predicted(filter: byte, cur: seq<byte>, prev: seq<byte>, bpp: nat, x: nat): byte
    requires filter <= 4
  {
    Predictor(filter, Neighbour(cur, x - bpp), Neighbour(prev, x), Neighbour(prev, x - bpp))
  }

  /** Byte `x` of a row put back. A byte the stream is too short to hold becomes zero. */
  function Recovered(filter: byte, row: seq<byte>, cur: seq<byte>, prev: seq<byte>, bpp: nat, x: nat): byte
    requires filter <= 4
  {
    if x < |row| then (row[x] + Predicted(filter, cur, prev, bpp, x)) % 256 else 0
  }

  /** `cur` solves the reconstruction equation of its scanline. */
  predicate RowUndone(filter: byte, row: seq<byte>, prev: seq<byte>, bpp: nat, cur: seq<byte>)
    requires filter <= 4
  {
    forall x :: 0 <= x < |cur| ==> cur[x] == Recovered(filter, row, cur, prev, bpp, x)
  }

  /** `subarray(from, from + len)`, which stops at the end of the buffer. */
  function Sub(s: seq<byte>, from: nat, len: nat): seq<byte> {
    s[Min(from, |s|)..Min(from + len, |s|)]
  }

  /** `y * k`, by repeated addition. */
  function Times(y: nat, k: nat): nat { if y == 0 then 0 else Times(y - 1, k) + k }

  lemma {:induction false} TimesIs(y: nat, k: nat)
    ensures Times(y, k) == y * k
  {
    if y > 0 {
      TimesIs(y - 1, k);
      assert y * k == (y - 1) * k + k;
    }
  }

  lemma {:induction false} TimesGrows(y: nat, n: nat, k: nat)
    requires y <= n
    ensures Times(y, k) <= Times(n, k)
  {
    if y < n { TimesGrows(y, n - 1, k); }
  }

  function FilterAt(raw: seq<byte>, stride: nat, y: nat): Option<byte> {
    var p := Times(y, 1 + stride);
    if p < |raw| then Some(raw[p]) else None
  }

  /** A row of no bytes never looks at its filter type. */
  predicate KnownFilter(raw: seq<byte>, stride: nat, y: nat) {
    stride == 0 || (FilterAt(raw, stride, y).Some? && FilterAt(raw, stride, y).value <= 4)
  }

  function Above(image: seq<seq<byte>>, y: nat): seq<byte>
    requires y <= |image|
  {
    if y == 0 then [] else image[y - 1]
  }

  predicate LineUndone(raw: seq<byte>, stride: nat, bpp: nat, image: seq<seq<byte>>, y: nat)
    requires y < |image|
  {
    |image[y]| == stride && KnownFilter(raw, stride, y)
    && (stride > 0 ==>
      RowUndone(FilterAt(raw, stride, y).value, Sub(raw, Times(y, 1 + stride) + 1, stride),
                Above(image, y), bpp, image[y]))
  }

  /** `image` is `raw` with every scanline's filter undone. */
  predicate Undone(raw: seq<byte>, stride: nat, bpp: nat, image: seq<seq<byte>>) {
    forall y :: 0 <= y < |image| ==> LineUndone(raw, stride, bpp, image, y)
  }

  lemma {:induction false} RowUnique(filter: byte, row: seq<byte>, prev: seq<byte>, bpp: nat,
                                     a: seq<byte>, b: seq<byte>, x: nat)
    requires filter <= 4 && 0 < bpp && |a| == |b| && x <= |a|
    requires RowUndone(filter, row, prev, bpp, a) && RowUndone(filter, row, prev, bpp, b)
    ensures a[..x] == b[..x]
  {
    if x > 0 {
      RowUnique(filter, row, prev, bpp, a, b, x - 1);
      var k := x - 1;
      assert Neighbour(a, k - bpp) == Neighbour(b, k - bpp) by {
        if k >= bpp { assert a[..k][k - bpp] == b[..k][k - bpp]; }
      }
      assert a[k] == b[k];
      assert a[..x] == a[..k] + [a[k]] && b[..x] == b[..k] + [b[k]];
    }
  }

  /** A stream has at most one reading. */
  lemma {:induction false} UndoneUnique(raw: seq<byte>, stride: nat, bpp: nat,
                                        a: seq<seq<byte>>, b: seq<seq<byte>>, y: nat)
    requires 0 < bpp && |a| == |b| && y <= |a|
    requires Undone(raw, stride, bpp, a) && Undone(raw, stride, bpp, b)
    ensures a[..y] == b[..y]
  {
    if y > 0 {
      var k := y - 1;
      UndoneUnique(raw, stride, bpp, a, b, k);
      assert LineUndone(raw, stride, bpp, a, k) && LineUndone(raw, stride, bpp, b, k);
      assert Above(a, k) == Above(b, k) by {
        if k > 0 { assert a[..k][k - 1] == b[..k][k - 1]; }
      }
      if stride > 0 {
        RowUnique(FilterAt(raw, stride, k).value, Sub(raw, Times(k, 1 + stride) + 1, stride),
                  Above(a, k), bpp, a[k], b[k], stride);
      }
      assert a[k] == a[k][..stride] && b[k] == b[k][..stride];
      assert a[..y] == a[..k] + [a[k]] && b[..y] == b[..k] + [b[k]];
    }
  }

  // -------------------------------------------------- the standard filterer

  /** One scanline as an encoder filters it, from the bytes of the image itself. */
  function FilteredRow(filter: byte, cur: seq<byte>, prev: seq<byte>, bpp: nat): seq<byte>
    requires filter <= 4
  {
    seq(|cur|, x requires 0 <= x < |cur| => (cur[x] - Predicted(filter, cur, prev, bpp, x)) % 256)
  }

  predicate Known(filters: seq<byte>) { forall i :: 0 <= i < |filters| ==> filters[i] <= 4 }

  predicate Uniform(image: seq<seq<byte>>, stride: nat) {
    forall y :: 0 <= y < |image| ==> |image[y]| == stride
  }

  /** The first `y` scanlines of an image, each behind its filter type. */
  function Scanlines(image: seq<seq<byte>>, filters: seq<byte>, bpp: nat, y: nat): seq<byte>
    requires |filters| == |image| && Known(filters) && y <= |image|
  {
    if y == 0 then [] else
      Scanlines(image, filters, bpp, y - 1) + [filters[y - 1]]
      + FilteredRow(filters[y - 1], image[y - 1], Above(image, y - 1), bpp)
  }

  lemma {:induction false} ScanlinesGrow(image: seq<seq<byte>>, filters: seq<byte>, bpp: nat,
                                         stride: nat, y: nat, n: nat)
    requires |filters| == |image| && Known(filters) && Uniform(image, stride) && y <= n <= |image|
    ensures |Scanlines(image, filters, bpp, y)| == Times(y, 1 + stride)
    ensures Scanlines(image, filters, bpp, y) <= Scanlines(image, filters, bpp, n)
    decreases n + y
  {
    if y > 0 { ScanlinesGrow(image, filters, bpp, stride, y - 1, y - 1); }
    if y < n { ScanlinesGrow(image, filters, bpp, stride, y, n - 1); }
  }

  lemma LineAt(image: seq<seq<byte>>, filters: seq<byte>, bpp: nat, stride: nat, y: nat)
    requires |filters| == |image| && Known(filters) && Uniform(image, stride) && y < |image|
    ensures var raw := Scanlines(image, filters, bpp, |image|);
            FilterAt(raw, stride, y) == Some(filters[y])
            && Sub(raw, Times(y, 1 + stride) + 1, stride)
               == FilteredRow(filters[y], image[y], Above(image, y), bpp)
  {
    ScanlinesGrow(image, filters, bpp, stride, y + 1, |image|);
    ScanlinesGrow(image, filters, bpp, stride, y, y);
    var line := FilteredRow(filters[y], image[y], Above(image, y), bpp);
    var before, raw := Scanlines(image, filters, bpp, y), Scanlines(image, filters, bpp, |image|);
    assert Scanlines(image, filters, bpp, y + 1) == before + [filters[y]] + line;
    hide Scanlines, FilteredRow, Times;
    Middle(raw, before, filters[y], line);
  }

  lemma Middle(raw: seq<byte>, before: seq<byte>, f: byte, line: seq<byte>)
    requires before + [f] + line <= raw
    ensures |before| < |raw| && raw[|before|] == f && Sub(raw, |before| + 1, |line|) == line
  {
    var head := before + [f] + line;
    assert raw[..|head|] == head;
    assert head[|before|] == f && head[|before| + 1..] == line;
  }

  /** A byte of the image; zero left of it and above it. */
  function ByteOf(image: seq<seq<byte>>, y: int, x: int): byte {
    if 0 <= y < |image| && 0 <= x < |image[y]| then image[y][x] else 0
  }

  /** Every byte of the stream is what section 9 says: the filter type, then byte less prediction, modulo 256. */
  lemma EncoderIsStandard(image: seq<seq<byte>>, filters: seq<byte>, bpp: nat, stride: nat, y: nat, x: nat, p: byte)
    requires |filters| == |image| && Known(filters) && Uniform(image, stride) && y < |image| && x < stride
    requires Standard(filters[y], ByteOf(image, y, x - bpp), ByteOf(image, y - 1, x), ByteOf(image, y - 1, x - bpp), p)
    ensures var (raw, at) := (Scanlines(image, filters, bpp, |image|), Times(y, 1 + stride));
      at + 1 + x < |raw| && raw[at] == filters[y] && raw[at + 1 + x] == (image[y][x] as int - p as int) % 256
  {
    hide Scanlines, Times, Standard, ByteOf, Predicted;
    var raw, at := Scanlines(image, filters, bpp, |image|), Times(y, 1 + stride);
    LineAt(image, filters, bpp, stride, y);
    PredictedIsStandard(image, filters[y], bpp, stride, y, x, p);
    var line := FilteredRow(filters[y], image[y], Above(image, y), bpp);
    assert |line| == stride && line[x] == Sub(raw, at + 1, stride)[x];
  }

  lemma PredictedIsStandard(image: seq<seq<byte>>, filter: byte, bpp: nat, stride: nat, y: nat, x: nat, p: byte)
    requires filter <= 4 && Uniform(image, stride) && y < |image| && x < stride
    requires Standard(filter, ByteOf(image, y, x - bpp), ByteOf(image, y - 1, x), ByteOf(image, y - 1, x - bpp), p)
    ensures Predicted(filter, image[y], Above(image, y), bpp, x) == p
  {
    hide Standard, Predictor;
    var a, up, ul := ByteOf(image, y, x - bpp), ByteOf(image, y - 1, x), ByteOf(image, y - 1, x - bpp);
    PredictorIsStandard(filter, a, up, ul, p);
    assert Neighbour(image[y], x - bpp) == a;
    assert Neighbour(Above(image, y), x) == up && Neighbour(Above(image, y), x - bpp) == ul;
  }

  /** Filtering an image, whatever type each row chooses, gives a stream whose reading is that image. */
  lemma FilterRoundTrip(image: seq<seq<byte>>, filters: seq<byte>, stride: nat, bpp: nat)
    requires |filters| == |image| && Known(filters) && Uniform(image, stride)
    ensures Undone(Scanlines(image, filters, bpp, |image|), stride, bpp, image)
  {
    hide Scanlines, FilteredRow, RowUndone, Sub, Times;
    var raw := Scanlines(image, filters, bpp, |image|);
    forall y | 0 <= y < |image|
      ensures LineUndone(raw, stride, bpp, image, y)
    {
      LineAt(image, filters, bpp, stride, y);
      RowFiltered(filters[y], image[y], Above(image, y), bpp);
    }
  }

  lemma RowFiltered(filter: byte, cur: seq<byte>, prev: seq<byte>, bpp: nat)
    requires filter <= 4
    ensures RowUndone(filter, FilteredRow(filter, cur, prev, bpp), prev, bpp, cur)
  {
    forall x | 0 <= x < |cur|
      ensures cur[x] == Recovered(filter, FilteredRow(filter, cur, prev, bpp), cur, prev, bpp, x)
    {
      var guess: int, v: int := Predicted(filter, cur, prev, bpp, x), cur[x];
      assert ((v - guess) % 256 + guess) % 256 == v;
    }
  }

  // ---------------------------------------------------------- the two loops

  /** `row` sits in the buffer at offset `base`. */
  ghost predicate IsRow(planar: array<byte>, base: nat, row: seq<byte>, len: nat)
    requires base + len <= planar.Length
    reads planar
  {
    |row| == len && forall x :: 0 <= x < len ==> planar[base + x] == row[x]
  }

  /** The inner loop: one row of `planar` rebuilt in place, the rows above it left alone. */
  method UnfilterRow(planar: array<byte>, base: nat, stride: nat, bpp: nat, first: bool,
                     filter: byte, row: seq<byte>, ghost prev: seq<byte>)
    returns (ghost cur: seq<byte>)
    requires filter <= 4 && 0 < bpp && base + stride <= planar.Length
    requires if first then prev == [] else stride <= base && IsRow(planar, base - stride, prev, stride)
    modifies planar
    ensures forall i :: 0 <= i < base ==> planar[i] == old(planar[i])
    ensures IsRow(planar, base, cur, stride) && RowUndone(filter, row, prev, bpp, cur)
  {
    var x := 0;
    cur := [];
    while x < stride
      invariant 0 <= x <= stride
      invariant forall i :: 0 <= i < base ==> planar[i] == old(planar[i])
      invariant IsRow(planar, base, cur, x) && RowUndone(filter, row, prev, bpp, cur)
    {
      var a := if x >= bpp then planar[base + (x - bpp)] else 0;
      var up := if first then 0 else planar[base - stride + x];
      var ul := if first || x < bpp then 0 else planar[base - stride + (x - bpp)];
      assert Neighbour(cur, x - bpp) == a;
      assert Neighbour(prev, x) == up && Neighbour(prev, x - bpp) == ul;
      var v := if x < |row| then (row[x] + Predictor(filter, a, up, ul)) % 256 else 0;
      planar[base + x] := v;
      RowGrows(filter, row, prev, bpp, cur, v);
      cur := cur + [v];
      x := x + 1;
    }
  }

  lemma RowGrows(filter: byte, row: seq<byte>, prev: seq<byte>, bpp: nat, cur: seq<byte>, v: byte)
    requires filter <= 4 && 0 < bpp && RowUndone(filter, row, prev, bpp, cur)
    requires v == Recovered(filter, row, cur, prev, bpp, |cur|)
    ensures RowUndone(filter, row, prev, bpp, cur + [v])
  {
    forall x | 0 <= x < |cur + [v]|
      ensures (cur + [v])[x] == Recovered(filter, row, cur + [v], prev, bpp, x)
    {
      assert Neighbour(cur, x - bpp) == Neighbour(cur + [v], x - bpp);
    }
  }

  lemma LastRow(image: seq<seq<byte>>, row: seq<byte>)
    ensures Concat(image + [row]) == Concat(image) + row
  {
    ConcatAppend(image, [row]);
    assert Concat([row]) == row + Concat([]);
  }

  lemma UndoneGrows(raw: seq<byte>, stride: nat, bpp: nat, image: seq<seq<byte>>, row: seq<byte>)
    requires Undone(raw, stride, bpp, image)
    requires LineUndone(raw, stride, bpp, image + [row], |image|)
    ensures Undone(raw, stride, bpp, image + [row])
  {
    forall y | 0 <= y < |image| ensures LineUndone(raw, stride, bpp, image + [row], y) {
      assert LineUndone(raw, stride, bpp, image, y);
      assert Above(image + [row], y) == Above(image, y);
    }
  }

  lemma KnownSoFar(raw: seq<byte>, stride: nat, bpp: nat, image: seq<seq<byte>>)
    requires Undone(raw, stride, bpp, image) && !KnownFilter(raw, stride, |image|)
    ensures FirstUnknown(raw, stride, |image|)
  {
    forall k | 0 <= k < |image| ensures KnownFilter(raw, stride, k) {
      assert LineUndone(raw, stride, bpp, image, k);
    }
  }

  lemma UndoneNothing(raw: seq<byte>, stride: nat, bpp: nat)
    ensures Undone(raw, stride, bpp, []) && Concat<byte>([]) == []
  {}

  /** One pass of the outer loop: row `y` undone in place below the rows before it. */
  method UnfilterLine(raw: seq<byte>, stride: nat, bpp: nat, planar: array<byte>, y: nat, p: nat, base: nat,
                      ghost image: seq<seq<byte>>, ghost flat: seq<byte>)
    returns (err: Option<PngError>, ghost cur: seq<byte>)
    requires 0 < bpp && y == |image| && p == Times(y, 1 + stride) && base + stride <= planar.Length
    requires IsRow(planar, 0, flat, base)
    requires y > 0 ==> stride <= base && IsRow(planar, base - stride, image[y - 1], stride)
    modifies planar
    ensures err == None ==> LineUndone(raw, stride, bpp, image + [cur], y)
    ensures err == None ==> IsRow(planar, base, cur, stride) && IsRow(planar, 0, flat + cur, base + stride)
    ensures err.Some? ==> !KnownFilter(raw, stride, y) && err.value == UnknownFilter(FilterAt(raw, stride, y), y)
  {
    err, cur := None, [];
    if stride > 0 {
      if p >= |raw| || raw[p] > 4 {
        return Some(UnknownFilter(if p < |raw| then Some(raw[p]) else None, y)), [];
      }
      cur := UnfilterRow(planar, base, stride, bpp, y == 0, raw[p], Sub(raw, p + 1, stride), Above(image, y));
      assert Above(image + [cur], y) == Above(image, y);
    }
  }

  /**
  The unfilter loops of `decodePng`, over one buffer and a running offset. The buffer ends as
  the rows of the one reading of `raw`; the only failure is the first filter type above 4.
  */
  method Unfilter(raw: seq<byte>, stride: nat, bpp: nat, height: nat)
    returns (r: Result<seq<byte>, PngError>, ghost image: seq<seq<byte>>)
    requires 0 < bpp
    ensures r.Ok? ==> |image| == height && Undone(raw, stride, bpp, image) && r.value == Concat(image)
    ensures r.Err? ==> exists y :: 0 <= y < height && FirstUnknown(raw, stride, y)
                                && r.error == UnknownFilter(FilterAt(raw, stride, y), y)
  {
    hide Undone, KnownFilter, FilterAt, LineUndone;
    TimesIs(height, stride);
    UndoneNothing(raw, stride, bpp);
    var planar := new byte[height * stride](_ => 0);
    var p: nat, y: nat, base: nat := 0, 0, 0;
    image := [];
    ghost var flat: seq<byte> := [];
    while y < height
      invariant y == |image| <= height && base == Times(y, stride) <= planar.Length == Times(height, stride)
      invariant p == Times(y, 1 + stride)
      invariant y > 0 ==> stride <= base && IsRow(planar, base - stride, image[y - 1], stride)
      invariant flat == Concat(image) && IsRow(planar, 0, flat, base)
      invariant Undone(raw, stride, bpp, image)
    {
      TimesGrows(y + 1, height, stride);
      var err;
      ghost var cur;
      err, cur := UnfilterLine(raw, stride, bpp, planar, y, p, base, image, flat);
      if err.Some? {
        KnownSoFar(raw, stride, bpp, image);
        return Err(err.value), image;
      }
      UndoneGrows(raw, stride, bpp, image, cur);
      LastRow(image, cur);
      image, flat := image + [cur], flat + cur;
      p := p + 1 + stride;
      y, base := y + 1, base + stride;
    }
    assert flat == planar[..];
    r := Ok(planar[..]);
  }

  /** Row `y` is the first whose filter type is missing or above 4. */
  predicate FirstUnknown(raw: seq<byte>, stride: nat, y: nat) {
    !KnownFilter(raw, stride, y) && forall k :: 0 <= k < y ==> KnownFilter(raw, stride, k)
  }

  // ------------------------------------------------------------- RGB to RGBA

  /** Byte `j` of the widened buffer: the three colours of a pixel, then alpha 255. */
  function WideByte(planar: seq<byte>, j: nat): byte
    requires j < |planar| / 3 * 4
  {
    if j % 4 == 3 then 255 else planar[3 * (j / 4) + j % 4]
  }

  predicate Widened(planar: seq<byte>, rgba: seq<byte>) {
    |rgba| == |planar| / 3 * 4 && forall j :: 0 <= j < |rgba| ==> rgba[j] == WideByte(planar, j)
  }

  method Widen(planar: seq<byte>) returns (rgba: seq<byte>)
    requires |planar| % 3 == 0
    ensures Widened(planar, rgba)
  {
    var out := new byte[|planar| / 3 * 4](_ => 0);
    var i, o := 0, 0;
    while i < |planar|
      invariant 0 <= i <= |planar| && i % 3 == 0 && o == i / 3 * 4
      invariant forall j :: 0 <= j < o ==> out[j] == WideByte(planar, j)
    {
      out[o] := planar[i];
      out[o + 1] := planar[i + 1];
      out[o + 2] := planar[i + 2];
      out[o + 3] := 255;
      i, o := i + 3, o + 4;
    }
    return out[..];
  }

  // -------------------------------------------------------------- the chunks

  const SIGNATURE: seq<byte> := [137, 80, 78, 71, 13, 10, 26, 10]
  const IHDR: seq<byte> := [73, 72, 68, 82]
  const IDAT: seq<byte> := [73, 68, 65, 84]
  const IEND: seq<byte> := [73, 69, 78, 68]

  /** `readUInt32BE(off)`, which throws past the end. */
  function U32At(b: seq<byte>, off: nat): Result<nat, PngError> {
    if off + 4 > |b| then Err(OutOfRange)
    else
      var b0: int, b1: int, b2: int, b3: int := b[off], b[off + 1], b[off + 2], b[off + 3];
      Ok(16777216 * b0 + 65536 * b1 + 256 * b2 + b3)
  }

  function At(b: seq<byte>, off: nat): Option<byte> { if off < |b| then Some(b[off]) else None }

  /** `toString('ascii', off, off + 4)`: seven bits of each byte, and fewer characters at the end. */
  function Ascii(s: seq<byte>): (r: seq<byte>)
    ensures |r| == |s|
  {
    seq(|s|, i requires 0 <= i < |s| => s[i] % 128)
  }

  /** Two bytes that differ in the high bit at most. */
  predicate SameLetter(a: int, b: int) { a == b || a == b + 128 || b == a + 128 }

  /** The high bit of a type's letters does not count: with it or without, the type is the same. */
  lemma HighBitDropped(s: seq<byte>, t: seq<byte>)
    requires |s| == |t|
    ensures Ascii(s) == Ascii(t) <==> forall i :: 0 <= i < |s| ==> SameLetter(s[i], t[i])
  {
    if Ascii(s) == Ascii(t) {
      forall i | 0 <= i < |s| ensures SameLetter(s[i], t[i]) { assert Ascii(s)[i] == Ascii(t)[i]; }
    }
  }

  /** `acc` and the IDAT payloads met walking from `off`, up to the IEND chunk or the end. */
  function Idats(b: seq<byte>, off: nat, acc: seq<seq<byte>>): Result<seq<seq<byte>>, PngError>
    decreases |b| - off
  {
    if off >= |b| then Ok(acc) else
      match U32At(b, off)
      case Err(e) => Err(e)
      case Ok(len) =>
        var kind := Ascii(Sub(b, off + 4, 4));
        if kind == IEND then Ok(acc)
        else Idats(b, off + 12 + len, if kind == IDAT then acc + [Sub(b, off + 8, len)] else acc)
  }

  /** The chunk walk of `decodePng`. */
  method CollectIdats(b: seq<byte>) returns (r: Result<seq<seq<byte>>, PngError>)
    ensures r == Idats(b, 8, [])
  {
    hide Ascii, U32At, Sub;
    var idat: seq<seq<byte>> := [];
    var off: nat := 8;
    while off < |b|
      invariant Idats(b, 8, []) == Idats(b, off, idat)
      decreases |b| - off
    {
      var len := U32At(b, off);
      if len.Err? { return Err(len.error); }
      var kind := Ascii(Sub(b, off + 4, 4));
      if kind == IDAT { idat := idat + [Sub(b, off + 8, len.value)]; }
      if kind == IEND { break; }
      off := off + 12 + len.value;
    }
    r := Ok(idat);
  }

  // ------------------------------------------------------------- the decoder

  datatype Header = Header(width: nat, height: nat, channels: nat)

  function Stride(h: Header): nat { h.width * h.channels }

  function Area(h: Header): nat { h.width * h.height }

  function HeaderOf(b: seq<byte>): (r: Result<Header, PngError>)
    ensures r.Ok? ==> r.value.channels == 3 || r.value.channels == 4
  {
    if Sub(b, 0, 8) != SIGNATURE then Err(NotPng) else
      match (U32At(b, 16), U32At(b, 20))
      case (Err(e), _) => Err(e)
      case (_, Err(e)) => Err(e)
      case (Ok(width), Ok(height)) =>
        var depth, color, interlace := At(b, 24), At(b, 25), At(b, 28);
        if depth != Some(8) || (color != Some(6) && color != Some(2)) || interlace != Some(0)
        then Err(Unsupported(depth, color, interlace))
        else Ok(Header(width, height, if color == Some(6) then 4 else 3))
  }

  /** Exactly which headers are taken: eight-bit RGB or RGBA, not interlaced, behind the signature. */
  lemma HeaderTaken(b: seq<byte>)
    ensures HeaderOf(b).Ok? <==>
      && |b| >= 29 && b[..8] == [137, 80, 78, 71, 13, 10, 26, 10]
      && b[24] == 8 && (b[25] == 2 || b[25] == 6) && b[28] == 0
    ensures HeaderOf(b).Ok? ==> (HeaderOf(b).value.channels == 4 <==> b[25] == 6)
    ensures HeaderOf(b) == Err(NotPng) <==> !(|b| >= 8 && b[..8] == [137, 80, 78, 71, 13, 10, 26, 10])
  {
    assert |b| >= 8 ==> Sub(b, 0, 8) == b[..8];
  }

  type Inflate = seq<byte> -> Result<seq<byte>, PngError>

  /** What `decodePng` answers once the stream is inflated to `raw` and read as `image`. */
  ghost predicate Reads(h: Header, raw: seq<byte>, image: seq<seq<byte>>, r: Result<DecodedPng, PngError>)
    requires 0 < h.channels
  {
    var stride := Stride(h);
    match r
    case Err(e) =>
      exists y :: 0 <= y < h.height && FirstUnknown(raw, stride, y)
               && e == UnknownFilter(FilterAt(raw, stride, y), y)
    case Ok(png) =>
      && png.width == h.width && png.height == h.height
      && |image| == h.height && Undone(raw, stride, h.channels, image)
      && var flat := Concat(image);
         if h.channels == 4 then png.rgba == flat else Widened(flat, png.rgba)
  }

  ghost predicate Decodes(b: seq<byte>, inflate: Inflate, image: seq<seq<byte>>, r: Result<DecodedPng, PngError>) {
    match (HeaderOf(b), Idats(b, 8, []))
    case (Err(e), _) => r == Err(e)
    case (_, Err(e)) => r == Err(e)
    case (Ok(h), Ok(pieces)) =>
      if pieces == [] then r == Err(NoIdat) else
        match inflate(Concat(pieces))
        case Err(e) => r == Err(e)
        case Ok(raw) => Reads(h, raw, image, r)
  }

  lemma {:induction false} RowsLength(image: seq<seq<byte>>, stride: nat)
    requires Uniform(image, stride)
    ensures |Concat(image)| == Times(|image|, stride)
  {
    if image != [] { RowsLength(image[1..], stride); }
  }

  method DecodePng(b: seq<byte>, inflate: Inflate)
    returns (r: Result<DecodedPng, PngError>, ghost image: seq<seq<byte>>)
    ensures Decodes(b, inflate, image, r)
  {
    hide HeaderOf, Idats, Undone, FirstUnknown, Concat, Widened;
    image := [];
    var header := HeaderOf(b);
    if header.Err? { return Err(header.error), image; }
    var h := header.value;
    var idat := CollectIdats(b);
    if idat.Err? { return Err(idat.error), image; }
    if idat.value == [] { return Err(NoIdat), image; }
    var raw := inflate(Concat(idat.value));
    if raw.Err? { return Err(raw.error), image; }
    var stride := Stride(h);
    var planar;
    planar, image := Unfilter(raw.value, stride, h.channels, h.height);
    if planar.Err? { return Err(planar.error), image; }
    if h.channels == 4 { return Ok(DecodedPng(h.width, h.height, planar.value)), image; }
    PlanarLength(raw.value, h, image);
    var rgba := Widen(planar.value);
    r := Ok(DecodedPng(h.width, h.height, rgba));
  }

  lemma PlanarLength(raw: seq<byte>, h: Header, image: seq<seq<byte>>)
    requires |image| == h.height && Undone(raw, Stride(h), h.channels, image)
    ensures |Concat(image)| == h.channels * (Area(h))
  {
    var stride := Stride(h);
    forall y | 0 <= y < |image| ensures |image[y]| == stride {
      assert LineUndone(raw, stride, h.channels, image, y);
    }
    RowsLength(image, stride);
    TimesIs(h.height, stride);
    assert h.height * (Stride(h)) == h.channels * (Area(h));
  }

  // ------------------------------------------------------------- the encoder

  datatype Chunk = Chunk(kind: seq<byte>, data: seq<byte>, crc: seq<byte>)

  predicate WellFormed(c: Chunk) { |c.kind| == 4 && |c.crc| == 4 && |c.data| < 0x1_0000_0000 }

  function U32(n: nat): seq<byte>
    requires n < 0x1_0000_0000
  {
    [n / 16777216, n / 65536 % 256, n / 256 % 256, n % 256]
  }

  function Bytes(c: Chunk): seq<byte>
    requires WellFormed(c)
  {
    U32(|c.data|) + c.kind + c.data + c.crc
  }

  predicate AllWellFormed(chunks: seq<Chunk>) { forall i :: 0 <= i < |chunks| ==> WellFormed(chunks[i]) }

  function AllBytes(chunks: seq<Chunk>): seq<byte>
    requires AllWellFormed(chunks)
  {
    if chunks == [] then [] else Bytes(chunks[0]) + AllBytes(chunks[1..])
  }

  predicate NoEnd(chunks: seq<Chunk>) {
    forall i :: 0 <= i < |chunks| ==> Ascii(chunks[i].kind) != IEND
  }

  function Payload(c: Chunk): seq<seq<byte>> { if Ascii(c.kind) == IDAT then [c.data] else [] }

  /** `acc`, then the IDAT payloads in order. */
  function Payloads(chunks: seq<Chunk>, acc: seq<seq<byte>>): seq<seq<byte>>
    decreases |chunks|
  {
    if chunks == [] then acc else Payloads(chunks[1..], acc + Payload(chunks[0]))
  }

  /** The file: the signature, the header chunk, any chunks, the end chunk, and anything after it. */
  function File(header: Chunk, chunks: seq<Chunk>, end: Chunk, tail: seq<byte>): seq<byte>
    requires WellFormed(header) && AllWellFormed(chunks) && WellFormed(end)
  {
    SIGNATURE + Bytes(header) + (AllBytes(chunks) + (Bytes(end) + tail))
  }

  function HeaderChunk(h: Header, compression: byte, filter: byte, crc: seq<byte>): Chunk
    requires h.width < 0x1_0000_0000 && h.height < 0x1_0000_0000
  {
    Chunk(IHDR, U32(h.width) + U32(h.height) + [8, if h.channels == 4 then 6 else 2, compression, filter, 0], crc)
  }

  lemma U32Digits(n: nat)
    ensures 16777216 * (n / 16777216) + 65536 * (n / 65536 % 256) + 256 * (n / 256 % 256) + n % 256 == n
  {
    assert n / 65536 == n / 256 / 256 && n / 16777216 == n / 65536 / 256;
  }

  lemma U32RoundTrip(b: seq<byte>, off: nat, n: nat)
    requires n < 0x1_0000_0000 && off + 4 <= |b| && b[off..off + 4] == U32(n)
    ensures U32At(b, off) == Ok(n)
  {
    assert b[off] == U32(n)[0] && b[off + 1] == U32(n)[1] && b[off + 2] == U32(n)[2] && b[off + 3] == U32(n)[3];
    U32Digits(n);
  }

  lemma ChunkAt(b: seq<byte>, off: nat, c: Chunk, rest: seq<byte>)
    requires WellFormed(c) && off <= |b| && b[off..] == Bytes(c) + rest
    ensures off < |b| && U32At(b, off) == Ok(|c.data|)
    ensures Sub(b, off + 4, 4) == c.kind && Sub(b, off + 8, |c.data|) == c.data
    ensures off + 12 + |c.data| <= |b| && b[off + 12 + |c.data|..] == rest
  {
    var s := b[off..];
    assert s[..4] == U32(|c.data|);
    U32RoundTrip(b, off, |c.data|);
    assert s[4..8] == c.kind;
    assert s[8..8 + |c.data|] == c.data;
    assert s[12 + |c.data|..] == rest;
  }

  lemma WalkStep(b: seq<byte>, off: nat, c: Chunk, rest: seq<byte>, acc: seq<seq<byte>>)
    requires WellFormed(c) && off <= |b| && b[off..] == Bytes(c) + rest
    ensures var next := off + 12 + |c.data|;
            next <= |b| && b[next..] == rest
            && Idats(b, off, acc) == if Ascii(c.kind) == IEND then Ok(acc)
                                     else Idats(b, next, acc + Payload(c))
  {
    ChunkAt(b, off, c, rest);
    assert acc + [] == acc;
  }

  /** The chunk walk finds exactly the IDAT payloads before the end chunk, in order. */
  lemma {:induction false} WalkRoundTrip(b: seq<byte>, off: nat, chunks: seq<Chunk>, end: Chunk, tail: seq<byte>,
                                         acc: seq<seq<byte>>)
    requires AllWellFormed(chunks) && NoEnd(chunks) && WellFormed(end) && Ascii(end.kind) == IEND
    requires off <= |b| && b[off..] == AllBytes(chunks) + (Bytes(end) + tail)
    ensures Idats(b, off, acc) == Ok(Payloads(chunks, acc))
    decreases |chunks|
  {
    hide Idats, Ascii, Bytes, Payload;
    if chunks == [] {
      assert b[off..] == Bytes(end) + tail;
      WalkStep(b, off, end, tail, acc);
    } else {
      var c, more := chunks[0], chunks[1..];
      var rest := AllBytes(more) + (Bytes(end) + tail);
      assert AllBytes(chunks) + (Bytes(end) + tail) == Bytes(c) + rest;
      WalkStep(b, off, c, rest, acc);
      WalkRoundTrip(b, off + 12 + |c.data|, more, end, tail, acc + Payload(c));
    }
  }

  lemma HeaderRoundTrip(h: Header, header: Chunk, rest: seq<byte>, compression: byte, filter: byte)
    requires h.width < 0x1_0000_0000 && h.height < 0x1_0000_0000 && (h.channels == 3 || h.channels == 4)
    requires |header.crc| == 4 && header == HeaderChunk(h, compression, filter, header.crc)
    ensures HeaderOf(SIGNATURE + Bytes(header) + rest) == Ok(h)
    ensures (SIGNATURE + Bytes(header) + rest)[33..] == rest
  {
    var b := SIGNATURE + Bytes(header) + rest;
    assert b[..8] == SIGNATURE;
    var d := b[16..29];
    assert d == header.data;
    assert d[..4] == U32(h.width) && d[4..8] == U32(h.height);
    assert b[16..20] == d[..4] && b[20..24] == d[4..8];
    U32RoundTrip(b, 16, h.width);
    U32RoundTrip(b, 20, h.height);
    assert b[24] == d[8] && b[25] == d[9] && b[28] == d[12];
  }

  // ------------------------------------------------------------- end to end

  /** `pixelAt`: the four bytes of one pixel. */
  function PixelAt(png: DecodedPng, x: nat, y: nat): seq<byte> {
    Sub(png.rgba, PixelIndex(png.width, x, y) * 4, 4)
  }

  function PixelIndex(width: nat, x: nat, y: nat): nat { y * width + x }

  /** The pixel the encoder held, with alpha 255 where it held none. */
  function SourcePixel(image: seq<seq<byte>>, channels: nat, x: nat, y: nat): seq<byte>
    requires y < |image| && channels * (x + 1) <= |image[y]|
  {
    image[y][channels * x..channels * (x + 1)] + if channels == 4 then [] else [255]
  }

  lemma {:induction false} ConcatAt(image: seq<seq<byte>>, stride: nat, y: nat, k: nat)
    requires Uniform(image, stride) && y < |image| && k < stride
    ensures Times(y, stride) + k < |Concat(image)| && Concat(image)[Times(y, stride) + k] == image[y][k]
  {
    if y > 0 {
      ConcatAt(image[1..], stride, y - 1, k);
    }
  }

  lemma Product(w: nat, c: nat, x: nat, y: nat)
    requires x < w
    ensures y * (w * c) + c * x == c * (y * w + x)
    ensures c * x + c == c * (x + 1) <= w * c
  {
    assert y * (w * c) == c * (y * w);
    var beyond := w - x - 1;
    assert w * c == (x + 1) * c + beyond * c;
  }

  lemma FlatIndex(h: Header, x: nat, y: nat, j: nat)
    requires x < h.width && j < h.channels
    ensures Times(y, Stride(h)) + (h.channels * x + j) == h.channels * PixelIndex(h.width, x, y) + j
    ensures h.channels * x + j < h.channels * (x + 1) <= Stride(h)
  {
    TimesIs(y, Stride(h));
    Product(h.width, h.channels, x, y);
  }

  lemma FlatByte(h: Header, image: seq<seq<byte>>, x: nat, y: nat, j: nat)
    requires |image| == h.height && Uniform(image, Stride(h))
    requires x < h.width && y < h.height && j < h.channels
    ensures h.channels * (x + 1) <= |image[y]| && h.channels * x + j < |image[y]|
    ensures h.channels * PixelIndex(h.width, x, y) + j < |Concat(image)|
    ensures Concat(image)[h.channels * PixelIndex(h.width, x, y) + j] == image[y][h.channels * x + j]
  {
    hide Concat, Times, PixelIndex;
    FlatIndex(h, x, y, j);
    ConcatAt(image, Stride(h), y, h.channels * x + j);
  }

  lemma RgbPixel(flat: seq<byte>, rgba: seq<byte>, n: nat)
    requires 3 * n + 3 <= |flat| && |flat| % 3 == 0 && Widened(flat, rgba)
    ensures Sub(rgba, n * 4, 4) == flat[3 * n..3 * n + 3] + [255]
  {
    forall j | 0 <= j < 4 ensures Sub(rgba, n * 4, 4)[j] == (flat[3 * n..3 * n + 3] + [255])[j] {
      assert Sub(rgba, n * 4, 4)[j] == rgba[4 * n + j] == WideByte(flat, 4 * n + j);
    }
  }

  lemma FlatPixel(h: Header, image: seq<seq<byte>>, x: nat, y: nat, n: nat, at: nat)
    requires |image| == h.height && Uniform(image, Stride(h)) && 0 < h.channels
    requires x < h.width && y < h.height && n == h.channels * PixelIndex(h.width, x, y) && at == h.channels * x
    ensures at + h.channels == h.channels * (x + 1) <= |image[y]| && n + h.channels <= |Concat(image)|
    ensures Concat(image)[n..n + h.channels] == image[y][at..at + h.channels]
  {
    hide Concat, PixelIndex;
    FlatByte(h, image, x, y, h.channels - 1);
    var a, b := Concat(image)[n..n + h.channels], image[y][at..at + h.channels];
    forall j | 0 <= j < h.channels ensures a[j] == b[j] {
      FlatByte(h, image, x, y, j);
    }
  }

  lemma PixelRecovered(h: Header, image: seq<seq<byte>>, png: DecodedPng, x: nat, y: nat)
    requires |image| == h.height && Uniform(image, Stride(h)) && png.width == h.width
    requires h.channels == 3 || h.channels == 4
    requires if h.channels == 4 then png.rgba == Concat(image)
             else |Concat(image)| % 3 == 0 && Widened(Concat(image), png.rgba)
    requires x < h.width && y < h.height
    ensures h.channels * (x + 1) <= |image[y]|
    ensures PixelAt(png, x, y) == SourcePixel(image, h.channels, x, y)
  {
    var n, flat := PixelIndex(h.width, x, y), Concat(image);
    FlatPixel(h, image, x, y, h.channels * n, h.channels * x);
    PixelFrom(h.channels, flat, png.rgba, image[y], n, x);
  }

  lemma PixelFrom(channels: nat, flat: seq<byte>, rgba: seq<byte>, row: seq<byte>, n: nat, x: nat)
    requires channels == 3 || channels == 4
    requires if channels == 4 then rgba == flat else |flat| % 3 == 0 && Widened(flat, rgba)
    requires channels * (x + 1) <= |row| && channels * n + channels <= |flat|
    requires flat[channels * n..channels * n + channels] == row[channels * x..channels * (x + 1)]
    ensures Sub(rgba, n * 4, 4) == row[channels * x..channels * (x + 1)] + if channels == 4 then [] else [255]
  {
    if channels == 3 { RgbPixel(flat, rgba, n); }
  }

  /** Without an end chunk the walk takes all there is, and fails where fewer than four bytes are left over. */
  lemma {:induction false} WalkWithoutEnd(b: seq<byte>, off: nat, chunks: seq<Chunk>, left: seq<byte>,
                                          acc: seq<seq<byte>>)
    requires AllWellFormed(chunks) && NoEnd(chunks) && |left| < 4
    requires off <= |b| && b[off..] == AllBytes(chunks) + left
    ensures Idats(b, off, acc) == if left == [] then Ok(Payloads(chunks, acc)) else Err(OutOfRange)
    decreases |chunks|
  {
    hide Bytes, Idats, Ascii, U32At;
    if chunks == [] {
      assert b[off..] == left;
      WalkStops(b, off, acc);
    } else {
      var c, rest := chunks[0], chunks[1..];
      assert WellFormed(c) && Ascii(c.kind) != IEND;
      assert AllWellFormed(rest) && NoEnd(rest);
      assert b[off..] == Bytes(c) + (AllBytes(rest) + left);
      WalkStep(b, off, c, AllBytes(rest) + left, acc);
      WalkWithoutEnd(b, off + 12 + |c.data|, rest, left, acc + Payload(c));
    }
  }

  lemma WalkStops(b: seq<byte>, off: nat, acc: seq<seq<byte>>)
    requires off <= |b| < off + 4
    ensures Idats(b, off, acc) == if off == |b| then Ok(acc) else Err(OutOfRange)
  {}

  lemma HeaderIsNoData(c: Chunk)
    requires c.kind == IHDR
    ensures Ascii(c.kind) != IEND && [] + Payload(c) == []
  {
    assert Ascii(c.kind)[1] == 72;
  }

  lemma WalkFile(b: seq<byte>, header: Chunk, chunks: seq<Chunk>, end: Chunk, tail: seq<byte>)
    requires WellFormed(header) && header.kind == IHDR && |header.data| == 13
    requires AllWellFormed(chunks) && NoEnd(chunks) && WellFormed(end) && Ascii(end.kind) == IEND
    requires 8 <= |b| && b[8..] == Bytes(header) + (AllBytes(chunks) + (Bytes(end) + tail))
    ensures Idats(b, 8, []) == Ok(Payloads(chunks, []))
  {
    HeaderIsNoData(header);
    WalkStep(b, 8, header, AllBytes(chunks) + (Bytes(end) + tail), []);
    WalkRoundTrip(b, 33, chunks, end, tail, []);
  }

  lemma AfterSignature(a: seq<byte>, b: seq<byte>)
    ensures (SIGNATURE + a + b)[8..] == a + b
  {}

  lemma FileReads(h: Header, header: Chunk, compression: byte, filtering: byte, chunks: seq<Chunk>, end: Chunk,
                  tail: seq<byte>)
    requires h.width < 0x1_0000_0000 && h.height < 0x1_0000_0000 && (h.channels == 3 || h.channels == 4)
    requires |header.crc| == 4 && header == HeaderChunk(h, compression, filtering, header.crc)
    requires AllWellFormed(chunks) && NoEnd(chunks) && WellFormed(end) && Ascii(end.kind) == IEND
    ensures HeaderOf(File(header, chunks, end, tail)) == Ok(h)
    ensures Idats(File(header, chunks, end, tail), 8, []) == Ok(Payloads(chunks, []))
  {
    hide Idats, HeaderOf, Bytes, AllBytes;
    var rest := AllBytes(chunks) + (Bytes(end) + tail);
    HeaderRoundTrip(h, header, rest, compression, filtering);
    AfterSignature(Bytes(header), rest);
    WalkFile(SIGNATURE + Bytes(header) + rest, header, chunks, end, tail);
  }

  /** What a reading of `image` answers, pixel by pixel. */
  ghost predicate Shows(h: Header, image: seq<seq<byte>>, png: DecodedPng)
    requires |image| == h.height && Uniform(image, Stride(h))
  {
    png.width == h.width && png.height == h.height && |png.rgba| == 4 * Area(h)
    && forall x: nat, y: nat :: x < h.width && y < h.height ==>
         h.channels * (x + 1) <= |image[y]| && PixelAt(png, x, y) == SourcePixel(image, h.channels, x, y)
  }

  lemma ReadingShows(h: Header, raw: seq<byte>, image: seq<seq<byte>>, png: DecodedPng)
    requires (h.channels == 3 || h.channels == 4) && Uniform(image, Stride(h)) && Reads(h, raw, image, Ok(png))
    ensures Shows(h, image, png)
  {
    hide PixelAt, SourcePixel, Undone, Concat;
    PlanarLength(raw, h, image);
    forall x: nat, y: nat | x < h.width && y < h.height
      ensures h.channels * (x + 1) <= |image[y]| && PixelAt(png, x, y) == SourcePixel(image, h.channels, x, y)
    {
      PixelRecovered(h, image, png, x, y);
    }
  }

  /** What an encoder wrote: a header, chunks without an end chunk, and among them the filtered image. */
  ghost predicate Encodes(h: Header, header: Chunk, compression: byte, filtering: byte, chunks: seq<Chunk>, end: Chunk,
                          image: seq<seq<byte>>, filters: seq<byte>, inflate: Inflate)
  {
    && h.width < 0x1_0000_0000 && h.height < 0x1_0000_0000 && (h.channels == 3 || h.channels == 4)
    && |header.crc| == 4 && header == HeaderChunk(h, compression, filtering, header.crc)
    && AllWellFormed(chunks) && NoEnd(chunks) && WellFormed(end) && Ascii(end.kind) == IEND
    && |image| == h.height == |filters| && Uniform(image, Stride(h)) && Known(filters)
    && Payloads(chunks, []) != []
    && inflate(Concat(Payloads(chunks, []))) == Ok(Scanlines(image, filters, h.channels, h.height))
  }

  /** A stream cut into IDAT chunks of one byte each, after an empty one. */
  function Cut(stream: seq<byte>): seq<Chunk> {
    if stream == [] then [Chunk(IDAT, [], [0, 0, 0, 0])]
    else Cut(stream[..|stream| - 1]) + [Chunk(IDAT, [stream[|stream| - 1]], [0, 0, 0, 0])]
  }

  lemma {:induction false} PayloadsAppend(chunks: seq<Chunk>, c: Chunk, acc: seq<seq<byte>>)
    ensures Payloads(chunks + [c], acc) == Payloads(chunks, acc) + Payload(c)
    decreases |chunks|
  {
    if chunks == [] {
      assert [c][1..] == [];
    } else {
      assert (chunks + [c])[1..] == chunks[1..] + [c];
      PayloadsAppend(chunks[1..], c, acc + Payload(chunks[0]));
    }
  }

  lemma {:induction false} CutWellFormed(stream: seq<byte>)
    ensures AllWellFormed(Cut(stream)) && NoEnd(Cut(stream))
  {
    assert Ascii(IDAT) == IDAT && IDAT[1] != IEND[1];
    if stream != [] { CutWellFormed(stream[..|stream| - 1]); }
    hide Ascii;
  }

  lemma OneIdat(data: seq<byte>)
    ensures Payload(Chunk(IDAT, data, [0, 0, 0, 0])) == [data] && Concat([data]) == data
  {
    assert Ascii(IDAT) == IDAT;
    assert Concat([data]) == data + Concat([data][1..]);
  }

  lemma {:induction false} CutCarries(stream: seq<byte>)
    ensures Payloads(Cut(stream), []) != [] && Concat(Payloads(Cut(stream), [])) == stream
  {
    if stream == [] {
      var c := Chunk(IDAT, [], [0, 0, 0, 0]);
      OneIdat([]);
      hide Concat, Payload;
      PayloadsAppend([], c, []);
      assert [] + [c] == [c] && [] + [c.data] == [c.data];
    } else {
      var n := |stream| - 1;
      var last := Chunk(IDAT, [stream[n]], [0, 0, 0, 0]);
      CutCarries(stream[..n]);
      OneIdat(last.data);
      hide Concat, Payload, Payloads;
      PayloadsAppend(Cut(stream[..n]), last, []);
      ConcatAppend(Payloads(Cut(stream[..n]), []), [last.data]);
      assert stream == stream[..n] + last.data;
    }
  }

  /** Every image of a size the header can hold has such a file, here with a stream format that compresses nothing. */
  lemma EveryImageEncodes(h: Header, image: seq<seq<byte>>, filters: seq<byte>)
    returns (header: Chunk, chunks: seq<Chunk>, end: Chunk)
    requires h.width < 0x1_0000_0000 && h.height < 0x1_0000_0000 && (h.channels == 3 || h.channels == 4)
    requires |image| == h.height == |filters| && Uniform(image, Stride(h)) && Known(filters)
    ensures Encodes(h, header, 0, 0, chunks, end, image, filters, stream => Ok(stream))
  {
    var crc: seq<byte> := [0, 0, 0, 0];
    var scanlines := Scanlines(image, filters, h.channels, h.height);
    header, end := HeaderChunk(h, 0, 0, crc), Chunk(IEND, [], crc);
    chunks := Cut(scanlines);
    assert Ascii(IEND) == IEND;
    CutWellFormed(scanlines);
    CutCarries(scanlines);
  }

  /**
  Decoding what any encoder wrote gives the image back: every width, height and colour type this reader
  takes, every choice of filter types, any split of the stream into IDAT chunks, any other chunks between
  them, and anything after the end chunk.
  */
  lemma DecodeRoundTrip(h: Header, header: Chunk, compression: byte, filtering: byte, chunks: seq<Chunk>, end: Chunk,
                        tail: seq<byte>, image: seq<seq<byte>>, filters: seq<byte>, inflate: Inflate,
                        got: seq<seq<byte>>, r: Result<DecodedPng, PngError>)
    ensures Encodes(h, header, compression, filtering, chunks, end, image, filters, inflate)
            && Decodes(File(header, chunks, end, tail), inflate, got, r)
            ==> r.Ok? && Shows(h, image, r.value)
  {
    if Encodes(h, header, compression, filtering, chunks, end, image, filters, inflate)
       && Decodes(File(header, chunks, end, tail), inflate, got, r)
    {
      FileReads(h, header, compression, filtering, chunks, end, tail);
      var raw := Scanlines(image, filters, h.channels, h.height);
      FilterRoundTrip(image, filters, Stride(h), h.channels);
      ReadsOnly(h, raw, image, got, r);
      ReadingShows(h, raw, image, r.value);
    }
  }

  lemma UndoneKnown(raw: seq<byte>, stride: nat, bpp: nat, image: seq<seq<byte>>, y: nat)
    requires Undone(raw, stride, bpp, image) && y < |image|
    ensures KnownFilter(raw, stride, y)
  {
    assert LineUndone(raw, stride, bpp, image, y);
  }

  lemma ReadsOnly(h: Header, raw: seq<byte>, image: seq<seq<byte>>, got: seq<seq<byte>>,
                  r: Result<DecodedPng, PngError>)
    requires 0 < h.channels && |image| == h.height && Undone(raw, Stride(h), h.channels, image)
    requires Reads(h, raw, got, r)
    ensures r.Ok? && got == image
  {
    var stride := Stride(h);
    if r.Err? {
      var y :| 0 <= y < h.height && FirstUnknown(raw, stride, y);
      UndoneKnown(raw, stride, h.channels, image, y);
    } else {
      UndoneUnique(raw, stride, h.channels, image, got, h.height);
      assert image == image[..h.height] && got == got[..h.height];
    }
  }
}
