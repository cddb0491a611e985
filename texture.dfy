/** load_tex: repacks a decoded image into the bottom-up RGB byte buffer OpenGL expects, keeping only
    the largest power-of-two-sized top-left block. The same function appears in
    include/_v1/load_tex.h and src/bind.cpp. */
module TextureRepack {
  import opened Common
  import opened Dims

  /** A decoded image: its size, its number of channels, and the byte at (x, y, channel). */
  datatype Image = Image(width: int, height: int, spectrum: int, at: (int, int, int) -> byte)

  /** img(x, y, 0, c). Reading outside the image is undefined, so every read the model makes goes
      through this function and is checked against its precondition. */
  function Texel(img: Image, x: int, y: int, c: int): (b: byte)
    requires 0 <= x < img.width && 0 <= y < img.height && 0 <= c < img.spectrum
    ensures b == img.at(x, y, c)
  {
    img.at(x, y, c)
  }

  /** The LOC(x, y, W) macro: first byte of texel (x, y) in a 3-byte-per-texel buffer of row width W. */
  function Loc(x: int, y: int, w: int): int
  {
    (y * w + x) * 3
  }

  lemma MulLe(a: int, b: int, m: int)
    requires a <= b && m >= 0
    ensures a * m <= b * m
  {
    assert b * m - a * m == (b - a) * m;
  }

  lemma DivModUnique(q: int, m: int, y: int, x: int)
    requires m > 0 && 0 <= x < m && q == y * m + x
    ensures q / m == y && q % m == x
  {
    var d, r := q / m, q % m;
    assert d * m + r == y * m + x;
    if d > y {
      MulLe(y + 1, d, m);
    } else if d < y {
      MulLe(d + 1, y, m);
    }
  }

  /** Distinct texels of a row-width-W buffer own disjoint 3-byte slots. */
  lemma LocInjective(x1: int, y1: int, c1: int, x2: int, y2: int, c2: int, w: int)
    requires 0 <= x1 < w && 0 <= x2 < w && 0 <= c1 < 3 && 0 <= c2 < 3
    requires Loc(x1, y1, w) + c1 == Loc(x2, y2, w) + c2
    ensures x1 == x2 && y1 == y2 && c1 == c2
  {
    var k := Loc(x1, y1, w) + c1;
    DivModUnique(k, 3, y1 * w + x1, c1);
    DivModUnique(k, 3, y2 * w + x2, c2);
    DivModUnique(y1 * w + x1, w, y1, x1);
    DivModUnique(y2 * w + x2, w, y2, x2);
  }

  lemma LocNext(x: int, y: int, w: int)
    ensures Loc(x + 1, y, w) == Loc(x, y, w) + 3
  {
  }

  lemma LocNextRow(y: int, w: int)
    ensures Loc(w, y, w) == Loc(0, y + 1, w)
  {
    assert y * w + w == (y + 1) * w;
  }

  lemma LocEnd(h: int, w: int)
    ensures Loc(0, h, w) == 3 * (w * h)
  {
  }

  /** The slots of the texels x < W, y < H lie in [0, 3*W*H) ... */
  lemma LocInRange(x: int, y: int, c: int, w: int, h: int)
    requires 0 <= x < w && 0 <= y < h && 0 <= c < 3
    ensures 0 <= Loc(x, y, w) + c < 3 * (w * h)
  {
    assert y * w <= (h - 1) * w;
    assert (h - 1) * w + w == w * h;
  }

  /** ... and every position of [0, 3*W*H) is in one of them. */
  lemma LocCovers(k: int, w: int, h: int)
    requires 0 <= k < 3 * (w * h) && w > 0
    ensures 0 <= (k / 3) % w < w && 0 <= (k / 3) / w < h
    ensures Loc((k / 3) % w, (k / 3) / w, w) + k % 3 == k
  {
    var q := k / 3;
    assert q < w * h;
    assert q == (q / w) * w + q % w;
    if q / w >= h {
      MulLe(h, q / w, w);
    }
  }

  /** The byte load_tex stores at position k of its buffer for an M-by-N output: channel k % 3 of
      the texel that LOC puts there, taken from the source row counted from the bottom. */
  function Repacked(img: Image, m: int, n: int, k: int): byte
    requires 0 < m <= img.width && 0 <= n <= img.height && 3 <= img.spectrum
    requires 0 <= k < 3 * (m * n)
  {
    LocCovers(k, m, n);
    Texel(img, (k / 3) % m, n - 1 - (k / 3) / m, k % 3)
  }

  /** Output texel (x, y) holds source texel (x, N-1-y): the rows are flipped. */
  lemma RepackedAt(img: Image, m: int, n: int, x: int, y: int, c: int)
    requires 0 < m <= img.width && 0 <= n <= img.height && 3 <= img.spectrum
    requires 0 <= x < m && 0 <= y < n && 0 <= c < 3
    ensures 0 <= Loc(x, y, m) + c < 3 * (m * n)
    ensures Repacked(img, m, n, Loc(x, y, m) + c) == img.at(x, n - 1 - y, c)
  {
    LocInRange(x, y, c, m, n);
    var k := Loc(x, y, m) + c;
    DivModUnique(k, 3, y * m + x, c);
    DivModUnique(y * m + x, m, y, x);
  }

  /** An M-by-N output buffer for which position `pos` is the write frontier: everything before it
      holds its final byte, and `writes` lists exactly the positions 0, 1, ..., pos-1. */
  ghost predicate Filled(buf: seq<byte>, writes: seq<int>, img: Image, m: int, n: int, pos: int)
    requires 0 <= m <= img.width && 0 <= n <= img.height && 3 <= img.spectrum
  {
    0 <= pos <= 3 * (m * n) && pos <= |buf| && |writes| == pos
    && (forall k :: 0 <= k < pos ==> writes[k] == k)
    && (forall k :: 0 <= k < pos ==> buf[k] == Repacked(img, m, n, k))
  }

  /** Byte (x, y, c) of a buffer of W-by-H texels. */
  function TexelAt(buf: seq<byte>, w: int, h: int, x: int, y: int, c: int): byte
    requires |buf| == 3 * (w * h)
    requires 0 <= x < w && 0 <= y < h && 0 <= c < 3
  {
    LocInRange(x, y, c, w, h);
    buf[Loc(x, y, w) + c]
  }

  /** load_tex: N = clamp_dim(height), M = clamp_dim(width); a 3*N*M buffer is filled row by row,
      output row y from source row N-1-y. `writes` lists the buffer positions in the order the
      loops store to them. */
  method LoadTex(img: Image) returns (data: array<byte>, width: int, height: int, ghost writes: seq<int>)
    requires 0 <= img.width < 0x4000_0000 && 0 <= img.height < 0x4000_0000
    requires img.spectrum >= 3  // channels 0, 1 and 2 are read
    requires 3 * (Pow2Floor(img.width) * Pow2Floor(img.height)) <= INT_MAX  // int malloc size and LOC
    ensures fresh(data)
    ensures width == Pow2Floor(img.width) && height == Pow2Floor(img.height)
    ensures width <= img.width && height <= img.height
    ensures data.Length == 3 * (width * height)
    ensures forall x, y, c :: 0 <= x < width && 0 <= y < height && 0 <= c < 3 ==>
      TexelAt(data[..], width, height, x, y, c) == img.at(x, height - 1 - y, c)
    ensures |writes| == data.Length && forall k :: 0 <= k < |writes| ==> writes[k] == k
  {
    height := ClampDim(img.height);
    width := ClampDim(img.width);
    data, writes := Repack(img, width, height);
  }

  /** The malloc of a 3*M*N buffer and the loops that fill it. */
  method Repack(img: Image, m: int, n: int) returns (data: array<byte>, ghost writes: seq<int>)
    requires 0 <= m <= img.width && 0 <= n <= img.height && 3 <= img.spectrum
    ensures fresh(data)
    ensures data.Length == 3 * (m * n)
    ensures forall x, y, c :: 0 <= x < m && 0 <= y < n && 0 <= c < 3 ==>
      TexelAt(data[..], m, n, x, y, c) == img.at(x, n - 1 - y, c)
    ensures |writes| == data.Length && forall k :: 0 <= k < |writes| ==> writes[k] == k
  {
    data := new byte[3 * (m * n)];
    writes := Fill(data, img, m, n);
  }

  /** The two loops of load_tex: y counts output rows up while _y counts source rows down. */
  method Fill(data: array<byte>, img: Image, m: int, n: int) returns (ghost writes: seq<int>)
    requires 0 <= m <= img.width && 0 <= n <= img.height && 3 <= img.spectrum
    requires data.Length == 3 * (m * n)
    modifies data
    ensures |writes| == data.Length && forall k :: 0 <= k < |writes| ==> writes[k] == k
    ensures forall x, y, c :: 0 <= x < m && 0 <= y < n && 0 <= c < 3 ==>
      TexelAt(data[..], m, n, x, y, c) == img.at(x, n - 1 - y, c)
  {
    writes := [];
    var y, yy := 0, n - 1;
    ghost var pos := 0;
    while y < n
      invariant 0 <= y <= n && yy == n - 1 - y
      invariant pos == Loc(0, y, m)
      invariant Filled(data[..], writes, img, m, n, pos)
    {
      writes := FillRow(data, img, m, n, y, yy, writes);
      pos := Loc(0, y + 1, m);
      y, yy := y + 1, yy - 1;
    }
    LocEnd(n, m);
    FilledMeans(data[..], writes, img, m, n);
  }

  /** The inner loop of load_tex: output row y from source row yy = N-1-y, left to right. */
  method FillRow(data: array<byte>, img: Image, m: int, n: int, y: int, yy: int, ghost writesIn: seq<int>)
    returns (ghost writes: seq<int>)
    requires 0 <= m <= img.width && 0 <= n <= img.height && 3 <= img.spectrum
    requires data.Length == 3 * (m * n) && 0 <= y < n && yy == n - 1 - y
    requires Filled(data[..], writesIn, img, m, n, Loc(0, y, m))
    modifies data
    ensures Filled(data[..], writes, img, m, n, Loc(0, y + 1, m))
  {
    writes := writesIn;
    ghost var pos := Loc(0, y, m);
    var x := 0;
    while x < m
      invariant 0 <= x <= m
      invariant pos == Loc(x, y, m)
      invariant Filled(data[..], writes, img, m, n, pos)
    {
      var loc := Loc(x, y, m);
      LocInRange(x, y, 2, m, n);
      var r := Texel(img, x, yy, 0);
      var g := Texel(img, x, yy, 1);
      var b := Texel(img, x, yy, 2);
      ghost var before := data[..];
      data[loc] := r;
      data[loc + 1] := g;
      data[loc + 2] := b;
      FillStep(before, data[..], writes, img, m, n, x, y);
      writes := writes + [loc, loc + 1, loc + 2];
      LocNext(x, y, m);
      pos := pos + 3;
      x := x + 1;
    }
    LocNextRow(y, m);
  }

  /** A buffer filled up to its end holds every source texel, rows flipped. */
  lemma FilledMeans(buf: seq<byte>, writes: seq<int>, img: Image, m: int, n: int)
    requires 0 <= m <= img.width && 0 <= n <= img.height && 3 <= img.spectrum
    requires |buf| == 3 * (m * n) && Filled(buf, writes, img, m, n, |buf|)
    ensures |writes| == |buf| && forall k :: 0 <= k < |writes| ==> writes[k] == k
    ensures forall x, y, c :: 0 <= x < m && 0 <= y < n && 0 <= c < 3 ==>
      TexelAt(buf, m, n, x, y, c) == img.at(x, n - 1 - y, c)
  {
    forall x, y, c | 0 <= x < m && 0 <= y < n && 0 <= c < 3
      ensures TexelAt(buf, m, n, x, y, c) == img.at(x, n - 1 - y, c)
    {
      RepackedAt(img, m, n, x, y, c);
    }
  }

  /** Storing the three channels of texel (x, y) moves the write frontier past its slot. */
  lemma FillStep(before: seq<byte>, after: seq<byte>, writes: seq<int>, img: Image, m: int, n: int, x: int, y: int)
    requires 0 < m <= img.width && 0 <= n <= img.height && 3 <= img.spectrum
    requires 0 <= x < m && 0 <= y < n && |before| == |after| == 3 * (m * n)
    requires Filled(before, writes, img, m, n, Loc(x, y, m))
    requires forall k :: 0 <= k < Loc(x, y, m) ==> after[k] == before[k]
    requires Loc(x, y, m) + 2 < |after|
    requires after[Loc(x, y, m)] == img.at(x, n - 1 - y, 0)
    requires after[Loc(x, y, m) + 1] == img.at(x, n - 1 - y, 1)
    requires after[Loc(x, y, m) + 2] == img.at(x, n - 1 - y, 2)
    ensures Filled(after, writes + [Loc(x, y, m), Loc(x, y, m) + 1, Loc(x, y, m) + 2], img, m, n, Loc(x, y, m) + 3)
  {
    LocInRange(x, y, 2, m, n);
    RepackedAt(img, m, n, x, y, 0);
    RepackedAt(img, m, n, x, y, 1);
    RepackedAt(img, m, n, x, y, 2);
  }
}
