/**
 * The image tooling of the two examples: the grid that cuts a slide and its mask into numbered
 * tiles, the window arithmetic of the tensor splitter, the wrapping byte sum of a picture, the
 * opacity scan, and the shape checks and array ownership of the grayscale conversion.
 */
module Img {
  import opened Wrappers
  import opened Torch
  import Rle

  // ------------------------------------------------------------------ integer arithmetic

  /** Go's `/` of a size by a divisor: the quotient truncated toward zero. */
  function GoDiv(a: nat, b: int): int
    requires b != 0
  {
    if b > 0 then a / b else -(a / -b)
  }

  /** The number of passes a Go `for i := 0; i < k; i++` loop makes. */
  function Passes(k: int): nat {
    if k < 0 then 0 else k
  }

  lemma MulMono(a: nat, b: nat, d: nat)
    requires a <= b
    ensures a * d <= b * d
  {
    assert b * d - a * d == (b - a) * d;
  }

  /** q is the quotient of x by d exactly when x falls in [q * d, q * d + d). */
  lemma DivUnique(x: nat, d: nat, q: nat)
    requires d > 0
    ensures q * d <= x < q * d + d <==> q == x / d
  {
    var r := x / d;
    assert r * d <= x < r * d + d;
    if q * d <= x < q * d + d && q != r {
      if q < r {
        MulMono(q + 1, r, d);
      } else {
        MulMono(r + 1, q, d);
      }
    }
  }

  /** `int(math.Ceil(float64(a) / float64(d)))`, exact for operands below 2^53. */
  function CeilDiv(a: nat, d: nat): nat
    requires d > 0
  {
    (a + d - 1) / d
  }

  /** The n-th multiple of d starts before a exactly for the first CeilDiv(a, d) values of n. */
  lemma CeilDivBelow(a: nat, d: nat, n: nat)
    requires d > 0
    ensures n < CeilDiv(a, d) <==> n * d < a
  {
    var c := CeilDiv(a, d);
    DivUnique(a + d - 1, d, c);
    if n < c {
      MulMono(n + 1, c, d);
    } else {
      MulMono(c, n, d);
    }
  }

  /** Position of (n, m) in a row-major sequence of rows of `cols` entries. */
  function Index(n: nat, m: nat, cols: nat): nat {
    n * cols + m
  }

  /** Row-major positions increase with the row, then with the column. */
  lemma IndexBelow(n: nat, m: nat, n': nat, m': nat, cols: nat)
    requires m < cols && m' < cols
    requires n < n' || (n == n' && m < m')
    ensures Index(n, m, cols) < Index(n', m', cols)
  {
    if n < n' {
      MulMono(n + 1, n', cols);
    }
  }

  // ------------------------------------------------------------------ the tile grid

  /** `image.Rectangle{Min: (x0, y0), Max: (x1, y1)}`: the pixels x0 <= x < x1, y0 <= y < y1. */
  datatype Rect = Rect(x0: int, y0: int, x1: int, y1: int)

  predicate Contains(r: Rect, x: int, y: int) {
    r.x0 <= x < r.x1 && r.y0 <= y < r.y1
  }

  function Min(a: int, b: int): int {
    if a <= b then a else b
  }

  /** A w by h picture cut into tiles of tileW by tileH pixels, the last row and column clamped. */
  datatype Tiling = Tiling(w: nat, h: nat, tileW: nat, tileH: nat) {
    predicate Valid() {
      tileW > 0 && tileH > 0
    }

    function Cols(): nat
      requires Valid()
    {
      CeilDiv(w, tileW)
    }

    function Rows(): nat
      requires Valid()
    {
      CeilDiv(h, tileH)
    }

    /** Tile (n, m): from (m * tileW, n * tileH), its far edges clamped to the picture. */
    function Tile(n: nat, m: nat): Rect {
      Rect(m * tileW, n * tileH, Min(m * tileW + tileW, w), Min(n * tileH + tileH, h))
    }

    /** Columns 0 .. k-1 of row n, left to right, leaving out those starting at or past the edge. */
    function RowTiles(n: nat, k: nat): seq<Rect> {
      if k == 0 then []
      else RowTiles(n, k - 1) + (if (k - 1) * tileW < w then [Tile(n, k - 1)] else [])
    }

    /** Rows 0 .. k-1, top to bottom, leaving out those starting at or past the edge. */
    function Visited(k: nat): seq<Rect>
      requires Valid()
    {
      if k == 0 then []
      else Visited(k - 1) + (if (k - 1) * tileH < h then RowTiles(k - 1, Cols()) else [])
    }

    /** The tiles the grid loop visits, in visiting order. */
    function Tiles(): seq<Rect>
      requires Valid()
    {
      Visited(Rows())
    }
  }

  /** No start position of the grid lies at or past the edge: neither skip ever fires. */
  lemma StartsInside(t: Tiling, n: nat, m: nat)
    requires t.Valid()
    ensures n < t.Rows() ==> n * t.tileH < t.h
    ensures m < t.Cols() ==> m * t.tileW < t.w
  {
    CeilDivBelow(t.h, t.tileH, n);
    CeilDivBelow(t.w, t.tileW, m);
  }

  lemma {:induction false} RowTilesAll(t: Tiling, n: nat, k: nat)
    requires t.Valid() && k <= t.Cols()
    ensures |t.RowTiles(n, k)| == k
    ensures forall m :: 0 <= m < k ==> t.RowTiles(n, k)[m] == t.Tile(n, m)
  {
    if k > 0 {
      RowTilesAll(t, n, k - 1);
      StartsInside(t, 0, k - 1);
      assert t.RowTiles(n, k) == t.RowTiles(n, k - 1) + [t.Tile(n, k - 1)];
    }
  }

  /** s lists the tiles (n, m) of `rows` rows of `cols` columns in row-major order. */
  ghost predicate RowMajor(t: Tiling, s: seq<Rect>, rows: nat, cols: nat) {
    |s| == rows * cols &&
    forall n, m :: 0 <= n < rows && 0 <= m < cols ==> Index(n, m, cols) < |s| && s[Index(n, m, cols)] == t.Tile(n, m)
  }

  lemma {:induction false} VisitedAll(t: Tiling, k: nat)
    requires t.Valid() && k <= t.Rows()
    ensures RowMajor(t, t.Visited(k), k, t.Cols())
  {
    if k > 0 {
      VisitedAll(t, k - 1);
      StartsInside(t, k - 1, 0);
      RowTilesAll(t, k - 1, t.Cols());
      assert t.Visited(k) == t.Visited(k - 1) + t.RowTiles(k - 1, t.Cols());
      AppendRow(t, t.Visited(k - 1), t.RowTiles(k - 1, t.Cols()), k, t.Cols());
    }
  }

  /** A row of `cols` tiles appended to k - 1 complete rows makes k complete rows, row-major. */
  lemma AppendRow(t: Tiling, prev: seq<Rect>, row: seq<Rect>, k: nat, cols: nat)
    requires k > 0 && RowMajor(t, prev, k - 1, cols) && |row| == cols
    requires forall m :: 0 <= m < cols ==> row[m] == t.Tile(k - 1, m)
    ensures RowMajor(t, prev + row, k, cols)
  {
    var v := prev + row;
    assert (k - 1) * cols + cols == k * cols;
    forall n, m | 0 <= n < k && 0 <= m < cols
      ensures Index(n, m, cols) < |v| && v[Index(n, m, cols)] == t.Tile(n, m)
    {
      if n < k - 1 {
        IndexBelow(n, m, k - 1, 0, cols);
        assert v[Index(n, m, cols)] == prev[Index(n, m, cols)];
      } else {
        assert Index(n, m, cols) == |prev| + m;
        assert v[Index(n, m, cols)] == row[m];
      }
    }
  }

  /**
   * The grid visits every tile (n, m) with n < Rows() and m < Cols() exactly once, in row-major
   * order.
   */
  lemma TilesRowMajor(t: Tiling)
    requires t.Valid()
    ensures RowMajor(t, t.Tiles(), t.Rows(), t.Cols())
  {
    VisitedAll(t, t.Rows());
  }

  /**
   * The tiles partition the picture: a pixel of the picture lies in tile (n, m) exactly when
   * n = y / tileH and m = x / tileW, that tile is on the grid, and no tile reaches outside.
   */
  lemma Partition(t: Tiling, x: int, y: int, n: nat, m: nat)
    requires t.Valid()
    ensures Contains(t.Tile(n, m), x, y) ==> 0 <= x < t.w && 0 <= y < t.h
    ensures 0 <= x < t.w && 0 <= y < t.h ==>
              y / t.tileH < t.Rows() && x / t.tileW < t.Cols() &&
              (Contains(t.Tile(n, m), x, y) <==> n == y / t.tileH && m == x / t.tileW)
  {
    AxisPartition(x, t.w, t.tileW, m);
    AxisPartition(y, t.h, t.tileH, n);
  }

  /** Along one axis of extent e: a coordinate inside lies in clamped span k exactly when k = p / d. */
  lemma AxisPartition(p: int, e: nat, d: nat, k: nat)
    requires d > 0
    ensures k * d <= p < Min(k * d + d, e) ==> 0 <= p < e
    ensures 0 <= p < e ==> p / d < CeilDiv(e, d) && (k * d <= p < Min(k * d + d, e) <==> k == p / d)
  {
    MulMono(0, k, d);
    if 0 <= p < e {
      var q := p / d;
      DivUnique(p, d, k);
      DivUnique(p, d, q);
      CeilDivBelow(e, d, q);
      assert q * d < e;
    }
  }

  /** isBlank's verdict on the tile cropped from a rectangle, leaving blank tiles out. */
  function Kept(rs: seq<Rect>, blank: Rect -> bool): (k: seq<Rect>)
    ensures |k| <= |rs|
  {
    if |rs| == 0 then []
    else Kept(rs[..|rs| - 1], blank) + (if blank(rs[|rs| - 1]) then [] else [rs[|rs| - 1]])
  }

  lemma KeptSnoc(rs: seq<Rect>, r: Rect, blank: Rect -> bool)
    ensures blank(r) ==> Kept(rs + [r], blank) == Kept(rs, blank)
    ensures !blank(r) ==> Kept(rs + [r], blank) == Kept(rs, blank) + [r]
  {
    assert (rs + [r])[..|rs|] == rs;
    assert Kept(rs, blank) + [] == Kept(rs, blank);
  }

  /** Kept keeps the non-blank rectangles, each exactly as often and in the same order. */
  lemma {:induction false} KeptSpec(rs: seq<Rect>, blank: Rect -> bool)
    ensures forall k :: 0 <= k < |Kept(rs, blank)| ==> !blank(Kept(rs, blank)[k])
    ensures (forall k :: 0 <= k < |rs| ==> !blank(rs[k])) ==> Kept(rs, blank) == rs
    ensures (forall k :: 0 <= k < |rs| ==> blank(rs[k])) ==> Kept(rs, blank) == []
  {
    if |rs| > 0 {
      var init := rs[..|rs| - 1];
      KeptSpec(init, blank);
      assert forall k :: 0 <= k < |init| ==> init[k] == rs[k];
      assert rs == init + [rs[|rs| - 1]];
    }
  }

  /** Go's `%03d` on a non-negative count: at least three digits, zero-padded on the left. */
  function Pad3(n: nat): (d: string)
    ensures Rle.AllDigits(d) && |d| >= 3
  {
    var s := Rle.Show(n);
    if |s| >= 3 then s else Zeros(3 - |s|) + s
  }

  function Zeros(k: nat): (z: string)
    ensures |z| == k && Rle.AllDigits(z)
  {
    if k == 0 then "" else Zeros(k - 1) + "0"
  }

  lemma {:induction false} ZerosValue(k: nat)
    ensures Rle.Decimal(Zeros(k)) == 0
  {
    if k > 0 {
      var z := Zeros(k);
      ZerosValue(k - 1);
      assert z == Zeros(k - 1) + "0";
      assert z[..k - 1] == Zeros(k - 1) && z[k - 1] == '0';
      assert Rle.Decimal(z) == Rle.Decimal(z[..k - 1]) * 10 + Rle.DigitValue(z[k - 1]);
    }
  }

  /** Leading zeros do not change a numeral's value. */
  lemma {:induction false} LeadingZeros(z: string, d: string)
    requires Rle.AllDigits(z) && Rle.AllDigits(d) && Rle.Decimal(z) == 0
    ensures Rle.AllDigits(z + d) && Rle.Decimal(z + d) == Rle.Decimal(d)
  {
    assert forall k :: 0 <= k < |z + d| ==> (z + d)[k] == if k < |z| then z[k] else d[k - |z|];
    if |d| > 0 {
      var init := d[..|d| - 1];
      assert Rle.AllDigits(init);
      LeadingZeros(z, init);
      assert (z + d)[..|z + d| - 1] == z + init;
      assert (z + d)[|z + d| - 1] == d[|d| - 1];
    } else {
      assert z + d == z;
    }
  }

  /** The padded counter still reads back as the count. */
  lemma Pad3Value(n: nat)
    ensures Rle.Decimal(Pad3(n)) == n
  {
    var s := Rle.Show(n);
    Rle.DecimalShow(n);
    if |s| < 3 {
      ZerosValue(3 - |s|);
      LeadingZeros(Zeros(3 - |s|), s);
    }
  }

  /** `fmt.Sprintf("%v/%v_%03d.png", dir, sampleId, count)`. */
  function TileName(dir: string, sampleId: string, count: nat): string {
    dir + "/" + sampleId + "_" + Pad3(count) + ".png"
  }

  /** Different counts give different file names in the same directory. */
  lemma TileNamesDistinct(dir: string, sampleId: string, a: nat, b: nat)
    requires a != b
    ensures TileName(dir, sampleId, a) != TileName(dir, sampleId, b)
  {
    var p := dir + "/" + sampleId + "_";
    var da, db := Pad3(a), Pad3(b);
    Pad3Value(a);
    Pad3Value(b);
    var na, nb := p + da + ".png", p + db + ".png";
    assert TileName(dir, sampleId, a) == na && TileName(dir, sampleId, b) == nb;
    assert na[|p|..|p| + |da|] == da;
    assert nb[|p|..|p| + |db|] == db;
  }

  datatype CropError = CannotCrop

  /**
   * The grid loop of `runTile`: visits the tiles in row-major order, lets `blank` judge each
   * cropped tile, and writes the others with the counter as their number. `canCrop` says whether
   * the decoded picture supports `SubImage`; when it does not, the first crop fails and the loop
   * stops there. Writing the files is not modelled; the names they get are returned.
   */
  method RunTile(t: Tiling, blank: Rect -> bool, canCrop: bool, sampleId: string, imgDir: string, maskDir: string)
    returns (r: Result<(), CropError>, written: seq<Rect>, files: seq<(string, string)>)
    requires t.Valid()
    ensures r.Err? <==> !canCrop && |t.Tiles()| > 0
    ensures r.Err? ==> written == []
    ensures r.Ok? ==> written == Kept(t.Tiles(), blank)
    ensures Named(files, |written|, sampleId, imgDir, maskDir)
  {
    var rows := t.Rows();
    var count := 1;
    written, files := [], [];
    for n := 0 to rows
      invariant written == Kept(t.Visited(n), blank)
      invariant canCrop || |t.Visited(n)| == 0
      invariant count == |written| + 1 && Named(files, |written|, sampleId, imgDir, maskDir)
    {
      RowDone(t, n);
      var startY := n * t.tileH;
      if startY >= t.h {
        continue;
      }
      var stop;
      stop, written, files, count := RunRow(t, n, startY, blank, canCrop, sampleId, imgDir, maskDir, written, files, count);
      if stop {
        return Err(CannotCrop), [], [];
      }
    }
    r := Ok(());
  }

  /**
   * One row of the grid loop: the columns of row n, from left to right. `stop` reports the failed
   * crop that ends `runTile` with an error.
   */
  method RunRow(t: Tiling, n: nat, startY: int, blank: Rect -> bool, canCrop: bool,
                sampleId: string, imgDir: string, maskDir: string,
                written0: seq<Rect>, files0: seq<(string, string)>, count0: nat)
    returns (stop: bool, written: seq<Rect>, files: seq<(string, string)>, count: nat)
    requires t.Valid() && n < t.Rows() && startY == n * t.tileH
    requires written0 == Kept(t.Visited(n), blank)
    requires canCrop || |t.Visited(n)| == 0
    requires count0 == |written0| + 1 && Named(files0, |written0|, sampleId, imgDir, maskDir)
    ensures stop ==> !canCrop && |t.Tiles()| > 0
    ensures !stop ==> written == Kept(t.Visited(n) + t.RowTiles(n, t.Cols()), blank)
    ensures !stop ==> canCrop || |t.Visited(n) + t.RowTiles(n, t.Cols())| == 0
    ensures count == |written| + 1 && Named(files, |written|, sampleId, imgDir, maskDir)
  {
    var endY := ClampEnd(startY, t.tileH, t.h);
    written, files, count := written0, files0, count0;
    RowDone(t, n);
    for m := 0 to t.Cols()
      invariant written == Kept(t.Visited(n) + t.RowTiles(n, m), blank)
      invariant canCrop || |t.Visited(n) + t.RowTiles(n, m)| == 0
      invariant count == |written| + 1 && Named(files, |written|, sampleId, imgDir, maskDir)
    {
      var startX := m * t.tileW;
      RowStep(t, n, m);
      if startX >= t.w {
        continue;
      }
      KeptSnoc(t.Visited(n) + t.RowTiles(n, m), t.Tile(n, m), blank);
      stop, written, files, count := VisitTile(t, n, m, startY, endY, blank, canCrop, sampleId, imgDir, maskDir, written, files, count);
      if stop {
        TilesNonEmpty(t, n, m);
        return;
      }
    }
    stop := false;
  }

  /**
   * The body of the column loop for a tile that starts inside the picture: crop the picture and
   * the mask, skip a blank tile, otherwise write both under the current count and advance it.
   */
  method VisitTile(t: Tiling, n: nat, m: nat, startY: int, endY: int, blank: Rect -> bool, canCrop: bool,
                   sampleId: string, imgDir: string, maskDir: string,
                   written0: seq<Rect>, files0: seq<(string, string)>, count0: nat)
    returns (stop: bool, written: seq<Rect>, files: seq<(string, string)>, count: nat)
    requires startY == n * t.tileH && endY == Min(startY + t.tileH, t.h)
    requires count0 == |written0| + 1 && Named(files0, |written0|, sampleId, imgDir, maskDir)
    ensures stop <==> !canCrop
    ensures !stop ==> written == written0 + (if blank(t.Tile(n, m)) then [] else [t.Tile(n, m)])
    ensures count == |written| + 1 && Named(files, |written|, sampleId, imgDir, maskDir)
  {
    written, files, count := written0, files0, count0;
    var startX := m * t.tileW;
    var endX := ClampEnd(startX, t.tileW, t.w);
    var rec := Rect(startX, startY, endX, endY);
    assert rec == t.Tile(n, m);
    if !canCrop {
      return true, written, files, count;
    }
    if blank(rec) {
      return false, written, files, count;
    }
    NamedSnoc(files, |written|, sampleId, imgDir, maskDir);
    written := written + [rec];
    files := files + [(TileName(imgDir, sampleId, count), TileName(maskDir, sampleId, count))];
    count := count + 1;
    stop := false;
  }

  /** The far edge of a span of `size` from `start`, cut back to `bound` when it reaches past it. */
  method ClampEnd(start: int, size: int, bound: int) returns (end: int)
    ensures end == Min(start + size, bound)
  {
    end := start + size;
    if end > bound {
      end := bound;
    }
  }

  /** The k files written so far are named with the counts 1 .. k, image and mask alike. */
  ghost predicate Named(files: seq<(string, string)>, k: nat, sampleId: string, imgDir: string, maskDir: string) {
    |files| == k &&
    forall j :: 0 <= j < k ==> files[j] == (TileName(imgDir, sampleId, j + 1), TileName(maskDir, sampleId, j + 1))
  }

  lemma NamedSnoc(files: seq<(string, string)>, k: nat, sampleId: string, imgDir: string, maskDir: string)
    requires Named(files, k, sampleId, imgDir, maskDir)
    ensures Named(files + [(TileName(imgDir, sampleId, k + 1), TileName(maskDir, sampleId, k + 1))], k + 1, sampleId, imgDir, maskDir)
  {
  }

  /** How one row of the loop extends the visited tiles, or leaves them as they are. */
  lemma RowDone(t: Tiling, n: nat)
    requires t.Valid()
    ensures t.Visited(n) + t.RowTiles(n, 0) == t.Visited(n)
    ensures n * t.tileH < t.h ==> t.Visited(n + 1) == t.Visited(n) + t.RowTiles(n, t.Cols())
    ensures n * t.tileH >= t.h ==> t.Visited(n + 1) == t.Visited(n)
  {
    assert t.Visited(n) + [] == t.Visited(n);
  }

  /** How one column of the loop extends the visited tiles: by the tile, unless it starts past the edge. */
  lemma RowStep(t: Tiling, n: nat, m: nat)
    requires t.Valid()
    ensures m * t.tileW < t.w ==> t.Visited(n) + t.RowTiles(n, m + 1) == (t.Visited(n) + t.RowTiles(n, m)) + [t.Tile(n, m)]
    ensures m * t.tileW >= t.w ==> t.Visited(n) + t.RowTiles(n, m + 1) == t.Visited(n) + t.RowTiles(n, m)
  {
    assert t.RowTiles(n, m) + [] == t.RowTiles(n, m);
  }

  lemma TilesNonEmpty(t: Tiling, n: nat, m: nat)
    requires t.Valid() && n < t.Rows() && m < t.Cols()
    ensures |t.Tiles()| > 0
  {
    TilesRowMajor(t);
    IndexBelow(n, m, t.Rows(), 0, t.Cols());
  }

  // ------------------------------------------------------------------ opacity

  /** Every pixel of r has the alpha 0xffff of a fully opaque 16-bit colour. */
  ghost predicate Opaque(r: Rect, alpha: (int, int) -> nat) {
    forall x, y :: Contains(r, x, y) ==> alpha(x, y) == 0xffff
  }

  /**
   * `isOpaque`: a picture type with its own opacity test answers through `own`; any other is
   * scanned row by row and fails at its first pixel whose alpha is not 0xffff.
   */
  method IsOpaque(r: Rect, alpha: (int, int) -> nat, own: Option<bool>) returns (b: bool)
    ensures own.Some? ==> b == own.value
    ensures own.None? ==> (b <==> Opaque(r, alpha))
  {
    if own.Some? {
      return own.value;
    }
    var y := r.y0;
    while y < r.y1
      invariant r.y0 <= y
      invariant forall x, y' :: r.x0 <= x < r.x1 && r.y0 <= y' < y ==> alpha(x, y') == 0xffff
    {
      var x := r.x0;
      while x < r.x1
        invariant r.x0 <= x
        invariant forall x' :: r.x0 <= x' < x ==> alpha(x', y) == 0xffff
      {
        if alpha(x, y) != 0xffff {
          assert Contains(r, x, y);
          return false;
        }
        x := x + 1;
      }
      y := y + 1;
    }
    return true;
  }

  /** A picture is opaque exactly when every tile of its grid is. */
  lemma OpaqueTiles(t: Tiling, alpha: (int, int) -> nat)
    requires t.Valid()
    ensures Opaque(Rect(0, 0, t.w, t.h), alpha) <==>
            forall n, m :: 0 <= n < t.Rows() && 0 <= m < t.Cols() ==> Opaque(t.Tile(n, m), alpha)
  {
    if Opaque(Rect(0, 0, t.w, t.h), alpha) {
      forall n, m | 0 <= n < t.Rows() && 0 <= m < t.Cols()
        ensures Opaque(t.Tile(n, m), alpha)
      {
        forall x, y | Contains(t.Tile(n, m), x, y)
          ensures alpha(x, y) == 0xffff
        {
          Partition(t, x, y, n, m);
          assert Contains(Rect(0, 0, t.w, t.h), x, y);
        }
      }
    }
    if forall n, m :: 0 <= n < t.Rows() && 0 <= m < t.Cols() ==> Opaque(t.Tile(n, m), alpha) {
      forall x, y | Contains(Rect(0, 0, t.w, t.h), x, y)
        ensures alpha(x, y) == 0xffff
      {
        var n, m := y / t.tileH, x / t.tileW;
        Partition(t, x, y, n, m);
        assert Opaque(t.Tile(n, m), alpha);
      }
    }
  }

  // ------------------------------------------------------------------ byte sum

  /** The plain sum of the bytes. */
  function Sum(pix: seq<Rle.byte>): nat {
    if |pix| == 0 then 0 else Sum(pix[..|pix| - 1]) + pix[|pix| - 1] as nat
  }

  lemma {:induction false} SumAppend(a: seq<Rle.byte>, b: seq<Rle.byte>)
    ensures Sum(a + b) == Sum(a) + Sum(b)
    decreases |b|
  {
    if |b| > 0 {
      SumAppend(a, b[..|b| - 1]);
      assert (a + b)[..|a + b| - 1] == a + b[..|b| - 1];
    } else {
      assert a + b == a;
    }
  }

  lemma {:induction false} SumBound(pix: seq<Rle.byte>)
    ensures Sum(pix) <= 255 * |pix|
  {
    if |pix| > 0 {
      SumBound(pix[..|pix| - 1]);
    }
  }

  /**
   * `pixSum` over the RGBA bytes of a picture: a `uint8` accumulator, so the sum wraps modulo 256.
   */
  method PixSum(pix: seq<Rle.byte>) returns (s: Rle.byte)
    ensures s as int == Sum(pix) % 256
  {
    s := 0;
    for i := 0 to |pix|
      invariant s as int == Sum(pix[..i]) % 256
    {
      assert pix[..i + 1][..i] == pix[..i];
      ghost var before := Sum(pix[..i]);
      s := ((s as int + pix[i] as int) % 256) as Rle.byte;
      assert s as int == (before + pix[i] as int) % 256 by {
        ModAdd(before, pix[i] as int);
      }
    }
    assert pix[..|pix|] == pix;
  }

  lemma ModAdd(a: nat, b: nat)
    ensures (a % 256 + b) % 256 == (a + b) % 256
  {
    var q := a / 256;
    assert a == 256 * q + a % 256;
    assert a + b == 256 * q + (a % 256 + b);
  }

  /** Summing two halves with wrap-around and adding the results, wrapping again, is the same. */
  lemma SumWraps(a: seq<Rle.byte>, b: seq<Rle.byte>)
    ensures Sum(a + b) % 256 == (Sum(a) % 256 + Sum(b) % 256) % 256
  {
    SumAppend(a, b);
    ModAdd(Sum(a), Sum(b));
    ModAdd(Sum(b), Sum(a) % 256);
  }

  // ------------------------------------------------------------------ splitting a tensor

  /** One `MustNarrow(dim, start, length)` call: `length` entries of axis dim from `start`. */
  datatype Narrow = Narrow(dim: nat, start: int, length: int)

  /** The library accepts a narrow only within the axis: it aborts otherwise. */
  predicate NarrowFits(size: Shape, c: Narrow) {
    c.dim < |size| && 0 <= c.start && 0 <= c.length && c.start + c.length <= size[c.dim]
  }

  /** The tile saved as `<name>_<n>_<m>.png`: the row narrow of the picture, then the column narrow. */
  datatype Cut = Cut(n: nat, m: nat, rows: Narrow, cols: Narrow)

  /**
   * The calls `splitTensor` makes for tile (n, m): axis 0 from n * tileSize, its end position
   * passed where the length goes; then axis 1 from 0, the column offset never having moved.
   */
  function AsWrittenCut(n: nat, m: nat, tileSize: int): Cut {
    Cut(n, m, Narrow(0, n * tileSize, n * tileSize + tileSize), Narrow(1, 0, tileSize))
  }

  /** The calls evidently meant: axes 1 and 2 of a CxHxW picture, tileSize entries from the offsets. */
  function IntendedCut(n: nat, m: nat, tileSize: int): Cut {
    Cut(n, m, Narrow(1, n * tileSize, tileSize), Narrow(2, m * tileSize, tileSize))
  }

  function CutAt(intended: bool, n: nat, m: nat, tileSize: int): Cut {
    if intended then IntendedCut(n, m, tileSize) else AsWrittenCut(n, m, tileSize)
  }

  /** cuts holds, row-major, the tiles of the first n rows of `cols` columns and the first m of row n. */
  ghost predicate SplitSoFar(cuts: seq<Cut>, n: nat, m: nat, cols: nat, intended: bool, tileSize: int) {
    |cuts| == Index(n, m, cols) &&
    forall n', m' :: 0 <= n' && 0 <= m' && ((n' < n && m' < cols) || (n' == n && m' < m)) ==>
      Index(n', m', cols) < |cuts| && cuts[Index(n', m', cols)] == CutAt(intended, n', m', tileSize)
  }

  lemma SplitStep(cuts: seq<Cut>, n: nat, m: nat, cols: nat, intended: bool, tileSize: int)
    requires SplitSoFar(cuts, n, m, cols, intended, tileSize) && m < cols
    ensures SplitSoFar(cuts + [CutAt(intended, n, m, tileSize)], n, m + 1, cols, intended, tileSize)
  {
    var c := cuts + [CutAt(intended, n, m, tileSize)];
    forall n', m' | 0 <= n' && 0 <= m' && ((n' < n && m' < cols) || (n' == n && m' < m + 1))
      ensures Index(n', m', cols) < |c| && c[Index(n', m', cols)] == CutAt(intended, n', m', tileSize)
    {
      if n' < n || m' < m {
        IndexBelow(n', m', n, m, cols);
      }
    }
  }

  lemma SplitRowDone(cuts: seq<Cut>, n: nat, cols: nat, intended: bool, tileSize: int)
    requires SplitSoFar(cuts, n, cols, cols, intended, tileSize)
    ensures SplitSoFar(cuts, n + 1, 0, cols, intended, tileSize)
  {
    assert Index(n, cols, cols) == Index(n + 1, 0, cols);
  }

  lemma SplitDone(cuts: seq<Cut>, rows: nat, cols: nat, intended: bool, tileSize: int)
    requires SplitSoFar(cuts, rows, 0, cols, intended, tileSize)
    ensures |cuts| == rows * cols
    ensures forall n, m :: 0 <= n < rows && 0 <= m < cols ==>
              Index(n, m, cols) < |cuts| && cuts[Index(n, m, cols)] == CutAt(intended, n, m, tileSize)
  {
  }

  /**
   * `splitTensor`: for ⌊h/offset⌋ rows and ⌊w/offset⌋ columns (the division truncates before the
   * ceiling is taken) it narrows out one row per n and one tile per (n, m), in row-major order.
   * `rowNarrows` lists the row narrows, made even for a row with no columns.
   */
  method SplitTensor(size: Shape, tileSize: int, offset: int) returns (rowNarrows: seq<Narrow>, cuts: seq<Cut>)
    requires |size| >= 3 && offset != 0
    ensures |rowNarrows| == Passes(GoDiv(size[1], offset))
    ensures forall n :: 0 <= n < |rowNarrows| ==> rowNarrows[n] == AsWrittenCut(n, 0, tileSize).rows
    ensures |cuts| == Passes(GoDiv(size[1], offset)) * Passes(GoDiv(size[2], offset))
    ensures forall n, m :: 0 <= n < Passes(GoDiv(size[1], offset)) && 0 <= m < Passes(GoDiv(size[2], offset)) ==>
              Index(n, m, Passes(GoDiv(size[2], offset))) < |cuts| &&
              cuts[Index(n, m, Passes(GoDiv(size[2], offset)))] == AsWrittenCut(n, m, tileSize)
  {
    var h, w := size[1], size[2];
    var dimY, dimX := 0, 1;
    var ys, xs := GoDiv(h, offset), GoDiv(w, offset);
    ghost var cols := Passes(xs);
    rowNarrows, cuts := [], [];
    var offsetY := 0;
    var n := 0;
    while n < ys
      invariant 0 <= n <= Passes(ys) && offsetY == n * tileSize
      invariant |rowNarrows| == n && forall k :: 0 <= k < n ==> rowNarrows[k] == AsWrittenCut(k, 0, tileSize).rows
      invariant SplitSoFar(cuts, n, 0, cols, false, tileSize)
    {
      var nextOffsetY := offsetY + tileSize;
      var narrowY := Narrow(dimY, offsetY, nextOffsetY);
      rowNarrows := rowNarrows + [narrowY];
      offsetY := nextOffsetY;
      var offsetX := 0;
      var m := 0;
      while m < xs
        invariant 0 <= m <= cols && offsetX == 0
        invariant narrowY == AsWrittenCut(n, m, tileSize).rows
        invariant SplitSoFar(cuts, n, m, cols, false, tileSize)
      {
        var start := offsetX;
        var end := offsetX + tileSize;
        SplitStep(cuts, n, m, cols, false, tileSize);
        cuts := cuts + [Cut(n, m, narrowY, Narrow(dimX, start, end))];
        m := m + 1;
      }
      SplitRowDone(cuts, n, cols, false, tileSize);
      n := n + 1;
    }
    SplitDone(cuts, n, cols, false, tileSize);
  }

  /** `splitTensor` as evidently intended: the column offset advances as the row offset does. */
  method SplitTensorIntended(size: Shape, tileSize: int, offset: int) returns (cuts: seq<Cut>)
    requires |size| >= 3 && offset != 0
    ensures |cuts| == Passes(GoDiv(size[1], offset)) * Passes(GoDiv(size[2], offset))
    ensures forall n, m :: 0 <= n < Passes(GoDiv(size[1], offset)) && 0 <= m < Passes(GoDiv(size[2], offset)) ==>
              Index(n, m, Passes(GoDiv(size[2], offset))) < |cuts| &&
              cuts[Index(n, m, Passes(GoDiv(size[2], offset)))] == IntendedCut(n, m, tileSize)
  {
    var h, w := size[1], size[2];
    var dimY, dimX := 1, 2;
    var ys, xs := GoDiv(h, offset), GoDiv(w, offset);
    ghost var cols := Passes(xs);
    cuts := [];
    var offsetY := 0;
    var n := 0;
    while n < ys
      invariant 0 <= n <= Passes(ys) && offsetY == n * tileSize
      invariant SplitSoFar(cuts, n, 0, cols, true, tileSize)
    {
      var rows := Narrow(dimY, offsetY, tileSize);
      offsetY := offsetY + tileSize;
      var offsetX := 0;
      var m := 0;
      while m < xs
        invariant 0 <= m <= cols && offsetX == m * tileSize
        invariant rows == IntendedCut(n, m, tileSize).rows
        invariant SplitSoFar(cuts, n, m, cols, true, tileSize)
      {
        SplitStep(cuts, n, m, cols, true, tileSize);
        cuts := cuts + [Cut(n, m, rows, Narrow(dimX, offsetX, tileSize))];
        offsetX := offsetX + tileSize;
        m := m + 1;
      }
      SplitRowDone(cuts, n, cols, true, tileSize);
      n := n + 1;
    }
    SplitDone(cuts, n, cols, true, tileSize);
  }

  /** Pixel (y, x) of axes 1 and 2 lies in the windows of a cut on those axes. */
  predicate Covers(c: Cut, y: int, x: int) {
    c.rows.start <= y < c.rows.start + c.rows.length && c.cols.start <= x < c.cols.start + c.cols.length
  }

  /**
   * As written, every tile of a row is cut from the same columns, and the first row cut asks for
   * tileSize entries of axis 0, which holds only the channels: a picture with fewer channels than
   * tileSize is refused by the library at the first call.
   */
  lemma AsWrittenCollapses(size: Shape, tileSize: int, n: nat, m: nat, m': nat)
    requires |size| >= 3 && tileSize > size[0]
    ensures AsWrittenCut(n, m, tileSize).cols == AsWrittenCut(n, m', tileSize).cols
    ensures AsWrittenCut(n, m, tileSize).rows == AsWrittenCut(n, m', tileSize).rows
    ensures !NarrowFits(size, AsWrittenCut(0, m, tileSize).rows)
  {
  }

  /**
   * As intended, with tiles no larger than the offset every cut lies inside the picture, and two
   * different tiles never share a pixel.
   */
  lemma IntendedFits(size: Shape, tileSize: int, offset: int, n: nat, m: nat)
    requires |size| >= 3 && 0 < tileSize <= offset
    requires n < GoDiv(size[1], offset) && m < GoDiv(size[2], offset)
    ensures NarrowFits(size, IntendedCut(n, m, tileSize).rows)
    ensures NarrowFits(size, IntendedCut(n, m, tileSize).cols)
  {
    DivUnique(size[1], offset, size[1] / offset);
    DivUnique(size[2], offset, size[2] / offset);
    MulMono(n + 1, size[1] / offset, offset);
    MulMono(m + 1, size[2] / offset, offset);
    MulMono(tileSize, offset, n + 1);
    MulMono(tileSize, offset, m + 1);
  }

  lemma IntendedDisjoint(tileSize: int, n: nat, m: nat, n': nat, m': nat, y: int, x: int)
    requires tileSize > 0 && (n, m) != (n', m')
    ensures !(Covers(IntendedCut(n, m, tileSize), y, x) && Covers(IntendedCut(n', m', tileSize), y, x))
  {
    if Covers(IntendedCut(n, m, tileSize), y, x) && Covers(IntendedCut(n', m', tileSize), y, x) {
      assert y >= 0 && x >= 0 by {
        assert n * tileSize >= 0;
        assert m * tileSize >= 0;
      }
      DivUnique(y, tileSize, n);
      DivUnique(y, tileSize, n');
      DivUnique(x, tileSize, m);
      DivUnique(x, tileSize, m');
    }
  }

  // ------------------------------------------------------------------ grayscale

  datatype GrayError = TooFewAxes(rank: nat) | NotRgb(channels: nat)

  /** The shape checks of `rgb2GrayScale` and the shape of its result: the channel axis removed. */
  function GrayShape(s: Shape): (r: Result<Shape, GrayError>)
    ensures r.Ok? <==> |s| >= 3 && s[|s| - 3] == 3
    ensures |s| < 3 ==> r == Err(TooFewAxes(|s|))
    ensures |s| >= 3 && s[|s| - 3] != 3 ==> r == Err(NotRgb(s[|s| - 3]))
    ensures r.Ok? ==> |r.value| == |s| - 1 &&
                      forall i :: 0 <= i < |r.value| ==> r.value[i] == if i < |s| - 3 then s[i] else s[i + 1]
  {
    if |s| < 3 then Err(TooFewAxes(|s|))
    else if s[|s| - 3] != 3 then Err(NotRgb(s[|s| - 3]))
    else Ok(Without(s, |s| - 3))
  }

  /**
   * `rgb2GrayScale`: after its checks, splits the channel axis, weighs each channel (releasing
   * it), sums the three (releasing each partial sum and each weighted channel) and hands back
   * only the gray array; x itself stays live. On an error no array is created.
   */
  method Rgb2GrayScale(st: Store, x: Tensor) returns (r: Result<Tensor, GrayError>)
    requires st.Valid() && x in st.live
    modifies st
    ensures st.Valid()
    ensures r.Err? <==> GrayShape(x.shape).Err?
    ensures r.Err? ==> r.error == GrayShape(x.shape).error && st.live == old(st.live)
    ensures r.Ok? ==> r.value.shape == GrayShape(x.shape).value && r.value !in old(st.live)
    ensures r.Ok? ==> st.live == old(st.live) + {r.value}
  {
    var size := x.shape;
    if |size| < 3 {
      return Err(TooFewAxes(|size|));
    }
    var chanSize := size[|size| - 3];
    if chanSize != 3 {
      return Err(NotRgb(chanSize));
    }
    ghost var keep := st.live;
    var channels := st.Unbind(x, |size| - 3);
    var c0, c1, c2 := channels[0], channels[1], channels[2];
    assert (set k | 0 <= k < |channels| :: channels[k]) == {c0, c1, c2};
    assert st.live == keep + {c0, c1, c2};
    var red := st.MulScalar(c0, true);
    var green := st.MulScalar(c1, true);
    var blue := st.MulScalar(c2, true);
    assert st.live == keep + {red, green, blue};
    BroadcastOnto(red.shape, green.shape);
    var rg := st.Add(red, green, true);
    st.Drop(green);
    assert st.live == keep + {rg, blue};
    BroadcastOnto(rg.shape, blue.shape);
    var gray := st.Add(rg, blue, true);
    st.Drop(blue);
    return Ok(gray);
  }
}
