/** `make_transparent`: a chroma key on the alpha channel. The code builds its
    mask from the transposed array (`data.T`) and applies it to the untransposed
    alpha plane, so the alpha of row i, column j is cleared when the pixel at
    row j, column i has the key colour, and a picture that is not square makes
    numpy reject the mask. */
module Transparency {
  import opened Raster

  /** The chroma-key reference. Components are compared with uint8 channels, so
      a component outside 0..255 never matches. */
  datatype BgColor = BgColor(r: int, g: int, b: int)

  /** The default key of `make_transparent`. */
  const White := BgColor(255, 255, 255)

  /** Exact equality on R, G and B, with no tolerance; alpha plays no part.
      A key component outside 0..255 can never be matched by a uint8 channel. */
  predicate Matches(p: Pixel, key: BgColor)
    ensures Matches(p, key) ==> 0 <= key.r < 256 && 0 <= key.g < 256 && 0 <= key.b < 256
  {
    p.r == key.r && p.g == key.g && p.b == key.b
  }

  /** The one channel write: alpha becomes 0. */
  function Cleared(p: Pixel): Pixel {
    p.(a := 0)
  }

  /** Whether a pixel is keyed does not depend on its alpha. */
  lemma MatchIgnoresAlpha(p: Pixel, key: BgColor, alpha: Byte)
    ensures Matches(p.(a := alpha), key) <==> Matches(p, key)
  {
  }

  /** Cell (i, j) of the keyed grid, with the mask read at (j, i). */
  function KeyedCell(rows: seq<seq<Pixel>>, key: BgColor, i: nat, j: nat): Pixel
    requires i < |rows| && j < |rows| && j < |rows[i]| && i < |rows[j]|
  {
    if Matches(rows[j][i], key) then Cleared(rows[i][j]) else rows[i][j]
  }

  /** What `make_transparent(img, key)` returns: the RGBA conversion of `p`
      with the transposed mask applied, or ShapeMismatch when `p` is not square. */
  function Transparent(p: Raster, key: BgColor): (r: Result<Raster>)
    ensures r.Ok? <==> p.height == p.width
    ensures r.Ok? ==> r.value.mode == RGBA && r.value.height == p.height && r.value.width == p.width
  {
    var q := ToRgba(p);
    if q.height != q.width then Err(ShapeMismatch)
    else
      var n := q.height;
      Ok(Picture(RGBA, n, n, seq(n, i requires 0 <= i < n =>
                                   seq(n, j requires 0 <= j < n => KeyedCell(q.rows, key, i, j)))))
  }

  /** Cells of a two-dimensional array, row by row. */
  function Cells(data: array2<Pixel>): (rows: seq<seq<Pixel>>)
    reads data
    ensures IsGrid(rows, data.Length0, data.Length1)
    ensures forall i, j | 0 <= i < data.Length0 && 0 <= j < data.Length1 :: rows[i][j] == data[i, j]
  {
    seq(data.Length0, i requires 0 <= i < data.Length0 reads data =>
      seq(data.Length1, j requires 0 <= j < data.Length1 reads data => data[i, j]))
  }

  /** `data[..., 3][mask] = 0`: numpy first checks that the mask has the shape
      of the alpha plane, then clears alpha wherever the mask holds. */
  method ApplyMask(data: array2<Pixel>, mask: array2<bool>) returns (ok: bool)
    modifies data
    ensures ok <==> mask.Length0 == data.Length0 && mask.Length1 == data.Length1
    ensures !ok ==> unchanged(data)
    ensures ok ==> forall i, j | 0 <= i < data.Length0 && 0 <= j < data.Length1 ::
                     data[i, j] == if mask[i, j] then Cleared(old(data[i, j])) else old(data[i, j])
  {
    if mask.Length0 != data.Length0 || mask.Length1 != data.Length1 {
      return false;
    }
    var i := 0;
    while i < data.Length0
      invariant 0 <= i <= data.Length0
      invariant forall x, y | 0 <= x < i && 0 <= y < data.Length1 ::
                  data[x, y] == if mask[x, y] then Cleared(old(data[x, y])) else old(data[x, y])
      invariant forall x, y | i <= x < data.Length0 && 0 <= y < data.Length1 :: data[x, y] == old(data[x, y])
    {
      var j := 0;
      while j < data.Length1
        invariant 0 <= j <= data.Length1
        invariant forall x, y | 0 <= x < i && 0 <= y < data.Length1 ::
                    data[x, y] == if mask[x, y] then Cleared(old(data[x, y])) else old(data[x, y])
        invariant forall y | 0 <= y < j ::
                    data[i, y] == if mask[i, y] then Cleared(old(data[i, y])) else old(data[i, y])
        invariant forall x, y | i <= x < data.Length0 && 0 <= y < data.Length1 && (x > i || y >= j) ::
                    data[x, y] == old(data[x, y])
      {
        if mask[i, j] {
          data[i, j] := Cleared(data[i, j]);
        }
        j := j + 1;
      }
      i := i + 1;
    }
    return true;
  }

  /** `make_transparent`: convert to RGBA, copy into an array, build the mask from
      the transposed R, G and B planes, apply it to the alpha plane in place. */
  method MakeTransparent(img: Raster, key: BgColor) returns (r: Result<Raster>)
    ensures r == Transparent(img, key)
  {
    var q := ToRgba(img);
    var h, w := q.height, q.width;
    var data := new Pixel[h, w]((i, j) requires 0 <= i < h && 0 <= j < w => q.rows[i][j]);
    // r, g, b, a = data.T: the planes have shape w x h.
    var mask := new bool[w, h]((x, y) requires 0 <= x < w && 0 <= y < h => Matches(q.rows[y][x], key));
    var ok := ApplyMask(data, mask);
    if !ok {
      return Err(ShapeMismatch);
    }
    var rows := Cells(data);
    r := Ok(Picture(RGBA, h, w, rows));
    var spec := Transparent(img, key).value.rows;
    forall i | 0 <= i < h
      ensures rows[i] == spec[i]
    {
      assert forall j | 0 <= j < w :: rows[i][j] == KeyedCell(q.rows, key, i, j);
    }
    assert spec == rows;
  }

  // ---- Properties of the transform ----

  /** Height, width and every R, G and B value survive; alpha is either kept
      from the RGBA conversion or lowered to 0, never raised. */
  lemma KeepsColours(p: Raster, key: BgColor, i: nat, j: nat)
    requires p.height == p.width && i < p.height && j < p.width
    ensures var out := Transparent(p, key).value.rows[i][j];
            var before := ToRgba(p).rows[i][j];
            out.r == p.rows[i][j].r && out.g == p.rows[i][j].g && out.b == p.rows[i][j].b &&
            (out.a == before.a || out.a == 0) && out.a <= before.a
  {
  }

  /** The transposition rule: for a square picture the alpha at (i, j) is 0
      exactly when the pixel at (j, i) has the key colour or was already
      transparent; otherwise it keeps its converted value (255 for RGB input). */
  lemma TransposedRule(p: Raster, key: BgColor, i: nat, j: nat)
    requires p.height == p.width && i < p.height && j < p.width
    ensures Transparent(p, key).value.rows[i][j].a == 0 <==>
              Matches(p.rows[j][i], key) || ToRgba(p).rows[i][j].a == 0
    ensures !Matches(p.rows[j][i], key) ==>
              Transparent(p, key).value.rows[i][j].a == (if p.mode == RGB then 255 else p.rows[i][j].a)
  {
  }

  /** On the diagonal the transposed mask is the plain key. */
  lemma DiagonalIsPlainKey(p: Raster, key: BgColor, i: nat)
    requires p.height == p.width && i < p.height
    ensures Transparent(p, key).value.rows[i][i].a == 0 <==>
              Matches(p.rows[i][i], key) || ToRgba(p).rows[i][i].a == 0
  {
  }

  /** Keying twice with the same colour is keying once: the mask only reads R, G
      and B, which the transform never changes. */
  lemma Idempotent(p: Raster, key: BgColor)
    requires p.height == p.width
    ensures Transparent(Transparent(p, key).value, key) == Transparent(p, key)
  {
    var once := Transparent(p, key).value;
    var twice := Transparent(once, key).value;
    var n := p.height;
    assert ToRgba(once) == once;
    forall i | 0 <= i < n
      ensures twice.rows[i] == once.rows[i]
    {
      forall j | 0 <= j < n
        ensures twice.rows[i][j] == once.rows[i][j]
      {
        KeepsColours(p, key, j, i);
      }
    }
    assert twice.rows == once.rows;
  }

  /** A square picture entirely in the key colour becomes entirely transparent. */
  lemma UniformKeyVanishes(p: Raster, key: BgColor)
    requires p.height == p.width
    requires forall i, j | 0 <= i < p.height && 0 <= j < p.width :: Matches(p.rows[i][j], key)
    ensures forall i, j | 0 <= i < p.height && 0 <= j < p.width :: Transparent(p, key).value.rows[i][j].a == 0
  {
  }

  const WhitePixel := Pixel(255, 255, 255, 255)
  const RedPixel := Pixel(255, 0, 0, 255)

  /** A 2 x 2 all-white RGB picture keyed on white has alpha 0 everywhere. */
  lemma AllWhiteTwoByTwo()
    ensures var out := Transparent(Picture(RGB, 2, 2, [[WhitePixel, WhitePixel], [WhitePixel, WhitePixel]]), White);
            out.Ok? && forall i, j | 0 <= i < 2 && 0 <= j < 2 :: out.value.rows[i][j].a == 0
  {
  }

  /** One red pixel at row 0, column 1 among three white ones: exactly one cell
      stays opaque, but it is the white cell at row 1, column 0, while the red
      pixel itself becomes transparent. */
  lemma OffDiagonalRedPixel()
    ensures var out := Transparent(Picture(RGB, 2, 2, [[WhitePixel, RedPixel], [WhitePixel, WhitePixel]]), White);
            out.Ok? &&
            out.value.rows[0][1] == RedPixel.(a := 0) && out.value.rows[1][0] == WhitePixel &&
            out.value.rows[0][0].a == 0 && out.value.rows[1][1].a == 0
  {
  }

  /** The same red pixel on the diagonal behaves as a plain chroma key would. */
  lemma DiagonalRedPixel()
    ensures var out := Transparent(Picture(RGB, 2, 2, [[RedPixel, WhitePixel], [WhitePixel, WhitePixel]]), White);
            out.Ok? &&
            out.value.rows[0][0] == RedPixel &&
            out.value.rows[0][1].a == 0 && out.value.rows[1][0].a == 0 && out.value.rows[1][1].a == 0
  {
  }

  /** A picture that is not square is rejected whatever its contents. */
  lemma NonSquareRejected(p: Raster, key: BgColor)
    requires p.height != p.width
    ensures Transparent(p, key) == Err(ShapeMismatch)
  {
  }
}
