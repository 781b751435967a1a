/** Pixel buffers as PIL and numpy hold them: a grid of height rows of width
    pixels, 8 bits per channel, and the error values the request flows can end in. */
module Raster {

  type Byte = x: int | 0 <= x < 256

  /** One RGBA pixel. In an RGB-mode picture the `a` field carries no meaning. */
  datatype Pixel = Pixel(r: Byte, g: Byte, b: Byte, a: Byte)

  /** The two PIL modes the flows see: diffusion output is RGB, uploads may be either. */
  datatype Mode = RGB | RGBA

  datatype Picture = Picture(mode: Mode, height: nat, width: nat, rows: seq<seq<Pixel>>)

  /** `rows` is a height x width grid. */
  predicate IsGrid(rows: seq<seq<Pixel>>, height: nat, width: nat) {
    |rows| == height && forall i | 0 <= i < |rows| :: |rows[i]| == width
  }

  /** Every decoded image is rectangular. */
  type Raster = p: Picture | IsGrid(p.rows, p.height, p.width) witness Picture(RGB, 0, 0, [])

  /** Why a request fails: numpy rejecting a boolean mask of the wrong shape, an
      undecodable upload, an exception from one of the two models, or PIL
      refusing to save a picture in the format its file name selects. */
  datatype Error = ShapeMismatch | DecodeError | InferenceError | EncodeError

  datatype Result<+T> = Ok(value: T) | Err(error: Error)

  /** `Image.convert("RGBA")`: an RGB picture gets alpha 255 everywhere, an RGBA
      picture is returned as it is. */
  function ToRgba(p: Raster): (q: Raster)
    ensures q.mode == RGBA && q.height == p.height && q.width == p.width
    ensures forall i, j | 0 <= i < p.height && 0 <= j < p.width ::
              q.rows[i][j].r == p.rows[i][j].r && q.rows[i][j].g == p.rows[i][j].g &&
              q.rows[i][j].b == p.rows[i][j].b
    ensures p.mode == RGB ==> forall i, j | 0 <= i < p.height && 0 <= j < p.width :: q.rows[i][j].a == 255
    ensures p.mode == RGBA ==> q == p
  {
    if p.mode == RGBA then p
    else
      var rows := seq(p.height, i requires 0 <= i < p.height =>
                    seq(p.width, j requires 0 <= j < p.width => p.rows[i][j].(a := 255)));
      Picture(RGBA, p.height, p.width, rows)
  }

  /** Converting twice is converting once. */
  lemma ToRgbaIdempotent(p: Raster)
    ensures ToRgba(ToRgba(p)) == ToRgba(p)
  {
  }
}
