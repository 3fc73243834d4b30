/** The pixel unpacking in `_save_fingerprint_image`: the sensor sends its
    256 x 288 grey-scale image packed two pixels to a byte, high nibble
    first, in row-major order; each 4-bit level `v` becomes the 8-bit shade
    `17 * v` of a white image. */
module Pixels {
  /** One byte of the image upload. */
  newtype byte = x: int | 0 <= x < 256

  const Width: int := 256
  const Height: int := 288

  /** The number of bytes that fill the image. */
  const Capacity: int := 36864

  /** `((byte >> 4) & mask) * 17` with `mask = 0b00001111`. */
  function HighShade(b: byte): (v: int)
    ensures 0 <= v <= 255 && v % 17 == 0
    ensures v / 17 == b as int / 16
  {
    (b as int / 16) % 16 * 17
  }

  /** `(byte & mask) * 17`. */
  function LowShade(b: byte): (v: int)
    ensures 0 <= v <= 255 && v % 17 == 0
    ensures v / 17 == b as int % 16
  {
    b as int % 16 * 17
  }

  /** The shade pixel `(x, y)` ends with: the high or low nibble of the byte
      that covers it, or white when the data stops short of it. */
  function Shade(data: seq<byte>, x: int, y: int): (v: int)
    requires 0 <= x < Width && 0 <= y < Height
    ensures 0 <= v <= 255 && v % 17 == 0
    ensures (x + 256 * y) / 2 >= |data| ==> v == 255
  {
    var p := x + 256 * y;
    if p / 2 < |data| then (if p % 2 == 0 then HighShade(data[p / 2]) else LowShade(data[p / 2]))
    else 255
  }

  /** Two shades packed back into the byte they came from. */
  function Repack(high: int, low: int): int {
    high / 17 * 16 + low / 17
  }

  /** Unpacking loses nothing: byte `j` of the data is the pair of pixels at
      positions `2j` and `2j + 1` of the image, read in row-major order. */
  lemma ShadesRoundTrip(data: seq<byte>, j: int)
    requires 0 <= j < |data| && j < Capacity
    ensures var (x, y) := (2 * j % 256, 2 * j / 256);
            && 0 <= y < Height && x + 1 < Width
            && Repack(Shade(data, x, y), Shade(data, x + 1, y)) == data[j] as int
  {
    var b := data[j] as int;
    var (x, y) := (2 * j % 256, 2 * j / 256);
    assert x + 256 * y == 2 * j;
    assert Shade(data, x, y) == (b / 16) % 16 * 17;
    assert Shade(data, x + 1, y) == b % 16 * 17;
  }

  /** The unpacking loop of `_save_fingerprint_image` over the uploaded
      bytes `result`. Pixel access outside the image raises `IndexError`;
      the loop reaches it exactly when more than `Capacity` bytes arrive,
      after every pixel has been written. */
  method UnpackImage(result: seq<byte>) returns (img: array2<int>, raised: bool)
    ensures fresh(img) && img.Length0 == Width && img.Length1 == Height
    ensures raised <==> |result| > Capacity
    ensures forall x, y :: 0 <= x < Width && 0 <= y < Height ==> img[x, y] == Shade(result, x, y)
  {
    img := new int[256, 288]((x, y) => 255);
    var x, y := 0, 0;
    var j := 0;
    while j < |result|
      invariant 0 <= j <= |result| && j <= Capacity
      invariant x + 256 * y == 2 * j && 0 <= x < Width && x % 2 == 0 && 0 <= y <= Height
      invariant forall a, b :: 0 <= a < Width && 0 <= b < Height ==>
                  img[a, b] == if a + 256 * b < 2 * j then Shade(result, a, b) else 255
    {
      if y >= Height {
        return img, true;
      }
      img[x, y] := HighShade(result[j]);
      x := x + 1;
      img[x, y] := LowShade(result[j]);
      if x == 255 {
        x := 0;
        y := y + 1;
      } else {
        x := x + 1;
      }
      j := j + 1;
    }
    raised := false;
  }
}
