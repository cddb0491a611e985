/** save_as_tga and the two depth screenshot helpers (src/screen.cpp). The header is the 18-byte
    header of the Truevision TGA 2.0 file format: field 1 ID length, field 2 colour map type,
    field 3 image type, field 4 colour map specification (first entry index, length, entry size),
    field 5 image specification (x origin, y origin, width, height, pixel depth, descriptor).
    The C struct is packed (#pragma pack(1)) and its 16-bit fields are stored little-endian. */
module Tga {
  import opened Common

  /** screen::ImageType; an enum class can also hold a value that has no name. */
  datatype ImageType = Rgb | Greyscale | Unnamed(code: int)

  /** Image type 2: uncompressed true-colour. Image type 3: uncompressed black-and-white. */
  const TRUE_COLOUR: byte := 2
  const BLACK_AND_WHITE: byte := 3

  const HEADER_SIZE := 18

  datatype Header = Header(
    identSize: byte, cmapType: byte, imageType: byte,
    cmapStart: int, cmapSize: int, cmapBpp: byte,
    xOrigin: int, yOrigin: int, width: int, height: int,
    bpp: byte, descriptor: byte)

  predicate IsShort(v: int) { -0x8000 <= v < 0x8000 }

  predicate ValidHeader(h: Header)
  {
    IsShort(h.cmapStart) && IsShort(h.cmapSize) && IsShort(h.xOrigin) && IsShort(h.yOrigin)
    && IsShort(h.width) && IsShort(h.height)
  }

  /** `(short)n` for a size_t n: the low 16 bits, read as a two's-complement number. */
  function ToShort(n: nat): (s: int)
    ensures IsShort(s)
    ensures (n - s) % 0x1_0000 == 0
  {
    var low := n % 0x1_0000;
    if low < 0x8000 then low else low - 0x1_0000
  }

  /** The header save_as_tga fills in: zero everywhere except image type, pixel depth and size. */
  function MakeHeader(t: ImageType, width: nat, height: nat): (h: Header)
    ensures ValidHeader(h)
  {
    var (imageType, bpp) := match t
      case Greyscale => (BLACK_AND_WHITE, 8 as byte)
      case _ => (TRUE_COLOUR, 24 as byte);
    Header(0, 0, imageType, 0, 0, 0, 0, 0, ToShort(width), ToShort(height), bpp, 0)
  }

  /** A 16-bit field as it lies in memory on a little-endian host. */
  function EncodeShort(v: int): (bs: seq<byte>)
    requires IsShort(v)
    ensures |bs| == 2
  {
    var u := if v < 0 then v + 0x1_0000 else v;
    [(u % 256) as byte, (u / 256) as byte]
  }

  function DecodeShort(lo: byte, hi: byte): (v: int)
    ensures IsShort(v)
  {
    var u := lo as int + 256 * hi as int;
    if u < 0x8000 then u else u - 0x1_0000
  }

  lemma ShortRoundTrip(v: int)
    requires IsShort(v)
    ensures DecodeShort(EncodeShort(v)[0], EncodeShort(v)[1]) == v
  {
  }

  /** The header bytes in file order. */
  function EncodeHeader(h: Header): (bs: seq<byte>)
    requires ValidHeader(h)
    ensures |bs| == HEADER_SIZE
  {
    [h.identSize, h.cmapType, h.imageType]
    + EncodeShort(h.cmapStart) + EncodeShort(h.cmapSize) + [h.cmapBpp]
    + EncodeShort(h.xOrigin) + EncodeShort(h.yOrigin)
    + EncodeShort(h.width) + EncodeShort(h.height)
    + [h.bpp, h.descriptor]
  }

  /** How a TGA reader sees the first 18 bytes of a file. */
  function DecodeHeader(bs: seq<byte>): Header
    requires |bs| >= HEADER_SIZE
  {
    Header(bs[0], bs[1], bs[2],
      DecodeShort(bs[3], bs[4]), DecodeShort(bs[5], bs[6]), bs[7],
      DecodeShort(bs[8], bs[9]), DecodeShort(bs[10], bs[11]),
      DecodeShort(bs[12], bs[13]), DecodeShort(bs[14], bs[15]),
      bs[16], bs[17])
  }

  /** Every header save_as_tga can write reads back as itself. */
  lemma HeaderRoundTrip(h: Header)
    requires ValidHeader(h)
    ensures DecodeHeader(EncodeHeader(h)) == h
  {
    var bs := EncodeHeader(h);
    ShortRoundTrip(h.cmapStart);
    ShortRoundTrip(h.cmapSize);
    ShortRoundTrip(h.xOrigin);
    ShortRoundTrip(h.yOrigin);
    ShortRoundTrip(h.width);
    ShortRoundTrip(h.height);
    assert bs[3..5] == EncodeShort(h.cmapStart);
    assert bs[5..7] == EncodeShort(h.cmapSize);
    assert bs[8..10] == EncodeShort(h.xOrigin);
    assert bs[10..12] == EncodeShort(h.yOrigin);
    assert bs[12..14] == EncodeShort(h.width);
    assert bs[14..16] == EncodeShort(h.height);
  }

  /** save_as_tga: the file is the header followed by the first data_size bytes of data. */
  function SaveAsTga(data: seq<byte>, dataSize: nat, width: nat, height: nat, t: ImageType): (file: seq<byte>)
    requires dataSize <= |data|
    ensures |file| == HEADER_SIZE + dataSize
    ensures file[HEADER_SIZE..] == data[..dataSize]
    ensures DecodeHeader(file) == MakeHeader(t, width, height)
    ensures file[2] == (if t == Greyscale then BLACK_AND_WHITE else TRUE_COLOUR)
    ensures file[16] == (if t == Greyscale then 8 else 24)
    ensures DecodeShort(file[12], file[13]) == ToShort(width)
    ensures DecodeShort(file[14], file[15]) == ToShort(height)
    ensures forall k :: k in {0, 1, 3, 4, 5, 6, 7, 8, 9, 10, 11, 17} ==> file[k] == 0
  {
    var h := MakeHeader(t, width, height);
    HeaderRoundTrip(h);
    EncodeHeader(h) + data[..dataSize]
  }

  /** screen::depth_2D_screenshot: `pixels` are the width*height depth bytes glReadPixels returns.
      The file is always greyscale, whatever `t` asks for. */
  function Depth2DScreenshot(t: ImageType, width: int, height: int, pixels: seq<byte>): (file: seq<byte>)
    requires 0 <= width && 0 <= height && width * height <= INT_MAX  // int data_size = width * height
    requires |pixels| == width * height
    ensures |file| == HEADER_SIZE + width * height
    ensures DecodeHeader(file).imageType == BLACK_AND_WHITE && DecodeHeader(file).bpp == 8
    ensures file[HEADER_SIZE..] == pixels
  {
    SaveAsTga(pixels, width * height, width, height, Greyscale)
  }

  /** The image type argument of depth_2D_screenshot has no effect on the file. */
  lemma Depth2DIgnoresType(t1: ImageType, t2: ImageType, width: int, height: int, pixels: seq<byte>)
    requires 0 <= width && 0 <= height && width * height <= INT_MAX
    requires |pixels| == width * height
    ensures Depth2DScreenshot(t1, width, height, pixels) == Depth2DScreenshot(t2, width, height, pixels)
  {
  }

  /** screen::depth_3D_layer_screenshot: `layer` holds the width*height bytes read back from one
      layer of a depth texture; it is written as a greyscale image. */
  function Depth3DLayerScreenshot(width: int, height: int, layer: seq<byte>): (file: seq<byte>)
    requires 0 <= width && 0 <= height && width * height <= INT_MAX
    requires |layer| == width * height
    ensures |file| == HEADER_SIZE + width * height
    ensures DecodeHeader(file) == Header(0, 0, BLACK_AND_WHITE, 0, 0, 0, 0, 0, ToShort(width), ToShort(height), 8, 0)
    ensures file[HEADER_SIZE..] == layer
  {
    SaveAsTga(layer, width * height, width, height, Greyscale)
  }
}
