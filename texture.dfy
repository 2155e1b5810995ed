// Textures (texture.cpp): an image expanded to four bytes per texel for the
// GPU, and the way pixels are read back from the GPU into an image. The GPU
// itself is not modelled: the handle it hands out and the bytes it returns
// are parameters, and what is uploaded is kept in a field.

module Textures {
  import opened Common
  import opened Images

  /** OpenGL pixel-format codes. */
  const DepthComponent: UInt32 := 0x1902
  const Rgb: UInt32 := 0x1907
  const Rgba: UInt32 := 0x1908

  /** Bytes a source pixel takes while building texels: four with alpha,
      three otherwise. */
  function ExpandStride(depth: nat): nat
  {
    if depth == 4 then 4 else 3
  }

  /** The images whose pixel vector holds every byte the expansion reads. */
  predicate Expandable(img: Image)
  {
    |img.pixels| >= img.width * img.height * ExpandStride(img.depth)
  }

  /** Where the expansion reads pixel `p`. */
  function SourceStart(img: Image, p: nat): nat
  {
    p * ExpandStride(img.depth)
  }

  /** The texel of pixel `p` (counted row by row): red, green and blue, then
      the source alpha for four channels or an opaque 0xff otherwise. */
  function Texel(img: Image, p: nat): (t: seq<Byte>)
    ensures |t| == 4
  {
    var s := SourceStart(img, p);
    [ByteAt(img, s), ByteAt(img, s + 1), ByteAt(img, s + 2),
     if img.depth == 4 then ByteAt(img, s + 3) else 0xff]
  }

  /** The texels of the first `k` pixels, row by row. */
  function TexelsUpTo(img: Image, k: nat): (r: seq<Byte>)
    ensures |r| == 4 * k
  {
    if k == 0 then [] else TexelsUpTo(img, k - 1) + Texel(img, k - 1)
  }

  /** The texel buffer handed to the GPU. */
  function Texels(img: Image): seq<Byte>
  {
    TexelsUpTo(img, img.width * img.height)
  }

  /** Byte `c` of the texel of pixel `p` sits at 4*p + c. */
  lemma {:induction false} TexelsUpToAt(img: Image, k: nat, p: nat, c: nat)
    requires p < k && c < 4
    ensures TexelsUpTo(img, k)[4 * p + c] == Texel(img, p)[c]
    decreases k
  {
    if p < k - 1 {
      TexelsUpToAt(img, k - 1, p, c);
    }
  }

  /** Cell x of row y of a w-by-h grid, counted row by row, is before the
      end, and so are its `s` bytes in a buffer of `s` bytes per cell. */
  lemma CellInGrid(w: nat, h: nat, y: nat, x: nat, s: nat)
    requires y < h && x < w
    ensures y * w + x < w * h
    ensures (y * w + x) * s + s <= w * h * s
  {
    MulLe(y + 1, h, w);
    MulLe(y * w + x + 1, w * h, s);
  }

  /** The buffer holds four bytes per pixel; byte `c` of pixel (x, y) copies
      byte `c` of that source pixel, except that the fourth byte is 0xff when
      the image has no alpha; every byte read lies in the pixel vector. */
  lemma TexelAt(img: Image, x: nat, y: nat, c: nat)
    requires Expandable(img) && x < img.width && y < img.height && c < 4
    ensures |Texels(img)| == img.width * img.height * 4
    ensures var p := y * img.width + x;
      var s := p * ExpandStride(img.depth);
      s + ExpandStride(img.depth) <= |img.pixels| &&
      4 * p + c < |Texels(img)| &&
      Texels(img)[4 * p + c] == if c == 3 && img.depth != 4 then 0xff else img.pixels[s + c]
  {
    var p := y * img.width + x;
    CellInGrid(img.width, img.height, y, x, ExpandStride(img.depth));
    TexelsUpToAt(img, img.width * img.height, p, c);
  }

  /** Texture(SP_Image)'s buffer: width*height*4 bytes, filled by the
      expansion loops. */
  method ExpandTexels(img: Image) returns (texels: array<Byte>)
    requires Expandable(img)
    ensures fresh(texels)
    ensures texels[..] == Texels(img)
  {
    texels := new Byte[img.width * img.height * 4];
    ExpandRows(img, texels);
  }

  /** The outer expansion loop: row after row, the texels of every pixel,
      with the source index carried from one row to the next. */
  method ExpandRows(img: Image, texels: array<Byte>)
    requires Expandable(img) && texels.Length == img.width * img.height * 4
    modifies texels
    ensures texels[..] == Texels(img)
  {
    var iSrc: nat := 0;
    var iDst: nat := 0;
    ghost var first: nat := 0;
    var y := 0;
    while y < img.height
      invariant 0 <= y <= img.height && first == RowStart(y, img.width) && first <= img.width * img.height
      invariant iDst == 4 * first && iSrc == SourceStart(img, first)
      invariant texels[..iDst] == TexelsUpTo(img, first)
    {
      RowWithin(y + 1, img.width, img.height);
      iSrc, iDst := ExpandRow(img, texels, iSrc, iDst, first);
      first := first + img.width;
      y := y + 1;
    }
    AllRows(img.width, img.height);
    assert texels[..] == texels[..iDst];
  }

  /** The inner loop: the texels of the row whose first pixel is `first`,
      written after those of the rows before it. */
  method ExpandRow(img: Image, texels: array<Byte>, iSrc: nat, iDst: nat, ghost first: nat)
    returns (nextSrc: nat, nextDst: nat)
    requires Expandable(img) && texels.Length == img.width * img.height * 4
    requires first + img.width <= img.width * img.height
    requires iDst == 4 * first && iSrc == SourceStart(img, first)
    requires texels[..iDst] == TexelsUpTo(img, first)
    modifies texels
    ensures nextDst == 4 * (first + img.width) && nextSrc == SourceStart(img, first + img.width)
    ensures texels[..nextDst] == TexelsUpTo(img, first + img.width)
  {
    nextSrc, nextDst := iSrc, iDst;
    ghost var p := first;
    var x := 0;
    while x < img.width
      invariant 0 <= x <= img.width && p == first + x
      invariant nextDst == 4 * p && nextSrc == SourceStart(img, p)
      invariant texels[..nextDst] == TexelsUpTo(img, p)
    {
      nextSrc, nextDst := ExpandPixel(img, texels, nextSrc, nextDst, p);
      p := p + 1;
      x := x + 1;
    }
  }

  /** One pass of the inner loop: the texel of pixel `p` appended after the
      texels of the pixels before it. */
  method ExpandPixel(img: Image, texels: array<Byte>, iSrc: nat, iDst: nat, ghost p: nat)
    returns (nextSrc: nat, nextDst: nat)
    requires Expandable(img) && p < img.width * img.height && texels.Length == img.width * img.height * 4
    requires iDst == 4 * p && iSrc == SourceStart(img, p)
    requires texels[..iDst] == TexelsUpTo(img, p)
    modifies texels
    ensures nextDst == 4 * (p + 1) && nextSrc == SourceStart(img, p + 1)
    ensures texels[..nextDst] == TexelsUpTo(img, p + 1)
  {
    CellBound(p, img.width * img.height, ExpandStride(img.depth));
    PutTexel(img, texels, iSrc, iDst, p);
    nextSrc, nextDst := iSrc + ExpandStride(img.depth), iDst + 4;
  }

  /** Cell p of n cells of s bytes each ends inside the buffer. */
  lemma CellBound(p: nat, n: nat, s: nat)
    requires p < n
    ensures p * s + s <= n * s && (p + 1) * s == p * s + s
  {
    MulLe(p + 1, n, s);
  }

  /** One pass of the inner loop: the texel of pixel `p` written at 4*p. */
  method PutTexel(img: Image, texels: array<Byte>, iSrc: nat, iDst: nat, ghost p: nat)
    requires iDst == 4 * p && iSrc == SourceStart(img, p)
    requires 4 * p + 4 <= texels.Length
    requires SourceStart(img, p) + ExpandStride(img.depth) <= |img.pixels|
    modifies texels
    ensures texels[..4 * p + 4] == old(texels[..4 * p]) + Texel(img, p)
  {
    texels[iDst] := img.pixels[iSrc];
    texels[iDst + 1] := img.pixels[iSrc + 1];
    texels[iDst + 2] := img.pixels[iSrc + 2];
    if img.depth == 4 {
      texels[iDst + 3] := img.pixels[iSrc + 3];
    } else {
      texels[iDst + 3] := 0xff;
    }
    assert texels[..4 * p + 4] == old(texels[..4 * p]) + Texel(img, p);
  }

  /** The bytes per pixel read_pixels asks the GPU for: 1, 3 or 4 for the
      depth, RGB and RGBA formats, none for any other format. */
  function BytesPerPixel(format: UInt32): (r: Option<nat>)
    ensures r.Some? <==> format == DepthComponent || format == Rgb || format == Rgba
    ensures r.Some? ==> r.value == (if format == DepthComponent then 1 else if format == Rgb then 3 else 4)
  {
    if format == DepthComponent then Some(1)
    else if format == Rgb then Some(3)
    else if format == Rgba then Some(4)
    else None
  }

  /** read_pixels as written: the vector only has room reserved, so it stays
      empty whatever the GPU writes, and the image is labelled with the
      texture's channel count rather than the bytes read per pixel. */
  function ReadPixelsAsWritten(width: int, height: int, depth: int, name: string): Image
    requires width >= 0 && height >= 0 && depth >= 0
  {
    Image([], width, height, depth, name + " image")
  }

  /** A texture of any size reads back as an image with no pixels at all, so
      write_pnm cannot write it unless it is empty; a texture made from an RGB
      image is labelled with three channels though four bytes per pixel were
      read. */
  lemma ReadPixelsAsWrittenIsEmpty(width: int, height: int, depth: int, name: string)
    requires width >= 0 && height >= 0 && depth >= 0
    ensures var img := ReadPixelsAsWritten(width, height, depth, name);
      |img.pixels| == 0 && img.depth == depth &&
      (width * height * depth > 0 ==> !Writable(img))
    ensures BytesPerPixel(Rgba) == Some(4)
  {
  }

  class Texture {
    const handle: UInt32
    const pixelFormat: UInt32
    const width: int
    const height: int
    const depth: int
    const name: string
    /** The texels given to the GPU, when the texture was built from an image. */
    const uploaded: seq<Byte>

    /** A texture around an existing GPU texture object. */
    constructor FromHandle(handle: UInt32, width: int, height: int, pixelFormat: UInt32, depth: int, name: string)
      ensures this.handle == handle && this.width == width && this.height == height
      ensures this.pixelFormat == pixelFormat && this.depth == depth && this.name == name
      ensures uploaded == []
    {
      this.handle := handle;
      this.width := width;
      this.height := height;
      this.pixelFormat := pixelFormat;
      this.depth := depth;
      this.name := name;
      uploaded := [];
    }

    /** Texture(SP_Image): the image's size and channel count, its name
        followed by " texture", the RGBA format, and its texels uploaded;
        `handle` is the texture object the GPU created. */
    constructor FromImage(img: Image, handle: UInt32)
      requires Expandable(img)
      ensures this.handle == handle
      ensures width == img.width && height == img.height && depth == img.depth
      ensures name == img.name + " texture" && pixelFormat == Rgba
      ensures uploaded == Texels(img) && |uploaded| == img.width * img.height * 4
    {
      this.handle := handle;
      width := img.width;
      height := img.height;
      depth := img.depth;
      name := img.name + " texture";
      var texels := ExpandTexels(img);
      pixelFormat := Rgba;
      uploaded := texels[..];
      if img.width > 0 && img.height > 0 {
        TexelAt(img, 0, 0, 0);
      } else {
        assert img.width * img.height == 0;
      }
    }

    /** read_pixels, with the vector sized to the bytes read: `gpu` is what
        the GPU returns in the texture's format. An unsupported format is
        fatal when errors are; otherwise one byte per pixel is read. The
        image has width*height*bytes-per-pixel bytes and that many channels. */
    method ReadPixels(gpu: seq<Byte>, dieOnError: bool) returns (r: Result<Image>)
      requires width >= 0 && height >= 0
      requires |gpu| >= width * height * 4
      ensures BytesPerPixel(pixelFormat).None? && dieOnError <==> r.Failure?
      ensures r.Failure? ==> r.error == UnsupportedFormat(pixelFormat)
      ensures r.Success? ==>
        var bpp := if BytesPerPixel(pixelFormat).Some? then BytesPerPixel(pixelFormat).value else 1;
        r.value == Image(gpu[..width * height * bpp], width, height, bpp, name + " image") &&
        Writable(r.value)
    {
      var bytesPerPixel := 1;
      if pixelFormat == DepthComponent {
        bytesPerPixel := 1;
      } else if pixelFormat == Rgb {
        bytesPerPixel := 3;
      } else if pixelFormat == Rgba {
        bytesPerPixel := 4;
      } else if dieOnError {
        return Failure(UnsupportedFormat(pixelFormat));
      }
      var numBytes := width * height * bytesPerPixel;
      MulLe(bytesPerPixel, 4, width * height);
      var pixels := gpu[..numBytes];
      return Success(Image(pixels, width, height, bytesPerPixel, name + " image"));
    }
  }
}
