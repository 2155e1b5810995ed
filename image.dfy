// In-memory images and their output as binary PGM/PPM files (image.cpp).

module Images {
  import opened Common
  import opened Decimal

  /** Pixels stored bottom row first, `depth` bytes per pixel. */
  datatype Image = Image(pixels: seq<Byte>, width: nat, height: nat, depth: nat, name: string)

  /** Bytes written per pixel: grey for one channel, red-green-blue otherwise. */
  function TargetBytesPerPixel(depth: nat): nat
  {
    if depth == 1 then 1 else 3
  }

  /** How far the source index moves per pixel: the bytes copied, plus the
      alpha byte skipped when there are more than three channels. */
  function SourceStride(depth: nat): nat
  {
    if depth == 1 then 1 else if depth > 3 then 4 else 3
  }

  /** The images write_pnm handles: one, three or four channels, and room for
      every pixel. With two channels, or none, it would read three bytes per
      pixel from a row of fewer; beyond four it would still move on four bytes
      per pixel (SourceIndexBeyondFour). */
  predicate Writable(img: Image)
  {
    (img.depth == 1 || img.depth == 3 || img.depth == 4) &&
    |img.pixels| >= img.width * img.height * img.depth
  }

  predicate IsAscii(s: string)
  {
    forall i :: 0 <= i < |s| ==> s[i] as int < 256
  }

  function AsciiBytes(s: string): (b: seq<Byte>)
    requires IsAscii(s)
    ensures |b| == |s|
  {
    seq(|s|, i requires 0 <= i < |s| => s[i] as int)
  }

  /** "P5" for grey, "P6" for colour, then width, height and the maximum value 255. */
  function PnmHeaderText(img: Image): (s: string)
    ensures IsAscii(s)
  {
    (if img.depth == 1 then "P5\n" else "P6\n")
      + NatToString(img.width) + " " + NatToString(img.height) + "\n" + "255\n"
  }

  /** Bytes per source row. */
  function RowSize(img: Image): nat
  {
    img.width * img.depth
  }

  /** Where write_pnm reads pixel `x` of source row `sy`. */
  function SourceIndex(img: Image, sy: nat, x: nat): nat
  {
    sy * RowSize(img) + x * SourceStride(img.depth)
  }

  /** For the images it can write, write_pnm reads pixel x of source row sy
      where that pixel starts, skipping the alpha byte of four channels. */
  lemma SourceIndexIsPixelStart(img: Image, sy: nat, x: nat)
    requires Writable(img)
    ensures SourceIndex(img, sy, x) == (sy * img.width + x) * img.depth
  {
  }

  /** With five channels the source still moves on four bytes per pixel, so
      pixel 1 of a row would be read from the last byte of pixel 0. */
  lemma SourceIndexBeyondFour()
    ensures var img := Image([1, 2, 3, 4, 5, 6, 7, 8, 9, 10], 2, 1, 5, "five");
      SourceIndex(img, 0, 1) == 4 && SourceIndex(img, 0, 1) < 1 * img.depth &&
      ByteAt(img, SourceIndex(img, 0, 1)) == 5 && !Writable(img)
  {
  }

  /** A source byte; the default is never used for a writable image (SourceInRange). */
  function ByteAt(img: Image, i: nat): Byte
  {
    if i < |img.pixels| then img.pixels[i] else 0
  }

  /** The bytes written for the pixel whose first byte is at `i`. */
  function PixelOut(img: Image, i: nat): seq<Byte>
  {
    if img.depth == 1 then [ByteAt(img, i)] else [ByteAt(img, i), ByteAt(img, i + 1), ByteAt(img, i + 2)]
  }

  /** The blocks one after another. */
  function Concat(blocks: seq<seq<Byte>>): seq<Byte>
    decreases |blocks|
  {
    if |blocks| == 0 then [] else Concat(blocks[..|blocks| - 1]) + blocks[|blocks| - 1]
  }

  /** The pixels of source row `sy`, left to right, as written to the file. */
  function RowPixels(img: Image, sy: nat): (r: seq<seq<Byte>>)
    ensures |r| == img.width
  {
    seq(img.width, x requires 0 <= x < img.width => PixelOut(img, SourceIndex(img, sy, x)))
  }

  /** The written rows, top to bottom: file row y holds source row height-1-y. */
  function BodyRows(img: Image): (r: seq<seq<Byte>>)
    ensures |r| == img.height
  {
    seq(img.height, y requires 0 <= y < img.height => Concat(RowPixels(img, img.height - 1 - y)))
  }

  /** The whole file. */
  function PnmBytes(img: Image): seq<Byte>
  {
    AsciiBytes(PnmHeaderText(img)) + Concat(BodyRows(img))
  }

  /** Offset `k` of block `y` comes before the end of `m` blocks of `size`. */
  lemma BlockBefore(y: nat, m: nat, size: nat, k: nat)
    requires y < m && k < size
    ensures y * size + k < m * size
  {
    MulLe(y + 1, m, size);
  }

  lemma Distribute(y: nat, w: nat, x: nat, b: nat, c: nat)
    ensures (y * w + x) * b + c == y * (w * b) + (x * b + c)
  {
  }

  lemma MulLe(a: nat, b: nat, c: nat)
    requires a <= b
    ensures a * c <= b * c
  {
  }

  /** Where row `y` starts when each row holds `w` items. */
  function RowStart(y: nat, w: nat): nat
  {
    if y == 0 then 0 else RowStart(y - 1, w) + w
  }

  lemma {:induction false} RowStartIs(y: nat, w: nat)
    ensures RowStart(y, w) == y * w
    decreases y
  {
    if y > 0 {
      RowStartIs(y - 1, w);
    }
  }

  /** Row y ends inside a grid of h rows. */
  lemma RowWithin(y: nat, w: nat, h: nat)
    requires y <= h
    ensures RowStart(y, w) <= w * h
  {
    RowStartIs(y, w);
    MulLe(y, h, w);
  }

  /** All h rows are the whole grid. */
  lemma AllRows(w: nat, h: nat)
    ensures RowStart(h, w) == w * h
  {
    RowStartIs(h, w);
  }

  /** Every byte write_pnm reads lies inside the pixel vector. */
  lemma SourceInRange(img: Image, sy: nat, x: nat)
    requires Writable(img) && sy < img.height && x < img.width
    ensures SourceIndex(img, sy, x) + TargetBytesPerPixel(img.depth) <= |img.pixels|
  {
    PixelInRow(img.width, img.depth, x);
    MulLe(sy + 1, img.height, RowSize(img));
    ImageSize(img.width, img.height, img.depth);
  }

  /** The bytes of pixel x lie inside its row. */
  lemma PixelInRow(w: nat, d: nat, x: nat)
    requires x < w && (d == 1 || d >= 3)
    ensures x * SourceStride(d) + TargetBytesPerPixel(d) <= w * d
  {
    if d == 1 {
    } else if d == 3 {
      MulLe(x + 1, w, 3);
    } else {
      MulLe(x + 1, w, 4);
      MulLe(4, d, w);
    }
  }

  lemma ImageSize(w: nat, h: nat, d: nat)
    ensures h * (w * d) == w * h * d
  {
  }

  /** Appending one more block. */
  lemma ConcatSnoc(blocks: seq<seq<Byte>>, n: nat)
    requires n < |blocks|
    ensures Concat(blocks[..n + 1]) == Concat(blocks[..n]) + blocks[n]
  {
    assert blocks[..n + 1][..n] == blocks[..n];
  }

  /** Blocks of equal size: byte `k` of block `y` sits at y*size + k. */
  lemma {:induction false} ConcatAt(blocks: seq<seq<Byte>>, size: nat, y: nat, k: nat)
    requires forall i :: 0 <= i < |blocks| ==> |blocks[i]| == size
    requires y < |blocks| && k < size
    ensures |Concat(blocks)| == |blocks| * size
    ensures y * size + k < |Concat(blocks)|
    ensures Concat(blocks)[y * size + k] == blocks[y][k]
    decreases |blocks|
  {
    var n := |blocks|;
    var prefix := blocks[..n - 1];
    assert Concat(blocks) == Concat(prefix) + blocks[n - 1];
    if y < n - 1 {
      ConcatAt(prefix, size, y, k);
      BlockBefore(y, n - 1, size, k);
      assert (Concat(prefix) + blocks[n - 1])[y * size + k] == Concat(prefix)[y * size + k];
    } else {
      ConcatLength(prefix, size);
      assert (Concat(prefix) + blocks[n - 1])[|Concat(prefix)| + k] == blocks[n - 1][k];
    }
  }

  /** The same, behind a header. */
  lemma ConcatAfter(header: seq<Byte>, blocks: seq<seq<Byte>>, size: nat, y: nat, k: nat)
    requires forall i :: 0 <= i < |blocks| ==> |blocks[i]| == size
    requires y < |blocks| && k < size
    ensures |header| + y * size + k < |header + Concat(blocks)|
    ensures (header + Concat(blocks))[|header| + y * size + k] == blocks[y][k]
  {
    ConcatAt(blocks, size, y, k);
  }

  lemma {:induction false} ConcatLength(blocks: seq<seq<Byte>>, size: nat)
    requires forall i :: 0 <= i < |blocks| ==> |blocks[i]| == size
    ensures |Concat(blocks)| == |blocks| * size
    decreases |blocks|
  {
    if |blocks| > 0 {
      ConcatLength(blocks[..|blocks| - 1], size);
      assert |Concat(blocks)| == (|blocks| - 1) * size + size;
    }
  }

  lemma PixelOutAt(img: Image, i: nat, c: nat)
    requires c < TargetBytesPerPixel(img.depth)
    ensures |PixelOut(img, i)| == TargetBytesPerPixel(img.depth)
    ensures PixelOut(img, i)[c] == ByteAt(img, i + c)
  {
  }

  /** A written row holds `width` pixels of one or three bytes each, byte `c`
      of pixel `x` being byte `c` of that pixel in the source row: grey stays
      grey, colour keeps red, green and blue, and alpha is dropped. */
  lemma RowAt(img: Image, sy: nat, x: nat, c: nat)
    requires x < img.width && c < TargetBytesPerPixel(img.depth)
    ensures |Concat(RowPixels(img, sy))| == img.width * TargetBytesPerPixel(img.depth)
    ensures Concat(RowPixels(img, sy))[x * TargetBytesPerPixel(img.depth) + c]
         == ByteAt(img, SourceIndex(img, sy, x) + c)
  {
    var pixels := RowPixels(img, sy);
    var bpp := TargetBytesPerPixel(img.depth);
    forall i | 0 <= i < |pixels|
      ensures |pixels[i]| == bpp
    {
      PixelOutAt(img, SourceIndex(img, sy, i), 0);
    }
    ConcatAt(pixels, bpp, x, c);
    PixelOutAt(img, SourceIndex(img, sy, x), c);
  }

  /** A written row holds `width` pixels of one or three bytes each. */
  lemma RowLength(img: Image, sy: nat)
    ensures |Concat(RowPixels(img, sy))| == img.width * TargetBytesPerPixel(img.depth)
  {
    var pixels := RowPixels(img, sy);
    forall i | 0 <= i < |pixels|
      ensures |pixels[i]| == TargetBytesPerPixel(img.depth)
    {
    }
    ConcatLength(pixels, TargetBytesPerPixel(img.depth));
  }

  /** Every row of the body has the same length. */
  lemma BodyRowsSized(img: Image)
    ensures forall i :: 0 <= i < |BodyRows(img)| ==>
      |BodyRows(img)[i]| == img.width * TargetBytesPerPixel(img.depth)
  {
    forall i | 0 <= i < |BodyRows(img)|
      ensures |BodyRows(img)[i]| == img.width * TargetBytesPerPixel(img.depth)
    {
      RowLength(img, img.height - 1 - i);
    }
  }

  /** Where byte `c` of pixel (x, y), counting rows from the top, is written
      in the body: rows and pixels are laid out one after the other. */
  function BodyOffset(img: Image, x: nat, y: nat, c: nat): nat
  {
    (y * img.width + x) * TargetBytesPerPixel(img.depth) + c
  }

  /** Byte `c` of pixel (x, y) of the body, counting rows from the top, is
      byte `c` of pixel x in source row height-1-y. */
  lemma BodyByteAt(img: Image, x: nat, y: nat, c: nat)
    requires x < img.width && y < img.height && c < TargetBytesPerPixel(img.depth)
    ensures var at := BodyOffset(img, x, y, c);
      at < |Concat(BodyRows(img))| &&
      Concat(BodyRows(img))[at] == ByteAt(img, SourceIndex(img, img.height - 1 - y, x) + c)
  {
    var bpp := TargetBytesPerPixel(img.depth);
    MulLe(x + 1, img.width, bpp);
    Distribute(y, img.width, x, bpp, c);
    BodyRowsSized(img);
    ConcatAt(BodyRows(img), img.width * bpp, y, x * bpp + c);
    RowAt(img, img.height - 1 - y, x, c);
  }

  /** For a writable image that source byte lies inside the pixel vector. */
  lemma BodyAt(img: Image, x: nat, y: nat, c: nat)
    requires Writable(img) && x < img.width && y < img.height
    requires c < TargetBytesPerPixel(img.depth)
    ensures var at := BodyOffset(img, x, y, c);
      var k := SourceIndex(img, img.height - 1 - y, x) + c;
      at < |Concat(BodyRows(img))| && k < |img.pixels| &&
      Concat(BodyRows(img))[at] == img.pixels[k]
  {
    BodyByteAt(img, x, y, c);
    SourceInRange(img, img.height - 1 - y, x);
  }

  /** Byte `i` of the body is byte |header| + i of the file. */
  lemma PnmAt(img: Image, i: nat)
    requires i < |Concat(BodyRows(img))|
    ensures |PnmHeaderText(img)| + i < |PnmBytes(img)|
    ensures PnmBytes(img)[|PnmHeaderText(img)| + i] == Concat(BodyRows(img))[i]
  {
    AfterPrefix(AsciiBytes(PnmHeaderText(img)), Concat(BodyRows(img)), i);
  }

  /** The file is the header followed by the pixels: byte `c` of pixel (x, y)
      of the file, counting rows from the top, is byte `c` of pixel x in
      source row height-1-y, which lies inside the pixel vector. */
  lemma PnmPixel(img: Image, x: nat, y: nat, c: nat)
    requires Writable(img) && x < img.width && y < img.height
    requires c < TargetBytesPerPixel(img.depth)
    ensures var at := |PnmHeaderText(img)| + BodyOffset(img, x, y, c);
      SourceIndex(img, img.height - 1 - y, x) + c < |img.pixels| &&
      at < |PnmBytes(img)| &&
      PnmBytes(img)[at] == img.pixels[SourceIndex(img, img.height - 1 - y, x) + c]
  {
    BodyAt(img, x, y, c);
    PnmChain(img, BodyOffset(img, x, y, c), SourceIndex(img, img.height - 1 - y, x) + c);
  }

  /** Once byte `i` of the body is byte `k` of the pixel vector, so is byte
      |header| + i of the file. */
  lemma PnmChain(img: Image, i: nat, k: nat)
    requires i < |Concat(BodyRows(img))| && k < |img.pixels|
    requires Concat(BodyRows(img))[i] == img.pixels[k]
    ensures |PnmHeaderText(img)| + i < |PnmBytes(img)|
    ensures PnmBytes(img)[|PnmHeaderText(img)| + i] == img.pixels[k]
  {
    PnmAt(img, i);
  }

  /** Element `i` of a body is found `|prefix|` places further on once the
      prefix is put in front of it. */
  lemma AfterPrefix(prefix: seq<Byte>, body: seq<Byte>, i: nat)
    requires i < |body|
    ensures |prefix| + i < |prefix + body| && (prefix + body)[|prefix| + i] == body[i]
  {
  }

  /** The header starts with the magic number of the format, then states the
      width in decimal, which reads back as the image's width, and a space. */
  lemma PnmHeaderFields(img: Image)
    ensures var h := PnmHeaderText(img);
      h[..3] == (if img.depth == 1 then "P5\n" else "P6\n") &&
      |h| > 3 + |NatToString(img.width)| &&
      AllDigits(h[3..3 + |NatToString(img.width)|]) &&
      DigitsValue(h[3..3 + |NatToString(img.width)|]) == img.width &&
      h[3 + |NatToString(img.width)|] == ' '
  {
    NatToStringRoundTrip(img.width);
    var h := PnmHeaderText(img);
    var m := if img.depth == 1 then "P5\n" else "P6\n";
    assert h == m + NatToString(img.width) + (" " + NatToString(img.height) + "\n" + "255\n");
    ThreeParts(m, NatToString(img.width), " " + NatToString(img.height) + "\n" + "255\n");
  }

  /** After the width and its space the header states the height in decimal,
      which reads back as the image's height, and ends with the maximum value
      255 on a line of its own. */
  lemma PnmHeaderHeight(img: Image)
    ensures var h := PnmHeaderText(img);
      var start := 4 + |NatToString(img.width)|;
      var end := start + |NatToString(img.height)|;
      |h| == end + 5 &&
      AllDigits(h[start..end]) && DigitsValue(h[start..end]) == img.height &&
      h[end..] == "\n255\n"
  {
    NatToStringRoundTrip(img.height);
    var h := PnmHeaderText(img);
    var m := if img.depth == 1 then "P5\n" else "P6\n";
    assert h == (m + NatToString(img.width) + " ") + NatToString(img.height) + "\n255\n";
    ThreeParts(m + NatToString(img.width) + " ", NatToString(img.height), "\n255\n");
  }

  /** The three parts of a concatenation are found again by slicing it. */
  lemma ThreeParts(a: string, b: string, c: string)
    ensures (a + b + c)[..|a|] == a && (a + b + c)[|a|..|a| + |b|] == b
    ensures (a + b + c)[|a| + |b|..] == c
    ensures |c| > 0 ==> (a + b + c)[|a| + |b|] == c[0]
  {
  }

  /** write_pnm: the bytes written to the file. */
  method WritePnm(img: Image) returns (file: seq<Byte>)
    requires Writable(img)
    ensures file == PnmBytes(img)
  {
    var header := AsciiBytes(PnmHeaderText(img));
    file := header;
    var rowWidth := img.width * TargetBytesPerPixel(img.depth);
    var targetRow := new Byte[rowWidth];
    var rows := BodyRows(img);
    var y := 0;
    while y < img.height
      invariant 0 <= y <= img.height
      invariant file == header + Concat(rows[..y])
    {
      FillRow(img, img.height - 1 - y, targetRow);
      ConcatSnoc(rows, y);
      file := file + targetRow[..];
      y := y + 1;
    }
    assert rows[..img.height] == rows;
  }

  /** The inner loop of write_pnm: source row `sy` copied into `targetRow`,
      one or three bytes per pixel, skipping alpha. */
  method FillRow(img: Image, sy: nat, targetRow: array<Byte>)
    requires Writable(img) && sy < img.height
    requires targetRow.Length == img.width * TargetBytesPerPixel(img.depth)
    modifies targetRow
    ensures targetRow[..] == Concat(RowPixels(img, sy))
  {
    var bpp := TargetBytesPerPixel(img.depth);
    ghost var pixels := RowPixels(img, sy);
    var iSource := sy * RowSize(img);
    var iTarget := 0;
    var x := 0;
    while x < img.width
      invariant 0 <= x <= img.width
      invariant iTarget == x * bpp <= targetRow.Length
      invariant iSource == SourceIndex(img, sy, x)
      invariant targetRow[..iTarget] == Concat(pixels[..x])
    {
      NextPixel(img, sy, x);
      ConcatSnoc(pixels, x);
      iSource, iTarget := CopyPixel(img, targetRow, iSource, iTarget);
      x := x + 1;
    }
    assert pixels[..img.width] == pixels;
    assert targetRow[..] == targetRow[..iTarget];
  }

  /** Moving one pixel right moves the source index by one stride and the
      target index by one written pixel, still inside the row. */
  lemma NextPixel(img: Image, sy: nat, x: nat)
    requires Writable(img) && sy < img.height && x < img.width
    ensures SourceIndex(img, sy, x + 1) == SourceIndex(img, sy, x) + SourceStride(img.depth)
    ensures (x + 1) * TargetBytesPerPixel(img.depth) == x * TargetBytesPerPixel(img.depth) + TargetBytesPerPixel(img.depth)
    ensures (x + 1) * TargetBytesPerPixel(img.depth) <= img.width * TargetBytesPerPixel(img.depth)
    ensures SourceIndex(img, sy, x) + TargetBytesPerPixel(img.depth) <= |img.pixels|
  {
    SourceInRange(img, sy, x);
    MulLe(x + 1, img.width, TargetBytesPerPixel(img.depth));
  }

  /** One pass of the inner loop: the pixel at `iSource` written at
      `iTarget`, and both indices moved past it. */
  method CopyPixel(img: Image, targetRow: array<Byte>, iSource: nat, iTarget: nat)
    returns (nextSource: nat, nextTarget: nat)
    requires Writable(img)
    requires iSource + TargetBytesPerPixel(img.depth) <= |img.pixels|
    requires iTarget + TargetBytesPerPixel(img.depth) <= targetRow.Length
    modifies targetRow
    ensures nextSource == iSource + SourceStride(img.depth)
    ensures nextTarget == iTarget + TargetBytesPerPixel(img.depth)
    ensures targetRow[..nextTarget] == old(targetRow[..iTarget]) + PixelOut(img, iSource)
  {
    nextSource, nextTarget := iSource, iTarget;
    targetRow[nextTarget] := img.pixels[nextSource];
    nextTarget, nextSource := nextTarget + 1, nextSource + 1;
    if img.depth > 1 {
      targetRow[nextTarget] := img.pixels[nextSource];
      nextTarget, nextSource := nextTarget + 1, nextSource + 1;
      targetRow[nextTarget] := img.pixels[nextSource];
      nextTarget, nextSource := nextTarget + 1, nextSource + 1;
    }
    if img.depth > 3 {
      nextSource := nextSource + 1;
    }
    assert targetRow[..nextTarget] == old(targetRow[..iTarget]) + PixelOut(img, iSource);
  }
}
