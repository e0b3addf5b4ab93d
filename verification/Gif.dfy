/** The part of the GIF89a format (sections 15 to 22 and 27) that the inline-image
    recogniser walks: a grammar, an encoder, and the limits an inline image must meet. */
module GifFormat {
  import opened Common

  type Byte = b: int | 0 <= b < 0x100
  type Bytes = seq<Byte>
  type Word = w: int | 0 <= w < 0x1_0000
  /** A data sub-block: its length byte counts 1 to 255 data bytes. */
  type SubBlock = s: Bytes | 1 <= |s| <= 255 witness [0]

  const TRAILER: Byte := 0x3b
  const EXTENSION: Byte := 0x21
  const IMAGE: Byte := 0x2c

  const MAX_INLINE_MEDIA_BYTES := 8 * 1024 * 1024
  const MAX_INLINE_GIF_EDGE := 8192
  const MAX_INLINE_GIF_PIXELS := 16 * 1000 * 1000
  const MAX_INLINE_GIF_PIXEL_FRAMES := 8 * 1000 * 1000

  datatype Block =
    | Extension(kind: Byte, body: seq<SubBlock>)
    | Image(left: Word, top: Word, width: Word, height: Word, packed: Byte,
            palette: Bytes, codeSize: Byte, body: seq<SubBlock>)

  datatype Gif = Gif(gif89: bool, width: Word, height: Word, packed: Byte,
                     background: Byte, aspect: Byte, palette: Bytes, blocks: seq<Block>)

  /** Bytes of the colour table a packed field announces: none when its top bit is clear,
      otherwise three times two to the (low three bits plus one). */
  function PaletteSize(packed: Byte): nat {
    if packed < 0x80 then 0
    else match packed % 8
      case 0 => 6 case 1 => 12 case 2 => 24 case 3 => 48
      case 4 => 96 case 5 => 192 case 6 => 384 case _ => 768
  }

  /** Three bytes for each of the colours that the low three bits announce. */
  lemma PaletteIsPower(packed: Byte)
    ensures PaletteSize(packed) == if packed < 0x80 then 0 else 3 * Pow2(packed % 8 + 1)
    ensures packed >= 0x80 ==> PaletteSize(packed) == ShiftLeft(3, packed % 8 + 1)
  {
    ShiftIsPower(3, packed % 8 + 1);
    assert Pow2(4) == 16;
    assert Pow2(8) == 16 * Pow2(4);
  }

  predicate WellFormedBlock(b: Block) {
    b.Image? ==> |b.palette| == PaletteSize(b.packed) && 2 <= b.codeSize <= 8
  }

  predicate WellFormed(g: Gif) {
    |g.palette| == PaletteSize(g.packed) && forall b :: b in g.blocks ==> WellFormedBlock(b)
  }

  /** The low byte of a 16-bit little-endian field. */
  function Lo(w: Word): Byte { w % 0x100 }

  /** The high byte of a 16-bit little-endian field. */
  function Hi(w: Word): Byte { w / 0x100 }

  // Every encoder writes a structure in front of the bytes `rest` that follow it.

  function EncodeSubBlocks(body: seq<SubBlock>, rest: Bytes): Bytes {
    if body == [] then [0] + rest
    else [|body[0]| as Byte] + (body[0] + EncodeSubBlocks(body[1..], rest))
  }

  function EncodeDescriptor(left: Word, top: Word, width: Word, height: Word, packed: Byte): (r: Bytes)
    ensures |r| == 10
  {
    [IMAGE, Lo(left), Hi(left), Lo(top), Hi(top), Lo(width), Hi(width), Lo(height), Hi(height), packed]
  }

  function EncodeBlock(b: Block, rest: Bytes): Bytes {
    match b
    case Extension(kind, body) => [EXTENSION, kind] + EncodeSubBlocks(body, rest)
    case Image(left, top, width, height, packed, palette, codeSize, body) =>
      EncodeDescriptor(left, top, width, height, packed)
      + (palette + ([codeSize] + EncodeSubBlocks(body, rest)))
  }

  function EncodeBlocks(blocks: seq<Block>, rest: Bytes): Bytes {
    if blocks == [] then [TRAILER] + rest
    else EncodeBlock(blocks[0], EncodeBlocks(blocks[1..], rest))
  }

  /** "GIF87a" or "GIF89a". */
  function Signature(gif89: bool): Bytes {
    [0x47, 0x49, 0x46, 0x38, if gif89 then 0x39 else 0x37, 0x61]
  }

  function EncodeHeader(g: Gif): (r: Bytes)
    ensures |r| == 13
  {
    Signature(g.gif89)
    + [Lo(g.width), Hi(g.width), Lo(g.height), Hi(g.height), g.packed, g.background, g.aspect]
  }

  function Encode(g: Gif, rest: Bytes): Bytes {
    EncodeHeader(g) + (g.palette + EncodeBlocks(g.blocks, rest))
  }

  function Frames(blocks: seq<Block>): nat {
    if blocks == [] then 0 else (if blocks[0].Image? then 1 else 0) + Frames(blocks[1..])
  }

  predicate Fits(b: Block, width: nat, height: nat) {
    b.Image? ==> 0 < b.width && 0 < b.height && b.left + b.width <= width && b.top + b.height <= height
  }

  function Pixels(width: int, height: int): int { width * height }

  predicate CanvasSupported(width: int, height: int) {
    && 0 < width <= MAX_INLINE_GIF_EDGE
    && 0 < height <= MAX_INLINE_GIF_EDGE
    && Pixels(width, height) <= MAX_INLINE_GIF_PIXELS
  }

  /** What the host promises about an inline animation before handing it to a decoder. */
  predicate WithinLimits(g: Gif) {
    && CanvasSupported(g.width, g.height)
    && (forall b :: b in g.blocks ==> Fits(b, g.width, g.height))
    && 0 < Frames(g.blocks)
    && Frames(g.blocks) * Pixels(g.width, g.height) <= MAX_INLINE_GIF_PIXEL_FRAMES
  }

  /** `data` is an encoding of `g` followed by any bytes: what comes after the trailer is free. */
  ghost predicate StartsWith(data: Bytes, g: Gif) {
    WellFormed(g) && exists rest :: data == Encode(g, rest)
  }

  /** The language of the recogniser. */
  ghost predicate IsBoundedGif(data: Bytes) {
    |data| <= MAX_INLINE_MEDIA_BYTES && exists g :: StartsWith(data, g) && WithinLimits(g)
  }
}

/** A functional parser for the grammar, with soundness and completeness against the encoder. */
module GifParser {
  import opened Common
  import opened GifFormat

  datatype Parsed<T> = Parsed(value: T, rest: Bytes)

  function ReadWord(s: Bytes, at: nat): Word
    requires at + 2 <= |s|
  {
    var lo: int, hi: int := s[at], s[at + 1];
    lo + 0x100 * hi
  }

  function ParseSubBlocks(s: Bytes): (r: Option<Parsed<seq<SubBlock>>>)
    ensures r.Some? ==> |r.value.rest| < |s|
  {
    if s == [] then None
    else
      var n, t := s[0], s[1..];
      if n == 0 then Some(Parsed([], t))
      else if n > |t| then None
      else
        var tail := ParseSubBlocks(t[n..]);
        if tail.None? then None
        else
          var first: SubBlock := t[..n];
          Some(Parsed([first] + tail.value.value, tail.value.rest))
  }

  /** Code size and sub-blocks of an image, after its colour table. */
  predicate RasterParses(s: Bytes) {
    s != [] && 2 <= s[0] <= 8 && ParseSubBlocks(s[1..]).Some?
  }

  function ParseBlock(s: Bytes): (r: Option<Parsed<Block>>)
    ensures r.Some? ==> |r.value.rest| < |s|
  {
    if s == [] then None
    else if s[0] == EXTENSION then
      if |s| < 2 then None
      else
        var body := ParseSubBlocks(s[2..]);
        if body.None? then None
        else Some(Parsed(Extension(s[1], body.value.value), body.value.rest))
    else if s[0] == IMAGE then
      if |s| < 10 then None
      else
        var size, t := PaletteSize(s[9]), s[10..];
        if size > |t| || !RasterParses(t[size..]) then None
        else
          var u := t[size..];
          var body := ParseSubBlocks(u[1..]).value;
          Some(Parsed(Image(ReadWord(s, 1), ReadWord(s, 3), ReadWord(s, 5), ReadWord(s, 7), s[9],
                            t[..size], u[0], body.value),
                      body.rest))
    else None
  }

  function ParseBlocks(s: Bytes): (r: Option<Parsed<seq<Block>>>)
    decreases |s|
  {
    if s == [] then None
    else if s[0] == TRAILER then Some(Parsed([], s[1..]))
    else
      var first := ParseBlock(s);
      if first.None? then None
      else
        var tail := ParseBlocks(first.value.rest);
        if tail.None? then None
        else Some(Parsed([first.value.value] + tail.value.value, tail.value.rest))
  }

  predicate HasSignature(s: Bytes) {
    Signature(false) <= s || Signature(true) <= s
  }

  function Parse(s: Bytes): Option<Parsed<Gif>> {
    if |s| < 13 || !HasSignature(s) then None
    else
      var size, t := PaletteSize(s[10]), s[13..];
      if size > |t| then None
      else
        var blocks := ParseBlocks(t[size..]);
        if blocks.None? then None
        else Some(Parsed(Gif(s[4] == 0x39, ReadWord(s, 6), ReadWord(s, 8), s[10], s[11], s[12],
                             t[..size], blocks.value.value),
                         blocks.value.rest))
  }

  lemma Split<T>(s: seq<T>, k: nat)
    requires k <= |s|
    ensures s == s[..k] + s[k..]
  {
  }

  lemma Unsplit<T>(a: seq<T>, b: seq<T>)
    ensures (a + b)[..|a|] == a && (a + b)[|a|..] == b
  {
  }

  lemma Suffix<T>(s: seq<T>, i: nat, k: nat)
    requires i + k <= |s|
    ensures s[i..][k..] == s[i + k..]
  {
  }

  // ----- soundness: what is parsed was encoded -----

  lemma SubBlocksCons(first: SubBlock, tail: seq<SubBlock>, rest: Bytes)
    ensures EncodeSubBlocks([first] + tail, rest) == [|first| as Byte] + (first + EncodeSubBlocks(tail, rest))
  {
    assert ([first] + tail)[1..] == tail;
  }

  lemma Rejoin<T>(s: seq<T>, n: nat)
    requires 1 + n <= |s|
    ensures s == [s[0]] + (s[1..][..n] + s[1..][n..])
  {
  }

  lemma {:induction false} SubBlocksSound(s: Bytes)
    requires ParseSubBlocks(s).Some?
    ensures var p := ParseSubBlocks(s).value; s == EncodeSubBlocks(p.value, p.rest)
  {
    var n, t := s[0], s[1..];
    if n == 0 {
      Split(s, 1);
    } else {
      var first: SubBlock, rest := t[..n], t[n..];
      SubBlocksSound(rest);
      var tail := ParseSubBlocks(rest).value;
      SubBlocksCons(first, tail.value, tail.rest);
      Rejoin(s, n);
    }
  }

  lemma WordSplit(s: Bytes, at: nat)
    requires at + 2 <= |s|
    ensures Lo(ReadWord(s, at)) == s[at] && Hi(ReadWord(s, at)) == s[at + 1]
  {
  }

  lemma DescriptorSound(s: Bytes)
    requires |s| >= 10 && s[0] == IMAGE
    ensures s[..10] == EncodeDescriptor(ReadWord(s, 1), ReadWord(s, 3), ReadWord(s, 5), ReadWord(s, 7), s[9])
  {
    WordSplit(s, 1);
    WordSplit(s, 3);
    WordSplit(s, 5);
    WordSplit(s, 7);
  }

  lemma ExtensionSound(s: Bytes)
    requires ParseBlock(s).Some? && s[0] == EXTENSION
    ensures var p := ParseBlock(s).value; s == EncodeBlock(p.value, p.rest)
  {
    SubBlocksSound(s[2..]);
    Split(s, 2);
    assert s[..2] == [s[0], s[1]];
  }

  lemma ImageSound(s: Bytes)
    requires ParseBlock(s).Some? && s[0] == IMAGE
    ensures var p := ParseBlock(s).value; s == EncodeBlock(p.value, p.rest) && WellFormedBlock(p.value)
  {
    var size, t := PaletteSize(s[9]), s[10..];
    var u := t[size..];
    Split(s, 10);
    DescriptorSound(s);
    Split(t, size);
    Split(u, 1);
    assert u[..1] == [u[0]];
    SubBlocksSound(u[1..]);
  }

  lemma BlockSound(s: Bytes)
    requires ParseBlock(s).Some?
    ensures var p := ParseBlock(s).value; s == EncodeBlock(p.value, p.rest) && WellFormedBlock(p.value)
  {
    if s[0] == EXTENSION {
      ExtensionSound(s);
    } else {
      ImageSound(s);
    }
  }

  lemma {:induction false} BlocksSound(s: Bytes)
    requires ParseBlocks(s).Some?
    ensures var p := ParseBlocks(s).value;
            s == EncodeBlocks(p.value, p.rest) && forall b :: b in p.value ==> WellFormedBlock(b)
    decreases |s|
  {
    if s[0] == TRAILER {
      Split(s, 1);
    } else {
      var first := ParseBlock(s).value;
      BlockSound(s);
      BlocksSound(first.rest);
      var tail := ParseBlocks(first.rest).value;
      assert ([first.value] + tail.value)[1..] == tail.value;
    }
  }

  lemma HeaderSound(s: Bytes, g: Gif)
    requires |s| >= 13 && HasSignature(s)
    requires g.gif89 == (s[4] == 0x39) && g.width == ReadWord(s, 6) && g.height == ReadWord(s, 8)
    requires g.packed == s[10] && g.background == s[11] && g.aspect == s[12]
    ensures s[..13] == EncodeHeader(g)
  {
    WordSplit(s, 6);
    WordSplit(s, 8);
    assert s[..6] == Signature(g.gif89);
    assert s[..13] == s[..6] + s[6..13];
  }

  lemma ParseSound(s: Bytes)
    requires Parse(s).Some?
    ensures var p := Parse(s).value; s == Encode(p.value, p.rest) && WellFormed(p.value)
  {
    var size, t := PaletteSize(s[10]), s[13..];
    Split(s, 13);
    HeaderSound(s, Parse(s).value.value);
    Split(t, size);
    BlocksSound(t[size..]);
  }

  // ----- completeness: every encoding is parsed back, whatever follows it -----

  lemma {:induction false} SubBlocksComplete(body: seq<SubBlock>, rest: Bytes)
    ensures ParseSubBlocks(EncodeSubBlocks(body, rest)) == Some(Parsed(body, rest))
  {
    var s := EncodeSubBlocks(body, rest);
    if body == [] {
      Unsplit([0], rest);
    } else {
      var tail := EncodeSubBlocks(body[1..], rest);
      SubBlocksComplete(body[1..], rest);
      Unsplit([|body[0]| as Byte], body[0] + tail);
      Unsplit(body[0], tail);
      assert [body[0]] + body[1..] == body;
    }
  }

  lemma ExtensionComplete(b: Block, rest: Bytes)
    requires b.Extension?
    ensures ParseBlock(EncodeBlock(b, rest)) == Some(Parsed(b, rest))
  {
    SubBlocksComplete(b.body, rest);
    Unsplit([EXTENSION, b.kind], EncodeSubBlocks(b.body, rest));
  }

  lemma DescriptorComplete(b: Block, tail: Bytes)
    requires b.Image?
    ensures var s := EncodeDescriptor(b.left, b.top, b.width, b.height, b.packed) + tail;
            && |s| == 10 + |tail| && s[10..] == tail && s[0] == IMAGE && s[9] == b.packed
            && ReadWord(s, 1) == b.left && ReadWord(s, 3) == b.top
            && ReadWord(s, 5) == b.width && ReadWord(s, 7) == b.height
  {
  }

  lemma ImageComplete(b: Block, rest: Bytes)
    requires b.Image? && WellFormedBlock(b)
    ensures ParseBlock(EncodeBlock(b, rest)) == Some(Parsed(b, rest))
  {
    var body := EncodeSubBlocks(b.body, rest);
    var u := [b.codeSize] + body;
    var t := b.palette + u;
    DescriptorComplete(b, t);
    Unsplit(b.palette, u);
    Unsplit([b.codeSize], body);
    SubBlocksComplete(b.body, rest);
  }

  lemma {:induction false} BlocksComplete(blocks: seq<Block>, rest: Bytes)
    requires forall b :: b in blocks ==> WellFormedBlock(b)
    ensures ParseBlocks(EncodeBlocks(blocks, rest)) == Some(Parsed(blocks, rest))
  {
    if blocks == [] {
      Unsplit([TRAILER], rest);
    } else {
      var tail := EncodeBlocks(blocks[1..], rest);
      if blocks[0].Extension? {
        ExtensionComplete(blocks[0], tail);
      } else {
        ImageComplete(blocks[0], tail);
      }
      BlocksComplete(blocks[1..], rest);
      assert [blocks[0]] + blocks[1..] == blocks;
    }
  }

  lemma HeaderComplete(g: Gif, tail: Bytes)
    ensures var s := EncodeHeader(g) + tail;
            && |s| >= 13 && s[13..] == tail && HasSignature(s) && (s[4] == 0x39 <==> g.gif89)
            && ReadWord(s, 6) == g.width && ReadWord(s, 8) == g.height
            && s[10] == g.packed && s[11] == g.background && s[12] == g.aspect
  {
    var s := EncodeHeader(g) + tail;
    assert s[..6] == Signature(g.gif89);
  }

  /** Round trip: parsing an encoding gives back the image and what followed it. */
  lemma ParseComplete(g: Gif, rest: Bytes)
    requires WellFormed(g)
    ensures Parse(Encode(g, rest)) == Some(Parsed(g, rest))
  {
    var blocks := EncodeBlocks(g.blocks, rest);
    HeaderComplete(g, g.palette + blocks);
    Unsplit(g.palette, blocks);
    BlocksComplete(g.blocks, rest);
  }

  lemma ParsesBack(data: Bytes, g: Gif)
    requires StartsWith(data, g)
    ensures Parse(data).Some? && Parse(data).value.value == g
  {
    var rest :| data == Encode(g, rest);
    ParseComplete(g, rest);
  }

  /** No byte string starts with two different images. */
  lemma UniqueParse(data: Bytes, g: Gif, h: Gif)
    requires StartsWith(data, g) && StartsWith(data, h)
    ensures g == h
  {
    ParsesBack(data, g);
    ParsesBack(data, h);
  }

  // ----- bytes after the trailer are carried along unread -----

  lemma {:induction false} SubBlocksAppend(body: seq<SubBlock>, rest: Bytes, more: Bytes)
    ensures EncodeSubBlocks(body, rest + more) == EncodeSubBlocks(body, rest) + more
  {
    if body == [] {
      Associative([0], rest, more);
    } else {
      SubBlocksAppend(body[1..], rest, more);
      var head: Bytes, tail := [|body[0]| as Byte], EncodeSubBlocks(body[1..], rest);
      Associative(body[0], tail, more);
      Associative(head, body[0] + tail, more);
    }
  }

  lemma BlockAppend(b: Block, rest: Bytes, more: Bytes)
    ensures EncodeBlock(b, rest + more) == EncodeBlock(b, rest) + more
  {
    SubBlocksAppend(b.body, rest, more);
    var body := EncodeSubBlocks(b.body, rest);
    match b {
      case Extension(kind, _) => Associative([EXTENSION, kind], body, more);
      case Image(left, top, width, height, packed, palette, codeSize, _) =>
        var descriptor := EncodeDescriptor(left, top, width, height, packed);
        Associative([codeSize], body, more);
        Associative(palette, [codeSize] + body, more);
        Associative(descriptor, palette + ([codeSize] + body), more);
    }
  }

  lemma {:induction false} BlocksAppend(blocks: seq<Block>, rest: Bytes, more: Bytes)
    ensures EncodeBlocks(blocks, rest + more) == EncodeBlocks(blocks, rest) + more
  {
    if blocks == [] {
      Associative([TRAILER], rest, more);
    } else {
      BlocksAppend(blocks[1..], rest, more);
      BlockAppend(blocks[0], EncodeBlocks(blocks[1..], rest), more);
    }
  }

  lemma EncodeAppend(g: Gif, rest: Bytes, more: Bytes)
    ensures Encode(g, rest + more) == Encode(g, rest) + more
  {
    BlocksAppend(g.blocks, rest, more);
    var blocks := EncodeBlocks(g.blocks, rest);
    Associative(g.palette, blocks, more);
    Associative(EncodeHeader(g), g.palette + blocks, more);
  }

  /** An accepted image stays accepted with any bytes appended, up to the size limit:
      the recogniser stops at the trailer. */
  lemma TrailingBytesIgnored(data: Bytes, more: Bytes)
    ensures IsBoundedGif(data) && |data| + |more| <= MAX_INLINE_MEDIA_BYTES ==> IsBoundedGif(data + more)
  {
    if IsBoundedGif(data) && |data| + |more| <= MAX_INLINE_MEDIA_BYTES {
      var g :| StartsWith(data, g) && WithinLimits(g);
      var rest :| data == Encode(g, rest);
      EncodeAppend(g, rest, more);
      assert StartsWith(data + more, g);
    }
  }

  ghost predicate IsEncoding(data: Bytes) {
    exists g :: WellFormed(g) && data == Encode(g, [])
  }

  /** When a string that parses is an image and nothing more: exactly when nothing follows the
      trailer. */
  lemma EncodingIff(data: Bytes)
    requires Parse(data).Some?
    ensures IsEncoding(data) <==> Parse(data).value.rest == []
  {
    ParseSound(data);
    if g :| WellFormed(g) && data == Encode(g, []) {
      ParseComplete(g, []);
    }
  }

  /** The smallest animation: one pixel, one frame without data. */
  function OnePixel(): Gif {
    Gif(false, 1, 1, 0, 0, 0, [], [Image(0, 0, 1, 1, 0, [], 2, [])])
  }

  /** The language has members, and among them strings that are no encoding: one pixel followed by
      one byte. */
  lemma AcceptedBeyondTrailer(extra: Byte)
    ensures IsBoundedGif(Encode(OnePixel(), [])) && IsEncoding(Encode(OnePixel(), []))
    ensures IsBoundedGif(Encode(OnePixel(), [extra])) && !IsEncoding(Encode(OnePixel(), [extra]))
  {
    var g := OnePixel();
    OnePixelAccepted([]);
    OnePixelAccepted([extra]);
    ParseComplete(g, [extra]);
    EncodingIff(Encode(g, [extra]));
  }

  /** One pixel with a table of 256 colours: 768 bytes, any bytes. */
  function OnePixelFullTable(table: Bytes): Gif {
    Gif(true, 1, 1, 0xF7, 0, 0, table, [Image(0, 0, 1, 1, 0, [], 8, [])])
  }

  lemma FullTableAccepted(table: Bytes)
    requires |table| == 768
    ensures IsBoundedGif(Encode(OnePixelFullTable(table), []))
    ensures Encode(OnePixelFullTable(table), [])[13..][..768] == table
  {
    var g := OnePixelFullTable(table);
    assert PaletteSize(0xF7) == 768;
    assert g.blocks[1..] == [];
    assert |EncodeBlock(g.blocks[0], EncodeBlocks([], []))| <= 20;
    assert WithinLimits(g) && StartsWith(Encode(g, []), g);
  }

  lemma OnePixelAccepted(rest: Bytes)
    requires |rest| <= 1
    ensures IsBoundedGif(Encode(OnePixel(), rest))
  {
    var g := OnePixel();
    assert g.blocks[1..] == [];
    assert |EncodeBlock(g.blocks[0], EncodeBlocks([], rest))| <= 20;
    assert WithinLimits(g) && StartsWith(Encode(g, rest), g);
  }

  /** The parser decides the language. */
  lemma ParseDecides(data: Bytes)
    ensures IsBoundedGif(data) <==>
            |data| <= MAX_INLINE_MEDIA_BYTES && Parse(data).Some? && WithinLimits(Parse(data).value.value)
  {
    if Parse(data).Some? {
      ParseSound(data);
      assert StartsWith(data, Parse(data).value.value);
    }
    forall g | StartsWith(data, g)
      ensures Parse(data).Some? && Parse(data).value.value == g
    {
      ParsesBack(data, g);
    }
  }

  // ----- the walk both implementations perform -----

  /** Whether a block list starting at `s` completes an acceptable image when `frames`
      frames have been counted already and at most `limit` are allowed. */
  predicate Walk(s: Bytes, width: nat, height: nat, limit: nat, frames: nat) {
    var p := ParseBlocks(s);
    && p.Some?
    && (forall b :: b in p.value.value ==> Fits(b, width, height))
    && 0 < frames + Frames(p.value.value) <= limit
  }

  lemma WalkTrailer(s: Bytes, width: nat, height: nat, limit: nat, frames: nat)
    requires frames <= limit
    requires s != [] && s[0] == TRAILER
    ensures Walk(s, width, height, limit, frames) <==> frames > 0
  {
  }

  /** One block: the image is acceptable exactly when this block parses, fits the canvas,
      keeps the frame count within the limit, and the rest is acceptable. */
  lemma WalkStep(s: Bytes, width: nat, height: nat, limit: nat, frames: nat)
    requires s == [] || s[0] != TRAILER
    ensures var p := ParseBlock(s);
            Walk(s, width, height, limit, frames) <==>
            && p.Some? && Fits(p.value.value, width, height)
            && (p.value.value.Image? ==> frames + 1 <= limit)
            && Walk(p.value.rest, width, height, limit, frames + if p.value.value.Image? then 1 else 0)
  {
    var p := ParseBlock(s);
    if p.Some? {
      var q := ParseBlocks(p.value.rest);
      if q.Some? {
        var blocks := [p.value.value] + q.value.value;
        assert blocks[1..] == q.value.value;
        assert ParseBlocks(s).value.value == blocks;
        assert forall b :: b in blocks <==> b == p.value.value || b in q.value.value;
      }
    }
  }

  /** What follows an image descriptor: colour table, then code size and sub-blocks. */
  predicate BodyParses(s: Bytes, packed: Byte) {
    PaletteSize(packed) <= |s| && RasterParses(s[PaletteSize(packed)..])
  }

  function AfterBody(s: Bytes, packed: Byte): Bytes
    requires BodyParses(s, packed)
  {
    ParseSubBlocks(s[PaletteSize(packed)..][1..]).value.rest
  }

  lemma WalkEmpty(s: Bytes, width: nat, height: nat, limit: nat, frames: nat)
    requires s == []
    ensures !Walk(s, width, height, limit, frames)
  {
    WalkStep(s, width, height, limit, frames);
  }

  /** No block starts with any other byte. */
  lemma WalkUnknown(s: Bytes, width: nat, height: nat, limit: nat, frames: nat)
    requires s != [] && s[0] != TRAILER && s[0] != EXTENSION && s[0] != IMAGE
    ensures !Walk(s, width, height, limit, frames)
  {
    WalkStep(s, width, height, limit, frames);
  }

  /** The same for an image block, in terms of the bytes that are read. */
  lemma WalkImage(s: Bytes, width: nat, height: nat, limit: nat, frames: nat)
    requires s != [] && s[0] == IMAGE
    ensures Walk(s, width, height, limit, frames) <==>
            && |s| >= 10
            && 0 < ReadWord(s, 5) && 0 < ReadWord(s, 7)
            && ReadWord(s, 1) + ReadWord(s, 5) <= width && ReadWord(s, 3) + ReadWord(s, 7) <= height
            && frames + 1 <= limit
            && BodyParses(s[10..], s[9])
            && Walk(AfterBody(s[10..], s[9]), width, height, limit, frames + 1)
  {
    WalkStep(s, width, height, limit, frames);
  }

  lemma WalkExtension(s: Bytes, width: nat, height: nat, limit: nat, frames: nat)
    requires s != [] && s[0] == EXTENSION
    ensures Walk(s, width, height, limit, frames) <==>
            && |s| >= 2 && ParseSubBlocks(s[2..]).Some?
            && Walk(ParseSubBlocks(s[2..]).value.rest, width, height, limit, frames)
  {
    WalkStep(s, width, height, limit, frames);
  }

  lemma QuotientBound(frames: nat, pixels: nat, limit: nat)
    requires 0 < pixels
    ensures frames * pixels <= limit <==> frames <= limit / pixels
  {
    var q, r := limit / pixels, limit % pixels;
    assert limit == q * pixels + r && 0 <= r < pixels;
    if frames <= q {
      MultiplyMonotone(frames, q, pixels);
    } else {
      MultiplyMonotone(q + 1, frames, pixels);
    }
  }

  lemma MultiplyMonotone(a: nat, b: nat, c: nat)
    requires a <= b
    ensures a * c <= b * c
  {
  }

  lemma PixelsPositive(width: int, height: int)
    requires CanvasSupported(width, height)
    ensures 0 < Pixels(width, height)
  {
    MultiplyMonotone(1, width, height);
  }

  /** How many frames of a supported canvas stay within the pixel-frame budget. */
  function FrameLimit(width: int, height: int): nat
    requires CanvasSupported(width, height)
  {
    PixelsPositive(width, height);
    MAX_INLINE_GIF_PIXEL_FRAMES / Pixels(width, height)
  }

  lemma LimitsAsWalk(g: Gif, s: Bytes, rest: Bytes)
    requires ParseBlocks(s) == Some(Parsed(g.blocks, rest))
    requires CanvasSupported(g.width, g.height)
    ensures WithinLimits(g) <==> Walk(s, g.width, g.height, FrameLimit(g.width, g.height), 0)
  {
    PixelsPositive(g.width, g.height);
    QuotientBound(Frames(g.blocks), Pixels(g.width, g.height), MAX_INLINE_GIF_PIXEL_FRAMES);
  }

  /** The language in the order the implementations test it. */
  lemma WalkDecides(data: Bytes)
    ensures IsBoundedGif(data) <==>
            && 13 <= |data| <= MAX_INLINE_MEDIA_BYTES && HasSignature(data)
            && CanvasSupported(ReadWord(data, 6), ReadWord(data, 8))
            && PaletteSize(data[10]) <= |data| - 13
            && Walk(data[13..][PaletteSize(data[10])..], ReadWord(data, 6), ReadWord(data, 8),
                    FrameLimit(ReadWord(data, 6), ReadWord(data, 8)), 0)
  {
    ParseDecides(data);
    if Parse(data).Some? && CanvasSupported(ReadWord(data, 6), ReadWord(data, 8)) {
      var s := data[13..][PaletteSize(data[10])..];
      LimitsAsWalk(Parse(data).value.value, s, ParseBlocks(s).value.rest);
    }
  }
}
