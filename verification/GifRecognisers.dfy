/** `bounded_inline_gif` of the Rust backend, over a byte slice. */
module RustInlineGif {
  import opened Common
  import opened GifFormat
  import opened GifParser

  function GifU16(data: Bytes, offset: nat): (r: Option<Word>)
    ensures r.Some? <==> offset + 2 <= |data|
    ensures r.Some? ==> r.value % 0x100 == data[offset] && r.value / 0x100 == data[offset + 1]
  {
    if offset + 2 <= |data| then Some(ReadWord(data, offset)) else None
  }

  method AdvanceGifOffset(offset: nat, amount: nat, size: nat) returns (ok: bool, next: nat)
    ensures ok <==> offset + amount <= size
    ensures next == if ok then offset + amount else offset
  {
    if offset > size || amount > size - offset {
      return false, offset;
    }
    return true, offset + amount;
  }

  method SkipGifSubBlocks(data: Bytes, start: nat) returns (ok: bool, offset: nat)
    requires start <= |data|
    ensures start <= offset <= |data|
    ensures ok <==> ParseSubBlocks(data[start..]).Some?
    ensures ok ==> data[offset..] == ParseSubBlocks(data[start..]).value.rest
  {
    ghost var expected := ParseSubBlocks(data[start..]);
    offset := start;
    while offset < |data|
      invariant start <= offset <= |data|
      invariant expected.Some? <==> ParseSubBlocks(data[offset..]).Some?
      invariant expected.Some? ==> expected.value.rest == ParseSubBlocks(data[offset..]).value.rest
      decreases |data| - offset
    {
      ghost var here := data[offset..];
      var blockSize: nat := data[offset];
      assert here[0] == blockSize && here[1..] == data[offset + 1..];
      offset := offset + 1;
      if blockSize == 0 {
        return true, offset;
      }
      var advanced, next := AdvanceGifOffset(offset, blockSize, |data|);
      if !advanced {
        return false, offset;
      }
      Suffix(data, offset, blockSize);
      offset := next;
    }
    return false, offset;
  }

  /** The colour table a packed field announces, if any. */
  method SkipPalette(data: Bytes, start: nat, packed: Byte) returns (ok: bool, offset: nat)
    requires start <= |data|
    ensures ok <==> PaletteSize(packed) <= |data| - start
    ensures offset == if ok then start + PaletteSize(packed) else start
  {
    PaletteIsPower(packed);
    ok, offset := true, start;
    if packed >= 0x80 {
      ok, offset := AdvanceGifOffset(offset, ShiftLeft(3, packed % 8 + 1), |data|);
    }
  }

  /** The LZW minimum code size and the sub-blocks it governs. */
  method SkipCodes(data: Bytes, start: nat) returns (ok: bool, offset: nat)
    requires start <= |data|
    ensures start <= offset <= |data|
    ensures ok <==> RasterParses(data[start..])
    ensures ok ==> data[offset..] == ParseSubBlocks(data[start..][1..]).value.rest
  {
    offset := start;
    if offset >= |data| || !(2 <= data[offset] <= 8) {
      return false, offset;
    }
    Suffix(data, offset, 1);
    ok, offset := SkipGifSubBlocks(data, offset + 1);
  }

  /** What follows an image descriptor: local colour table, code size, sub-blocks. */
  method SkipRaster(data: Bytes, start: nat, packed: Byte) returns (ok: bool, offset: nat)
    requires start <= |data|
    ensures start <= offset <= |data|
    ensures ok <==> BodyParses(data[start..], packed)
    ensures ok ==> data[offset..] == AfterBody(data[start..], packed)
  {
    ok, offset := SkipPalette(data, start, packed);
    if !ok {
      return;
    }
    Suffix(data, start, PaletteSize(packed));
    assert data[start..][PaletteSize(packed)..] == data[offset..];
    ok, offset := SkipCodes(data, offset);
  }

  /** The image descriptor and its raster data; `offset` is just past the 0x2c marker. */
  method BoundedFrame(data: Bytes, start: nat, canvasWidth: nat, canvasHeight: nat,
                      canvasPixels: nat, framesSoFar: nat, ghost limit: nat)
    returns (ok: bool, offset: nat, frames: nat)
    requires 0 < start <= |data| && data[start - 1] == IMAGE
    requires 0 < canvasPixels && limit == MAX_INLINE_GIF_PIXEL_FRAMES / canvasPixels
    ensures ok ==> start <= offset <= |data| && frames == framesSoFar + 1
                   && frames <= limit
    ensures Walk(data[start - 1..], canvasWidth, canvasHeight, limit, framesSoFar) <==>
            ok && Walk(data[offset..], canvasWidth, canvasHeight, limit, frames)
  {
    ghost var s := data[start - 1..];
    WalkImage(s, canvasWidth, canvasHeight, limit, framesSoFar);
    offset, frames := start, framesSoFar;
    if offset > |data| || 9 > |data| - offset {
      return false, offset, frames;
    }
    assert |s| >= 10 && s[9] == data[offset + 8];
    var left := GifU16(data, offset).value;
    var top := GifU16(data, offset + 2).value;
    var width := GifU16(data, offset + 4).value;
    var height := GifU16(data, offset + 6).value;
    assert left == ReadWord(s, 1) && top == ReadWord(s, 3) && width == ReadWord(s, 5) && height == ReadWord(s, 7);
    var imagePacked := data[offset + 8];
    offset := offset + 9;
    if width == 0 || height == 0 || left + width > canvasWidth || top + height > canvasHeight {
      return false, offset, frames;
    }
    frames := frames + 1;
    if frames > MAX_INLINE_GIF_PIXEL_FRAMES / canvasPixels {
      return false, offset, frames;
    }
    assert s[10..] == data[offset..];
    ok, offset := SkipRaster(data, offset, imagePacked);
  }

  method SkipExtension(data: Bytes, start: nat, ghost width: nat, ghost height: nat, ghost limit: nat,
                       ghost frames: nat)
    returns (ok: bool, offset: nat)
    requires 0 < start <= |data| && data[start - 1] == EXTENSION
    ensures ok ==> start <= offset <= |data|
    ensures Walk(data[start - 1..], width, height, limit, frames) <==>
            ok && Walk(data[offset..], width, height, limit, frames)
  {
    WalkExtension(data[start - 1..], width, height, limit, frames);
    ok, offset := AdvanceGifOffset(start, 1, |data|);
    if ok {
      assert data[start - 1..][2..] == data[offset..];
      ok, offset := SkipGifSubBlocks(data, offset);
    }
  }

  /** One block other than the trailer; `start` is at its marker. */
  method SkipBlock(data: Bytes, start: nat, canvasWidth: nat, canvasHeight: nat, canvasPixels: nat,
                   framesSoFar: nat, ghost limit: nat)
    returns (ok: bool, offset: nat, frames: nat)
    requires start < |data| && data[start] != TRAILER && framesSoFar <= limit
    requires 0 < canvasPixels && limit == MAX_INLINE_GIF_PIXEL_FRAMES / canvasPixels
    ensures ok ==> start < offset <= |data| && frames <= limit
    ensures Walk(data[start..], canvasWidth, canvasHeight, limit, framesSoFar) <==>
            ok && Walk(data[offset..], canvasWidth, canvasHeight, limit, frames)
  {
    var marker := data[start];
    ok, offset, frames := false, start + 1, framesSoFar;
    if marker == EXTENSION {
      ok, offset := SkipExtension(data, offset, canvasWidth, canvasHeight, limit, frames);
    } else if marker == IMAGE {
      ok, offset, frames := BoundedFrame(data, offset, canvasWidth, canvasHeight, canvasPixels, frames, limit);
    } else {
      WalkUnknown(data[start..], canvasWidth, canvasHeight, limit, framesSoFar);
    }
  }

  /** The block loop of `bounded_inline_gif`. */
  method BlocksAreBounded(data: Bytes, start: nat, canvasWidth: nat, canvasHeight: nat, canvasPixels: nat,
                          ghost limit: nat)
    returns (accepted: bool)
    requires start <= |data|
    requires 0 < canvasPixels && limit == MAX_INLINE_GIF_PIXEL_FRAMES / canvasPixels
    ensures accepted <==> Walk(data[start..], canvasWidth, canvasHeight, limit, 0)
  {
    ghost var expected := Walk(data[start..], canvasWidth, canvasHeight, limit, 0);
    var offset, frames: nat := start, 0;
    while offset < |data|
      invariant start <= offset <= |data| && frames <= limit
      invariant expected == Walk(data[offset..], canvasWidth, canvasHeight, limit, frames)
      decreases |data| - offset
    {
      if data[offset] == TRAILER {
        WalkTrailer(data[offset..], canvasWidth, canvasHeight, limit, frames);
        return frames > 0;
      }
      var ok;
      ok, offset, frames := SkipBlock(data, offset, canvasWidth, canvasHeight, canvasPixels, frames, limit);
      if !ok {
        return false;
      }
    }
    WalkEmpty(data[offset..], canvasWidth, canvasHeight, limit, frames);
    return false;
  }

  method BoundedInlineGif(data: Bytes) returns (accepted: bool)
    ensures accepted <==> IsBoundedGif(data)
  {
    WalkDecides(data);
    if |data| < 13 || |data| > MAX_INLINE_MEDIA_BYTES || !(Signature(false) <= data || Signature(true) <= data) {
      return false;
    }
    var canvasWidth: int, canvasHeight: int := GifU16(data, 6).value, GifU16(data, 8).value;
    var canvasPixels := canvasWidth * canvasHeight;
    if canvasWidth == 0 || canvasHeight == 0
       || canvasWidth > MAX_INLINE_GIF_EDGE || canvasHeight > MAX_INLINE_GIF_EDGE
       || canvasPixels > MAX_INLINE_GIF_PIXELS {
      return false;
    }
    var packed := data[10];
    var colored, offset := SkipPalette(data, 13, packed);
    if !colored {
      return false;
    }
    Suffix(data, 13, PaletteSize(packed));
    PixelsPositive(canvasWidth, canvasHeight);
    ghost var limit := FrameLimit(canvasWidth, canvasHeight);
    accepted := BlocksAreBounded(data, offset, canvasWidth, canvasHeight, canvasPixels, limit);
  }
}

/** `signal_inline_gif_is_bounded` of the C host, over a pointer and a size. */
module CInlineGif {
  import opened Common
  import opened GifFormat
  import opened GifParser
  import Rust = RustInlineGif

  method ReadU16(data: array<Byte>, at: nat) returns (value: Word)
    requires at + 2 <= data.Length
    ensures value == ReadWord(data[..], at)
  {
    var lo: int, hi: int := data[at], data[at + 1];
    value := lo + 0x100 * hi;
  }

  method Advance(offset: nat, amount: nat, size: nat) returns (ok: bool, next: nat)
    ensures ok <==> offset + amount <= size
    ensures next == if ok then offset + amount else offset
  {
    if offset > size || amount > size - offset {
      return false, offset;
    }
    return true, offset + amount;
  }

  method SkipSubBlocks(data: array<Byte>, size: nat, start: nat) returns (ok: bool, offset: nat)
    requires start <= size <= data.Length
    ensures start <= offset <= size
    ensures ok <==> ParseSubBlocks(data[start..size]).Some?
    ensures ok ==> data[offset..size] == ParseSubBlocks(data[start..size]).value.rest
  {
    ghost var expected := ParseSubBlocks(data[start..size]);
    offset := start;
    while offset < size
      invariant start <= offset <= size
      invariant expected.Some? <==> ParseSubBlocks(data[offset..size]).Some?
      invariant expected.Some? ==> expected.value.rest == ParseSubBlocks(data[offset..size]).value.rest
      decreases size - offset
    {
      ghost var here := data[offset..size];
      var blockSize: nat := data[offset];
      assert here[0] == blockSize && here[1..] == data[offset + 1..size];
      offset := offset + 1;
      if blockSize == 0 {
        return true, offset;
      }
      var advanced, next := Advance(offset, blockSize, size);
      if !advanced {
        return false, offset;
      }
      assert here[1..][blockSize..] == data[next..size];
      offset := next;
    }
    return false, offset;
  }

  method DimensionsAreSupported(width: int, height: int) returns (ok: bool)
    ensures ok <==> 0 < width && 0 < height && CanvasSupported(width, height)
  {
    ok := width > 0 && height > 0 && width <= MAX_INLINE_GIF_EDGE && height <= MAX_INLINE_GIF_EDGE
          && width * height <= MAX_INLINE_GIF_PIXELS;
  }

  method HasPrefix(data: array?<Byte>, size: nat, prefix: Bytes) returns (ok: bool)
    requires data != null ==> size <= data.Length
    ensures ok <==> data != null && prefix <= data[..size]
  {
    if data == null || size < |prefix| {
      return false;
    }
    for i := 0 to |prefix|
      invariant forall j :: 0 <= j < i ==> data[j] == prefix[j]
    {
      if data[i] != prefix[i] {
        return false;
      }
    }
    return true;
  }

  method SkipPalette(size: nat, start: nat, packed: Byte) returns (ok: bool, offset: nat)
    requires start <= size
    ensures ok <==> PaletteSize(packed) <= size - start
    ensures offset == if ok then start + PaletteSize(packed) else start
  {
    PaletteIsPower(packed);
    ok, offset := true, start;
    if packed >= 0x80 {
      ok, offset := Advance(offset, ShiftLeft(3, packed % 8 + 1), size);
    }
  }

  method SkipCodes(data: array<Byte>, size: nat, start: nat) returns (ok: bool, offset: nat)
    requires start <= size <= data.Length
    ensures start <= offset <= size
    ensures ok <==> RasterParses(data[start..size])
    ensures ok ==> data[offset..size] == ParseSubBlocks(data[start..size][1..]).value.rest
  {
    offset := start;
    if offset >= size || data[offset] < 2 || data[offset] > 8 {
      return false, offset;
    }
    assert data[offset..size][1..] == data[offset + 1..size];
    ok, offset := SkipSubBlocks(data, size, offset + 1);
  }

  method SkipRaster(data: array<Byte>, size: nat, start: nat, packed: Byte) returns (ok: bool, offset: nat)
    requires start <= size <= data.Length
    ensures start <= offset <= size
    ensures ok <==> BodyParses(data[start..size], packed)
    ensures ok ==> data[offset..size] == AfterBody(data[start..size], packed)
  {
    ok, offset := SkipPalette(size, start, packed);
    if !ok {
      return;
    }
    assert data[start..size][PaletteSize(packed)..] == data[offset..size];
    ok, offset := SkipCodes(data, size, offset);
  }

  method FrameIsBounded(data: array<Byte>, size: nat, start: nat, canvasWidth: nat, canvasHeight: nat,
                        canvasPixels: nat, framesSoFar: nat, ghost limit: nat)
    returns (ok: bool, offset: nat, frames: nat)
    requires 0 < start <= size <= data.Length && data[start - 1] == IMAGE
    requires 0 < canvasPixels && limit == MAX_INLINE_GIF_PIXEL_FRAMES / canvasPixels
    ensures ok ==> start <= offset <= size && frames == framesSoFar + 1
                   && frames <= limit
    ensures Walk(data[start - 1..size], canvasWidth, canvasHeight, limit, framesSoFar) <==>
            ok && Walk(data[offset..size], canvasWidth, canvasHeight, limit, frames)
  {
    ghost var s := data[start - 1..size];
    WalkImage(s, canvasWidth, canvasHeight, limit, framesSoFar);
    offset, frames := start, framesSoFar;
    if offset > size || 9 > size - offset {
      return false, offset, frames;
    }
    assert |s| >= 10 && s[9] == data[offset + 8];
    var left := ReadU16(data, offset);
    var top := ReadU16(data, offset + 2);
    var width := ReadU16(data, offset + 4);
    var height := ReadU16(data, offset + 6);
    assert left == ReadWord(s, 1) && top == ReadWord(s, 3) && width == ReadWord(s, 5) && height == ReadWord(s, 7);
    var imagePacked := data[offset + 8];
    offset := offset + 9;
    if width == 0 || height == 0 || left + width > canvasWidth || top + height > canvasHeight {
      return false, offset, frames;
    }
    frames := frames + 1;
    if frames > MAX_INLINE_GIF_PIXEL_FRAMES / canvasPixels {
      return false, offset, frames;
    }
    assert s[10..] == data[offset..size];
    ok, offset := SkipRaster(data, size, offset, imagePacked);
  }

  method SkipExtension(data: array<Byte>, size: nat, start: nat, ghost width: nat, ghost height: nat,
                       ghost limit: nat, ghost frames: nat)
    returns (ok: bool, offset: nat)
    requires 0 < start <= size <= data.Length && data[start - 1] == EXTENSION
    ensures ok ==> start <= offset <= size
    ensures Walk(data[start - 1..size], width, height, limit, frames) <==>
            ok && Walk(data[offset..size], width, height, limit, frames)
  {
    WalkExtension(data[start - 1..size], width, height, limit, frames);
    ok, offset := Advance(start, 1, size);
    if ok {
      assert data[start - 1..size][2..] == data[offset..size];
      ok, offset := SkipSubBlocks(data, size, offset);
    }
  }

  /** One block other than the trailer; `start` is at its marker. */
  method SkipBlock(data: array<Byte>, size: nat, start: nat, canvasWidth: nat, canvasHeight: nat,
                   canvasPixels: nat, framesSoFar: nat, ghost limit: nat)
    returns (ok: bool, offset: nat, frames: nat)
    requires start < size <= data.Length && data[start] != TRAILER && framesSoFar <= limit
    requires 0 < canvasPixels && limit == MAX_INLINE_GIF_PIXEL_FRAMES / canvasPixels
    ensures ok ==> start < offset <= size && frames <= limit
    ensures Walk(data[start..size], canvasWidth, canvasHeight, limit, framesSoFar) <==>
            ok && Walk(data[offset..size], canvasWidth, canvasHeight, limit, frames)
  {
    var marker := data[start];
    ok, offset, frames := false, start + 1, framesSoFar;
    if marker == EXTENSION {
      ok, offset := SkipExtension(data, size, offset, canvasWidth, canvasHeight, limit, frames);
    } else if marker == IMAGE {
      ok, offset, frames := FrameIsBounded(data, size, offset, canvasWidth, canvasHeight, canvasPixels, frames, limit);
    } else {
      WalkUnknown(data[start..size], canvasWidth, canvasHeight, limit, framesSoFar);
    }
  }

  /** The block loop of `signal_inline_gif_is_bounded`. */
  method BlocksAreBounded(data: array<Byte>, size: nat, start: nat, canvasWidth: nat, canvasHeight: nat,
                          canvasPixels: nat, ghost limit: nat)
    returns (accepted: bool)
    requires start <= size <= data.Length
    requires 0 < canvasPixels && limit == MAX_INLINE_GIF_PIXEL_FRAMES / canvasPixels
    ensures accepted <==> Walk(data[start..size], canvasWidth, canvasHeight, limit, 0)
  {
    ghost var expected := Walk(data[start..size], canvasWidth, canvasHeight, limit, 0);
    var offset, frames: nat := start, 0;
    while offset < size
      invariant start <= offset <= size && frames <= limit
      invariant expected == Walk(data[offset..size], canvasWidth, canvasHeight, limit, frames)
      decreases size - offset
    {
      if data[offset] == TRAILER {
        WalkTrailer(data[offset..size], canvasWidth, canvasHeight, limit, frames);
        return frames > 0;
      }
      var ok;
      ok, offset, frames := SkipBlock(data, size, offset, canvasWidth, canvasHeight, canvasPixels, frames, limit);
      if !ok {
        return false;
      }
    }
    WalkEmpty(data[offset..size], canvasWidth, canvasHeight, limit, frames);
    return false;
  }

  method GifIsBounded(data: array?<Byte>, size: nat) returns (accepted: bool)
    requires data != null ==> size <= data.Length
    ensures accepted <==> data != null && IsBoundedGif(data[..size])
  {
    if data != null {
      WalkDecides(data[..size]);
    }
    if size < 13 || size > MAX_INLINE_MEDIA_BYTES {
      return false;
    }
    var gif87 := HasPrefix(data, size, Signature(false));
    var gif89 := HasPrefix(data, size, Signature(true));
    if !gif87 && !gif89 {
      return false;
    }
    ghost var all := data[..size];
    var canvasWidth := ReadU16(data, 6);
    var canvasHeight := ReadU16(data, 8);
    assert canvasWidth == ReadWord(all, 6) && canvasHeight == ReadWord(all, 8);
    var supported := DimensionsAreSupported(canvasWidth, canvasHeight);
    if !supported {
      return false;
    }
    var width: int, height: int := canvasWidth, canvasHeight;
    var canvasPixels := width * height;
    PixelsPositive(canvasWidth, canvasHeight);
    ghost var limit := FrameLimit(canvasWidth, canvasHeight);
    var packed := data[10];
    assert all[10] == packed;
    var colored, offset := SkipPalette(size, 13, packed);
    if !colored {
      return false;
    }
    assert all[13..][PaletteSize(packed)..] == data[offset..size];
    accepted := BlocksAreBounded(data, size, offset, canvasWidth, canvasHeight, canvasPixels, limit);
  }

  /** The host's answer about a buffer is the backend's answer about the same bytes. */
  method AgreesWithBackend(data: array<Byte>, size: nat) returns (host: bool, backend: bool)
    requires size <= data.Length
    ensures host == backend
    ensures backend <==> IsBoundedGif(data[..size])
  {
    host := GifIsBounded(data, size);
    backend := Rust.BoundedInlineGif(data[..size]);
  }
}
