/** The Wii video driver of the older tree: the two display modes, setting a
    mode (back buffer and surface geometry), the hardware-surface stubs and
    the flip that converts the linear 16-bit surface into the 4x4-pixel tiles
    of a GX texture before presenting one of two external framebuffers. */
module WiiVideo {
  import opened Sdl

  /** An SDL_Rect used as a display mode; only its size matters. */
  datatype Rect = Rect(w: int, h: int)

  /** Size of the static texture memory the flip writes into. */
  const TEXTUREMEM_SIZE: int := 640 * 480 * 4

  predicate Covers(m: Rect, width: int, height: int)
  {
    m.w >= width && m.h >= height
  }

  /** mode_320: half the full mode in both directions (unsigned division). */
  function Half(full: Rect): (r: Rect)
    requires 0 <= full.w && 0 <= full.h
    ensures 2 * r.w <= full.w <= 2 * r.w + 1 && 2 * r.h <= full.h <= 2 * r.h + 1
  {
    Rect(full.w / 2, full.h / 2)
  }

  /** The entries of `modes_descending` before its NULL terminator. */
  function ModeList(full: Rect): seq<Rect>
    requires 0 <= full.w && 0 <= full.h
  {
    [full, Half(full)]
  }

  /** The index of the first entry of modes that holds a width x height request. */
  function FirstFit(modes: seq<Rect>, width: int, height: int): (r: Option<nat>)
    ensures r.Some? ==> r.value < |modes| && Covers(modes[r.value], width, height)
    ensures r.Some? ==> forall j :: 0 <= j < r.value ==> !Covers(modes[j], width, height)
    ensures r.None? <==> forall j :: 0 <= j < |modes| ==> !Covers(modes[j], width, height)
  {
    if |modes| == 0 then None
    else if Covers(modes[0], width, height) then Some(0)
    else
      match FirstFit(modes[1..], width, height)
      case None => None
      case Some(i) => Some(i + 1)
  }

  /** The search loop of WII_SetVideoMode, walking the list entry by entry. */
  method FindMode(modes: seq<Rect>, width: int, height: int) returns (found: Option<nat>)
    ensures found == FirstFit(modes, width, height)
  {
    var i := 0;
    while i < |modes|
      invariant 0 <= i <= |modes|
      invariant forall j :: 0 <= j < i ==> !Covers(modes[j], width, height)
    {
      if Covers(modes[i], width, height) {
        return Some(i);
      }
      i := i + 1;
    }
    return None;
  }

  /** The list is descending, so the search either picks the full mode or fails:
      the half mode is never the first entry that holds a request. */
  lemma ModeSearchIff(full: Rect, width: int, height: int)
    requires 0 <= full.w && 0 <= full.h
    ensures FirstFit(ModeList(full), width, height)
            == if Covers(full, width, height) then Some(0) else None
  {
    var r := FirstFit(ModeList(full), width, height);
    if !Covers(full, width, height) {
      assert !Covers(ModeList(full)[1], width, height);
    }
  }

  /** The search as written: `++mode` steps the SDL_Rect pointer to whatever
      rectangle lies after mode_640 in memory, not to the next list entry, and
      the pointer never becomes NULL. `following` stands for a finite stretch of
      that memory; once it runs out the model answers None, where the source
      would read on. */
  function ModeScanAsWritten(full: Rect, following: seq<Rect>, width: int, height: int): Option<nat>
  {
    FirstFit([full] + following, width, height)
  }

  /** On a 640x480 display an 800x600 request should fail, but the scan as
      written accepts the foreign rectangle found after mode_640. */
  lemma ModeScanAsWrittenStrays()
    ensures ModeScanAsWritten(Rect(640, 480), [Rect(1024, 768)], 800, 600) == Some(1)
    ensures FirstFit(ModeList(Rect(640, 480)), 800, 600) == None
  {
    ModeSearchIff(Rect(640, 480), 800, 600);
    assert !Covers(([Rect(640, 480)] + [Rect(1024, 768)])[0], 800, 600);
    assert ([Rect(640, 480)] + [Rect(1024, 768)])[1..] == [Rect(1024, 768)];
    assert FirstFit([Rect(1024, 768)], 800, 600) == Some(0);
  }

  /** `Uint16 pitch` of SDL_Surface: the value stored is truncated to 16 bits. */
  function Pitch16(x: int): (r: int)
    requires 0 <= x
    ensures 0 <= r <= x && r < 0x1_0000
    ensures x < 0x1_0000 ==> r == x
  {
    x % 0x1_0000
  }

  /** Why WII_SetVideoMode returned NULL. */
  datatype ModeError = TooLarge(width: int, height: int) | NoBuffer | NoFormat

  /** The text each failure hands to SDL_SetError. */
  function Message(e: ModeError): string
  {
    match e
    case TooLarge(w, h) => "Display mode (" + Decimal(w) + "x" + Decimal(h) + ") is too large to fit on the screen"
    case NoBuffer => "Couldn't allocate buffer for requested mode"
    case NoFormat => "Couldn't allocate new pixel format for requested mode"
  }

  /** The part of SDL_Surface the driver writes. `format` is the bits per pixel
      of the surface's pixel format after SDL_ReallocFormat, None when that failed. */
  class Surface {
    var flags: bv32
    var w: int
    var h: int
    var pitch: int
    var pixels: array?<bv8>
    var format: Option<int>

    constructor ()
      ensures flags == 0 && w == 0 && h == 0 && pitch == 0 && pixels == null && format == None
    {
      flags, w, h, pitch, pixels, format := 0, 0, 0, 0, null, None;
    }
  }

  // ---------------------------------------------------------------- flip spec

  /** `width >> 2`: the number of 4-pixel tile columns. */
  function Cols(width: int): int
  {
    width / 4
  }

  /** The number of passes of `for (h = 0; h < height; h += 4)`. */
  function Blocks(height: int): nat
    requires 0 <= height
  {
    (height + 3) / 4
  }

  /** How far each of the four source pointers moves over one block row, in
      bytes: the inner copy, then `rowpitch` words, then `rowadjust` bytes. */
  function Advance(width: int, pitch: int): int
    requires 0 <= width && 0 <= pitch
  {
    8 * Cols(width) + 8 * ((pitch / 8) * 3) + (pitch % 8) * 4
  }

  /** n * x by repeated addition. The tiling proofs count block rows with it,
      which keeps them within linear arithmetic; TimesIsProduct connects it to `*`. */
  function Times(n: nat, x: int): int
  {
    if n == 0 then 0 else Times(n - 1, x) + x
  }

  lemma {:induction false} TimesIsProduct(n: nat, x: int)
    ensures Times(n, x) == n * x
  {
    if n > 0 {
      TimesIsProduct(n - 1, x);
    }
  }

  lemma {:induction false} TimesMono(m: nat, n: nat, x: int)
    requires m <= n && 0 <= x
    ensures 0 <= Times(m, x) <= Times(n, x)
  {
    if m < n {
      TimesMono(m, n - 1, x);
    } else if m > 0 {
      TimesMono(m - 1, m - 1, x);
    }
  }

  /** Every read of a flip over nb block rows of cols tiles, whose pointers
      move adv bytes per block row, lies inside a surface of len bytes: the
      last word of the fourth row of the last block row ends by len. */
  predicate ReadsFit(len: int, cols: int, adv: int, pitch: int, nb: nat)
  {
    nb == 0 || cols == 0 || Times(nb - 1, adv) + 3 * pitch + 8 * cols <= len
  }

  /** The 8-byte word (`long long`) at byte offset o. */
  function Word(buf: seq<bv8>, o: int): (r: seq<bv8>)
    requires 0 <= o && o + 8 <= |buf|
    ensures |r| == 8
  {
    buf[o..o + 8]
  }

  /** The byte offsets of the four source pointers src1 .. src4 when they
      copy tile c of the block row whose first pointer starts at base. */
  function TileOffsets(base: int, pitch: int, c: int): (r: seq<int>)
    ensures |r| == 4
  {
    [base + 8 * c, base + pitch + 8 * c, base + 2 * pitch + 8 * c, base + 3 * pitch + 8 * c]
  }

  /** The source offsets of the words of the first n tiles of a block row. */
  function RowOffsets(base: int, pitch: int, n: nat): (r: seq<int>)
    ensures |r| == 4 * n
  {
    if n == 0 then [] else RowOffsets(base, pitch, n - 1) + TileOffsets(base, pitch, n - 1)
  }

  /** The source offsets of the words a flip over nb block rows of cols tiles
      copies, in the order it stores them into the texture. */
  function FlipOffsets(cols: nat, adv: int, pitch: int, nb: nat): (r: seq<int>)
    ensures |r| == Times(nb, 4 * cols)
  {
    if nb == 0 then []
    else FlipOffsets(cols, adv, pitch, nb - 1) + RowOffsets(Times(nb - 1, adv), pitch, cols)
  }

  /** Every word at these offsets lies inside a buffer of len bytes. */
  predicate InBuffer(offs: seq<int>, len: int)
  {
    forall q :: 0 <= q < |offs| ==> 0 <= offs[q] && offs[q] + 8 <= len
  }

  /** The words of buf at offs, one after the other. */
  function Gather(buf: seq<bv8>, offs: seq<int>): (r: seq<bv8>)
    requires InBuffer(offs, |buf|)
    ensures |r| == 8 * |offs|
  {
    if offs == [] then [] else Gather(buf, offs[..|offs| - 1]) + Word(buf, offs[|offs| - 1])
  }

  /** Byte i = 8q + k of the gathered bytes is byte k of word q. */
  lemma {:induction false} GatherAt(buf: seq<bv8>, offs: seq<int>, q: int, k: int, i: int)
    requires InBuffer(offs, |buf|) && 0 <= q < |offs| && 0 <= k < 8 && i == 8 * q + k
    ensures 0 <= offs[q] + k < |buf|
    ensures Gather(buf, offs)[i] == buf[offs[q] + k]
  {
    if q < |offs| - 1 {
      GatherAt(buf, offs[..|offs| - 1], q, k, i);
    }
  }

  lemma InBufferConcat(a: seq<int>, b: seq<int>, len: int)
    requires InBuffer(a, len) && InBuffer(b, len)
    ensures InBuffer(a + b, len)
  {
  }

  lemma {:induction false} RowInBuffer(base: int, pitch: int, n: nat, len: int)
    requires 0 <= base && 0 <= pitch && (n == 0 || base + 3 * pitch + 8 * n <= len)
    ensures InBuffer(RowOffsets(base, pitch, n), len)
  {
    if n > 0 {
      RowInBuffer(base, pitch, n - 1, len);
      InBufferConcat(RowOffsets(base, pitch, n - 1), TileOffsets(base, pitch, n - 1), len);
    }
  }

  /** Where block row b lies in the texture and in the surface. */
  lemma BlockRowBounds(len: int, cols: nat, adv: int, pitch: int, nb: nat, b: nat)
    requires 0 <= adv && 0 <= pitch && ReadsFit(len, cols, adv, pitch, nb) && b < nb
    ensures 0 <= Times(b, 4 * cols) && Times(b, 4 * cols) + 4 * cols <= Times(nb, 4 * cols)
    ensures 0 <= Times(b, adv) && ReadsFit(len, cols, adv, pitch, b + 1)
    ensures cols == 0 || Times(b, adv) + 3 * pitch + 8 * cols <= len
  {
    TimesMono(b + 1, nb, 4 * cols);
    TimesMono(b, nb - 1, adv);
    TimesMono(0, b, adv);
    TimesMono(0, b, 4 * cols);
  }

  /** Every read of the flip lies inside the surface when ReadsFit holds. */
  lemma {:induction false} FlipInBuffer(len: int, cols: nat, adv: int, pitch: int, nb: nat)
    requires 0 <= adv && 0 <= pitch && ReadsFit(len, cols, adv, pitch, nb)
    ensures InBuffer(FlipOffsets(cols, adv, pitch, nb), len)
  {
    if nb > 0 {
      BlockRowBounds(len, cols, adv, pitch, nb, nb - 1);
      if nb > 1 {
        BlockRowBounds(len, cols, adv, pitch, nb, nb - 2);
      }
      FlipInBuffer(len, cols, adv, pitch, nb - 1);
      RowInBuffer(Times(nb - 1, adv), pitch, cols, len);
      InBufferConcat(FlipOffsets(cols, adv, pitch, nb - 1), RowOffsets(Times(nb - 1, adv), pitch, cols), len);
    }
  }

  /** The texture bytes a flip over nb block rows writes. */
  function FlipImage(buf: seq<bv8>, cols: nat, adv: int, pitch: int, nb: nat): (r: seq<bv8>)
    requires 0 <= adv && 0 <= pitch && ReadsFit(|buf|, cols, adv, pitch, nb)
    ensures |r| == 8 * Times(nb, 4 * cols)
  {
    FlipInBuffer(|buf|, cols, adv, pitch, nb);
    Gather(buf, FlipOffsets(cols, adv, pitch, nb))
  }

  /** Word j = 4c + r of a block row comes from the r-th source pointer of tile c. */
  lemma {:induction false} RowOffsetAt(base: int, pitch: int, n: nat, c: int, r: int, j: int)
    requires 0 <= c < n && 0 <= r < 4 && j == 4 * c + r
    ensures RowOffsets(base, pitch, n)[j] == TileOffsets(base, pitch, c)[r]
  {
    if c < n - 1 {
      RowOffsetAt(base, pitch, n - 1, c, r, j);
    }
  }

  /** Word q = b * 4cols + j of the flip is word j of the tile row read from
      offset b * adv. */
  lemma {:induction false} FlipOffsetAt(cols: nat, adv: int, pitch: int, nb: nat, b: nat, j: int, q: int)
    requires 0 <= adv && b < nb && 0 <= j < 4 * cols && q == Times(b, 4 * cols) + j
    ensures 0 <= q < Times(nb, 4 * cols)
    ensures FlipOffsets(cols, adv, pitch, nb)[q] == RowOffsets(Times(b, adv), pitch, cols)[j]
  {
    TimesMono(b + 1, nb, 4 * cols);
    TimesMono(0, b, 4 * cols);
    if b < nb - 1 {
      FlipOffsetAt(cols, adv, pitch, nb - 1, b, j, q);
    }
  }

  /** Byte k of word q of the image is byte k of the word at the q-th offset. */
  lemma FlipWordAt(buf: seq<bv8>, cols: nat, adv: int, pitch: int, nb: nat, q: int, k: int)
    requires 0 <= adv && 0 <= pitch && ReadsFit(|buf|, cols, adv, pitch, nb)
    requires 0 <= q < Times(nb, 4 * cols) && 0 <= k < 8
    ensures 0 <= FlipOffsets(cols, adv, pitch, nb)[q] + k < |buf|
    ensures FlipImage(buf, cols, adv, pitch, nb)[8 * q + k] == buf[FlipOffsets(cols, adv, pitch, nb)[q] + k]
  {
    FlipInBuffer(|buf|, cols, adv, pitch, nb);
    GatherAt(buf, FlipOffsets(cols, adv, pitch, nb), q, k, 8 * q + k);
  }

  /** Word r of tile c of block row b is read by the r-th source pointer. */
  lemma FlipSourceAt(cols: nat, adv: int, pitch: int, nb: nat, b: nat, c: int, r: int)
    requires 0 <= adv && b < nb && 0 <= c < cols && 0 <= r < 4
    ensures 0 <= Times(b, 4 * cols) + 4 * c + r < Times(nb, 4 * cols)
    ensures FlipOffsets(cols, adv, pitch, nb)[Times(b, 4 * cols) + 4 * c + r]
            == TileOffsets(Times(b, adv), pitch, c)[r]
  {
    var q := Times(b, 4 * cols) + 4 * c + r;
    FlipOffsetAt(cols, adv, pitch, nb, b, 4 * c + r, q);
    RowOffsetAt(Times(b, adv), pitch, cols, c, r, 4 * c + r);
  }

  /** The index map of the flip: byte k of word r of tile c in block row b is
      byte 8c + k of the r-th of the four rows that block row reads, its
      pointers having moved b * adv bytes. */
  lemma TexelSource(buf: seq<bv8>, cols: nat, adv: int, pitch: int, nb: nat,
                    b: nat, c: int, r: int, k: int)
    requires 0 <= adv && 0 <= pitch && ReadsFit(|buf|, cols, adv, pitch, nb)
    requires b < nb && 0 <= c < cols && 0 <= r < 4 && 0 <= k < 8
    ensures |FlipImage(buf, cols, adv, pitch, nb)| == 32 * cols * nb
    ensures 0 <= 32 * cols * b + 32 * c + 8 * r + k < 32 * cols * nb
    ensures 0 <= b * adv + r * pitch + 8 * c + k < |buf|
    ensures FlipImage(buf, cols, adv, pitch, nb)[32 * cols * b + 32 * c + 8 * r + k]
            == buf[b * adv + r * pitch + 8 * c + k]
  {
    var q := Times(b, 4 * cols) + 4 * c + r;
    FlipSourceAt(cols, adv, pitch, nb, b, c, r);
    FlipWordAt(buf, cols, adv, pitch, nb, q, k);
    TexelOffsets(cols, adv, pitch, nb, b, c, r, k);
  }

  /** The number of texture bytes a flip writes: 32 for each of the
      4 x 4 tiles, Cols(width) of them in each of Blocks(height) block rows. */
  function TextureSpan(width: int, height: int): int
    requires 0 <= width && 0 <= height
  {
    8 * Times(Blocks(height), 4 * Cols(width))
  }

  /** TextureSpan as a product. */
  lemma ImageSize(width: int, height: int)
    requires 0 <= width && 0 <= height
    ensures TextureSpan(width, height) == 32 * Cols(width) * Blocks(height)
  {
    TimesIsProduct(Blocks(height), 4 * Cols(width));
  }

  /** TexelSource's offsets, from repeated addition to products. */
  lemma TexelOffsets(cols: nat, adv: int, pitch: int, nb: nat, b: nat, c: int, r: int, k: int)
    requires 0 <= r < 4
    ensures 8 * Times(nb, 4 * cols) == 32 * cols * nb
    ensures 8 * (Times(b, 4 * cols) + 4 * c + r) + k == 32 * cols * b + 32 * c + 8 * r + k
    ensures TileOffsets(Times(b, adv), pitch, c)[r] + k == b * adv + r * pitch + 8 * c + k
  {
    TimesIsProduct(b, 4 * cols);
    TimesIsProduct(nb, 4 * cols);
    TimesIsProduct(b, adv);
  }

  /** With a 16-bit surface (pitch = 2 * width) each pointer moves by exactly
      four rows per block row, whatever the width. */
  lemma RowAdvance(width: int, pitch: int)
    requires 0 <= width && pitch == 2 * width
    ensures Advance(width, pitch) == 4 * pitch
  {
    var q := width / 4;
    assert width == 4 * q + width % 4;
    assert pitch / 8 == q && pitch % 8 == 2 * (width % 4);
  }

  /** A 16-bit surface whose height is a multiple of 4 is read only inside
      its height * pitch bytes. */
  lemma ReadsFit16(len: int, width: int, height: int, pitch: int)
    requires 0 <= width && 0 <= height && pitch == 2 * width
    requires height % 4 == 0 && height * pitch <= len
    ensures ReadsFit(len, Cols(width), Advance(width, pitch), pitch, Blocks(height))
  {
    RowAdvance(width, pitch);
    var nb := Blocks(height);
    assert height == 4 * nb;
    if nb > 0 {
      TimesIsProduct(nb, 4 * pitch);
      Regroup(nb, pitch);
      assert Times(nb, 4 * pitch) == Times(nb - 1, 4 * pitch) + 4 * pitch;
    }
  }

  lemma Regroup(n: int, p: int)
    ensures n * (4 * p) == (4 * n) * p
  {
  }
  /** Row 4b + r of a 16-bit surface starts (4b + r) * pitch bytes in. */
  lemma RowStart(b: int, r: int, pitch: int)
    ensures b * (4 * pitch) + r * pitch == (4 * b + r) * pitch
  {
  }

  /** The flip of a 16-bit surface whose height is a multiple of 4: byte k of
      word r of tile c in block row b is byte 8c + k of surface row 4b + r. */
  lemma Texel16(buf: seq<bv8>, width: int, height: int, pitch: int, b: nat, c: int, r: int, k: int)
    requires 0 <= width && 0 <= height && pitch == 2 * width
    requires height % 4 == 0 && height * pitch <= |buf|
    requires 4 * b < height && 0 <= c < Cols(width) && 0 <= r < 4 && 0 <= k < 8
    ensures ReadsFit(|buf|, Cols(width), Advance(width, pitch), pitch, Blocks(height))
    ensures 0 <= 32 * Cols(width) * b + 32 * c + 8 * r + k < |FlipImage(buf, Cols(width), Advance(width, pitch), pitch, Blocks(height))|
    ensures 0 <= (4 * b + r) * pitch + 8 * c + k < |buf|
    ensures FlipImage(buf, Cols(width), Advance(width, pitch), pitch, Blocks(height))[32 * Cols(width) * b + 32 * c + 8 * r + k]
            == buf[(4 * b + r) * pitch + 8 * c + k]
  {
    ReadsFit16(|buf|, width, height, pitch);
    RowAdvance(width, pitch);
    TexelSource(buf, Cols(width), Advance(width, pitch), pitch, Blocks(height), b, c, r, k);
    RowStart(b, r, pitch);
  }

  // ------------------------------------------------------------- the driver

  /** The bytes of a buffer; a NULL buffer holds none. */
  function Bytes(a: array?<bv8>): seq<bv8>
    reads a
  {
    if a == null then [] else a[..]
  }

  /** The words of buf at offs lie, in order, at the start of t: byte i of t
      is byte i % 8 of word i / 8. */
  ghost predicate Stored(t: array<bv8>, buf: seq<bv8>, offs: seq<int>)
    reads t
  {
    8 * |offs| <= t.Length && forall i :: 0 <= i < 8 * |offs| ==> ByteStored(t, buf, offs, i)
  }

  ghost predicate ByteStored(t: array<bv8>, buf: seq<bv8>, offs: seq<int>, i: int)
    requires 0 <= i < 8 * |offs| <= t.Length
    reads t
  {
    0 <= offs[i / 8] + i % 8 < |buf| && t[i] == buf[offs[i / 8] + i % 8]
  }

  /** t begins with p. */
  predicate StartsWith(t: seq<bv8>, p: seq<bv8>)
  {
    |p| <= |t| && t[..|p|] == p
  }

  /** A texture holding the words at the flip's offsets begins with FlipImage. */
  lemma StoredImage(t: array<bv8>, buf: seq<bv8>, cols: nat, adv: int, pitch: int, nb: nat)
    requires 0 <= adv && 0 <= pitch && ReadsFit(|buf|, cols, adv, pitch, nb)
    requires Stored(t, buf, FlipOffsets(cols, adv, pitch, nb))
    ensures StartsWith(t[..], FlipImage(buf, cols, adv, pitch, nb))
  {
    var offs := FlipOffsets(cols, adv, pitch, nb);
    var image := FlipImage(buf, cols, adv, pitch, nb);
    FlipInBuffer(|buf|, cols, adv, pitch, nb);
    forall i | 0 <= i < |image|
      ensures t[i] == image[i]
    {
      assert ByteStored(t, buf, offs, i);
      GatherAt(buf, offs, i / 8, i % 8, i);
    }
  }

  /** The inner body of the flip, `*dst++ = *src1++` .. `*dst++ = *src4++`:
      the four 8-byte (`long long`) words of one tile stored one after the
      other at d = 8 * |done|, so that the texture then holds the words at
      the offsets done followed by the tile's four offsets. */
  method CopyTile(src: array<bv8>, tex: array<bv8>, s1: int, s2: int, s3: int, s4: int, d: int,
                  ghost buf: seq<bv8>, ghost done: seq<int>, ghost tile: seq<int>)
    requires src != tex && src[..] == buf && tile == [s1, s2, s3, s4]
    requires 0 <= s1 && s1 + 8 <= src.Length && 0 <= s2 && s2 + 8 <= src.Length
    requires 0 <= s3 && s3 + 8 <= src.Length && 0 <= s4 && s4 + 8 <= src.Length
    requires d == 8 * |done| && d + 32 <= tex.Length
    requires Stored(tex, buf, done)
    modifies tex
    ensures Stored(tex, buf, done + tile)
    ensures forall i :: d + 32 <= i < tex.Length ==> tex[i] == old(tex[i])
  {
    forall i | d <= i < d + 8 {
      tex[i] := src[s1 + (i - d)];
    }
    forall i | d + 8 <= i < d + 16 {
      tex[i] := src[s2 + (i - d - 8)];
    }
    forall i | d + 16 <= i < d + 24 {
      tex[i] := src[s3 + (i - d - 16)];
    }
    forall i | d + 24 <= i < d + 32 {
      tex[i] := src[s4 + (i - d - 24)];
    }
    ghost var offs := done + tile;
    forall i | 0 <= i < 8 * |offs|
      ensures ByteStored(tex, buf, offs, i)
    {
      if i < d {
        assert old(ByteStored(tex, buf, done, i));
        assert offs[i / 8] == done[i / 8];
        assert tex[i] == old(tex[i]);
      } else {
        assert offs[i / 8] == tile[i / 8 - |done|];
      }
    }
  }

  /** The inner loop of the flip: the cols tiles of one block row, whose
      four source rows start at s1 .. s4, stored from d on. Returns the
      advanced source and destination pointers. */
  method CopyBlockRow(src: array?<bv8>, tex: array<bv8>, s1: int, s2: int, s3: int, s4: int, d: int,
                      cols: int, pitch: int, ghost buf: seq<bv8>, ghost done: seq<int>)
    returns (e1: int, e2: int, e3: int, e4: int, e: int)
    requires src != tex && Bytes(src) == buf
    requires 0 <= s1 && 0 <= pitch && s2 == s1 + pitch && s3 == s1 + 2 * pitch && s4 == s1 + 3 * pitch
    requires 0 <= cols && (cols == 0 || s1 + 3 * pitch + 8 * cols <= |buf|)
    requires d == 8 * |done| && d + 32 * cols <= tex.Length
    requires Stored(tex, buf, done)
    modifies tex
    ensures e1 == s1 + 8 * cols && e2 == e1 + pitch && e3 == e1 + 2 * pitch && e4 == e1 + 3 * pitch
    ensures e == d + 32 * cols
    ensures Stored(tex, buf, done + RowOffsets(s1, pitch, cols))
    ensures forall i :: e <= i < tex.Length ==> tex[i] == old(tex[i])
  {
    e1, e2, e3, e4, e := s1, s2, s3, s4, d;
    var w := 0;
    assert done + RowOffsets(s1, pitch, 0) == done;
    while w < cols
      invariant 0 <= w <= cols
      invariant e1 == s1 + 8 * w && e2 == e1 + pitch && e3 == e1 + 2 * pitch && e4 == e1 + 3 * pitch
      invariant e == d + 32 * w
      invariant Stored(tex, buf, done + RowOffsets(s1, pitch, w))
      invariant forall i :: e <= i < tex.Length ==> tex[i] == old(tex[i])
    {
      ghost var front := done + RowOffsets(s1, pitch, w);
      assert src != null;
      CopyTile(src, tex, e1, e2, e3, e4, e, buf, front, TileOffsets(s1, pitch, w));
      RowStep(done, s1, pitch, w);
      e := e + 32;
      e1, e2, e3, e4 := e1 + 8, e2 + 8, e3 + 8, e4 + 8;
      w := w + 1;
    }
  }

  /** Appending tile w's offsets to a row of w tiles gives a row of w + 1. */
  lemma RowStep(done: seq<int>, base: int, pitch: int, w: nat)
    ensures done + RowOffsets(base, pitch, w) + TileOffsets(base, pitch, w) == done + RowOffsets(base, pitch, w + 1)
  {
  }

  /** SDL_memset(buffer, 0, size). */
  method Clear(a: array<bv8>)
    modifies a
    ensures forall i :: 0 <= i < a.Length ==> a[i] == 0
  {
    forall i | 0 <= i < a.Length {
      a[i] := 0;
    }
  }

  /** "Set up the new mode framebuffer": the surface fields WII_SetVideoMode
      writes once the buffer and the pixel format exist. */
  method SetUpSurface(current: Surface, w: int, h: int, bytesPerPixel: int, flags: bv32, mem: array<bv8>)
    requires 0 <= w && 0 <= bytesPerPixel
    modifies current
    ensures current.flags == DOUBLEBUF | (flags & FULLSCREEN)
    ensures current.w == w && current.h == h && current.pitch == Pitch16(w * bytesPerPixel)
    ensures current.pixels == mem && current.format == old(current.format)
  {
    current.flags := DOUBLEBUF | (flags & FULLSCREEN);
    current.w := w;
    current.h := h;
    current.pitch := Pitch16(current.w * bytesPerPixel);
    current.pixels := mem;
  }

  /** The tiling loops of WII_FlipHWSurface: the surface src of the given
      geometry copied into tex, 4 x 4 pixels (four 8-byte words) per tile,
      tile after tile along each block row of four pixel rows. */
  method TileSurface(src: array?<bv8>, tex: array<bv8>, width: int, height: int, pitch: int)
    requires src != tex && 0 <= width && 0 <= height && 0 <= pitch
    requires ReadsFit(|Bytes(src)|, Cols(width), Advance(width, pitch), pitch, Blocks(height))
    requires TextureSpan(width, height) <= tex.Length
    modifies tex
    ensures StartsWith(tex[..], FlipImage(Bytes(src), Cols(width), Advance(width, pitch), pitch, Blocks(height)))
    ensures forall i :: TextureSpan(width, height) <= i < tex.Length ==> tex[i] == old(tex[i])
  {
    ghost var buf := Bytes(src);
    var cols := width / 4;
    ghost var adv := Advance(width, pitch);
    ghost var nb := Blocks(height);
    var dst := 0;
    var src1, src2, src3, src4 := 0, pitch, pitch * 2, pitch * 3;
    var rowpitch := (pitch / 8) * 3;
    var rowadjust := (pitch % 8) * 4;
    var h := 0;
    ghost var b: nat := 0;
    while h < height
      invariant 0 <= b <= nb && h == 4 * b
      invariant src1 == Times(b, adv) && src2 == src1 + pitch && src3 == src1 + 2 * pitch && src4 == src1 + 3 * pitch
      invariant dst == 8 * Times(b, 4 * cols) && dst <= tex.Length
      invariant Stored(tex, buf, FlipOffsets(cols, adv, pitch, b))
      invariant forall i :: dst <= i < tex.Length ==> tex[i] == old(tex[i])
    {
      BlockRowBounds(|buf|, cols, adv, pitch, nb, b);
      TimesMono(b + 1, nb, 4 * cols);
      src1, src2, src3, src4, dst :=
        CopyBlockRow(src, tex, src1, src2, src3, src4, dst, cols, pitch, buf, FlipOffsets(cols, adv, pitch, b));
      src1, src2, src3, src4 := src1 + 8 * rowpitch, src2 + 8 * rowpitch, src3 + 8 * rowpitch, src4 + 8 * rowpitch;
      if rowadjust != 0 {
        src1, src2, src3, src4 := src1 + rowadjust, src2 + rowadjust, src3 + rowadjust, src4 + rowadjust;
      }
      h := h + 4;
      b := b + 1;
    }
    StoredImage(tex, buf, cols, adv, pitch, nb);
  }

  /** The video device: the driver's private data (SDL_PrivateVideoData) and
      the static state of the driver that its operations touch. */
  class VideoDevice {
    /** mode_640 and mode_320. */
    var full: Rect
    var half: Rect
    /** this->hidden: the back buffer and its geometry. */
    var buffer: array?<bv8>
    var width: int
    var height: int
    var pitch: int
    /** The external framebuffer drawn next, and the one last handed to the
        video interface. */
    var whichfb: int
    var shown: int
    /** texturemem. */
    const texture: array<bv8>

    ghost predicate Valid()
      reads this
    {
      texture.Length == TEXTUREMEM_SIZE && buffer != texture
      && (whichfb == 0 || whichfb == 1)
      && 0 <= full.w && 0 <= full.h
      && 0 <= width && 0 <= height && 0 <= pitch
    }

    /** WII_CreateDevice: the private data is zeroed; the statics start at zero. */
    constructor ()
      ensures Valid() && fresh(texture)
      ensures full == Rect(0, 0) && half == Rect(0, 0)
      ensures buffer == null && width == 0 && height == 0 && pitch == 0
      ensures whichfb == 0 && shown == 0
      ensures forall i :: 0 <= i < texture.Length ==> texture[i] == 0
    {
      full, half := Rect(0, 0), Rect(0, 0);
      buffer, width, height, pitch := null, 0, 0, 0;
      whichfb, shown := 0, 0;
      texture := new bv8[TEXTUREMEM_SIZE](_ => 0);
    }

    /** WII_VideoInit: the full mode is the preferred display mode's
        framebuffer size and the half mode half of it; the hidden buffer is
        forgotten (not freed) and the format reported is 8 bits per pixel. */
    method VideoInit(fbWidth: nat, xfbHeight: nat) returns (bitsPerPixel: int, bytesPerPixel: int, result: int)
      requires Valid()
      modifies this`full, this`half, this`buffer, this`width, this`height, this`pitch
      ensures Valid()
      ensures full == Rect(fbWidth, xfbHeight) && half == Half(full)
      ensures buffer == null && width == 0 && height == 0 && pitch == 0
      ensures bitsPerPixel == 8 && bytesPerPixel == 1 && result == 0
    {
      full := Rect(fbWidth, xfbHeight);
      half := Rect(full.w / 2, full.h / 2);
      bitsPerPixel, bytesPerPixel := 8, 1;
      buffer, width, height, pitch := null, 0, 0, 0;
      result := 0;
    }

    /** WII_ListModes: the same descending list whatever the format and flags. */
    method ListModes() returns (modes: seq<Rect>)
      requires Valid()
      ensures modes == [full, half]
    {
      modes := [full, half];
    }

    /** WII_SetVideoMode. The outcome of memalign and of SDL_ReallocFormat are
        the parameters allocOk and formatOk. */
    method SetVideoMode(current: Surface, w: int, h: int, bpp: int, flags: bv32,
                        allocOk: bool, formatOk: bool) returns (r: Surface?, error: Option<ModeError>)
      requires Valid() && half == Half(full)
      requires 0 <= w && 0 <= h && 0 <= bpp
      modifies this`buffer, this`width, this`height, this`pitch, current
      ensures Valid()
      // No mode holds the request: nothing changes.
      ensures !Covers(full, w, h) ==>
                r == null && error == Some(TooLarge(w, h))
                && buffer == old(buffer) && width == old(width) && height == old(height) && pitch == old(pitch)
                && unchanged(current)
      // The old buffer is gone whatever happens next.
      ensures Covers(full, w, h) && !allocOk ==>
                r == null && error == Some(NoBuffer) && buffer == null
                && width == old(width) && height == old(height) && pitch == old(pitch) && unchanged(current)
      ensures Covers(full, w, h) && allocOk && !formatOk ==>
                r == null && error == Some(NoFormat) && buffer == null
                && width == old(width) && height == old(height) && pitch == old(pitch)
                && current.format == None && current.flags == old(current.flags)
                && current.w == old(current.w) && current.h == old(current.h)
                && current.pitch == old(current.pitch) && current.pixels == old(current.pixels)
      ensures Covers(full, w, h) && allocOk && formatOk ==>
                r == current && error == None
                && buffer != null && fresh(buffer) && buffer.Length == w * h * (bpp / 8)
                && (forall i :: 0 <= i < buffer.Length ==> buffer[i] == 0)
                && current.flags == DOUBLEBUF | (flags & FULLSCREEN)
                && current.w == w && current.h == h && current.pitch == Pitch16(w * (bpp / 8))
                && current.pixels == buffer && current.format == Some(bpp)
                && width == current.w && height == current.h && pitch == current.pitch
    {
      var found := FindMode([full, half], w, h);
      ModeSearchIff(full, w, h);
      if found == None {
        return null, Some(TooLarge(w, h));
      }
      var bytesPerPixel := bpp / 8;
      // free(this->hidden->buffer)
      buffer := null;
      if !allocOk {
        return null, Some(NoBuffer);
      }
      var mem := new bv8[w * h * bytesPerPixel];
      buffer := mem;
      if !formatOk {
        current.format := None;
        buffer := null;
        return null, Some(NoFormat);
      }
      current.format := Some(bpp);
      Clear(mem);
      SetUpSurface(current, w, h, bytesPerPixel, flags, mem);
      width, height, pitch := current.w, current.h, current.pitch;
      return current, None;
    }

    /** WII_AllocHWSurface: no hardware surfaces besides the screen. */
    method AllocHWSurface(surface: Surface) returns (r: int)
      ensures r == -1
    {
      r := -1;
    }

    /** WII_FreeHWSurface and WII_UnlockHWSurface do nothing. */
    method FreeHWSurface(surface: Surface)
    {
    }

    method UnlockHWSurface(surface: Surface)
    {
    }

    /** WII_LockHWSurface: locking always succeeds. */
    method LockHWSurface(surface: Surface) returns (r: int)
      ensures r == 0
    {
      r := 0;
    }

    /** WII_FlipHWSurface: toggle the framebuffer index, copy the surface into
        the texture as 4x4-pixel tiles and present the framebuffer. The texture
        begins with FlipImage of the surface; the rest is untouched. */
    method Flip() returns (r: int)
      requires Valid()
      requires ReadsFit(|Bytes(buffer)|, Cols(width), Advance(width, pitch), pitch, Blocks(height))
      requires TextureSpan(width, height) <= TEXTUREMEM_SIZE
      modifies this`whichfb, this`shown, texture
      ensures Valid()
      ensures whichfb == 1 - old(whichfb) && shown == whichfb && r == 1
      ensures StartsWith(texture[..], FlipImage(Bytes(buffer), Cols(width), Advance(width, pitch), pitch, Blocks(height)))
      ensures forall i :: TextureSpan(width, height) <= i < texture.Length ==> texture[i] == old(texture[i])
    {
      whichfb := 1 - whichfb;
      TileSurface(buffer, texture, width, height, pitch);
      shown := whichfb;
      r := 1;
    }
  }
}
