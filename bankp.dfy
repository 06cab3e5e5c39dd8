/**
 * Bank Panic / Combat Hawk (Sanritsu).
 *
 * Two 32x32 tilemaps: the foreground (`Which == 0`, 2 bank bits, 5 colour-group
 * bits) and the background (`Which == 1`, 3 bank bits, 4 colour-group bits).
 * One video-control register packs the playfield priority, the display
 * enable, the colour PROM's D4 line, the VBLANK NMI mask and the screen flip.
 */
module BankP {
  import opened Bits

  /** Bytes in each video RAM and colour RAM. */
  const TileRamSize: nat := 0x400
  /** The "proms" region: the 32-entry palette PROM, then two 256x4 lookup PROMs. */
  const PromSize: nat := 0x220
  const LookupBase: nat := 0x20
  /** Pens the lookup table fills. */
  const PenCount: nat := 0x200

  /** Calls into the tilemaps and the CPU. */
  datatype Event =
    | MarkTileDirty(layer: nat, offset: nat)  // (Which ? m_bg_tilemap : m_fg_tilemap)->mark_tile_dirty(offset)
    | MarkAllDirty                            // machine().tilemap().mark_all_dirty()
    | PulseNmi                                // m_maincpu->pulse_input_line(INPUT_LINE_NMI, attotime::zero)

  /* --------------------------------------------------------- video control */

  /** The five fields `video_control_w` sets. */
  datatype Controls = Controls(priority: byte, displayOn: bool, colorHi: bool, nmiMask: bool, flip: bool)

  /**
   * The fields one control byte selects: bits 0-1 the priority, bit 2 the
   * display, bit 3 the colour PROM's D4, bit 4 the NMI mask, bit 5 the flip.
   */
  function DecodeControls(d: byte): (c: Controls)
    ensures c.priority == d & 0x03 && c.priority < 4
    ensures c.displayOn == Bit(d, 2) && c.colorHi == Bit(d, 3)
    ensures c.nmiMask == Bit(d, 4) && c.flip == Bit(d, 5)
  {
    Controls(d & 0x03, Bit(d, 2), Bit(d, 3), Bit(d, 4), Bit(d, 5))
  }

  /** The control byte, bits 6-7 clear, that selects `c`. */
  function EncodeControls(c: Controls): byte
  {
    (c.priority & 0x03) | (BitValue(c.displayOn) << 2) | (BitValue(c.colorHi) << 3)
      | (BitValue(c.nmiMask) << 4) | (BitValue(c.flip) << 5)
  }

  /** Bits 6 and 7 are not connected; every other bit is one of the fields. */
  lemma DecodeControlsRoundTrip(d: byte)
    ensures EncodeControls(DecodeControls(d)) == d & 0x3f
    ensures DecodeControls(d & 0x3f) == DecodeControls(d)
  {
  }

  /** Every setting with a priority below 4 is reachable. */
  lemma EncodeControlsRoundTrip(c: Controls)
    requires c.priority < 4
    ensures DecodeControls(EncodeControls(c)) == c
  {
  }

  /* ----------------------------------------------------------------- tiles */

  /** The tile `get_tile_info<Which>` hands to the tilemap. */
  datatype Tile = Tile(gfx: nat, code: bv16, color: byte, group: byte, flipx: bool)

  /** Bank bits in this tilemap's colour RAM: 2 for the foreground, 3 for the background. */
  function Width(which: nat): nat
  {
    if which == 1 then 3 else 2
  }

  /** `make_bitmask<u8>(n)`: the low `n` bits set. */
  function Bitmask(n: nat): byte
    requires n <= 7
  {
    ((1 as byte) << n) - 1
  }

  /**
   * `get_tile_info<Which>`: the low `w` colour RAM bits bank the code, bit `w`
   * flips the tile, the rest are the colour group; D4 of the colour PROM
   * (`m_color_hi`) sits just above the group.
   */
  function GetTileInfo(which: nat, video: byte, attr: byte, colorHi: bool): (t: Tile)
    requires which < 2
    ensures t.gfx == which && t.code & 0xff == video as bv16
  {
    var w := Width(which);
    var bank := attr & Bitmask(w);
    var group := (attr >> (w + 1)) & Bitmask(7 - w);
    Tile(which, (video as bv16) | ((bank as bv16) << 8), group | (BitValue(colorHi) << (7 - w)), group, Bit(attr, w))
  }

  /** The foreground: 2 bank bits, flip in bit 2, a 5-bit group, 64 colours. */
  lemma GetTileInfoFg(video: byte, attr: byte, colorHi: bool)
    ensures var t := GetTileInfo(0, video, attr, colorHi);
      t.code >> 8 == (attr & 0x03) as bv16 && t.flipx == Bit(attr, 2) && t.group == attr >> 3
      && t.color == t.group | (BitValue(colorHi) << 5) && t.color < 0x40
  {
    assert Width(0) == 2 && Bitmask(2) == 0x03 && Bitmask(5) == 0x1f;
  }

  /** The background: 3 bank bits, flip in bit 3, a 4-bit group, 32 colours. */
  lemma GetTileInfoBg(video: byte, attr: byte, colorHi: bool)
    ensures var t := GetTileInfo(1, video, attr, colorHi);
      t.code >> 8 == (attr & 0x07) as bv16 && t.flipx == Bit(attr, 3) && t.group == attr >> 4
      && t.color == t.group | (BitValue(colorHi) << 4) && t.color < 0x20
  {
    assert Width(1) == 3 && Bitmask(3) == 0x07 && Bitmask(4) == 0x0f;
  }

  /** The video and colour RAM bytes a tile came from. */
  function TileSource(t: Tile): (byte, byte)
  {
    var w := Width(t.gfx);
    ((t.code & 0xff) as byte, ((t.code >> 8) as byte) | (BitValue(t.flipx) << w) | (t.group << (w + 1)))
  }

  /** Bank, flip and group together use every bit of the colour RAM byte, in both tilemaps. */
  lemma GetTileInfoRoundTrip(which: nat, video: byte, attr: byte, colorHi: bool)
    requires which < 2
    ensures TileSource(GetTileInfo(which, video, attr, colorHi)) == (video, attr)
  {
    if which == 0 {
      GetTileInfoFg(video, attr, colorHi);
    } else {
      GetTileInfoBg(video, attr, colorHi);
    }
  }

  /* --------------------------------------------------------------- palette */

  /**
   * The pen `index` of lookup entry `i`: `(i << 1 & 0x100) | (i & 0x7f)`, since
   * A7 of the lookup PROMs is grounded.  Bit 7 is never set.
   */
  function PenIndex(i: int): (p: int)
    requires 0 <= i < 0x100
    ensures 0 <= p < 0x180 && p % 0x100 < 0x80
  {
    (i / 0x80) * 0x100 + i % 0x80
  }

  /** The two pens of entry `i`: `index`, and `index | 0x80` for the high copy. */
  function Pen(i: int, hi: bool): (p: int)
    requires 0 <= i < 0x100
    ensures 0 <= p < PenCount
  {
    PenIndex(i) + (if hi then 0x80 else 0)
  }

  /** The entry that sets pen `p`. */
  function PenEntry(p: int): (i: int)
    requires 0 <= p < PenCount
    ensures 0 <= i < 0x100
  {
    (p / 0x100) * 0x80 + p % 0x80
  }

  /** Whether pen `p` is a high copy (bit 7). */
  function PenHigh(p: int): bool
    requires 0 <= p < PenCount
  {
    p % 0x100 >= 0x80
  }

  /** Each entry's two pens lead back to it, one to each copy. */
  lemma PenInverse(i: int, hi: bool)
    requires 0 <= i < 0x100
    ensures PenEntry(Pen(i, hi)) == i && PenHigh(Pen(i, hi)) == hi
  {
    var p := Pen(i, hi);
    assert p / 0x100 == i / 0x80 && p % 0x100 == i % 0x80 + (if hi then 0x80 else 0);
  }

  /** Every one of the 512 pens is one of the pens of its entry. */
  lemma PenEntryInverse(p: int)
    requires 0 <= p < PenCount
    ensures Pen(PenEntry(p), PenHigh(p)) == p
  {
    var i := PenEntry(p);
    assert i / 0x80 == p / 0x100 && i % 0x80 == p % 0x80;
  }

  /** The loop sets pen `p` on iteration `i` exactly when `i` is its entry: each pen once. */
  lemma PenEntryIff(p: int, i: int)
    requires 0 <= p < PenCount && 0 <= i < 0x100
    ensures PenEntry(p) == i <==> p == Pen(i, false) || p == Pen(i, true)
  {
    PenEntryInverse(p);
    PenInverse(i, false);
    PenInverse(i, true);
  }

  /** The indirect colour of pen `p`: the lookup nibble, plus 0x10 on the high copy. */
  function PenColor(prom: seq<byte>, p: int): (c: int)
    requires |prom| == PromSize && 0 <= p < PenCount
    ensures 0 <= c < 0x20 && (c >= 0x10 <==> PenHigh(p))
  {
    (prom[LookupBase + PenIndex(PenEntry(p))] as int % 0x10) + (if PenHigh(p) then 0x10 else 0)
  }

  /** The pen loop of `palette`: all 512 pens end up set from the lookup PROM. */
  method PaletteLookup(prom: seq<byte>) returns (pens: seq<int>)
    requires |prom| == PromSize
    ensures |pens| == PenCount
    ensures forall p :: 0 <= p < PenCount ==> pens[p] == PenColor(prom, p)
  {
    pens := seq(PenCount, _ => -1);
    var i := 0;
    while i < 0x100
      invariant 0 <= i <= 0x100 && |pens| == PenCount
      invariant forall p :: 0 <= p < PenCount ==> pens[p] == if PenEntry(p) < i then PenColor(prom, p) else -1
    {
      var index := PenIndex(i);
      var c := prom[LookupBase + index] as int % 0x10;
      PenInverse(i, false);
      PenInverse(i, true);
      pens := pens[index := c][index + 0x80 := c + 0x10];
      forall p | 0 <= p < PenCount
        ensures pens[p] == if PenEntry(p) < i + 1 then PenColor(prom, p) else -1
      {
        PenEntryIff(p, i);
      }
      i := i + 1;
    }
  }

  /* ---------------------------------------------------------- screen update */

  datatype Layer = Fg | Bg

  /** One `draw` call: the layer, and whether it is drawn `TILEMAP_DRAW_OPAQUE`. */
  datatype Draw = Draw(layer: Layer, drawOpaque: bool)

  /** What `screen_update` does with the frame. */
  datatype Frame =
    | Black                                                 // display off: fill with the black pen
    | Layers(fgScrollX: int, bgScrollX: int, draws: seq<Draw>)

  /**
   * `screen_update`: with the display off, only black.  Otherwise the
   * scroll registers go to the tilemaps, mirrored on a flipped screen, and the
   * layers are drawn in the order the priority selects.
   */
  function ScreenUpdate(c: Controls, scrollX: byte): (f: Frame)
    ensures !c.displayOn <==> f == Black
    ensures c.displayOn && c.flip ==> f.fgScrollX == 240 - scrollX as int && f.bgScrollX == 240
    ensures c.displayOn && !c.flip ==> f.fgScrollX == scrollX as int && f.bgScrollX == 0
  {
    if !c.displayOn then Black
    else
      var fg, bg := if c.flip then 240 - scrollX as int else scrollX as int, if c.flip then 240 else 0;
      var draws :=
        if c.priority == 0 || c.priority == 1 then [Draw(Bg, true), Draw(Fg, false)]
        else if c.priority == 2 || c.priority == 3 then [Draw(Fg, true), Draw(Bg, false)]
        else [];
      Layers(fg, bg, draws)
  }

  /**
   * For every control byte whose display bit is set, both layers are drawn, the
   * first opaque and the second over it; bit 1 of the priority picks which is
   * underneath.
   */
  lemma ScreenUpdateDrawsBoth(d: byte, scrollX: byte)
    requires Bit(d, 2)
    ensures var f := ScreenUpdate(DecodeControls(d), scrollX);
      f.Layers? && |f.draws| == 2 && f.draws[0].drawOpaque && !f.draws[1].drawOpaque
      && f.draws[0].layer != f.draws[1].layer
      && (f.draws[0].layer == Fg <==> Bit(d, 1))
  {
  }

  /* --------------------------------------------------------------- machine */

  /** The state of `bankp_state` this model keeps. */
  class Machine {
    /** `m_videoram[0..1]`, indexed `[which, offset]`. */
    const videoram: array2<byte>
    /** `m_colorram[0..1]`, indexed `[which, offset]`. */
    const colorram: array2<byte>
    var scrollX: byte
    var priority: byte
    var colorHi: bool
    var displayOn: bool
    var nmiMask: bool
    /** `flip_screen()`. */
    var flip: bool
    var events: seq<Event>

    ghost predicate Valid()
      reads this
    {
      videoram != colorram
      && videoram.Length0 == 2 && videoram.Length1 == TileRamSize
      && colorram.Length0 == 2 && colorram.Length1 == TileRamSize
    }

    /** The five video-control fields. */
    function Current(): Controls
      reads this
    {
      Controls(priority, displayOn, colorHi, nmiMask, flip)
    }

    /** Construction: every field zero or false. */
    constructor ()
      ensures Valid() && fresh(videoram) && fresh(colorram)
      ensures scrollX == 0 && Current() == DecodeControls(0) && events == []
    {
      videoram := new byte[2, TileRamSize]((_, _) => 0);
      colorram := new byte[2, TileRamSize]((_, _) => 0);
      scrollX, priority, colorHi, displayOn, nmiMask, flip, events := 0, 0, false, false, false, false, [];
    }

    /** `scroll_w`. */
    method ScrollW(data: byte)
      modifies this
      ensures scrollX == data && Current() == old(Current()) && events == old(events)
    {
      scrollX := data;
    }

    /** `videoram_w<Which>`: every write stores and marks the tile dirty. */
    method VideoramW(which: nat, offset: nat, data: byte)
      requires Valid() && which < 2 && offset < TileRamSize
      modifies videoram, this
      ensures videoram[which, offset] == data
      ensures forall w, o :: 0 <= w < 2 && 0 <= o < TileRamSize && (w, o) != (which, offset) ==>
                videoram[w, o] == old(videoram[w, o])
      ensures events == old(events) + [MarkTileDirty(which, offset)]
      ensures scrollX == old(scrollX) && Current() == old(Current())
    {
      videoram[which, offset] := data;
      events := events + [MarkTileDirty(which, offset)];
    }

    /** `colorram_w<Which>`: as `videoram_w`, on the colour RAM. */
    method ColorramW(which: nat, offset: nat, data: byte)
      requires Valid() && which < 2 && offset < TileRamSize
      modifies colorram, this
      ensures colorram[which, offset] == data
      ensures forall w, o :: 0 <= w < 2 && 0 <= o < TileRamSize && (w, o) != (which, offset) ==>
                colorram[w, o] == old(colorram[w, o])
      ensures events == old(events) + [MarkTileDirty(which, offset)]
      ensures scrollX == old(scrollX) && Current() == old(Current())
    {
      colorram[which, offset] := data;
      events := events + [MarkTileDirty(which, offset)];
    }

    /**
     * `video_control_w`: all five fields follow the byte; the tilemaps are
     * redrawn only when the colour PROM's D4 actually changes.
     */
    method VideoControlW(data: byte)
      modifies this
      ensures Current() == DecodeControls(data)
      ensures events == old(events) + (if old(colorHi) != Bit(data, 3) then [MarkAllDirty] else [])
      ensures scrollX == old(scrollX)
    {
      priority := data & 0x03;
      displayOn := Bit(data, 2);
      if colorHi != Bit(data, 3) {
        colorHi := Bit(data, 3);
        events := events + [MarkAllDirty];
      }
      nmiMask := Bit(data, 4);
      flip := Bit(data, 5);
    }

    /** `video_reset`: a control write of 0, so priority 0 and everything off. */
    method VideoReset()
      modifies this
      ensures priority == 0 && !displayOn && !colorHi && !nmiMask && !flip
      ensures events == old(events) + (if old(colorHi) then [MarkAllDirty] else [])
      ensures scrollX == old(scrollX)
    {
      VideoControlW(0);
    }

    /** `vblank_interrupt`: an NMI at the start of VBLANK, if the game enabled it. */
    method VblankInterrupt(state: bool)
      modifies this
      ensures events == old(events) + (if state && nmiMask then [PulseNmi] else [])
      ensures scrollX == old(scrollX) && Current() == old(Current())
    {
      if state && nmiMask {
        events := events + [PulseNmi];
      }
    }
  }
}
