/**
 * Mr. Do! (Universal) and its licences, bootlegs and hacks.
 *
 * Writes to the tile RAM clock a PAL16R6 (IC U001) whose registered outputs
 * the game reads back at 0x9803 to check that the PAL is present.  The
 * Universal sets (`mrdo_state`) bypass the PAL and answer with the ROM byte at
 * the Z80's HL register, and their `update_protection` does nothing; the
 * Taito-licensed sets (`mrdot_state`) evaluate the PAL's equations; Mr. Lo!
 * turns the PAL off, so the read is unmapped.
 */
module MrDo {
  import opened Bits

  /** Bytes in each of the two field RAMs and the two colour RAMs. */
  const TileRamSize: nat := 0x400
  /** Bytes of sprite RAM (`map(0x9000, 0x90ff)`): 64 entries of 4 bytes. */
  const SpriteRamSize: nat := 0x100
  const SpriteCount: nat := 0x40
  /**
   * The "maincpu" ROM region of the sets that read it: HL can address all
   * 64K.  Mr. Lo!'s region is 0x8000 bytes, but its PAL is off and the ROM is
   * never read.
   */
  const RomSize: nat := 0x10000
  /** The "proms" region: two palette PROMs, the sprite lookup PROM and an unused timing PROM. */
  const PromSize: nat := 0x80
  /** Where the sprite colour lookup table starts in "proms". */
  const LookupBase: nat := 0x40
  /** The PAL's outputs at power-up. */
  const PalPowerOn: byte := 0xff

  /** Which class the driver instantiates. */
  datatype Board =
    | Universal  // mrdo_state: the PAL is bypassed and its update does nothing
    | Taito      // mrdot_state: the PAL equations, no bypass

  /** Whether `protection_r` answers from ROM instead of from the PAL (`m_bypass_pal`). */
  function Bypass(b: Board): bool
  {
    b == Universal
  }

  /** What a read handler puts on the data bus. */
  datatype BusRead = Value(v: byte) | Unmapped  // Unmapped: space.unmap()

  /** Calls into the CPU, the tilemaps and the tilemap manager. */
  datatype Event =
    | SetIrq0(asserted: bool)                  // m_maincpu->set_input_line(INPUT_LINE_IRQ0, ...)
    | MarkTileDirty(layer: nat, offset: nat)   // m_tilemap[layer]->mark_tile_dirty(offset)
    | SetScrollX(value: byte)                 // m_tilemap[0]->set_scrollx(0, value)
    | SetScrollY(value: byte)                 // m_tilemap[0]->set_scrolly(0, value)
    | SetFlipAll(flipped: bool)                // set_flip_all(TILEMAP_FLIPY | TILEMAP_FLIPX or 0)

  /* ------------------------------------------------------- PAL16R6 (U001) */

  // The PAL inputs: i9 is data bit 0, i8 bit 1, i7 bit 2 (unused), i6 bit 3,
  // i5 bit 4, i4 bit 5, i3 bit 6 and i2 bit 7.

  /** Product term t1 = i2 & !i3 & i4 & !i5 & !i6 & !i8 & i9. */
  function T1(d: byte): bool
  {
    Bit(d, 7) && !Bit(d, 6) && Bit(d, 5) && !Bit(d, 4) && !Bit(d, 3) && !Bit(d, 1) && Bit(d, 0)
  }

  /** Product term t2 = !i2 & !i3 & i4 & i5 & !i6 & i8 & !i9. */
  function T2(d: byte): bool
  {
    !Bit(d, 7) && !Bit(d, 6) && Bit(d, 5) && Bit(d, 4) && !Bit(d, 3) && Bit(d, 1) && !Bit(d, 0)
  }

  /** Product term t3 = i2 & i3 & !i4 & !i5 & i6 & !i8 & i9. */
  function T3(d: byte): bool
  {
    Bit(d, 7) && Bit(d, 6) && !Bit(d, 5) && !Bit(d, 4) && Bit(d, 3) && !Bit(d, 1) && Bit(d, 0)
  }

  /** Product term t4 = !i2 & i3 & i4 & !i5 & i6 & i8 & i9. */
  function T4(d: byte): bool
  {
    !Bit(d, 7) && Bit(d, 6) && Bit(d, 5) && !Bit(d, 4) && Bit(d, 3) && Bit(d, 1) && Bit(d, 0)
  }

  /**
   * `mrdot_state::update_protection`: the new registered outputs of the PAL.
   * Outputs r12 and r19 are never driven, so after the inversion bits 0 and 7
   * always read 1.
   */
  function UpdateProtection(d: byte): (r: byte)
    ensures r & 0x81 == 0x81
  {
    var t1, t2, t3, t4 := BitValue(T1(d)), BitValue(T2(d)), BitValue(T3(d)), BitValue(T4(d));
    var r12: byte := 0;
    var r13 := t1 << 1;
    var r14 := (t1 | t2) << 2;
    var r15 := (t1 | t3) << 3;
    var r16 := t1 << 4;
    var r17 := (t1 | t3) << 5;
    var r18 := (t3 | t4) << 6;
    var r19: byte := 0;
    !(r19 | r18 | r17 | r16 | r15 | r14 | r13 | r12)
  }

  /**
   * The PAL as a table: only four input patterns (bit 2 ignored) pull any
   * output low, each its own set; every other byte leaves all outputs high.
   */
  function ProtectionTable(d: byte): byte
  {
    var key := d & 0xfb;
    if key == 0xa1 then 0xc1
    else if key == 0x32 then 0xfb
    else if key == 0xc9 then 0x97
    else if key == 0x6b then 0xbf
    else 0xff
  }

  /** The equations and the table agree on every byte. */
  lemma UpdateProtectionTable(d: byte)
    ensures UpdateProtection(d) == ProtectionTable(d)
  {
  }

  /** Input pin 7 (data bit 2) is not in any equation. */
  lemma UpdateProtectionIgnoresBit2(d: byte)
    ensures UpdateProtection(d ^ 0x04) == UpdateProtection(d)
  {
  }

  /** The four product terms are mutually exclusive. */
  lemma AtMostOneTerm(d: byte)
    ensures (if T1(d) then 1 else 0) + (if T2(d) then 1 else 0)
          + (if T3(d) then 1 else 0) + (if T4(d) then 1 else 0) <= 1
  {
  }

  /** The outputs are pulled low exactly when some product term holds. */
  lemma NoTermAllHigh(d: byte)
    ensures UpdateProtection(d) == 0xff <==> !T1(d) && !T2(d) && !T3(d) && !T4(d)
  {
  }

  /** `update_protection` of either class, on the current outputs `latch`. */
  function UpdateLatch(board: Board, latch: byte, d: byte): (r: byte)
    ensures board == Universal ==> r == latch
    ensures board == Taito ==> r == UpdateProtection(d)
  {
    match board
    case Universal => latch
    case Taito => UpdateProtection(d)
  }

  /* ----------------------------------------------------------------- video */

  /** The tile `get_tile_info<Which>` hands to the tilemap. */
  datatype Tile = Tile(gfx: nat, code: bv16, color: byte, forceLayer0: bool)

  /**
   * `get_tile_info<Which>`: colour RAM bit 7 is the ninth code bit, bit 6
   * makes the tile opaque (`TILE_FORCE_LAYER0`), bits 0-5 are the colour.
   */
  function GetTileInfo(which: nat, field: byte, attr: byte): (t: Tile)
    requires which < 2
    ensures t.gfx == which && t.code < 0x200 && t.color < 0x40
    ensures (t.code & 0xff) as byte == field && ((t.code >> 8) == 1 <==> Bit(attr, 7))
    ensures t.forceLayer0 == Bit(attr, 6) && t.color == attr & 0x3f
  {
    var bank := Bit(attr, 7);
    Tile(which, (field as bv16) | ((BitValue(bank) as bv16) << 8), attr & 0x3f, Bit(attr, 6))
  }

  /** The field and colour RAM bytes a tile came from. */
  function TileSource(t: Tile): (byte, byte)
  {
    ((t.code & 0xff) as byte,
     t.color | ((BitValue(t.forceLayer0)) << 6) | (((t.code >> 8) & 1) as byte << 7))
  }

  /** No bit of either RAM byte is lost: tile decoding is injective. */
  lemma GetTileInfoRoundTrip(which: nat, field: byte, attr: byte)
    requires which < 2
    ensures TileSource(GetTileInfo(which, field, attr)) == (field, attr)
  {
  }

  /**
   * The value `scrolly_w` gives the tilemap: the register is meant to be
   * unaffected by the screen flip, so on a flipped screen it is negated.
   */
  function ScrollY(flipped: bool, data: byte): (r: byte)
    ensures !flipped ==> r == data
    ensures flipped ==> r + data == 0
  {
    if flipped then 0 - data else data  // (256 - data) & 0xff
  }

  /** Negating twice gives back the written value. */
  lemma ScrollYTwice(data: byte)
    ensures ScrollY(true, ScrollY(true, data)) == data
  {
  }

  /* --------------------------------------------------------------- machine */

  /** The state of `mrdo_state` this model keeps. */
  class Machine {
    const board: Board
    /** `m_pal_enabled`: false only on Mr. Lo!. */
    const palEnabled: bool
    /** The "maincpu" region, which the bypassed PAL read indexes with HL. */
    const rom: seq<byte>
    /** `m_fieldram[0..1]`, indexed `[which, offset]`. */
    const fieldram: array2<byte>
    /** `m_colorram[0..1]`, indexed `[which, offset]`. */
    const colorram: array2<byte>
    /** `m_pal_u001`: the PAL's registered outputs. */
    var palU001: byte
    var flipscreen: bool
    var events: seq<Event>

    ghost predicate Valid()
      reads this
    {
      (palEnabled && Bypass(board) ==> |rom| == RomSize) && fieldram != colorram
      && fieldram.Length0 == 2 && fieldram.Length1 == TileRamSize
      && colorram.Length0 == 2 && colorram.Length1 == TileRamSize
    }

    /** After reset the PAL's bits 0 and 7 read high, and every update keeps them so. */
    predicate LatchOk()
      reads this
    {
      palU001 & 0x81 == 0x81
    }

    /** Construction: `m_pal_u001` is 0 until `machine_reset`. */
    constructor (board: Board, palEnabled: bool, rom: seq<byte>)
      requires palEnabled && Bypass(board) ==> |rom| == RomSize
      ensures Valid() && fresh(fieldram) && fresh(colorram)
      ensures this.board == board && this.palEnabled == palEnabled && this.rom == rom
      ensures palU001 == 0 && !flipscreen && events == []
    {
      this.board, this.palEnabled, this.rom := board, palEnabled, rom;
      fieldram := new byte[2, TileRamSize]((_, _) => 0);
      colorram := new byte[2, TileRamSize]((_, _) => 0);
      palU001, flipscreen, events := 0, false, [];
    }

    /** `machine_reset`: the PAL's outputs are high on power-up. */
    method MachineReset()
      modifies this
      ensures palU001 == PalPowerOn && LatchOk()
      ensures flipscreen == old(flipscreen) && events == old(events)
    {
      palU001 := PalPowerOn;
    }

    /**
     * `protection_r` at 0x9803, with `hl` the Z80's HL register.  The read
     * changes nothing.
     */
    method ProtectionR(hl: bv16) returns (r: BusRead)
      requires Valid()
      ensures !palEnabled <==> r == Unmapped
      ensures palEnabled && Bypass(board) ==> r == Value(rom[hl as int])
      ensures palEnabled && !Bypass(board) ==> r == Value(palU001)
      ensures palEnabled && board == Taito && LatchOk() ==> r.v & 0x81 == 0x81
    {
      if palEnabled {
        if Bypass(board) {
          r := Value(rom[hl as int]);
        } else {
          r := Value(palU001);
        }
      } else {
        r := Unmapped;
      }
    }

    /** `protection_w`: clocks the PAL, unless it is disabled. */
    method ProtectionW(data: byte)
      modifies this
      ensures palU001 == if palEnabled then UpdateLatch(board, old(palU001), data) else old(palU001)
      ensures old(LatchOk()) ==> LatchOk()
      ensures flipscreen == old(flipscreen) && events == old(events)
    {
      if palEnabled {
        palU001 := UpdateLatch(board, palU001, data);
      }
    }

    /** `vblank_w`: IRQ0 is asserted at the start of VBLANK and cleared at its end. */
    method VblankW(state: bool)
      modifies this
      ensures events == old(events) + [SetIrq0(state)]
      ensures palU001 == old(palU001) && flipscreen == old(flipscreen)
    {
      if state {
        events := events + [SetIrq0(true)];
      } else {
        IrqClearW(true);
      }
    }

    /** `irq_clear_w`: the CPU's interrupt acknowledge clears IRQ0. */
    method IrqClearW(state: bool)
      modifies this
      ensures events == old(events) + (if state then [SetIrq0(false)] else [])
      ensures palU001 == old(palU001) && flipscreen == old(flipscreen)
    {
      if state {
        events := events + [SetIrq0(false)];
      }
    }

    /**
     * `fieldram_w<Which>`: the byte is stored and the tile marked dirty only
     * when it changes; every write, changed or not, clocks the PAL.
     */
    method FieldramW(which: nat, offset: nat, data: byte)
      requires Valid() && which < 2 && offset < TileRamSize
      modifies this, fieldram
      ensures fieldram[which, offset] == data
      ensures forall w, o :: 0 <= w < 2 && 0 <= o < TileRamSize && (w, o) != (which, offset) ==>
                fieldram[w, o] == old(fieldram[w, o])
      ensures events == old(events) + (if old(fieldram[which, offset]) != data then [MarkTileDirty(which, offset)] else [])
      ensures palU001 == if palEnabled then UpdateLatch(board, old(palU001), data) else old(palU001)
      ensures old(LatchOk()) ==> LatchOk()
      ensures flipscreen == old(flipscreen)
    {
      if fieldram[which, offset] != data {
        fieldram[which, offset] := data;
        events := events + [MarkTileDirty(which, offset)];
      }
      ProtectionW(data);
    }

    /** `colorram_w<Which>`: as `fieldram_w`, on the colour RAM. */
    method ColorramW(which: nat, offset: nat, data: byte)
      requires Valid() && which < 2 && offset < TileRamSize
      modifies this, colorram
      ensures colorram[which, offset] == data
      ensures forall w, o :: 0 <= w < 2 && 0 <= o < TileRamSize && (w, o) != (which, offset) ==>
                colorram[w, o] == old(colorram[w, o])
      ensures events == old(events) + (if old(colorram[which, offset]) != data then [MarkTileDirty(which, offset)] else [])
      ensures palU001 == if palEnabled then UpdateLatch(board, old(palU001), data) else old(palU001)
      ensures old(LatchOk()) ==> LatchOk()
      ensures flipscreen == old(flipscreen)
    {
      if colorram[which, offset] != data {
        colorram[which, offset] := data;
        events := events + [MarkTileDirty(which, offset)];
      }
      ProtectionW(data);
    }

    /** `scrollx_w`: only the playfield (layer 0) scrolls. */
    method ScrollxW(data: byte)
      modifies this
      ensures events == old(events) + [SetScrollX(data)]
      ensures palU001 == old(palU001) && flipscreen == old(flipscreen)
    {
      events := events + [SetScrollX(data)];
    }

    /** `scrolly_w`: the value is negated on a flipped screen. */
    method ScrollyW(data: byte)
      modifies this
      ensures events == old(events) + [SetScrollY(ScrollY(flipscreen, data))]
      ensures palU001 == old(palU001) && flipscreen == old(flipscreen)
    {
      if flipscreen {
        events := events + [SetScrollY(0 - data)];
      } else {
        events := events + [SetScrollY(data)];
      }
    }

    /** `flipscreen_w`: bit 0 flips both axes; the priority bits 1-3 are ignored. */
    method FlipscreenW(data: byte)
      modifies this
      ensures flipscreen == Bit(data, 0)
      ensures events == old(events) + [SetFlipAll(Bit(data, 0))]
      ensures palU001 == old(palU001)
    {
      flipscreen := Bit(data, 0);
      events := events + [SetFlipAll(flipscreen)];
    }
  }

  /* --------------------------------------------------------------- palette */

  /**
   * The two palette PROM addresses of indirect colour `i`: `a1` in T2 (loaded
   * at 0x20, the low bits of each component) from bits 5-7 and 0-1 of `i`,
   * `a2` in U2 (loaded at 0, the high bits) from bits 0-4.
   */
  function PaletteAddresses(i: byte): (r: (byte, byte))
    ensures 0x20 <= r.0 < 0x40 && r.1 < 0x20
  {
    (((i >> 3) & 0x1c) + (i & 0x03) + 0x20, (i & 0x1c) + (i & 0x03))
  }

  /** Both PROMs together identify the colour: `i` is recovered from its two addresses. */
  lemma PaletteAddressesInverse(i: byte)
    ensures var (a1, a2) := PaletteAddresses(i); (((a1 & 0x1c) << 3) | a2) == i
  {
  }

  /**
   * The index into `weight[]` of one colour component: two bits from each
   * PROM byte, at bit `shift` (0 red, 2 green, 4 blue); T2 gives `bits0`, the
   * low two index bits, and U2 gives `bits2`, the high two.
   */
  function WeightIndex(t2: byte, u2: byte, shift: bv8): (w: byte)
    requires shift == 0 || shift == 2 || shift == 4
    ensures w < 16 && w & 0x03 == (t2 >> shift) & 0x03 && w >> 2 == (u2 >> shift) & 0x03
  {
    ((t2 >> shift) & 0x03) + (((u2 >> shift) & 0x03) << 2)
  }

  /**
   * The red, green and blue `weight[]` indices of indirect colour `i`, as the
   * first loop of `palette` reads them from `prom[a1]` and `prom[a2]`.
   */
  function ColorWeightIndices(prom: seq<byte>, i: byte): (w: (byte, byte, byte))
    requires |prom| == PromSize
    ensures var (a1, a2) := PaletteAddresses(i);
      w == (WeightIndex(prom[a1], prom[a2], 0), WeightIndex(prom[a1], prom[a2], 2), WeightIndex(prom[a1], prom[a2], 4))
  {
    var (a1, a2) := PaletteAddresses(i);
    var r := ((prom[a1] >> 0) & 0x03) + (((prom[a2] >> 0) & 0x03) << 2);
    var g := ((prom[a1] >> 2) & 0x03) + (((prom[a2] >> 2) & 0x03) << 2);
    var b := ((prom[a1] >> 4) & 0x03) + (((prom[a2] >> 4) & 0x03) << 2);
    (r, g, b)
  }

  /**
   * The three indices use bits 0-5 of both PROM bytes and nothing else: those
   * bits are recovered from them.
   */
  lemma ColorWeightIndicesRecoverProms(prom: seq<byte>, i: byte)
    requires |prom| == PromSize
    ensures var (a1, a2) := PaletteAddresses(i);
      var (r, g, b) := ColorWeightIndices(prom, i);
      && (r & 0x03) | ((g & 0x03) << 2) | ((b & 0x03) << 4) == prom[a1] & 0x3f
      && (r >> 2) | ((g >> 2) << 2) | ((b >> 2) << 4) == prom[a2] & 0x3f
  {
  }

  /** The sprite lookup entry for sprite pen `i`: colour n in the low nibble, n + 8 in the high. */
  function SpriteLookupEntry(prom: seq<byte>, i: int): (c: int)
    requires |prom| == PromSize && 0 <= i < 0x40
    ensures 0 <= c < 16
  {
    var b := prom[LookupBase + i % 0x20] as int;
    if i >= 0x20 then b / 16 else b % 16
  }

  /** Two sprite pens, `i` and `i + 0x20`, share one PROM byte, and nothing of it is lost. */
  lemma SpriteLookupSplitsByte(prom: seq<byte>, i: int)
    requires |prom| == PromSize && 0 <= i < 0x20
    ensures SpriteLookupEntry(prom, i) + 16 * SpriteLookupEntry(prom, i + 0x20) == prom[LookupBase + i] as int
  {
  }

  /**
   * The indirect colour a sprite lookup entry `c` selects: `c + ((c & 0x0c) << 3)`,
   * the nibble with its two upper bits copied to bits 5 and 6.
   */
  function SpritePen(c: int): (p: int)
    requires 0 <= c < 16
    ensures 0 <= p < 0x80 && p % 32 == c && p / 32 == c / 4
  {
    c + (c / 4) * 32
  }

  /** The entry is recovered from the colour it selects, so distinct entries pick distinct colours. */
  lemma SpritePenInverse(c: int, c': int)
    requires 0 <= c < 16 && 0 <= c' < 16
    ensures SpritePen(c) == SpritePen(c') <==> c == c'
  {
  }

  /**
   * The pen loops of `palette`: characters map straight onto the 256 indirect
   * colours, and the 64 sprite pens after them go through the lookup PROM.
   */
  method PaletteLookup(prom: seq<byte>) returns (pens: seq<int>)
    requires |prom| == PromSize
    ensures |pens| == 0x140
    ensures forall i :: 0 <= i < 0x100 ==> pens[i] == i
    ensures forall i :: 0 <= i < 0x40 ==> pens[0x100 + i] == SpritePen(SpriteLookupEntry(prom, i))
  {
    pens := [];
    var i := 0;
    while i < 0x100
      invariant 0 <= i <= 0x100 && |pens| == i
      invariant forall k :: 0 <= k < i ==> pens[k] == k
    {
      pens := pens + [i];
      i := i + 1;
    }
    i := 0;
    while i < 0x40
      invariant 0 <= i <= 0x40 && |pens| == 0x100 + i
      invariant forall k :: 0 <= k < 0x100 ==> pens[k] == k
      invariant forall k :: 0 <= k < i ==> pens[0x100 + k] == SpritePen(SpriteLookupEntry(prom, k))
    {
      var ctabentry := prom[LookupBase + i % 0x20] as int;
      if i >= 0x20 {
        ctabentry := ctabentry / 16;
      } else {
        ctabentry := ctabentry % 16;
      }
      pens := pens + [ctabentry + (ctabentry / 4) * 32];
      i := i + 1;
    }
  }

  /* --------------------------------------------------------------- sprites */

  /** One `transpen` call of `draw_sprites`. */
  datatype Sprite = Sprite(code: byte, color: byte, flipx: bool, flipy: bool, xpos: int, ypos: int)

  /** Whether sprite entry `k` is drawn: a zero Y byte hides it. */
  predicate Shown(ram: seq<byte>, k: nat)
    requires |ram| == SpriteRamSize && k < SpriteCount
  {
    ram[4 * k + 1] != 0
  }

  /** Sprite entry `k`: code, Y (counted from the bottom), attributes and X. */
  function DecodeEntry(ram: seq<byte>, k: nat): (s: Sprite)
    requires |ram| == SpriteRamSize && k < SpriteCount
    ensures s.code == ram[4 * k] && s.xpos == ram[4 * k + 3] as int && s.ypos == 0x100 - ram[4 * k + 1] as int
    ensures s.color < 16 && s.color == ram[4 * k + 2] & 0x0f
    ensures s.flipx == Bit(ram[4 * k + 2], 4) && s.flipy == Bit(ram[4 * k + 2], 5)
    ensures Shown(ram, k) ==> 0 < s.ypos < 0x100
  {
    var attr := ram[4 * k + 2];
    Sprite(ram[4 * k], attr & 0x0f, Bit(attr, 4), Bit(attr, 5), ram[4 * k + 3] as int, 0x100 - ram[4 * k + 1] as int)
  }

  /** The four entry bytes rebuilt from a decoded sprite (for Y from 1 to 256). */
  function EntrySource(s: Sprite): (byte, byte, byte, byte)
    requires 0 < s.ypos <= 0x100 && 0 <= s.xpos < 0x100
  {
    (s.code, (0x100 - s.ypos) as byte, s.color | (BitValue(s.flipx) << 4) | (BitValue(s.flipy) << 5), s.xpos as byte)
  }

  /** Every entry bit except bits 6-7 of the attribute byte reaches the sprite. */
  lemma DecodeEntryRoundTrip(ram: seq<byte>, k: nat)
    requires |ram| == SpriteRamSize && k < SpriteCount
    ensures EntrySource(DecodeEntry(ram, k)) == (ram[4 * k], ram[4 * k + 1], ram[4 * k + 2] & 0x3f, ram[4 * k + 3])
  {
  }

  /** The sprites entries 63 down to `n` draw, in drawing order. */
  function DrawnSprites(ram: seq<byte>, n: nat): seq<Sprite>
    requires |ram| == SpriteRamSize && n <= SpriteCount
    decreases SpriteCount - n
  {
    if n == SpriteCount then []
    else DrawnSprites(ram, n + 1) + (if Shown(ram, n) then [DecodeEntry(ram, n)] else [])
  }

  /** Every shown entry from `n` up is drawn. */
  lemma {:induction false} DrawnSpritesComplete(ram: seq<byte>, n: nat, k: nat)
    requires |ram| == SpriteRamSize && n <= k < SpriteCount && Shown(ram, k)
    ensures DecodeEntry(ram, k) in DrawnSprites(ram, n)
    decreases SpriteCount - n
  {
    if n < k {
      DrawnSpritesComplete(ram, n + 1, k);
    }
  }

  /** Every drawn sprite comes from a shown entry from `n` up. */
  lemma {:induction false} DrawnSpritesSound(ram: seq<byte>, n: nat, s: Sprite)
    requires |ram| == SpriteRamSize && n <= SpriteCount && s in DrawnSprites(ram, n)
    ensures exists k :: n <= k < SpriteCount && Shown(ram, k) && s == DecodeEntry(ram, k)
    decreases SpriteCount - n
  {
    if !(Shown(ram, n) && s == DecodeEntry(ram, n)) {
      DrawnSpritesSound(ram, n + 1, s);
    }
  }

  /** At most one sprite per entry, and none when every Y byte is zero. */
  lemma {:induction false} DrawnSpritesCount(ram: seq<byte>, n: nat)
    requires |ram| == SpriteRamSize && n <= SpriteCount
    ensures |DrawnSprites(ram, n)| <= SpriteCount - n
    ensures (forall k :: n <= k < SpriteCount ==> !Shown(ram, k)) ==> DrawnSprites(ram, n) == []
    decreases SpriteCount - n
  {
    if n < SpriteCount {
      DrawnSpritesCount(ram, n + 1);
    }
  }

  /** `draw_sprites`: entries from the last (offset 0xfc) down to the first, skipping hidden ones. */
  method DrawSprites(ram: seq<byte>) returns (drawn: seq<Sprite>)
    requires |ram| == SpriteRamSize
    ensures drawn == DrawnSprites(ram, 0)
  {
    drawn := [];
    var offs := |ram| - 4;
    while offs >= 0
      invariant -4 <= offs <= SpriteRamSize - 4 && offs % 4 == 0
      invariant drawn == DrawnSprites(ram, (offs + 4) / 4)
      decreases offs
    {
      var k := offs / 4;
      assert 4 * k == offs;
      if ram[offs + 1] != 0 {
        drawn := drawn + [DecodeEntry(ram, k)];
      }
      offs := offs - 4;
    }
  }
}
