/**
 * Mr. Jong / Crazy Blocks / Block Buster (Sanritsu).
 *
 * One 32x32 background tilemap over a video RAM and a colour RAM; the first
 * 0x40 bytes of the video RAM double as sprite RAM, 16 entries of 4 bytes.
 */
module MrJong {
  import opened Bits

  /** Bytes in the video RAM and in the colour RAM. */
  const TileRamSize: nat := 0x400
  /** Sprite entries at the start of the video RAM. */
  const SpriteCount: nat := 16
  /** The "proms" region: the 16-colour palette PROM (padded to 0x20), then the lookup PROM. */
  const PromSize: nat := 0x120
  const LookupBase: nat := 0x20
  /** Pens the lookup table fills. */
  const PenCount: nat := 0x80

  /** Calls into the tilemaps. */
  datatype Event =
    | MarkTileDirty(offset: nat)  // m_bg_tilemap->mark_tile_dirty(offset)
    | MarkAllDirty                 // machine().tilemap().mark_all_dirty()

  /* ----------------------------------------------------------------- tiles */

  /** The tile `get_bg_tile_info` hands to the tilemap. */
  datatype Tile = Tile(code: bv16, color: byte, flipx: bool, flipy: bool)

  /**
   * `get_bg_tile_info`: colour RAM bit 5 is the ninth code bit, bits 0-4 the
   * colour, bits 6 and 7 flip the tile in X and Y.
   */
  function BgTileInfo(video: byte, attr: byte): (t: Tile)
    ensures t.code < 0x200 && (t.code & 0xff) as byte == video && ((t.code >> 8) == 1 <==> Bit(attr, 5))
    ensures t.color == attr & 0x1f && t.flipx == Bit(attr, 6) && t.flipy == Bit(attr, 7)
  {
    var bank := Bit(attr, 5);
    Tile((video as bv16) | ((BitValue(bank) as bv16) << 8), attr & 0x1f, Bit(attr, 6), Bit(attr, 7))
  }

  /** The video and colour RAM bytes a tile came from. */
  function TileSource(t: Tile): (byte, byte)
  {
    ((t.code & 0xff) as byte,
     t.color | (((t.code >> 8) & 1) as byte << 5) | (BitValue(t.flipx) << 6) | (BitValue(t.flipy) << 7))
  }

  /** No bit of either byte is lost. */
  lemma BgTileInfoRoundTrip(video: byte, attr: byte)
    ensures TileSource(BgTileInfo(video, attr)) == (video, attr)
  {
  }

  /* --------------------------------------------------------------- sprites */

  /** One `transpen` call of `draw_sprites`. */
  datatype Sprite = Sprite(code: byte, color: byte, flipx: bool, flipy: bool, xpos: int, ypos: int)

  /**
   * A sprite entry as stored: Y, then the code's low six bits above the two
   * flip bits, then X (counted from the right), then the colour and the code's
   * seventh bit.
   */
  function SpriteOf(src0: byte, src1: byte, src2: byte, src3: byte): (s: Sprite)
    ensures s.code < 0x80 && s.color < 0x20 && s.color == src3 & 0x1f
    ensures s.ypos == src0 as int && s.xpos == 224 - src2 as int
    ensures s.flipx == Bit(src1, 0) && s.flipy == Bit(src1, 1)
  {
    var bank := Bit(src3, 5);
    Sprite(((src1 >> 2) & 0x3f) | (BitValue(bank) << 6), src3 & 0x1f, Bit(src1, 0), Bit(src1, 1),
           224 - src2 as int, src0 as int)
  }

  /** Sprite entry `k` of the video RAM. */
  function RawSprite(ram: seq<byte>, k: nat): Sprite
    requires k < SpriteCount && |ram| >= 4 * SpriteCount
  {
    SpriteOf(ram[4 * k], ram[4 * k + 1], ram[4 * k + 2], ram[4 * k + 3])
  }

  /** The second and fourth entry bytes, rebuilt from the code, flips and colour. */
  function SpriteAttrSource(s: Sprite): (byte, byte)
  {
    (((s.code & 0x3f) << 2) | BitValue(s.flipx) | (BitValue(s.flipy) << 1), s.color | (((s.code >> 6) & 1) << 5))
  }

  /**
   * Every bit of an entry except bits 6-7 of its last byte reaches the sprite:
   * Y and X are the first and third bytes, and the rest come back whole.
   */
  lemma SpriteOfRoundTrip(src0: byte, src1: byte, src2: byte, src3: byte)
    ensures SpriteAttrSource(SpriteOf(src0, src1, src2, src3)) == (src1, src3 & 0x3f)
  {
  }

  /** A sprite on a flipped screen: mirrored in both axes. */
  function FlipSprite(s: Sprite): (f: Sprite)
    ensures f.code == s.code && f.color == s.color
    ensures f.xpos + s.xpos == 192 && f.ypos + s.ypos == 240
    ensures f.flipx == !s.flipx && f.flipy == !s.flipy
  {
    Sprite(s.code, s.color, !s.flipx, !s.flipy, 192 - s.xpos, 240 - s.ypos)
  }

  /** Flipping is an involution. */
  lemma FlipSpriteTwice(s: Sprite)
    ensures FlipSprite(FlipSprite(s)) == s
  {
  }

  /** Sprite entry `k` as `draw_sprites` draws it. */
  function DecodeSprite(ram: seq<byte>, k: nat, flip: bool): Sprite
    requires k < SpriteCount && |ram| >= 4 * SpriteCount
  {
    if flip then FlipSprite(RawSprite(ram, k)) else RawSprite(ram, k)
  }

  /* --------------------------------------------------------------- palette */

  /**
   * The lookup loop of `palette`: the 128 character and sprite pens take the
   * low nibble of the lookup PROM, so each selects one of the 16 colours of the
   * palette PROM.
   */
  method PaletteLookup(prom: seq<byte>) returns (pens: seq<byte>)
    requires |prom| == PromSize
    ensures |pens| == PenCount
    ensures forall i :: 0 <= i < PenCount ==> pens[i] < 0x10 && pens[i] == prom[LookupBase + i] & 0x0f
  {
    pens := [];
    var i := 0;
    while i < PenCount
      invariant 0 <= i <= PenCount && |pens| == i
      invariant forall k :: 0 <= k < i ==> pens[k] < 0x10 && pens[k] == prom[LookupBase + k] & 0x0f
    {
      var ctabentry := prom[LookupBase + i] & 0x0f;
      pens := pens + [ctabentry];
      i := i + 1;
    }
  }

  /* --------------------------------------------------------------- machine */

  /** The state of `mrjong_state` this model keeps. */
  class Machine {
    /** `m_videoram`; its first 0x40 bytes are the sprite RAM. */
    const videoram: array<byte>
    /** `m_colorram`. */
    const colorram: array<byte>
    /** `flip_screen()`. */
    var flip: bool
    var events: seq<Event>

    ghost predicate Valid()
      reads this
    {
      videoram.Length == TileRamSize && colorram.Length == TileRamSize && videoram != colorram
    }

    constructor ()
      ensures Valid() && fresh(videoram) && fresh(colorram) && !flip && events == []
    {
      videoram := new byte[TileRamSize](_ => 0);
      colorram := new byte[TileRamSize](_ => 0);
      flip, events := false, [];
    }

    /** `videoram_w`: the byte is stored, and the tile marked dirty only when it changes. */
    method VideoramW(offset: nat, data: byte)
      requires Valid() && offset < TileRamSize
      modifies videoram, this
      ensures videoram[..] == old(videoram[..])[offset := data]
      ensures events == old(events) + (if old(videoram[offset]) != data then [MarkTileDirty(offset)] else [])
      ensures flip == old(flip)
    {
      if videoram[offset] != data {
        videoram[offset] := data;
        events := events + [MarkTileDirty(offset)];
      }
    }

    /** `colorram_w`: as `videoram_w`, on the colour RAM. */
    method ColorramW(offset: nat, data: byte)
      requires Valid() && offset < TileRamSize
      modifies colorram, this
      ensures colorram[..] == old(colorram[..])[offset := data]
      ensures events == old(events) + (if old(colorram[offset]) != data then [MarkTileDirty(offset)] else [])
      ensures flip == old(flip)
    {
      if colorram[offset] != data {
        colorram[offset] := data;
        events := events + [MarkTileDirty(offset)];
      }
    }

    /** `flipscreen_w`: bit 2 flips the screen; the tilemap is redrawn only on a change. */
    method FlipscreenW(data: byte)
      modifies this
      ensures flip == Bit(data, 2)
      ensures events == old(events) + (if old(flip) != Bit(data, 2) then [MarkAllDirty] else [])
    {
      if flip != Bit(data, 2) {
        flip := Bit(data, 2);
        events := events + [MarkAllDirty];
      }
    }

    /**
     * `draw_sprites`: all 16 entries, from offset 0x3c down to 0, none
     * skipped; the `j`-th sprite drawn is entry `15 - j`.
     */
    method DrawSprites() returns (drawn: seq<Sprite>)
      requires Valid()
      ensures |drawn| == SpriteCount
      ensures forall j :: 0 <= j < SpriteCount ==> drawn[j] == DecodeSprite(videoram[..], SpriteCount - 1 - j, flip)
    {
      drawn := [];
      var offs := 0x40 - 4;
      while offs >= 0
        invariant -4 <= offs <= 0x3c && offs % 4 == 0 && |drawn| == (0x3c - offs) / 4
        invariant forall j :: 0 <= j < |drawn| ==> drawn[j] == DecodeSprite(videoram[..], SpriteCount - 1 - j, flip)
        decreases offs
      {
        var k := offs / 4;
        assert 4 * k == offs;
        var s := SpriteOf(videoram[offs], videoram[offs + 1], videoram[offs + 2], videoram[offs + 3]);
        if flip {
          s := FlipSprite(s);
        }
        drawn := drawn + [s];
        offs := offs - 4;
      }
    }
  }
}
