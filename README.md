# Integer logic of four MAME arcade drivers, in Dafny

This project models the integer and bit-level logic of four MAME arcade drivers and proves properties of it:

- **Mr. Do's Castle** and its Indoor Soccer variant (`docastle.cpp`): the inter-CPU mailbox, the MA6 edge interrupt, the Indoor Soccer ADPCM feeder, tile and sprite decoding, and the palette pen mapping.
- **Mr. Do!** (`mrdo.cpp`): the PAL16R6 protection of the Taito sets, the bypassed and disabled variants, the tile-RAM write handlers, scrolling, tile decoding, the palette index arithmetic and the sprite list.
- **Bank Panic** (`bankp.cpp`): the video-control register, the two width-parameterised tilemaps, the 512-pen lookup table, the scroll and layer choice of the screen update, and the VBLANK NMI.
- **Mr. Jong** (`mrjong.cpp`): write-if-changed RAM handlers, the flip register, tile and sprite decoding, and the lookup table.

Each driver is one module (`DoCastle`, `MrDo`, `BankP`, `MrJong`). `Bits` holds the shared `u8` type and the `BIT(x, n)` macro.

A driver's object becomes a `class` whose fields are the C++ members the handlers update. A handler becomes a method whose postcondition gives the whole new state. The pure decoders become functions, and lemmas relate them to their inverses or to reference tables.

The emulator's services are outside the model. These are the scheduler, CPU input lines, tilemaps, the MSM5205 and the TMS1025 input chips. Each handler records the calls it makes to them, in order, in an `events` (or `calls`) sequence. The model checks which calls are made and with which arguments, but not what they do.

Values that come from outside the driver are parameters:

- the Z80's HL register;
- the CRTC memory address;
- the TMS1025 nibbles;
- `side_effects_disabled()`;
- the ROM and PROM contents.

Two facts about the Mr. Do's Castle mailbox follow from the code:

- **No timeout on the hand-off.** The main CPU's suspension waits only for trigger 500: `spin_until_trigger(500)` is called with no timeout (`docastle.cpp:531`), so the model records none.
- **Reset resumes no CPU.** `machine_reset` only zeroes the two buffers and `m_prev_ma6` (`docastle.cpp:940-949`). It does not resume a suspended CPU.

The ADPCM model keeps a behaviour of the code as written. `adpcm_int` checks for the end of the ROM before it sends the pending low nibble. So the low nibble of the last ROM byte is never sent: the chip is reset instead (`DoCastle.AdpcmLastByte`). Full-byte playback is therefore proved only for bytes that are not the last one in the region (`DoCastle.AdpcmPlayback`).

## Model

| member | source | states |
|---|---|---|
| DoCastle.Fill | src/mame/universal/docastle.cpp:944-945 | `std::fill` leaves every element of the array equal to the fill value |
| DoCastle.TintStep | src/mame/universal/docastle.cpp:573-582 | IRQ0 is held only on a strobe that sees MA6 high after it was low; `m_prev_ma6` takes MA6 on a strobe and is otherwise unchanged |
| DoCastle.TintIrqBound | src/mame/universal/docastle.cpp:573-582 | any run of `n` `tint` calls asserts at most about half as many IRQs as calls, because the detector is edge-triggered |
| DoCastle.TintNoRepeat | src/mame/universal/docastle.cpp:577-580 | while MA6 stays high, a second strobe asserts nothing |
| DoCastle.Machine.constructor | src/mame/universal/docastle.cpp:274-280 | both 9-byte buffers start zeroed, in two distinct arrays, and `m_prev_ma6` starts false |
| DoCastle.Machine.Cpu1LatchR | src/mame/universal/docastle.cpp:502-513 | the main CPU reads `m_buffer0[offset]` and nothing changes |
| DoCastle.Machine.Cpu1LatchW | src/mame/universal/docastle.cpp:515-533 | only `m_buffer1[offset]` changes, `m_buffer0` is untouched, and exactly one suspend-until-trigger-500 of CPU 0 is recorded, only for offset 8 |
| DoCastle.Machine.Cpu2LatchR | src/mame/universal/docastle.cpp:535-546 | the slave CPU reads `m_buffer1[offset]` and nothing changes |
| DoCastle.Machine.Cpu2LatchW | src/mame/universal/docastle.cpp:548-566 | only `m_buffer0[offset]` changes, `m_buffer1` is untouched, and exactly one trigger 500 is recorded, only for offset 8 |
| DoCastle.Machine.Exchange | src/mame/universal/docastle.cpp:483-500 | one round of the documented protocol (NMI, 9 bytes written, suspend, 9 bytes read, 9 bytes of reply, trigger, reply read) delivers the request to the slave and the reply to the main CPU byte for byte, with exactly the events NMI, suspend, trigger in that order |
| DoCastle.Machine.NmiTriggerW | src/mame/universal/docastle.cpp:568-571 | every write pulses the slave CPU's NMI, whatever the data |
| DoCastle.Machine.Tint | src/mame/universal/docastle.cpp:573-582 | the new `m_prev_ma6` and the IRQ event are those of `TintStep` |
| DoCastle.Machine.InputsFlipscreenR | src/mame/universal/docastle.cpp:380-396 | with side effects disabled it returns 0xff and changes nothing; otherwise it returns the two input nibbles, latches the flip from address bit 7 and selects input `offset & 7` on both chips |
| DoCastle.Machine.FlipscreenW | src/mame/universal/docastle.cpp:398-401 | the flip latch takes address bit 7 |
| DoCastle.Machine.VideoReset | src/mame/universal/docastle.cpp:951-954 | the flip latch is cleared |
| DoCastle.Machine.MachineReset | src/mame/universal/docastle.cpp:940-949 | all 18 buffer bytes are 0 and `m_prev_ma6` is false |
| DoCastle.AdpcmIntStep | src/mame/universal/docastle.cpp:584-601 | past the ROM's end: idle and a chip reset, position unchanged; with a nibble pending: that low nibble is sent and none is pending afterwards; otherwise the next ROM byte is fetched, becomes the pending data, and its high nibble is sent; the position advances by one exactly on a fetch |
| DoCastle.AdpcmWriteStep | src/mame/universal/docastle.cpp:610-623 | bit 7 set: idle and reset asserted; otherwise not idle, reset released, and the position is `data & 0x7f` whole 0x200-byte blocks |
| DoCastle.AdpcmRun | src/mame/universal/docastle.cpp:584-601 | `n` callbacks make exactly `n` chip calls and keep the player state well-formed |
| DoCastle.Nibbles | src/mame/universal/docastle.cpp:597-599 | a byte stream played a nibble at a time has two nibbles per byte |
| DoCastle.AdpcmPlayback | src/mame/universal/docastle.cpp:584-601 | from a byte boundary, `2n` callbacks send each of the next `n` ROM bytes high nibble then low nibble, advancing the position by exactly `n` |
| DoCastle.AdpcmLastByte | src/mame/universal/docastle.cpp:586-595 | for the last ROM byte only the high nibble is sent; the next callback idles the player and resets the chip |
| DoCastle.AdpcmExhausted | src/mame/universal/docastle.cpp:586-590 | once the position is past the end, every callback only idles and resets, and the position never moves |
| DoCastle.AdpcmSample | src/mame/universal/docastle.cpp:584-623 | with no low nibble pending, selecting sample `d` and clocking `2n` times plays the first `n` bytes of block `d & 0x7f` |
| DoCastle.AdpcmSamplePending | src/mame/universal/docastle.cpp:584-623 | `adpcm_w` keeps the pending byte, so with a low nibble pending, selecting sample `d` and clocking `2n + 1` times sends that old low nibble first, then the first `n` bytes of block `d & 0x7f` |
| DoCastle.Adpcm.constructor | src/mame/universal/docastle.cpp:320-323 | the ADPCM members start at 0 |
| DoCastle.Adpcm.MachineReset | src/mame/universal/docastle.cpp:970-973 | position 0, not idle, no pending nibble, status 0 |
| DoCastle.Adpcm.AdpcmInt | src/mame/universal/docastle.cpp:584-601 | the new state and the chip call are those of `AdpcmIntStep`; `state` is ignored |
| DoCastle.Adpcm.AdpcmW | src/mame/universal/docastle.cpp:610-623 | the new state and the chip call are those of `AdpcmWriteStep` |
| DoCastle.Adpcm.AdpcmStatusR | src/mame/universal/docastle.cpp:603-608 | each read flips bit 7 only and returns the new status |
| DoCastle.GetTileInfo | src/mame/universal/docastle.cpp:403-409 | the code is the video byte plus colour bit 5 as bit 8 (below 0x200); the colour is colour bits 0-4 |
| DoCastle.GetTileInfoRoundTrip | src/mame/universal/docastle.cpp:403-409 | the video byte and colour bits 0-5 are recovered from the tile; colour bits 6-7 have no effect |
| DoCastle.ExtendSprite | src/mame/universal/docastle.cpp:418-425 | code bit 8 is set exactly when it was set or colour bit 4 was; code bit 9 exactly when it was set or the sprite was y-flipped; colour bit 4 and the y-flip are cleared, and the other code bits are kept |
| DoCastle.ExtendSpriteRoundTrip | src/mame/universal/docastle.cpp:418-425 | for 8-bit sprite codes, the flip, code and colour are recovered from the extended sprite |
| DoCastle.SpriteByteAsWrittenOverruns | src/mame/universal/docastle.cpp:443-450 | as written, the first entry drawn reads past the 0x200-byte sprite RAM, and the entry at 4 reads bytes of entry 2 |
| DoCastle.SpriteByteInEntry | src/mame/universal/docastle.cpp:443-450 | with the offset added once, every field read stays inside its own entry and inside the RAM |
| DoCastle.RawSprite | src/mame/universal/docastle.cpp:443-450 | the tile is byte 3; the colour is byte 2's bits 0-4 (below 32); x-flip and y-flip are byte 2's bits 6 and 7; x is byte 1 mapped into -8..247; y is byte 0 minus 32 |
| DoCastle.RawSpriteRoundTrip | src/mame/universal/docastle.cpp:443-450 | y, x and the tile byte are recovered from the sprite, and so is the attribute byte except its unused bit 5 |
| DoCastle.AttrRoundTrip | src/mame/universal/docastle.cpp:446-449 | colour and flips together recover bits 0-4, 6 and 7 of the attribute byte |
| DoCastle.XposRoundTrip | src/mame/universal/docastle.cpp:444 | the x position `((x + 8) & 0xff) - 8` gives back `x` modulo 256 |
| DoCastle.FlipSpriteTwice | src/mame/universal/docastle.cpp:454-460 | the flip-screen transform of a sprite is an involution |
| DoCastle.PenOf | src/mame/universal/docastle.cpp:363-364 | both pens of a PROM entry are below 512 |
| DoCastle.PenSourceOf | src/mame/universal/docastle.cpp:363-364 | every pen's source entry is one of the 256 PROM entries |
| DoCastle.PenOfInverse | src/mame/universal/docastle.cpp:363-364 | each entry's pen in each half leads back to that entry and that half |
| DoCastle.PenSourceOfInverse | src/mame/universal/docastle.cpp:363-364 | every pen is its source entry's pen in its own half |
| DoCastle.PenOfEntry | src/mame/universal/docastle.cpp:363-364 | a pen is one of entry `i`'s two pens if and only if `i` is its source |
| DoCastle.PaletteSources | src/mame/universal/docastle.cpp:339-366 | after the loop, each of the 512 pens has been set by exactly the entry and copy that maps onto it |
| MrDo.UpdateProtection | src/mame/universal/mrdo.cpp:160-188 | the PAL's bits 0 and 7 always read 1 |
| MrDo.UpdateProtectionTable | src/mame/universal/mrdo.cpp:160-188 | the equations equal a table: input 0xa1, 0x32, 0xc9 or 0x6b (bit 2 masked) gives 0xc1, 0xfb, 0x97 or 0xbf; any other input gives 0xff |
| MrDo.UpdateProtectionIgnoresBit2 | src/mame/universal/mrdo.cpp:163-176 | input pin 7 (data bit 2) has no effect |
| MrDo.AtMostOneTerm | src/mame/universal/mrdo.cpp:173-176 | at most one of the four product terms holds for any byte |
| MrDo.NoTermAllHigh | src/mame/universal/mrdo.cpp:173-187 | the outputs are all high if and only if no product term holds |
| MrDo.UpdateLatch | src/mame/universal/mrdo.cpp:152-188 | the Universal class's update leaves the latch as it was; the Taito class's update sets it to the PAL equations |
| MrDo.GetTileInfo | src/mame/universal/mrdo.cpp:375-386 | the code is the field byte plus colour bit 7 as bit 8; colour bit 6 forces layer 0; the colour is bits 0-5, below 64 |
| MrDo.GetTileInfoRoundTrip | src/mame/universal/mrdo.cpp:375-386 | both RAM bytes are recovered from the tile |
| MrDo.ScrollY | src/mame/universal/mrdo.cpp:438-445 | unflipped, the written value; flipped, its negation modulo 256, `(256 - data) & 0xff` |
| MrDo.ScrollYTwice | src/mame/universal/mrdo.cpp:438-445 | on a flipped screen, negating twice gives back the written value |
| MrDo.Machine.constructor | src/mame/universal/mrdo.cpp:71 | `m_pal_u001` is 0 before the first reset; any ROM is accepted, and only a bypassed, enabled PAL (whose read indexes it with HL) needs the full 64K |
| MrDo.Machine.MachineReset | src/mame/universal/mrdo.cpp:127-131 | `m_pal_u001` is 0xff |
| MrDo.Machine.ProtectionR | src/mame/universal/mrdo.cpp:133-144 | disabled: unmapped; enabled and bypassed: the ROM byte at HL; enabled and not bypassed: `m_pal_u001`, so on the Taito class bits 0 and 7 read 1 whenever the latch has them high |
| MrDo.Machine.ProtectionW | src/mame/universal/mrdo.cpp:146-150 | the latch changes only when the PAL is enabled, to the board's update; bits 0 and 7 stay high |
| MrDo.Machine.VblankW | src/mame/universal/mrdo.cpp:196-202 | IRQ0 is asserted when VBLANK starts and cleared when it ends |
| MrDo.Machine.IrqClearW | src/mame/universal/mrdo.cpp:190-194 | the acknowledge clears IRQ0, and only when its state is set |
| MrDo.Machine.FieldramW | src/mame/universal/mrdo.cpp:407-418 | afterwards `ram[which][offset] == data` and no other byte changes; the tile is marked dirty exactly when the byte changed; the PAL is always clocked with the data |
| MrDo.Machine.ColorramW | src/mame/universal/mrdo.cpp:420-431 | the same, for the colour RAM |
| MrDo.Machine.ScrollxW | src/mame/universal/mrdo.cpp:433-436 | the playfield's x scroll is set to the data |
| MrDo.Machine.ScrollyW | src/mame/universal/mrdo.cpp:438-445 | the playfield's y scroll is set to `ScrollY` of the current flip state |
| MrDo.Machine.FlipscreenW | src/mame/universal/mrdo.cpp:447-453 | the flip state is data bit 0 and both axes of every tilemap follow it |
| MrDo.PaletteAddresses | src/mame/universal/mrdo.cpp:326-327 | `a1` is in 0x20..0x3f (the T2 PROM) and `a2` is in 0..0x1f (the U2 PROM) |
| MrDo.PaletteAddressesInverse | src/mame/universal/mrdo.cpp:326-327 | the colour index is recovered from its two PROM addresses |
| MrDo.WeightIndex | src/mame/universal/mrdo.cpp:329-342 | each `weight[]` index is below 16; its low two bits (`bits0`) come from the T2 PROM and its high two (`bits2`) from the U2 PROM |
| MrDo.ColorWeightIndices | src/mame/universal/mrdo.cpp:324-342 | the red, green and blue indices of colour `i` are `WeightIndex` of the T2 byte at `a1` and the U2 byte at `a2`, at bits 0, 2 and 4 |
| MrDo.ColorWeightIndicesRecoverProms | src/mame/universal/mrdo.cpp:324-342 | together the three indices carry exactly bits 0-5 of both PROM bytes |
| MrDo.SpriteLookupEntry | src/mame/universal/mrdo.cpp:355-363 | each lookup entry is a nibble: the low one for pens below 0x20, the high one otherwise |
| MrDo.SpriteLookupSplitsByte | src/mame/universal/mrdo.cpp:355-363 | sprite pens `i` and `i + 0x20` share one PROM byte, and together they use all of it |
| MrDo.SpritePen | src/mame/universal/mrdo.cpp:364 | `c + ((c & 0x0c) << 3)` is below 0x80, keeps `c` in bits 0-4 and copies its bits 2-3 to bits 5-6 |
| MrDo.SpritePenInverse | src/mame/universal/mrdo.cpp:364 | distinct lookup entries select distinct colours |
| MrDo.PaletteLookup | src/mame/universal/mrdo.cpp:347-366 | 0x140 pens: the 256 character pens map to themselves and sprite pen `i` maps to `SpritePen` of its lookup entry |
| MrDo.DecodeEntry | src/mame/universal/mrdo.cpp:468-475 | code and x are bytes 0 and 3; y is 256 minus byte 1, so in 1..255 for a shown sprite; the colour is byte 2's low nibble; x-flip and y-flip are byte 2's bits 4 and 5 |
| MrDo.DecodeEntryRoundTrip | src/mame/universal/mrdo.cpp:468-475 | bytes 0, 1 and 3 and bits 0-5 of byte 2 are recovered from the decoded sprite |
| MrDo.DrawnSpritesComplete | src/mame/universal/mrdo.cpp:462-479 | every entry whose y byte is non-zero is drawn |
| MrDo.DrawnSpritesSound | src/mame/universal/mrdo.cpp:462-479 | every drawn sprite is the decoding of an entry whose y byte is non-zero |
| MrDo.DrawnSpritesCount | src/mame/universal/mrdo.cpp:462-479 | at most one sprite per entry, and none when every y byte is zero |
| MrDo.DrawSprites | src/mame/universal/mrdo.cpp:462-479 | the loop from offset 0xfc down to 0 draws exactly the listed sprites, last entry first |
| BankP.DecodeControls | src/mame/sanritsu/bankp.cpp:263-286 | priority = bits 0-1 (below 4), display = bit 2, colour high = bit 3, NMI mask = bit 4, flip = bit 5 |
| BankP.DecodeControlsRoundTrip | src/mame/sanritsu/bankp.cpp:263-286 | bits 6-7 have no effect and bits 0-5 are recovered from the five fields |
| BankP.EncodeControlsRoundTrip | src/mame/sanritsu/bankp.cpp:263-286 | every combination of the five fields with priority below 4 is selected by some byte |
| BankP.GetTileInfo | src/mame/sanritsu/bankp.cpp:288-301 | the low code byte is the video RAM byte, in the tilemap's own gfx set |
| BankP.GetTileInfoFg | src/mame/sanritsu/bankp.cpp:288-301 | foreground: bank = `attr & 3`, flip = bit 2, group = `attr >> 3`, colour = group plus colour-high as bit 5, below 64 |
| BankP.GetTileInfoBg | src/mame/sanritsu/bankp.cpp:288-301 | background: bank = `attr & 7`, flip = bit 3, group = `attr >> 4`, colour = group plus colour-high as bit 4, below 32 |
| BankP.GetTileInfoRoundTrip | src/mame/sanritsu/bankp.cpp:288-301 | in both tilemaps, bank, flip and group together recover the whole colour byte, and the video byte is recovered too |
| BankP.PenIndex | src/mame/sanritsu/bankp.cpp:229-230 | `index` is below 0x180 and never has bit 7 set |
| BankP.Pen | src/mame/sanritsu/bankp.cpp:232-233 | `index` and `index \| 0x80` are both below 512 |
| BankP.PenEntry | src/mame/sanritsu/bankp.cpp:227-234 | every pen names one of the 256 loop iterations |
| BankP.PenInverse | src/mame/sanritsu/bankp.cpp:227-234 | each iteration's two pens lead back to it, one as the low copy and one as the high copy |
| BankP.PenEntryInverse | src/mame/sanritsu/bankp.cpp:227-234 | every one of the 512 pens is one of those pens |
| BankP.PenEntryIff | src/mame/sanritsu/bankp.cpp:227-234 | iteration `i` sets pen `p` if and only if `i` is `p`'s entry, so each pen is set exactly once |
| BankP.PenColor | src/mame/sanritsu/bankp.cpp:232-233 | every pen value is below 32, and it is 0x10 or more exactly on the high copy |
| BankP.PaletteLookup | src/mame/sanritsu/bankp.cpp:227-234 | all 512 pens are set, each to its lookup nibble plus 0x10 on the high copy |
| BankP.ScreenUpdate | src/mame/sanritsu/bankp.cpp:330-347 | display off: black only; flipped: fg scroll = 240 - scroll_x and bg = 240; not flipped: fg = scroll_x and bg = 0 |
| BankP.ScreenUpdateDrawsBoth | src/mame/sanritsu/bankp.cpp:349-367 | for any control byte that turns the display on, both layers are drawn, first opaque; priority bit 1 chooses the foreground as the opaque one |
| BankP.Machine.constructor | src/mame/sanritsu/bankp.cpp:140-144 | all five control fields and the scroll start off, as a control write of 0 leaves them |
| BankP.Machine.ScrollW | src/mame/sanritsu/bankp.cpp:244-247 | only `m_scroll_x` changes |
| BankP.Machine.VideoramW | src/mame/sanritsu/bankp.cpp:249-254 | the byte is stored, nothing else in the RAMs changes, and the tile is always marked dirty |
| BankP.Machine.ColorramW | src/mame/sanritsu/bankp.cpp:256-261 | the same, for the colour RAM |
| BankP.Machine.VideoControlW | src/mame/sanritsu/bankp.cpp:263-286 | the five fields are `DecodeControls(data)`; mark-all-dirty happens exactly when bit 3 differs from the old colour-high |
| BankP.Machine.VideoReset | src/mame/sanritsu/bankp.cpp:318-321 | a control write of 0: priority 0 and display, colour-high, NMI mask and flip all off, with mark-all-dirty exactly when colour-high was on |
| BankP.Machine.VblankInterrupt | src/mame/sanritsu/bankp.cpp:540-544 | an NMI pulse exactly when the state is set and the NMI mask is on |
| MrJong.BgTileInfo | src/mame/sanritsu/mrjong.cpp:209-218 | code = video byte plus colour bit 5 as bit 8 (below 512); colour = bits 0-4; flip x = bit 6; flip y = bit 7 |
| MrJong.BgTileInfoRoundTrip | src/mame/sanritsu/mrjong.cpp:209-218 | both RAM bytes are recovered from the tile |
| MrJong.SpriteOf | src/mame/sanritsu/mrjong.cpp:230-237 | y = byte 0; x = 224 - byte 2; flips = bits 0-1 of byte 1; colour = byte 3 bits 0-4; code below 128 |
| MrJong.SpriteOfRoundTrip | src/mame/sanritsu/mrjong.cpp:230-237 | byte 1 and bits 0-5 of byte 3 are recovered from the sprite's code, flips and colour |
| MrJong.FlipSprite | src/mame/sanritsu/mrjong.cpp:239-245 | on a flipped screen, x becomes 192 - x, y becomes 240 - y and both flips invert |
| MrJong.FlipSpriteTwice | src/mame/sanritsu/mrjong.cpp:239-245 | flipping twice is the identity |
| MrJong.PaletteLookup | src/mame/sanritsu/mrjong.cpp:164-171 | pen `i` (0..0x7f) gets `prom[0x20 + i] & 0x0f`, always one of the 16 palette colours |
| MrJong.Machine.constructor | src/mame/sanritsu/mrjong.cpp:88-89 | two distinct 0x400-byte RAMs, screen not flipped |
| MrJong.Machine.VideoramW | src/mame/sanritsu/mrjong.cpp:181-188 | the RAM is the old RAM with `offset` set to `data`; the tile is marked dirty exactly when the value changed |
| MrJong.Machine.ColorramW | src/mame/sanritsu/mrjong.cpp:190-197 | the same, for the colour RAM |
| MrJong.Machine.FlipscreenW | src/mame/sanritsu/mrjong.cpp:199-207 | flip = data bit 2; mark-all-dirty happens exactly when the flip state changes |
| MrJong.Machine.DrawSprites | src/mame/sanritsu/mrjong.cpp:225-249 | exactly 16 sprites drawn, from the entry at 0x3c down to the one at 0, all inside the first 0x40 video-RAM bytes, each decoded and flipped with the screen |

## Left out

- Resistor-weight colour maths: `compute_resistor_weights`, `combine_weights` and the `pot[]`/`weight[]` loop of Mr. Do! use floating point. Only the integer indices into them are modelled (`MrDo.WeightIndex`, the PROM addresses).
- Scheduler behaviour: the timing of `spin_until_trigger` and `trigger`, quanta and CPU interleaving. The handlers' calls are recorded as events, and so are `pulse_input_line` and `set_input_line`.
- The `USE_LATCH` WAIT-line path of the Mr. Do's Castle mailbox: it is compiled out, and it needs Z80 WAIT support that is not present.
- Drawing: tilemap and gfx drawing, `screen.priority()`, `prio_transmask`/`transpen` and the internals of `mark_tile_dirty`. The model records only which sprites and layers are drawn, with which parameters and in which order.
- The sound chips (SN76489, MSM5205 internals) and the TMS1025 input chips: only the calls made to them are recorded.
- Address maps, input ports, gfx layouts, ROM tables and machine configuration. The model takes only the region sizes and the `mrlo`, `mrdo` and `mrdot` class choice from them.
- `docastle_state::videoram_w` and `colorram_w`: plain store-and-mark-dirty handlers with no logic beyond what the Bank Panic ones show.
- The save-state registration in `machine_start`: it is MAME's save system, not driver logic.
- The commented-out wait-state code in `mrdo.cpp` (`wait_timer`, `psg_ready`, `refresh_wait`): it is not compiled.
- DoCastle.Machine.Exchange: models the order of operations the driver's comment describes, as one sequential round. It does not model the concurrent interleaving of the two CPUs that the scheduler produces.
- DoCastle.ExtendSpriteRoundTrip: proved only for codes below 0x100. `UnextendSprite` keeps only the low eight code bits, and the call site's code is `src[offs + 3]`, a single sprite RAM byte (`docastle.cpp:450`). That call is itself commented out (`docastle.cpp:452`), so this source never runs `extend_sprite`.
- DoCastle.Adpcm.MachineReset: the call of the base `machine_reset` at `docastle.cpp:968` is not part of this method. A full Indoor Soccer reset is `DoCastle.Machine.MachineReset` followed by this one.
- BankP.GetTileInfo: its own contract states only the gfx set and the low code byte. The field-by-field decoding of each tilemap is stated in BankP.GetTileInfoFg and BankP.GetTileInfoBg.

## Findings

| source | as written | input that shows it | evidently intended | confidence | as-written member | corrected member |
|---|---|---|---|---|---|---|
| src/mame/universal/docastle.cpp:443-450 | `src = &m_spriteram[offs]`, then the fields are read as `src[offs + k]`, which adds `offs` twice | `offs = 0x1fc`, the first entry drawn: `src[offs + 1]` is byte 0x3f9 of a 0x200-byte RAM. For `offs = 4`, the fields of entry 2 are read instead of entry 1 | `src[k]`, i.e. byte `offs + k`, the field of the entry being drawn | high; not executed | DoCastle.SpriteByteAsWritten, DoCastle.SpriteByteAsWrittenOverruns | DoCastle.SpriteByte, DoCastle.SpriteByteInEntry, DoCastle.RawSprite |
