/**
 * Mr. Do's Castle (Universal) and its Indoor Soccer variant.
 *
 * The main CPU (`m_cpu[0]`) and the slave CPU (`m_cpu[1]`) talk through a
 * bidirectional latch that the driver emulates as two 9-byte buffers: the main
 * CPU reads `m_buffer0` and writes `m_buffer1`, the slave CPU the reverse.  The
 * write of byte 8 completes a message: the main CPU's suspends it until trigger
 * 500, the slave CPU's fires trigger 500.  The scheduler is not modelled; its
 * calls, and every other call into a device, are recorded as events.
 */
module DoCastle {
  import opened Bits

  /** Bytes per direction of the mailbox (`u8 m_buffer0[9]`, `u8 m_buffer1[9]`). */
  const LatchSize: nat := 9
  /** The offset whose write completes a message. */
  const HandOffOffset: nat := 8
  /** The scheduler trigger id that couples the two CPUs. */
  const HandOffTrigger: int := 500
  /** Indices into `m_cpu`. */
  const MainCpu: nat := 0
  const SlaveCpu: nat := 1

  /** A mailbox buffer as reset leaves it. */
  const Zeros: seq<byte> := seq(LatchSize, _ => 0)

  /** Calls the handlers make into the scheduler, the CPUs and the TMS1025 input chips. */
  datatype Event =
    | SpinUntilTrigger(cpu: nat, trigger: int)  // m_cpu[cpu]->spin_until_trigger(trigger)
    | Trigger(trigger: int)                    // machine().scheduler().trigger(trigger)
    | PulseNmi(cpu: nat)                       // m_cpu[cpu]->pulse_input_line(INPUT_LINE_NMI, ...)
    | HoldIrq0(cpu: nat)                       // m_cpu[cpu]->set_input_line(INPUT_LINE_IRQ0, HOLD_LINE)
    | InputSelect(chip: nat, select: nat)      // m_inp[chip]->write_s(select)

  /** `std::fill` over a whole array. */
  method Fill(a: array<byte>, v: byte)
    modifies a
    ensures a[..] == seq(a.Length, _ => v)
  {
    var i := 0;
    while i < a.Length
      invariant 0 <= i <= a.Length
      invariant forall k :: 0 <= k < i ==> a[k] == v
    {
      a[i] := v;
      i := i + 1;
    }
  }

  /** Bit 6 of the CRTC memory address. */
  function Ma6(ma: bv16): bool
  {
    (ma >> 6) & 1 == 1
  }

  /**
   * One call of `tint(state)` on the value `prev` of `m_prev_ma6`: whether IRQ0
   * of the slave CPU is asserted, and the new `m_prev_ma6`.
   */
  function TintStep(prev: bool, state: bool, ma: bv16): (r: (bool, bool))
    ensures r.0 ==> state && !prev && r.1
    ensures state ==> r.1 == Ma6(ma) && (r.0 <==> !prev && r.1)
    ensures !state ==> r == (false, prev)
  {
    if state then (Ma6(ma) && !prev, Ma6(ma)) else (false, prev)
  }

  /** How many IRQs a sequence of `tint(state)` calls, with the MA value at each call, asserts. */
  function TintIrqs(prev: bool, calls: seq<(bool, bv16)>): nat
    decreases |calls|
  {
    if calls == [] then 0
    else
      var (irq, next) := TintStep(prev, calls[0].0, calls[0].1);
      (if irq then 1 else 0) + TintIrqs(next, calls[1..])
  }

  /**
   * The detector is edge-triggered: between two IRQs there is a strobed call
   * that saw MA6 low, so `n` calls assert at most half of them (rounded up, and
   * rounded down when MA6 was already seen high).
   */
  lemma {:induction false} TintIrqBound(prev: bool, calls: seq<(bool, bv16)>)
    ensures TintIrqs(prev, calls) <= (|calls| + (if prev then 0 else 1)) / 2
    decreases |calls|
  {
    if calls != [] {
      var (irq, next) := TintStep(prev, calls[0].0, calls[0].1);
      TintIrqBound(next, calls[1..]);
    }
  }

  /** With MA6 held high, a second strobe asserts nothing. */
  lemma TintNoRepeat(prev: bool, ma: bv16, ma': bv16)
    requires Ma6(ma) && Ma6(ma')
    ensures !TintStep(TintStep(prev, true, ma).1, true, ma').0
  {
  }

  /** The state of `docastle_state` this model keeps: the mailbox, `m_prev_ma6` and the flip latch. */
  class Machine {
    /** `m_buffer0`: written by the slave CPU, read by the main CPU. */
    const buffer0: array<byte>
    /** `m_buffer1`: written by the main CPU, read by the slave CPU. */
    const buffer1: array<byte>
    var prevMa6: bool
    /** `flip_screen()`, latched from address bit 7 by the LS273. */
    var flip: bool
    var events: seq<Event>

    ghost predicate Valid()
      reads this
    {
      buffer0.Length == LatchSize && buffer1.Length == LatchSize && buffer0 != buffer1
    }

    /** Power-on: both buffers value-initialised, `m_prev_ma6` false. */
    constructor ()
      ensures Valid() && fresh(buffer0) && fresh(buffer1)
      ensures buffer0[..] == Zeros && buffer1[..] == Zeros
      ensures !prevMa6 && !flip && events == []
    {
      buffer0 := new byte[LatchSize](_ => 0);
      buffer1 := new byte[LatchSize](_ => 0);
      prevMa6, flip, events := false, false, [];
    }

    /** `cpu1_latch_r`: the main CPU reads the slave's buffer; nothing changes. */
    method Cpu1LatchR(offset: nat) returns (v: byte)
      requires Valid() && offset < LatchSize
      ensures v == buffer0[offset]
    {
      v := buffer0[offset];
    }

    /**
     * `cpu1_latch_w`: the main CPU stores one byte of its message; the last byte
     * also suspends the main CPU until trigger 500.
     */
    method Cpu1LatchW(offset: nat, data: byte)
      requires Valid() && offset < LatchSize
      modifies buffer1, this`events
      ensures buffer1[..] == old(buffer1[..])[offset := data]
      ensures unchanged(buffer0)
      ensures events == old(events) + (if offset == HandOffOffset then [SpinUntilTrigger(MainCpu, HandOffTrigger)] else [])
    {
      buffer1[offset] := data;
      if offset == HandOffOffset {
        events := events + [SpinUntilTrigger(MainCpu, HandOffTrigger)];
      }
    }

    /** `cpu2_latch_r`: the slave CPU reads the main CPU's buffer; nothing changes. */
    method Cpu2LatchR(offset: nat) returns (v: byte)
      requires Valid() && offset < LatchSize
      ensures v == buffer1[offset]
    {
      v := buffer1[offset];
    }

    /**
     * `cpu2_latch_w`: the slave CPU stores one byte of its reply; the last byte
     * also fires trigger 500, which wakes the main CPU.
     */
    method Cpu2LatchW(offset: nat, data: byte)
      requires Valid() && offset < LatchSize
      modifies buffer0, this`events
      ensures buffer0[..] == old(buffer0[..])[offset := data]
      ensures unchanged(buffer1)
      ensures events == old(events) + (if offset == HandOffOffset then [Trigger(HandOffTrigger)] else [])
    {
      buffer0[offset] := data;
      if offset == HandOffOffset {
        events := events + [Trigger(HandOffTrigger)];
      }
    }

    /**
     * One round of the protocol described above the handlers: the main CPU
     * raises the slave's NMI, writes its 9 bytes (byte 8 last) and suspends;
     * the slave reads them and writes its 9-byte reply (byte 8 last), which
     * wakes the main CPU, which then reads the reply.
     */
    method Exchange(request: seq<byte>, reply: seq<byte>) returns (received: seq<byte>, answered: seq<byte>)
      requires Valid() && |request| == LatchSize && |reply| == LatchSize
      modifies buffer0, buffer1, this`events
      ensures received == request && answered == reply
      ensures buffer1[..] == request && buffer0[..] == reply
      ensures events == old(events) + [PulseNmi(SlaveCpu), SpinUntilTrigger(MainCpu, HandOffTrigger), Trigger(HandOffTrigger)]
    {
      NmiTriggerW(0);
      var k := 0;
      while k < LatchSize
        invariant 0 <= k <= LatchSize
        invariant forall j :: 0 <= j < k ==> buffer1[j] == request[j]
        invariant events == old(events) + [PulseNmi(SlaveCpu)] + (if k == LatchSize then [SpinUntilTrigger(MainCpu, HandOffTrigger)] else [])
      {
        Cpu1LatchW(k, request[k]);
        k := k + 1;
      }
      assert buffer1[..] == request;
      received, k := [], 0;
      while k < LatchSize
        invariant 0 <= k <= LatchSize
        invariant received == request[..k]
        invariant buffer1[..] == request
        invariant events == old(events) + [PulseNmi(SlaveCpu), SpinUntilTrigger(MainCpu, HandOffTrigger)]
      {
        var b := Cpu2LatchR(k);
        received, k := received + [b], k + 1;
      }
      k := 0;
      while k < LatchSize
        invariant 0 <= k <= LatchSize
        invariant buffer1[..] == request
        invariant forall j :: 0 <= j < k ==> buffer0[j] == reply[j]
        invariant events == old(events) + [PulseNmi(SlaveCpu), SpinUntilTrigger(MainCpu, HandOffTrigger)]
                    + (if k == LatchSize then [Trigger(HandOffTrigger)] else [])
      {
        Cpu2LatchW(k, reply[k]);
        k := k + 1;
      }
      assert buffer0[..] == reply;
      answered, k := [], 0;
      while k < LatchSize
        invariant 0 <= k <= LatchSize
        invariant answered == reply[..k]
        invariant buffer1[..] == request && buffer0[..] == reply
        invariant events == old(events) + [PulseNmi(SlaveCpu), SpinUntilTrigger(MainCpu, HandOffTrigger), Trigger(HandOffTrigger)]
      {
        var b := Cpu1LatchR(k);
        answered, k := answered + [b], k + 1;
      }
    }

    /** `nmi_trigger_w`: the main CPU pulses the slave's NMI; the data is ignored. */
    method NmiTriggerW(data: byte)
      modifies this`events
      ensures events == old(events) + [PulseNmi(SlaveCpu)]
    {
      events := events + [PulseNmi(SlaveCpu)];
    }

    /**
     * `tint(state)`, called with the current CRTC memory address `ma`: on a
     * strobe, a rising edge of MA6 holds IRQ0 of the slave CPU.
     */
    method Tint(state: bool, ma: bv16)
      modifies this`prevMa6, this`events
      ensures prevMa6 == TintStep(old(prevMa6), state, ma).1
      ensures events == old(events) + (if TintStep(old(prevMa6), state, ma).0 then [HoldIrq0(SlaveCpu)] else [])
    {
      if state {
        var ma6 := Ma6(ma);
        if ma6 && !prevMa6 {
          events := events + [HoldIrq0(SlaveCpu)];
        }
        prevMa6 := ma6;
      }
    }

    /**
     * `inputs_flipscreen_r`: with side effects disabled (a debugger read) it
     * returns 0xff and changes nothing; otherwise it returns the two input
     * nibbles `inp1H:inp0H` (`read_h` of each TMS1025), latches the flip bit
     * from address bit 7 and selects input port `offset & 7` on both chips.
     */
    method InputsFlipscreenR(offset: nat, sideEffectsDisabled: bool, inp0H: byte, inp1H: byte) returns (buf: byte)
      modifies this`flip, this`events
      ensures sideEffectsDisabled ==> buf == 0xff && flip == old(flip) && events == old(events)
      ensures !sideEffectsDisabled ==>
                buf == (inp1H << 4) | inp0H
                && flip == (offset / 0x80 % 2 == 1)
                && events == old(events) + [InputSelect(0, offset % 8), InputSelect(1, offset % 8)]
    {
      buf := 0xff;
      if !sideEffectsDisabled {
        buf := (inp1H << 4) | inp0H;
        flip := offset / 0x80 % 2 == 1;
        events := events + [InputSelect(0, offset % 8), InputSelect(1, offset % 8)];
      }
    }

    /** `flipscreen_w`: the flip latch takes address bit 7; the data is ignored. */
    method FlipscreenW(offset: nat, data: byte)
      modifies this`flip
      ensures flip == (offset / 0x80 % 2 == 1)
    {
      flip := offset / 0x80 % 2 == 1;
    }

    /** `video_reset`: the LS273 flip latch is cleared. */
    method VideoReset()
      modifies this`flip
      ensures !flip
    {
      flip := false;
    }

    /** `machine_reset`: both buffers filled with 0 and `m_prev_ma6` cleared. */
    method MachineReset()
      requires Valid()
      modifies buffer0, buffer1, this`prevMa6
      ensures buffer0[..] == Zeros && buffer1[..] == Zeros && !prevMa6
    {
      Fill(buffer0, 0);
      Fill(buffer1, 0);
      prevMa6 := false;
    }
  }

  /* ---------------------------------------------------------------- ADPCM */

  /**
   * The Indoor Soccer MSM5205 feeder: `m_adpcm_pos`, `m_adpcm_idle` and
   * `m_adpcm_data`, where `data == -1` means no low nibble is pending.
   */
  datatype Player = Player(pos: int, idle: bool, data: int)

  predicate PlayerOk(p: Player)
  {
    0 <= p.pos && -1 <= p.data < 0x100
  }

  /** Calls made on the MSM5205. */
  datatype MsmCall = MsmReset(asserted: bool) | MsmData(nibble: int)

  /**
   * `adpcm_int`: past the end of the ROM the player goes idle and holds the
   * chip in reset; otherwise it sends the pending low nibble, or fetches the
   * next byte and sends its high nibble.
   */
  function AdpcmIntStep(p: Player, rom: seq<byte>): (r: (Player, MsmCall))
    requires PlayerOk(p)
    ensures PlayerOk(r.0)
    ensures p.pos >= |rom| ==> r == (p.(idle := true), MsmReset(true))
    ensures p.pos < |rom| ==> r.0.idle == p.idle && r.1.MsmData? && 0 <= r.1.nibble < 0x10
    ensures r.0.pos == if p.pos < |rom| && p.data == -1 then p.pos + 1 else p.pos
    ensures p.pos < |rom| && p.data != -1 ==> r == (p.(data := -1), MsmData(p.data % 0x10))
    ensures p.pos < |rom| && p.data == -1 ==> r.0.data == rom[p.pos] as int && r.1 == MsmData(rom[p.pos] as int / 0x10)
  {
    if p.pos >= |rom| then
      (p.(idle := true), MsmReset(true))
    else if p.data != -1 then
      // m_adpcm_data & 0x0f, for a byte value
      (p.(data := -1), MsmData(p.data % 0x10))
    else
      // m_adpcm_data >> 4, for a byte value
      (p.(pos := p.pos + 1, data := rom[p.pos] as int), MsmData(rom[p.pos] as int / 0x10))
  }

  /**
   * `adpcm_w`: bit 7 stops the player and resets the chip; otherwise the
   * player starts at sample `data & 0x7f`, in units of 0x200 bytes.  The
   * pending nibble is left as it was.
   */
  function AdpcmWriteStep(p: Player, d: byte): (r: (Player, MsmCall))
    requires PlayerOk(p)
    ensures PlayerOk(r.0) && r.0.data == p.data
    ensures Bit(d, 7) ==> r == (p.(idle := true), MsmReset(true))
    ensures !Bit(d, 7) ==>
              && !r.0.idle && r.1 == MsmReset(false)
              && r.0.pos % 0x200 == 0 && r.0.pos / 0x200 == (d & 0x7f) as int && r.0.pos < 0x80 * 0x200
  {
    if Bit(d, 7) then
      (p.(idle := true), MsmReset(true))
    else
      (p.(pos := (d & 0x7f) as int * 0x200, idle := false), MsmReset(false))
  }

  /** `n` successive `adpcm_int` calls: the final state and the MSM5205 calls, in order. */
  function AdpcmRun(p: Player, rom: seq<byte>, n: nat): (r: (Player, seq<MsmCall>))
    requires PlayerOk(p)
    ensures PlayerOk(r.0) && |r.1| == n
    decreases n
  {
    if n == 0 then (p, [])
    else
      var step := AdpcmIntStep(p, rom);
      var rest := AdpcmRun(step.0, rom, n - 1);
      (rest.0, [step.1] + rest.1)
  }

  /** The nibble stream of a run of ROM bytes: each byte as its high nibble, then its low nibble. */
  function Nibbles(bytes: seq<byte>): (r: seq<MsmCall>)
    ensures |r| == 2 * |bytes|
  {
    if bytes == [] then []
    else [MsmData(bytes[0] as int / 0x10), MsmData(bytes[0] as int % 0x10)] + Nibbles(bytes[1..])
  }

  /**
   * From a byte boundary, `2n` callbacks play the next `n` ROM bytes high nibble
   * first, advancing the position by exactly one per byte and leaving no
   * nibble pending, as long as the ROM does not end right after them.
   */
  lemma {:induction false} AdpcmPlayback(p: Player, rom: seq<byte>, n: nat)
    requires PlayerOk(p) && p.data == -1 && p.pos + n < |rom|
    ensures AdpcmRun(p, rom, 2 * n) == (p.(pos := p.pos + n), Nibbles(rom[p.pos..p.pos + n]))
    decreases n
  {
    if n > 0 {
      var b := rom[p.pos];
      var q := p.(pos := p.pos + 1, data := b as int);
      var q' := p.(pos := p.pos + 1);
      assert AdpcmIntStep(p, rom) == (q, MsmData(b as int / 0x10));
      assert AdpcmIntStep(q, rom) == (q', MsmData(b as int % 0x10));
      AdpcmPlayback(q', rom, n - 1);
      var rest := AdpcmRun(q', rom, 2 * (n - 1));
      var hi, lo := MsmData(b as int / 0x10), MsmData(b as int % 0x10);
      assert AdpcmRun(q, rom, 2 * n - 1) == (rest.0, [lo] + rest.1);
      assert AdpcmRun(p, rom, 2 * n) == (rest.0, [hi] + ([lo] + rest.1));
      assert [hi] + ([lo] + rest.1) == [hi, lo] + rest.1;
      assert rom[p.pos..p.pos + n] == [b] + rom[p.pos + 1..p.pos + n];
      assert Nibbles(rom[p.pos..p.pos + n]) == [hi, lo] + Nibbles(rom[p.pos + 1..p.pos + n]);
    }
  }

  /**
   * The last ROM byte is fetched with the position reaching the end, so the
   * next callback idles the chip instead of sending that byte's low nibble.
   */
  lemma AdpcmLastByte(p: Player, rom: seq<byte>)
    requires PlayerOk(p) && p.data == -1 && p.pos + 1 == |rom|
    ensures AdpcmRun(p, rom, 2) ==
              (Player(|rom|, true, rom[p.pos] as int), [MsmData(rom[p.pos] as int / 0x10), MsmReset(true)])
  {
    var hi := MsmData(rom[p.pos] as int / 0x10);
    var q := p.(pos := p.pos + 1, data := rom[p.pos] as int);
    var done := q.(idle := true);
    assert AdpcmIntStep(p, rom) == (q, hi);
    assert AdpcmIntStep(q, rom) == (done, MsmReset(true));
    assert AdpcmRun(done, rom, 0) == (done, []);
    assert [MsmReset(true)] + [] == [MsmReset(true)];
    assert AdpcmRun(q, rom, 1) == (done, [MsmReset(true)]);
    assert [hi] + [MsmReset(true)] == [hi, MsmReset(true)];
  }

  /** Once the position has passed the end of the ROM the player only idles and resets the chip. */
  lemma {:induction false} AdpcmExhausted(p: Player, rom: seq<byte>, n: nat)
    requires PlayerOk(p) && p.pos >= |rom| && n > 0
    ensures AdpcmRun(p, rom, n) == (p.(idle := true), seq(n, _ => MsmReset(true)))
    decreases n
  {
    var q := p.(idle := true);
    assert AdpcmIntStep(p, rom) == (q, MsmReset(true));
    if n > 1 {
      AdpcmExhausted(q, rom, n - 1);
      assert q.(idle := true) == q;
      assert AdpcmRun(p, rom, n) == (q, [MsmReset(true)] + seq(n - 1, _ => MsmReset(true)));
      assert [MsmReset(true)] + seq(n - 1, _ => MsmReset(true)) == seq(n, _ => MsmReset(true));
    } else {
      assert AdpcmRun(q, rom, 0) == (q, []);
      assert [MsmReset(true)] + [] == [MsmReset(true)];
      assert AdpcmRun(p, rom, 1) == (q, [MsmReset(true)]);
      assert [MsmReset(true)] == seq(1, _ => MsmReset(true));
    }
  }

  /** Selecting a sample and then clocking `2n` times plays that sample's first `n` bytes. */
  lemma AdpcmSample(p: Player, rom: seq<byte>, d: byte, n: nat)
    requires PlayerOk(p) && p.data == -1 && !Bit(d, 7)
    requires (d & 0x7f) as int * 0x200 + n < |rom|
    ensures var start := (d & 0x7f) as int * 0x200;
            AdpcmRun(AdpcmWriteStep(p, d).0, rom, 2 * n).1 == Nibbles(rom[start..start + n])
  {
    AdpcmPlayback(AdpcmWriteStep(p, d).0, rom, n);
  }

  /**
   * `adpcm_w` keeps `m_adpcm_data`, so a sample selected while a low nibble is
   * pending first sends that old nibble; `2n + 1` callbacks then play the
   * sample's first `n` bytes.
   */
  lemma AdpcmSamplePending(p: Player, rom: seq<byte>, d: byte, n: nat)
    requires PlayerOk(p) && p.data != -1 && !Bit(d, 7)
    requires (d & 0x7f) as int * 0x200 + n < |rom|
    ensures var start := (d & 0x7f) as int * 0x200;
            AdpcmRun(AdpcmWriteStep(p, d).0, rom, 2 * n + 1).1 == [MsmData(p.data % 0x10)] + Nibbles(rom[start..start + n])
  {
    var q := AdpcmWriteStep(p, d).0;
    var q' := q.(data := -1);
    assert AdpcmIntStep(q, rom) == (q', MsmData(p.data % 0x10));
    AdpcmPlayback(q', rom, n);
  }

  /** The part of `idsoccer_state` that drives the ADPCM chip. */
  class Adpcm {
    /** The "adpcm" ROM region. */
    const rom: seq<byte>
    var pos: int
    var idle: bool
    var data: int
    /** `m_adpcm_status`; only bit 7 ever changes, so it always fits a byte. */
    var status: byte
    var calls: seq<MsmCall>

    function State(): Player
      reads this
    {
      Player(pos, idle, data)
    }

    ghost predicate Valid()
      reads this
    {
      PlayerOk(State())
    }

    /** The member initialisers: every field 0. */
    constructor (rom: seq<byte>)
      ensures Valid() && this.rom == rom
      ensures State() == Player(0, false, 0) && status == 0 && calls == []
    {
      this.rom := rom;
      pos, idle, data, status, calls := 0, false, 0, 0, [];
    }

    /**
     * The ADPCM part of `idsoccer_state::machine_reset`: position 0, not idle,
     * no pending nibble, status 0.  The base reset it calls first is
     * `Machine.MachineReset`.
     */
    method MachineReset()
      modifies this`pos, this`idle, this`data, this`status
      ensures Valid() && State() == Player(0, false, -1) && status == 0
    {
      pos, idle, data, status := 0, false, -1, 0;
    }

    /** `adpcm_int`: the chip's VCK callback; `state` is not looked at. */
    method AdpcmInt(state: bool)
      requires Valid()
      modifies this`pos, this`idle, this`data, this`calls
      ensures Valid()
      ensures State() == AdpcmIntStep(old(State()), rom).0
      ensures calls == old(calls) + [AdpcmIntStep(old(State()), rom).1]
    {
      if pos >= |rom| {
        idle := true;
        calls := calls + [MsmReset(true)];
      } else if data != -1 {
        calls := calls + [MsmData(data % 0x10)];
        data := -1;
      } else {
        data := rom[pos] as int;
        pos := pos + 1;
        calls := calls + [MsmData(data / 0x10)];
      }
    }

    /** `adpcm_w`: stop, or start the sample `data & 0x7f`. */
    method AdpcmW(d: byte)
      requires Valid()
      modifies this`pos, this`idle, this`calls
      ensures Valid()
      ensures State() == AdpcmWriteStep(old(State()), d).0
      ensures calls == old(calls) + [AdpcmWriteStep(old(State()), d).1]
    {
      if Bit(d, 7) {
        idle := true;
        calls := calls + [MsmReset(true)];
      } else {
        pos := (d & 0x7f) as int * 0x200;
        idle := false;
        calls := calls + [MsmReset(false)];
      }
    }

    /** `adpcm_status_r`: every read flips bit 7 and returns the new status. */
    method AdpcmStatusR() returns (v: byte)
      modifies this`status
      ensures status == old(status) ^ 0x80 && v == status
      ensures status & 0x7f == old(status) & 0x7f && Bit(status, 7) != Bit(old(status), 7)
    {
      status := status ^ 0x80;
      v := status;
    }
  }

  /* ---------------------------------------------------------------- video */

  /** What `get_tile_info` hands to the tilemap (the gfx set is always 0). */
  datatype Tile = Tile(code: bv16, color: byte)

  /**
   * `get_tile_info`: video RAM gives the low 8 bits of the code, colour RAM bit 5
   * its bit 8 and bits 0-4 the colour.
   */
  function GetTileInfo(video: byte, attr: byte): (t: Tile)
    ensures t.code < 0x200 && t.color < 0x20
    ensures t.code & 0xff == video as bv16 && (t.code & 0x100 != 0 <==> Bit(attr, 5))
    ensures t.color == attr & 0x1f
  {
    Tile((video as bv16) | ((((attr >> 5) & 1) as bv16) << 8), attr & 0x1f)
  }

  /** The video byte and colour bits 0-5 read back from a decoded tile. */
  function TileSource(t: Tile): (byte, byte)
  {
    ((t.code & 0xff) as byte, t.color | ((((t.code >> 8) & 1) as byte) << 5))
  }

  /** Decoding loses nothing but colour bits 6-7, which `get_tile_info` does not use. */
  lemma GetTileInfoRoundTrip(video: byte, attr: byte)
    ensures TileSource(GetTileInfo(video, attr)) == (video, attr & 0x3f)
    ensures GetTileInfo(video, attr) == GetTileInfo(video, attr & 0x3f)
  {
  }

  /** The reference parameters of `extend_sprite`. */
  datatype SpriteAttr = SpriteAttr(flipy: bool, code: bv16, color: byte)

  /**
   * `idsoccer_state::extend_sprite`: colour bit 4 moves to code bit 8 and
   * y-flip to code bit 9; the y-flip is then cleared.
   */
  function ExtendSprite(s: SpriteAttr): (r: SpriteAttr)
    ensures !r.flipy && r.color == s.color & 0xef
    ensures r.code & 0xfcff == s.code & 0xfcff
    ensures r.code & 0x100 != 0 <==> s.code & 0x100 != 0 || Bit(s.color, 4)
    ensures r.code & 0x200 != 0 <==> s.code & 0x200 != 0 || s.flipy
  {
    var code := s.code | ((((s.color >> 4) & 1) as bv16) << 8);
    var color := s.color & !(1 << 4);
    var code' := code | ((BitValue(s.flipy) as bv16) << 9);
    SpriteAttr(false, code', color)
  }

  /** Recovers what `extend_sprite` folded into the code, for a sprite code below 0x100. */
  function UnextendSprite(r: SpriteAttr): SpriteAttr
  {
    SpriteAttr(r.code & 0x200 != 0, r.code & 0xff, r.color | ((((r.code >> 8) & 1) as byte) << 4))
  }

  /** For 8-bit sprite codes (the only ones the sprite RAM holds) `extend_sprite` loses nothing. */
  lemma ExtendSpriteRoundTrip(s: SpriteAttr)
    requires s.code < 0x100
    ensures UnextendSprite(ExtendSprite(s)) == s
  {
  }

  /** Size in bytes of the sprite RAM share. */
  const SpriteRamSize: nat := 0x200

  /** The byte `draw_sprites` reads for field `k` of the entry at `offs`: `src` already points at `offs`. */
  function SpriteByte(offs: nat, k: nat): nat
  {
    offs + k
  }

  /** As written: `src[offs + k]` on `src = &m_spriteram[offs]`, which adds `offs` twice. */
  function SpriteByteAsWritten(offs: nat, k: nat): nat
  {
    offs + (offs + k)
  }

  /** The first entry drawn (`offs == 0x1fc`) then reads far past the end of the sprite RAM, and the entry at 4 reads entry 2. */
  lemma SpriteByteAsWrittenOverruns()
    ensures SpriteByteAsWritten(SpriteRamSize - 4, 1) >= SpriteRamSize
    ensures SpriteByteAsWritten(4, 0) / 4 == 2
  {
  }

  /** Reading `offs + k` stays inside the entry being drawn and inside the RAM. */
  lemma {:induction false} SpriteByteInEntry(offs: nat, k: nat)
    requires offs % 4 == 0 && offs < SpriteRamSize && k < 4
    ensures SpriteByte(offs, k) < SpriteRamSize && SpriteByte(offs, k) / 4 == offs / 4
  {
  }

  /** A decoded sprite as `draw_sprites` passes it to the gfx element. */
  datatype Sprite = Sprite(code: int, color: int, flipx: bool, flipy: bool, xpos: int, ypos: int)

  /** The flip-screen transform of `draw_sprites`. */
  function FlipSprite(s: Sprite): Sprite
  {
    s.(xpos := 240 - s.xpos, ypos := 176 - s.ypos, flipx := !s.flipx, flipy := !s.flipy)
  }

  lemma FlipSpriteTwice(s: Sprite)
    ensures FlipSprite(FlipSprite(s)) == s
  {
  }

  /**
   * The entry at `offs` before the flip-screen transform, reading
   * `m_spriteram[offs + k]`: y, x, attributes `YX-ppppp`, tile number.
   * The x position is the x byte taken into the range -8..247.
   */
  function RawSprite(ram: seq<byte>, offs: nat): (s: Sprite)
    requires offs % 4 == 0 && offs + 4 <= |ram|
    ensures s.code == ram[offs + 3] as int && 0 <= s.color < 0x20
    ensures s.color == (ram[offs + 2] & 0x1f) as int
    ensures s.flipx == Bit(ram[offs + 2], 6) && s.flipy == Bit(ram[offs + 2], 7)
    ensures -8 <= s.xpos < 0xf8 && (s.xpos - ram[offs + 1] as int) % 0x100 == 0
    ensures s.ypos == ram[offs] as int - 32
  {
    var y, x, attr, tile := ram[SpriteByte(offs, 0)], ram[SpriteByte(offs, 1)], ram[SpriteByte(offs, 2)], ram[SpriteByte(offs, 3)];
    Sprite(tile as int, (attr & 0x1f) as int, Bit(attr, 6), Bit(attr, 7), ((x as int + 8) % 0x100) - 8, y as int - 32)
  }

  /** The attribute byte `YX-ppppp` rebuilt from a sprite's flips and colour. */
  function SpriteAttrSource(flipx: bool, flipy: bool, color: byte): byte
  {
    color | (BitValue(flipx) << 6) | (BitValue(flipy) << 7)
  }

  /**
   * The entry at `offs` is recovered from its sprite: y, x and the tile
   * number whole, and the attribute byte except its unused bit 5.
   */
  lemma RawSpriteRoundTrip(ram: seq<byte>, offs: nat)
    requires offs % 4 == 0 && offs + 4 <= |ram|
    ensures var s := RawSprite(ram, offs);
      && s.ypos + 32 == ram[offs] as int
      && (s.xpos + 0x100) % 0x100 == ram[offs + 1] as int
      && SpriteAttrSource(s.flipx, s.flipy, s.color as byte) == ram[offs + 2] & 0xdf
      && s.code == ram[offs + 3] as int
  {
    var s := RawSprite(ram, offs);
    var x, attr := ram[offs + 1], ram[offs + 2];
    assert s.xpos == ((x as int + 8) % 0x100) - 8;
    XposRoundTrip(x);
    ColorByte(attr);
    AttrRoundTrip(attr);
  }

  /** The colour field, widened to an integer and narrowed back, is unchanged. */
  lemma ColorByte(attr: byte)
    ensures ((attr & 0x1f) as int) as byte == attr & 0x1f
  {
  }

  /** Bits 0-4, 6 and 7 of an attribute byte come back from its colour and flips. */
  lemma AttrRoundTrip(attr: byte)
    ensures SpriteAttrSource(Bit(attr, 6), Bit(attr, 7), attr & 0x1f) == attr & 0xdf
  {
  }

  /** The x byte comes back from the position -8..247 it is drawn at. */
  lemma XposRoundTrip(x: byte)
    ensures ((((x as int + 8) % 0x100) - 8) + 0x100) % 0x100 == x as int
  {
  }

  /* ---------------------------------------------------------------- palette */

  /**
   * A pen `palette` sets from PROM entry `i`: the 3bpp colour `i` is copied to
   * both halves of a 4bpp group, so bit 3 of the pen selects the copy.
   * `((i & 0xf8) << 1) | (hi ? 0x08 : 0) | (i & 0x07)`, written on integers.
   */
  function PenOf(i: int, hi: bool): (p: int)
    requires 0 <= i < 0x100
    ensures 0 <= p < 0x200
  {
    (i / 8) * 16 + (if hi then 8 else 0) + i % 8
  }

  /** The PROM entry pen `p` takes its colour from: `((p >> 1) & 0xf8) | (p & 0x07)`. */
  function PenSourceOf(p: int): (i: int)
    requires 0 <= p < 0x200
    ensures 0 <= i < 0x100
  {
    (p / 16) * 8 + p % 8
  }

  /** Bit 3 of a pen number: which 3bpp copy it is. */
  function PenHalf(p: int): bool
    requires 0 <= p < 0x200
  {
    p % 16 >= 8
  }

  /** Each entry and copy lands on a pen whose source is that entry, in that copy. */
  lemma PenOfInverse(i: int, hi: bool)
    requires 0 <= i < 0x100
    ensures PenSourceOf(PenOf(i, hi)) == i && PenHalf(PenOf(i, hi)) == hi
  {
    var p := PenOf(i, hi);
    assert p / 16 == i / 8 && p % 16 == (if hi then 8 else 0) + i % 8;
  }

  /** Every pen has a source entry, and is that entry's pen in its own half. */
  lemma PenSourceOfInverse(p: int)
    requires 0 <= p < 0x200
    ensures PenOf(PenSourceOf(p), PenHalf(p)) == p
  {
    var i := PenSourceOf(p);
    assert i / 8 == p / 16 && i % 8 == p % 8;
  }

  /** Pen `p` is one of the two pens of entry `i` exactly when `i` is its source. */
  lemma PenOfEntry(p: int, i: int)
    requires 0 <= p < 0x200 && 0 <= i < 0x100
    ensures PenSourceOf(p) == i <==> p == PenOf(i, false) || p == PenOf(i, true)
  {
    PenSourceOfInverse(p);
    PenOfInverse(i, false);
    PenOfInverse(i, true);
  }

  /**
   * The pen loop of `palette`: for each of the 512 pens, the PROM entry whose
   * colour it receives.  Every pen is set, by the one entry and copy that maps
   * onto it.
   */
  method PaletteSources() returns (src: seq<int>)
    ensures |src| == 0x200
    ensures forall p :: 0 <= p < 0x200 ==> 0 <= src[p] < 0x100 && PenOf(src[p], PenHalf(p)) == p
  {
    src := seq(0x200, _ => -1);
    var i := 0;
    while i < 0x100
      invariant 0 <= i <= 0x100 && |src| == 0x200
      invariant forall p :: 0 <= p < 0x200 ==> src[p] == if PenSourceOf(p) < i then PenSourceOf(p) else -1
    {
      var lo, hi := PenOf(i, false), PenOf(i, true);
      src := src[lo := i][hi := i];
      forall p | 0 <= p < 0x200
        ensures src[p] == if PenSourceOf(p) < i + 1 then PenSourceOf(p) else -1
      {
        PenOfEntry(p, i);
      }
      i := i + 1;
    }
    forall p | 0 <= p < 0x200
      ensures 0 <= src[p] < 0x100 && PenOf(src[p], PenHalf(p)) == p
    {
      PenSourceOfInverse(p);
    }
  }
}
