/** The kernel module's GPIO layer: pin range check, function-select
    (GPFSEL) steering, output set/clear, level read, and the bit-banged
    MAX7219 instruction. The mapped register window is a map from byte
    offset to 32-bit word together with the ordered log of every access the
    layer makes to it. */
module Gpio {
  import opened Bitbang

  /** Size in bytes of the mapped register window. */
  const GPIO_ADDR_SPACE_LEN: int := 0xB4
  const GPSET0_OFFSET: int := 0x1C
  const GPCLR0_OFFSET: int := 0x28
  const GPLEV0_OFFSET: int := 0x34

  /** The kernel module's bit-bang wiring: LOAD on GPIO 27, CLK on GPIO 22,
      DIN on GPIO 17. */
  const BITBANG_LOAD_PIN: bv8 := 27
  const BITBANG_CLK_PIN: bv8 := 22
  const BITBANG_DIN_PIN: bv8 := 17
  const KERNEL_WIRING: Wiring := Wiring(BITBANG_LOAD_PIN, BITBANG_CLK_PIN, BITBANG_DIN_PIN)

  /** Location of a pin's 3-bit function field: the byte offset of its GPFSEL
      register and the field's bit position. */
  datatype Offsets = Offsets(reg: bv8, shift: bv8)

  const GPFSEL_OFFSETS_TABLE: seq<Offsets> := [
    Offsets(0 * 4, 0 * 3), Offsets(0 * 4, 1 * 3), Offsets(0 * 4, 2 * 3), Offsets(0 * 4, 3 * 3),
    Offsets(0 * 4, 4 * 3), Offsets(0 * 4, 5 * 3), Offsets(0 * 4, 6 * 3), Offsets(0 * 4, 7 * 3),
    Offsets(0 * 4, 8 * 3), Offsets(0 * 4, 9 * 3),
    Offsets(1 * 4, 0 * 3), Offsets(1 * 4, 1 * 3), Offsets(1 * 4, 2 * 3), Offsets(1 * 4, 3 * 3),
    Offsets(1 * 4, 4 * 3), Offsets(1 * 4, 5 * 3), Offsets(1 * 4, 6 * 3), Offsets(1 * 4, 7 * 3),
    Offsets(1 * 4, 8 * 3), Offsets(1 * 4, 9 * 3),
    Offsets(2 * 4, 0 * 3), Offsets(2 * 4, 1 * 3), Offsets(2 * 4, 2 * 3), Offsets(2 * 4, 3 * 3),
    Offsets(2 * 4, 4 * 3), Offsets(2 * 4, 5 * 3), Offsets(2 * 4, 6 * 3), Offsets(2 * 4, 7 * 3)
  ]

  /** The range check guarding every pin operation: 1 rejects the pin, 0
      accepts it. An accepted pin has a function-select entry and a bit in
      the 32-bit set, clear and level registers. */
  function CheckPin(pin: bv8): (r: int)
    ensures r == 0 || r == 1
    ensures r == 0 ==> pin as int < |GPFSEL_OFFSETS_TABLE| && pin < 32
    ensures r == 0 <==> 2 <= pin <= 27
  {
    if pin < 2 || 27 < pin then 1 else 0
  }

  /** The function-select table spells out the BCM2835 layout: ten 3-bit
      fields per 32-bit register. */
  function GpfselOffsets(pin: bv8): (o: Offsets)
    requires pin < 28
    ensures o.reg == 4 * (pin / 10) && o.shift == 3 * (pin % 10)
    ensures o.reg <= 8 && o.shift <= 27
  {
    GPFSEL_OFFSETS_TABLE[pin as int]
  }

  /** Two different pins never share a function field. */
  lemma FieldsDisjoint(p: bv8, q: bv8)
    requires p < 28 && q < 28 && p != q
    ensures GpfselOffsets(p) != GpfselOffsets(q)
  {
  }

  /** The single-bit mask a pin has in the set, clear and level registers. */
  function PinMask(pin: bv8): (m: bv32)
    requires pin < 32
    ensures m != 0
  {
    1 << pin
  }

  lemma PinMaskInjective(p: bv8, q: bv8)
    requires p < 32 && q < 32 && PinMask(p) == PinMask(q)
    ensures p == q
  {
  }

  /** The 3-bit function field at a bit position of a GPFSEL word. */
  function Field(v: bv32, shift: bv8): (f: bv32)
    requires shift <= 27
    ensures f < 8
  {
    (v >> shift) & 7
  }

  /** A GPFSEL word with the field at shift cleared and then or-ed with the
      function number. */
  function Pinmux(v: bv32, shift: bv8, fun: bv32): bv32
    requires shift <= 27
  {
    (v & !(7 << shift)) | (fun << shift)
  }

  /** Steering writes the function into its field when it fits in 3 bits. */
  lemma PinmuxSetsField(v: bv32, shift: bv8, fun: bv32)
    requires shift <= 27 && fun < 8
    ensures Field(Pinmux(v, shift, fun), shift) == fun
  {
  }

  /** ... and leaves every other field of the register alone. */
  lemma PinmuxKeepsOtherFields(v: bv32, shift: bv8, other: bv8, fun: bv32)
    requires shift <= 27 && other <= 27 && shift % 3 == 0 && other % 3 == 0 && shift != other
    requires fun < 8
    ensures Field(Pinmux(v, shift, fun), other) == Field(v, other)
  {
  }

  /** Steering leaves every bit outside the pin's field alone, the top two bits included. */
  lemma PinmuxKeepsOtherBits(v: bv32, shift: bv8, fun: bv32)
    requires shift <= 27 && fun < 8
    ensures Pinmux(v, shift, fun) & !(7 << shift) == v & !(7 << shift)
  {
  }

  /**
   * The function number is not masked: one in 8..63 keeps its low three bits
   * in the pin's field and or-s its high bits into the next pin's field.
   */
  lemma PinmuxWideFunctionSpills(v: bv32, shift: bv8, fun: bv32)
    requires shift <= 24 && 8 <= fun < 64
    ensures Field(Pinmux(v, shift, fun), shift) == fun & 7
    ensures Field(Pinmux(v, shift, fun), shift + 3) == Field(v, shift + 3) | (fun >> 3)
  {
  }

  /** The function currently selected for a pin, read from its field. */
  function PinFunction(regs: map<int, bv32>, pin: bv8): (f: bv32)
    requires pin < 28 && GpfselOffsets(pin).reg as int in regs
    ensures f < 8
  {
    var o := GpfselOffsets(pin);
    Field(regs[o.reg as int], o.shift)
  }

  /** The register file after steering pin to fun, as the steering code
      computes it. */
  function Steered(regs: map<int, bv32>, pin: bv8, fun: bv32): map<int, bv32>
    requires pin < 28 && GpfselOffsets(pin).reg as int in regs
  {
    var o := GpfselOffsets(pin);
    regs[o.reg as int := Pinmux(regs[o.reg as int], o.shift, fun)]
  }

  /** Steering a pin to a 3-bit function selects that function for the pin
      and leaves the function of every other pin unchanged. */
  lemma SteeringSelectsOnlyThatPin(regs: map<int, bv32>, pin: bv8, fun: bv32, other: bv8)
    requires pin < 28 && other < 28 && fun < 8
    requires GpfselOffsets(pin).reg as int in regs && GpfselOffsets(other).reg as int in regs
    ensures PinFunction(Steered(regs, pin, fun), pin) == fun
    ensures other != pin ==> PinFunction(Steered(regs, pin, fun), other) == PinFunction(regs, other)
  {
    var o := GpfselOffsets(pin);
    PinmuxSetsField(regs[o.reg as int], o.shift, fun);
    if other != pin {
      var q := GpfselOffsets(other);
      FieldsDisjoint(pin, other);
      if q.reg == o.reg {
        PinmuxKeepsOtherFields(regs[o.reg as int], o.shift, q.shift, fun);
      }
    }
  }

  /** One access to the register window. */
  datatype Access = Read(offset: int) | Write(offset: int, value: bv32)

  /** Word-aligned offsets inside the register window. */
  predicate Mapped(off: int)
  {
    0 <= off < GPIO_ADDR_SPACE_LEN && off % 4 == 0
  }

  /** Register contents after a sequence of accesses, first access first:
      a write stores its word, a read changes nothing. */
  function Apply(regs: map<int, bv32>, accesses: seq<Access>): (r: map<int, bv32>)
    ensures regs.Keys <= r.Keys
    decreases |accesses|
  {
    if accesses == [] then regs
    else
      var next := match accesses[0]
        case Read(_) => regs
        case Write(off, v) => regs[off := v];
      Apply(next, accesses[1..])
  }

  lemma {:induction false} ApplyAppend(regs: map<int, bv32>, a: seq<Access>, b: seq<Access>)
    ensures Apply(regs, a + b) == Apply(Apply(regs, a), b)
    decreases |a|
  {
    if a == [] {
      assert a + b == b;
    } else {
      assert (a + b)[1..] == a[1..] + b;
      var next := match a[0]
        case Read(_) => regs
        case Write(off, v) => regs[off := v];
      ApplyAppend(next, a[1..], b);
    }
  }

  /** The register write one pin call makes: a set or clear of the pin's
      mask, or nothing for a rejected pin. */
  function PinAccesses(op: PinOp): (a: seq<Access>)
    ensures |a| <= 1
    ensures CheckPin(op.pin) == 0 <==> |a| == 1
  {
    if CheckPin(op.pin) != 0 then []
    else match op
      case SetPin(p) => [Write(GPSET0_OFFSET, PinMask(p))]
      case ClearPin(p) => [Write(GPCLR0_OFFSET, PinMask(p))]
  }

  /** The register writes of a sequence of pin calls. */
  function Strobes(ops: seq<PinOp>): (a: seq<Access>)
    ensures |a| <= |ops|
    decreases |ops|
  {
    if ops == [] then [] else PinAccesses(ops[0]) + Strobes(ops[1..])
  }

  lemma {:induction false} StrobesAppend(a: seq<PinOp>, b: seq<PinOp>)
    ensures Strobes(a + b) == Strobes(a) + Strobes(b)
    decreases |a|
  {
    if a == [] {
      assert a + b == b;
    } else {
      assert (a + b)[1..] == a[1..] + b;
      StrobesAppend(a[1..], b);
    }
  }

  /** The writes that clock out one bit, after any earlier writes. */
  lemma StrobesOfBitFrame(prefix: seq<Access>, w: Wiring, bit: bool)
    ensures prefix + Strobes(BitFrame(w, bit))
         == prefix + PinAccesses(ClearPin(w.clk)) + PinAccesses(DataOp(w, bit)) + PinAccesses(SetPin(w.clk))
  {
    var frame := BitFrame(w, bit);
    assert Strobes(frame) == PinAccesses(frame[0]) + Strobes(frame[1..]);
    assert Strobes(frame[1..]) == PinAccesses(frame[1]) + Strobes(frame[2..]) by {
      assert frame[1..][1..] == frame[2..];
    }
    assert Strobes(frame[2..]) == PinAccesses(frame[2]) by {
      assert frame[2..][1..] == [];
    }
  }

  /** The writes of a whole instruction: LOAD high, the sixteen bits, then
      LOAD low and high again. */
  lemma StrobesOfInstructionOps(w: Wiring, bits: bv16)
    ensures Strobes(InstructionOps(w, bits))
         == PinAccesses(SetPin(w.load)) + Strobes(BitOps(w, bits, 0))
            + (PinAccesses(ClearPin(w.load)) + PinAccesses(SetPin(w.load)))
  {
    var head := [SetPin(w.load)];
    var body := BitOps(w, bits, 0);
    var tail := [ClearPin(w.load), SetPin(w.load)];
    assert Strobes(head) == PinAccesses(SetPin(w.load)) by {
      assert head[1..] == [];
    }
    assert Strobes(tail) == PinAccesses(ClearPin(w.load)) + PinAccesses(SetPin(w.load)) by {
      assert Strobes(tail) == PinAccesses(tail[0]) + Strobes(tail[1..]);
      assert tail[1..][1..] == [];
    }
    StrobesAppend(head, body);
    StrobesAppend(head + body, tail);
  }

  lemma AppendRegroup(prefix: seq<Access>, a: seq<Access>, b: seq<Access>, c: seq<Access>, d: seq<Access>)
    ensures prefix + (a + b + (c + d)) == prefix + a + b + c + d
  {
  }

  /** The writes of a whole instruction, after any earlier writes. */
  lemma StrobesOfInstruction(prefix: seq<Access>, w: Wiring, bits: bv16)
    ensures prefix + Strobes(InstructionOps(w, bits))
         == prefix + PinAccesses(SetPin(w.load)) + Strobes(BitOps(w, bits, 0))
            + PinAccesses(ClearPin(w.load)) + PinAccesses(SetPin(w.load))
  {
    StrobesOfInstructionOps(w, bits);
    AppendRegroup(prefix, PinAccesses(SetPin(w.load)), Strobes(BitOps(w, bits, 0)),
      PinAccesses(ClearPin(w.load)), PinAccesses(SetPin(w.load)));
  }

  /** The writes of an instruction's bits 15 down to i, extended by bit
      i - 1, after any earlier writes. */
  lemma StrobesAfterBit(prefix: seq<Access>, w: Wiring, bits: bv16, i: nat)
    requires 0 < i <= 16
    ensures prefix + Strobes(BitOps(w, bits, i)) + Strobes(BitFrame(w, BitSet(bits, i - 1)))
         == prefix + Strobes(BitOps(w, bits, i - 1))
  {
    StrobesAppend(BitOps(w, bits, i), BitFrame(w, BitSet(bits, i - 1)));
  }

  predicate PinsAccepted(ops: seq<PinOp>)
  {
    forall k :: 0 <= k < |ops| ==> CheckPin(ops[k].pin) == 0
  }

  /** For accepted pins, the logged writes identify the pin calls that made
      them: nothing about the calls is lost on the way to the registers. */
  lemma {:induction false} StrobesIdentifyCalls(a: seq<PinOp>, b: seq<PinOp>)
    requires PinsAccepted(a) && PinsAccepted(b) && Strobes(a) == Strobes(b)
    ensures a == b
    decreases |a|
  {
    if a == [] {
      if b != [] {
        assert false;
      }
    } else {
      assert |PinAccesses(a[0])| == 1;
      if b == [] {
        assert false;
      }
      assert |PinAccesses(b[0])| == 1;
      assert Strobes(a)[0] == PinAccesses(a[0])[0];
      assert Strobes(b)[0] == PinAccesses(b[0])[0];
      PinMaskInjective(a[0].pin, b[0].pin);
      assert a[0] == b[0];
      assert Strobes(a)[1..] == Strobes(a[1..]);
      assert Strobes(b)[1..] == Strobes(b[1..]);
      StrobesIdentifyCalls(a[1..], b[1..]);
    }
  }

  lemma KernelWiringAccepted()
    ensures Distinct(KERNEL_WIRING)
    ensures CheckPin(BITBANG_LOAD_PIN) == 0 && CheckPin(BITBANG_CLK_PIN) == 0
    ensures CheckPin(BITBANG_DIN_PIN) == 0
  {
  }

  class GpioRegisters {
    /** Current contents of the mapped window. */
    var regs: map<int, bv32>
    /** Every access so far, oldest first. */
    var log: seq<Access>
    /** Contents of the window when it was mapped. */
    ghost var boot: map<int, bv32>

    /** Every mapped word is present, and the window holds its mapped
        contents with every logged write applied in order. */
    ghost predicate Valid()
      reads this
    {
      (forall off :: Mapped(off) ==> off in regs) && regs == Apply(boot, log)
    }

    /** A freshly mapped window. */
    constructor (contents: map<int, bv32>)
      requires forall off :: Mapped(off) ==> off in contents
      ensures Valid() && regs == contents && boot == contents && log == []
    {
      regs := contents;
      log := [];
      boot := contents;
    }

    method IoRead(off: int) returns (v: bv32)
      requires Valid() && Mapped(off)
      modifies this
      ensures Valid() && boot == old(boot) && regs == old(regs)
      ensures v == regs[off] && log == old(log) + [Read(off)]
    {
      v := regs[off];
      ApplyAppend(boot, log, [Read(off)]);
      assert Apply(regs, [Read(off)]) == regs by {
        assert [Read(off)][1..] == [];
      }
      log := log + [Read(off)];
    }

    method IoWrite(off: int, v: bv32)
      requires Valid() && Mapped(off)
      modifies this
      ensures Valid() && boot == old(boot)
      ensures regs == old(regs)[off := v] && log == old(log) + [Write(off, v)]
    {
      ApplyAppend(boot, log, [Write(off, v)]);
      assert Apply(regs, [Write(off, v)]) == regs[off := v] by {
        assert [Write(off, v)][1..] == [];
      }
      regs := regs[off := v];
      log := log + [Write(off, v)];
    }

    /** Selects a function for a pin: one read and one write of its GPFSEL
        register for an accepted pin, nothing otherwise. */
    method SteerPinmux(pin: bv8, fun: bv32)
      requires Valid()
      modifies this
      ensures Valid() && boot == old(boot)
      ensures CheckPin(pin) != 0 ==> regs == old(regs) && log == old(log)
      ensures CheckPin(pin) == 0 ==>
        var o := GpfselOffsets(pin);
        var updated := Pinmux(old(regs)[o.reg as int], o.shift, fun);
        regs == Steered(old(regs), pin, fun) &&
        log == old(log) + [Read(o.reg as int), Write(o.reg as int, updated)]
    {
      if CheckPin(pin) != 0 {
        return;
      }
      var o := GpfselOffsets(pin);
      var tmp := IoRead(o.reg as int);
      tmp := tmp & !(7 << o.shift);
      tmp := tmp | (fun << o.shift);
      IoWrite(o.reg as int, tmp);
    }

    /** Drives an accepted pin high through the set register. */
    method Set(pin: bv8)
      requires Valid()
      modifies this
      ensures Valid() && boot == old(boot)
      ensures log == old(log) + PinAccesses(SetPin(pin))
      ensures regs == Apply(old(regs), PinAccesses(SetPin(pin)))
    {
      if CheckPin(pin) != 0 {
        assert PinAccesses(SetPin(pin)) == [];
        return;
      }
      IoWrite(GPSET0_OFFSET, PinMask(pin));
      assert [Write(GPSET0_OFFSET, PinMask(pin))][1..] == [];
    }

    /** Drives an accepted pin low through the clear register. */
    method Clear(pin: bv8)
      requires Valid()
      modifies this
      ensures Valid() && boot == old(boot)
      ensures log == old(log) + PinAccesses(ClearPin(pin))
      ensures regs == Apply(old(regs), PinAccesses(ClearPin(pin)))
    {
      if CheckPin(pin) != 0 {
        assert PinAccesses(ClearPin(pin)) == [];
        return;
      }
      IoWrite(GPCLR0_OFFSET, PinMask(pin));
      assert [Write(GPCLR0_OFFSET, PinMask(pin))][1..] == [];
    }

    /** The level of an accepted pin as 0 or 1; a rejected pin reads as
        0xFF, the byte -1 becomes in the unsigned return type. */
    method ReadPin(pin: bv8) returns (r: bv8)
      requires Valid()
      modifies this
      ensures Valid() && boot == old(boot) && regs == old(regs)
      ensures CheckPin(pin) != 0 ==> r == 0xFF && log == old(log)
      ensures CheckPin(pin) == 0 ==>
        r <= 1 && (r == 1 <==> regs[GPLEV0_OFFSET] & PinMask(pin) != 0) &&
        log == old(log) + [Read(GPLEV0_OFFSET)]
    {
      if CheckPin(pin) != 0 {
        return 0xFF;
      }
      var tmp := IoRead(GPLEV0_OFFSET);
      r := ((tmp >> pin) & 1) as bv8;
    }

    /** One pass of the instruction loop: CLK low, DIN to the bit under the
        mask, CLK high. */
    method ClockOutBit(bits: bv16, i: int)
      requires Valid() && 0 < i <= 16
      modifies this
      ensures Valid() && boot == old(boot)
      ensures log == old(log) + Strobes(BitFrame(KERNEL_WIRING, BitSet(bits, i - 1)))
    {
      var mask: bv16 := 1 << (i - 1);
      Clear(BITBANG_CLK_PIN);
      if bits & mask != 0 {
        Set(BITBANG_DIN_PIN);
      } else {
        Clear(BITBANG_DIN_PIN);
      }
      Set(BITBANG_CLK_PIN);
      StrobesOfBitFrame(old(log), KERNEL_WIRING, BitSet(bits, i - 1));
    }

    /** Clocks one 16-bit instruction out to the MAX7219, most significant
        bit first: exactly the register writes of the protocol's pin calls,
        in order. */
    method SpiInstruction(bits: bv16)
      requires Valid()
      modifies this
      ensures Valid() && boot == old(boot)
      ensures log == old(log) + Strobes(InstructionOps(KERNEL_WIRING, bits))
      ensures regs == Apply(old(regs), Strobes(InstructionOps(KERNEL_WIRING, bits)))
    {
      var w := KERNEL_WIRING;
      Set(BITBANG_LOAD_PIN);
      ghost var start := log;
      var i := 16;
      while i > 0
        invariant 0 <= i <= 16
        invariant Valid() && boot == old(boot)
        invariant log == start + Strobes(BitOps(w, bits, i))
      {
        ClockOutBit(bits, i);
        StrobesAfterBit(start, w, bits, i);
        i := i - 1;
      }
      Clear(BITBANG_LOAD_PIN);
      Set(BITBANG_LOAD_PIN);
      StrobesOfInstruction(old(log), w, bits);
      ApplyAppend(boot, old(log), Strobes(InstructionOps(w, bits)));
    }
  }
}
