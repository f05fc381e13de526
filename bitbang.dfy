/** The three-wire serial protocol both bit-banging paths use to hand one
    16-bit instruction to the MAX7219, and a model of the chip's serial
    interface that gives the pin sequence its meaning: DIN is sampled into a
    16-bit shift register on each rising edge of CLK, and the shift register
    is latched into the chip on each rising edge of LOAD. */
module Bitbang {

  /** One GPIO output call: drive a pin high or drive it low. */
  datatype PinOp = SetPin(pin: bv8) | ClearPin(pin: bv8)

  /** Which GPIO line is connected to which chip input. */
  datatype Wiring = Wiring(load: bv8, clk: bv8, din: bv8)

  predicate Distinct(w: Wiring)
  {
    w.load != w.clk && w.clk != w.din && w.load != w.din
  }

  /** Bit i of an instruction word, tested with the mask 1 << i. */
  predicate BitSet(bits: bv16, i: nat)
    requires i < 16
  {
    bits & (1 << i) != 0
  }

  /** The write to DIN that presents one data bit. */
  function DataOp(w: Wiring, bit: bool): PinOp
  {
    if bit then SetPin(w.din) else ClearPin(w.din)
  }

  /** The three calls that clock out one bit: CLK low, DIN to the bit,
      CLK high. */
  function BitFrame(w: Wiring, bit: bool): (ops: seq<PinOp>)
    ensures |ops| == 3 && ops[0] == ClearPin(w.clk) && ops[2] == SetPin(w.clk)
  {
    [ClearPin(w.clk), DataOp(w, bit), SetPin(w.clk)]
  }

  /** The calls that clock out bits 15 down to i of a word, most significant
      bit first. */
  function BitOps(w: Wiring, bits: bv16, i: nat): (ops: seq<PinOp>)
    requires i <= 16
    ensures |ops| == 3 * (16 - i)
    decreases 16 - i
  {
    if i == 16 then [] else BitOps(w, bits, i + 1) + BitFrame(w, BitSet(bits, i))
  }

  /** The whole instruction: LOAD high, sixteen bits, then a low-high pulse
      on LOAD. */
  function InstructionOps(w: Wiring, bits: bv16): (ops: seq<PinOp>)
    ensures |ops| == 51
    ensures ops[0] == SetPin(w.load)
    ensures ops[49] == ClearPin(w.load) && ops[50] == SetPin(w.load)
  {
    [SetPin(w.load)] + BitOps(w, bits, 0) + [ClearPin(w.load), SetPin(w.load)]
  }

  /** The concatenated instructions for a list of words. */
  function StreamOps(w: Wiring, words: seq<bv16>): (ops: seq<PinOp>)
    ensures |ops| == 51 * |words|
  {
    if words == [] then [] else InstructionOps(w, words[0]) + StreamOps(w, words[1..])
  }

  /** Input levels of the chip, its shift register and the words it has
      latched so far, oldest first. */
  datatype Chip = Chip(din: bool, clk: bool, load: bool, shift: bv16, latched: seq<bv16>)

  /** The shift register after one clock edge with DIN at the given level. */
  function ShiftIn(s: bv16, bit: bool): bv16
  {
    (s << 1) | (if bit then 1 else 0)
  }

  /** The chip after one pin is driven to a level. */
  function Drive(c: Chip, w: Wiring, pin: bv8, level: bool): Chip
  {
    if pin == w.clk then
      c.(clk := level, shift := if !c.clk && level then ShiftIn(c.shift, c.din) else c.shift)
    else if pin == w.load then
      c.(load := level, latched := if !c.load && level then c.latched + [c.shift] else c.latched)
    else if pin == w.din then
      c.(din := level)
    else
      c
  }

  function Step(c: Chip, w: Wiring, op: PinOp): Chip
  {
    match op
    case SetPin(p) => Drive(c, w, p, true)
    case ClearPin(p) => Drive(c, w, p, false)
  }

  /** The chip after a sequence of calls, first call first. */
  function Run(c: Chip, w: Wiring, ops: seq<PinOp>): Chip
    decreases |ops|
  {
    if ops == [] then c else Run(Step(c, w, ops[0]), w, ops[1..])
  }

  lemma {:induction false} RunAppend(c: Chip, w: Wiring, a: seq<PinOp>, b: seq<PinOp>)
    ensures Run(c, w, a + b) == Run(Run(c, w, a), w, b)
    decreases |a|
  {
    if a == [] {
      assert a + b == b;
    } else {
      assert (a + b)[1..] == a[1..] + b;
      RunAppend(Step(c, w, a[0]), w, a[1..], b);
    }
  }

  /** The shift register after bits 15 down to i have been clocked into s. */
  function Feed(s: bv16, bits: bv16, i: nat): bv16
    requires i <= 16
    decreases 16 - i
  {
    if i == 16 then s else ShiftIn(Feed(s, bits, i + 1), BitSet(bits, i))
  }

  /** Clocking one bit: the data bit reaches the shift register on the
      rising edge and nothing is latched, whatever the clock level was. */
  lemma BitFrameShifts(c: Chip, w: Wiring, bit: bool)
    requires Distinct(w)
    ensures Run(c, w, BitFrame(w, bit))
         == c.(din := bit, clk := true, shift := ShiftIn(c.shift, bit))
  {
    var ops := BitFrame(w, bit);
    var c1 := Step(c, w, ops[0]);
    var c2 := Step(c1, w, ops[1]);
    var c3 := Step(c2, w, ops[2]);
    assert c1 == c.(clk := false);
    assert c2 == c.(clk := false, din := bit);
    assert c3 == c.(din := bit, clk := true, shift := ShiftIn(c.shift, bit));
    assert Run(c2, w, ops[2..]) == c3 by {
      assert ops[2..][1..] == [];
    }
    assert Run(c1, w, ops[1..]) == Run(c2, w, ops[2..]) by {
      assert ops[1..][1..] == ops[2..];
    }
  }

  /** Clocking bits 15 down to i feeds exactly those bits into the shift
      register and leaves LOAD and the latched words alone. */
  lemma {:induction false} BitOpsShift(c: Chip, w: Wiring, bits: bv16, i: nat)
    requires Distinct(w) && i < 16
    ensures Run(c, w, BitOps(w, bits, i))
         == c.(din := BitSet(bits, i), clk := true, shift := Feed(c.shift, bits, i))
    decreases 16 - i
  {
    var prefix := BitOps(w, bits, i + 1);
    RunAppend(c, w, prefix, BitFrame(w, BitSet(bits, i)));
    if i == 15 {
      assert prefix == [];
    } else {
      BitOpsShift(c, w, bits, i + 1);
    }
    BitFrameShifts(Run(c, w, prefix), w, BitSet(bits, i));
  }

  /** Sixteen clock edges replace the whole shift register by the word. */
  lemma FeedWholeWord(s: bv16, bits: bv16)
    ensures Feed(s, bits, 0) == bits
  {
    assert Feed(s, bits, 16) == s;
    FeedStep(s, bits, 15);
    FeedStep(s, bits, 14);
    FeedStep(s, bits, 13);
    FeedStep(s, bits, 12);
    FeedStep(s, bits, 11);
    FeedStep(s, bits, 10);
    FeedStep(s, bits, 9);
    FeedStep(s, bits, 8);
    FeedStep(s, bits, 7);
    FeedStep(s, bits, 6);
    FeedStep(s, bits, 5);
    FeedStep(s, bits, 4);
    FeedStep(s, bits, 3);
    FeedStep(s, bits, 2);
    FeedStep(s, bits, 1);
    FeedStep(s, bits, 0);
    SixteenShiftsSpellWord(s, bits);
  }

  lemma FeedStep(s: bv16, bits: bv16, k: nat)
    requires k < 16
    ensures Feed(s, bits, k) == ShiftIn(Feed(s, bits, k + 1), BitSet(bits, k))
  {
  }

  lemma SixteenShiftsSpellWord(s: bv16, bits: bv16)
    ensures ShiftIn(ShiftIn(ShiftIn(ShiftIn(ShiftIn(ShiftIn(ShiftIn(ShiftIn(
              ShiftIn(ShiftIn(ShiftIn(ShiftIn(ShiftIn(ShiftIn(ShiftIn(ShiftIn(s,
              BitSet(bits, 15)), BitSet(bits, 14)), BitSet(bits, 13)), BitSet(bits, 12)),
              BitSet(bits, 11)), BitSet(bits, 10)), BitSet(bits, 9)), BitSet(bits, 8)),
              BitSet(bits, 7)), BitSet(bits, 6)), BitSet(bits, 5)), BitSet(bits, 4)),
              BitSet(bits, 3)), BitSet(bits, 2)), BitSet(bits, 1)), BitSet(bits, 0))
         == bits
  {
  }

  /** One instruction delivers its word: afterwards the chip has latched
      the word, preceded by the old shift register contents only if LOAD was
      low beforehand, and LOAD and CLK are left high. */
  lemma InstructionLatchesWord(c: Chip, w: Wiring, bits: bv16)
    requires Distinct(w)
    ensures Run(c, w, InstructionOps(w, bits)) == Chip(
              BitSet(bits, 0), true, true, bits,
              c.latched + (if c.load then [] else [c.shift]) + [bits])
  {
    var c1 := Step(c, w, SetPin(w.load));
    assert c1 == c.(load := true, latched := c.latched + (if c.load then [] else [c.shift]));
    var body := BitOps(w, bits, 0);
    var tail := [ClearPin(w.load), SetPin(w.load)];
    assert InstructionOps(w, bits) == [SetPin(w.load)] + (body + tail);
    RunAppend(c, w, [SetPin(w.load)], body + tail);
    assert Run(c, w, [SetPin(w.load)]) == c1 by {
      assert [SetPin(w.load)][1..] == [];
    }
    RunAppend(c1, w, body, tail);
    BitOpsShift(c1, w, bits, 0);
    FeedWholeWord(c1.shift, bits);
    var c2 := Run(c1, w, body);
    var c3 := Step(c2, w, ClearPin(w.load));
    assert c3 == c2.(load := false);
    assert Run(c2, w, tail) == Run(c3, w, [SetPin(w.load)]) by {
      assert tail[1..] == [SetPin(w.load)];
    }
    assert Run(c3, w, [SetPin(w.load)]) == Step(c3, w, SetPin(w.load)) by {
      assert [SetPin(w.load)][1..] == [];
    }
  }

  /** From an idle chip (LOAD high), one instruction latches its word and
      nothing else, and leaves the chip idle. */
  lemma IdleInstructionLatchesWord(c: Chip, w: Wiring, bits: bv16)
    requires Distinct(w) && c.load
    ensures Run(c, w, InstructionOps(w, bits)).latched == c.latched + [bits]
    ensures Run(c, w, InstructionOps(w, bits)).load
  {
    InstructionLatchesWord(c, w, bits);
  }

  lemma StreamCons(c: Chip, w: Wiring, words: seq<bv16>)
    requires words != []
    ensures Run(c, w, StreamOps(w, words))
         == Run(Run(c, w, InstructionOps(w, words[0])), w, StreamOps(w, words[1..]))
  {
    RunAppend(c, w, InstructionOps(w, words[0]), StreamOps(w, words[1..]));
  }

  /** From an idle chip (LOAD high), a stream of instructions latches
      exactly its words, in order, and leaves the chip idle. */
  lemma {:induction false} StreamLatchesWords(c: Chip, w: Wiring, words: seq<bv16>)
    requires Distinct(w) && c.load
    ensures Run(c, w, StreamOps(w, words)).latched == c.latched + words
    ensures Run(c, w, StreamOps(w, words)).load
    decreases |words|
  {
    if words == [] {
      assert c.latched + words == c.latched;
    } else {
      var c1 := Run(c, w, InstructionOps(w, words[0]));
      StreamCons(c, w, words);
      IdleInstructionLatchesWord(c, w, words[0]);
      StreamLatchesWords(c1, w, words[1..]);
      assert c.latched + [words[0]] + words[1..] == c.latched + words;
    }
  }
}
