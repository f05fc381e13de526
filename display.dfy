/** The user-space display driver: it packs register writes into 16-bit
    MAX7219 instructions, configures and clears the chip, compiles a message
    into the output buffer and refreshes the eight digits from it. Every
    register write is recorded, in order, as the frame it sends. */
module Display {
  import opened Max7219
  import opened Circular
  import opened Encoder
  import opened Bitbang

  const DISPLAY_EXIT_CODE: int := 150
  const DISPLAY_MAX_STR_LEN: nat := 128
  const DISPLAY_INSTR_LEN: nat := 2
  const EXIT_COMMAND: string := "exit"

  /** One register write: a register address and the byte written to it. */
  datatype Frame = Frame(reg: bv8, val: bv8)

  /** The 16-bit instruction of a frame. */
  function Pack(f: Frame): (w: bv16)
    ensures w >> 8 == f.reg as bv16 && w & 0xFF == f.val as bv16
  {
    ((f.reg as bv16) << 8) | (f.val as bv16)
  }

  /** How the chip reads an instruction: the high byte addresses a register,
      the low byte is its new value. */
  function Unpack(w: bv16): Frame
  {
    Frame((w >> 8) as bv8, (w & 0xFF) as bv8)
  }

  /** The chip reads back exactly the frame that was packed, and every
      instruction is the packing of the frame it is read as. */
  lemma PackRoundTrip(f: Frame, w: bv16)
    ensures Unpack(Pack(f)) == f
    ensures Pack(Unpack(w)) == w
  {
  }

  /** The two bytes handed to the transport: the instruction as it lies in
      memory on a little-endian host, low byte first. */
  function Payload(f: Frame): (bytes: seq<bv8>)
    ensures |bytes| == DISPLAY_INSTR_LEN
    ensures bytes == [f.val, f.reg]
  {
    var w := Pack(f);
    [(w & 0xFF) as bv8, (w >> 8) as bv8]
  }

  // -------------------------------------------------------- fixed sequences

  /** The configuration display_init sends. */
  const INIT_FRAMES: seq<Frame> := [
    Frame(REG_SCAN_LIMIT, SCAN_LIMIT_7),
    Frame(REG_DECODE_MODE, DECODE_OFF),
    Frame(REG_DISPLAY_TEST, TEST_MODE_OFF),
    Frame(REG_INTENSITY, INTENSITY_31_32),
    Frame(REG_SHUTDOWN, SHUTDOWN_5V)]

  /** The configuration writes each control register once and no digit:
      all eight digits scanned, segment bytes taken raw (as the glyph table
      needs), test mode off, the brightest of the sixteen duty cycles, and
      the chip switched from shutdown to normal operation last. */
  lemma InitFramesConfigureChip()
    ensures |INIT_FRAMES| == |CONTROL_REGISTERS| == 5
    ensures forall i :: 0 <= i < 5 ==> INIT_FRAMES[i].reg in CONTROL_REGISTERS
    ensures forall i, j :: 0 <= i < j < 5 ==> INIT_FRAMES[i].reg != INIT_FRAMES[j].reg
    ensures INIT_FRAMES[0] == Frame(REG_SCAN_LIMIT, ScanLimit(7))
    ensures INIT_FRAMES[1] == Frame(REG_DECODE_MODE, DECODE_OFF)
    ensures INIT_FRAMES[2] == Frame(REG_DISPLAY_TEST, TEST_MODE_OFF)
    ensures INIT_FRAMES[3] == Frame(REG_INTENSITY, Intensity(31))
    ensures INIT_FRAMES[4] == Frame(REG_SHUTDOWN, SHUTDOWN_5V)
  {
  }

  /** The writes display_clear sends. */
  const CLEAR_FRAMES: seq<Frame> := [
    Frame(REG_DIGIT_0, CHAR_EMPTY), Frame(REG_DIGIT_1, CHAR_EMPTY),
    Frame(REG_DIGIT_2, CHAR_EMPTY), Frame(REG_DIGIT_3, CHAR_EMPTY),
    Frame(REG_DIGIT_4, CHAR_EMPTY), Frame(REG_DIGIT_5, CHAR_EMPTY),
    Frame(REG_DIGIT_6, CHAR_EMPTY), Frame(REG_DIGIT_7, CHAR_EMPTY)]

  /** Clearing blanks every digit once, rightmost first. */
  lemma ClearFramesBlankEveryDigit()
    ensures |CLEAR_FRAMES| == 8
    ensures forall k :: 0 <= k < 8 ==> CLEAR_FRAMES[k] == Frame(DigitRegister(k), CHAR_EMPTY)
  {
  }

  /** The writes display_printTest sends. */
  const TEST_FRAMES: seq<Frame> := [
    Frame(REG_DIGIT_7, CHAR_ONE | CHAR_DOT), Frame(REG_DIGIT_6, CHAR_TWO | CHAR_DOT),
    Frame(REG_DIGIT_5, CHAR_THREE | CHAR_DOT), Frame(REG_DIGIT_4, CHAR_FOUR | CHAR_DOT),
    Frame(REG_DIGIT_3, CHAR_FIVE | CHAR_DOT), Frame(REG_DIGIT_2, CHAR_SIX | CHAR_DOT),
    Frame(REG_DIGIT_1, CHAR_SEVEN | CHAR_DOT), Frame(REG_DIGIT_0, CHAR_EIGHT | CHAR_DOT)]

  /** The test pattern reads "1.2.3.4.5.6.7.8." from the leftmost digit:
      digit 7 - i shows the digit i + 1 of the encoder's table with its
      decimal point lit. */
  lemma TestFramesSpellDigits()
    ensures |TEST_FRAMES| == 8
    ensures forall i :: 0 <= i < 8 ==>
      TEST_FRAMES[i] == Frame(DigitRegister(7 - i), SlotByte(DIGITS[i + 1]) | CHAR_DOT)
  {
  }

  // ------------------------------------------------------ the refresh cycle

  /** The first k frames of a refresh from the cursor: digit 7 - j shows
      the slot the cursor reaches after j steps. */
  function Shown(data: seq<bv8>, len: nat, cursor: int, k: nat): (frames: seq<Frame>)
    requires |data| == CIRC_BUFF_MAX_OUT_LEN && len <= CIRC_BUFF_MAX_OUT_LEN
    requires Reachable(len, cursor) && k <= 8
    ensures |frames| == k
    decreases k
  {
    if k == 0 then []
    else Shown(data, len, cursor, k - 1) + [Frame(DigitRegister(8 - k), data[AdvanceTimes(len, cursor, k - 1)])]
  }

  /** One refresh: the eight digits, leftmost first. */
  function CycleFrames(data: seq<bv8>, len: nat, cursor: int): (frames: seq<Frame>)
    requires |data| == CIRC_BUFF_MAX_OUT_LEN && len <= CIRC_BUFF_MAX_OUT_LEN && Reachable(len, cursor)
    ensures |frames| == 8
  {
    Shown(data, len, cursor, 8)
  }

  lemma {:induction false} ShownAt(data: seq<bv8>, len: nat, cursor: int, k: nat, i: nat)
    requires |data| == CIRC_BUFF_MAX_OUT_LEN && len <= CIRC_BUFF_MAX_OUT_LEN
    requires 0 <= cursor < len && i < k <= 8
    ensures Shown(data, len, cursor, k)[i] == Frame(DigitRegister(7 - i), data[(cursor + i) % len])
    decreases k
  {
    if i == k - 1 {
      AdvanceTimesIsModular(len, cursor, i);
    } else {
      ShownAt(data, len, cursor, k - 1, i);
    }
  }

  /** Reducing the left operand first does not change a sum modulo n. */
  lemma ModShift(a: nat, b: nat, n: nat)
    requires n > 0
    ensures (a % n + b) % n == (a + b) % n
  {
    var q := a / n;
    var r := a % n;
    assert a + b == q * n + (r + b);
    var q2 := (r + b) / n;
    var r2 := (r + b) % n;
    assert a + b == (q + q2) * n + r2;
    ModOfDecomposition(a + b, n, q + q2, r2);
  }

  /** A refresh from a cursor inside the written prefix shows, from the
      leftmost digit to the rightmost, the eight slots that follow the
      cursor around the prefix. */
  lemma CycleShowsWindow(data: seq<bv8>, len: nat, cursor: int)
    requires |data| == CIRC_BUFF_MAX_OUT_LEN && len <= CIRC_BUFF_MAX_OUT_LEN && 0 <= cursor < len
    ensures forall i :: 0 <= i < 8 ==>
      CycleFrames(data, len, cursor)[i] == Frame(DigitRegister(7 - i), data[(cursor + i) % len])
  {
    forall i | 0 <= i < 8
      ensures CycleFrames(data, len, cursor)[i] == Frame(DigitRegister(7 - i), data[(cursor + i) % len])
    {
      ShownAt(data, len, cursor, 8, i);
    }
  }

  /** Consecutive refreshes scroll the message by one digit to the left:
      what digit 6 - i shows next is what digit 7 - i showed before. */
  lemma CyclesScrollLeft(data: seq<bv8>, len: nat, cursor: int)
    requires |data| == CIRC_BUFF_MAX_OUT_LEN && len <= CIRC_BUFF_MAX_OUT_LEN && 0 <= cursor < len
    ensures forall i :: 0 <= i < 7 ==>
      CycleFrames(data, len, AdvanceIndex(len, cursor))[i].val == CycleFrames(data, len, cursor)[i + 1].val
  {
    forall i | 0 <= i < 7
      ensures CycleFrames(data, len, AdvanceIndex(len, cursor))[i].val == CycleFrames(data, len, cursor)[i + 1].val
    {
      ScrollStep(data, len, cursor, i);
    }
  }

  lemma ScrollStep(data: seq<bv8>, len: nat, cursor: int, i: nat)
    requires |data| == CIRC_BUFF_MAX_OUT_LEN && len <= CIRC_BUFF_MAX_OUT_LEN && 0 <= cursor < len && i < 7
    ensures CycleFrames(data, len, AdvanceIndex(len, cursor))[i].val == CycleFrames(data, len, cursor)[i + 1].val
  {
    var next := AdvanceIndex(len, cursor);
    AdvanceWithinPrefix(len, cursor);
    ShownAt(data, len, next, 8, i);
    ShownAt(data, len, cursor, 8, i + 1);
    ModShift(cursor + 1, i, len);
  }

  /** A three-slot message read from slot 0 fills the digits with
      X, Y, Z, X, Y, Z, X, Y. */
  lemma ThreeSlotExample(x: bv8, y: bv8, z: bv8)
    ensures var data := [x, y, z] + CLEARED[3..];
      |data| == CIRC_BUFF_MAX_OUT_LEN &&
      CycleFrames(data, 3, 0) == [
        Frame(REG_DIGIT_7, x), Frame(REG_DIGIT_6, y), Frame(REG_DIGIT_5, z), Frame(REG_DIGIT_4, x),
        Frame(REG_DIGIT_3, y), Frame(REG_DIGIT_2, z), Frame(REG_DIGIT_1, x), Frame(REG_DIGIT_0, y)]
  {
    var data := [x, y, z] + CLEARED[3..];
    CycleShowsWindow(data, 3, 0);
  }

  // --------------------------------------------------------- initialisation

  datatype Option<T> = None | Some(value: T)

  /** The error-handling macro of display_init: the function returns the
      status unless it is 1, the success value of the bcm2835 library. */
  function FailUnlessOk(status: int): (early: Option<int>)
  {
    if 1 != status then Some(status) else None
  }

  /** The kernel transport path never assigns the status, so the check on
      it returns 0 from display_init right after the device is opened. */
  lemma UnassignedStatusReturnsEarly()
    ensures FailUnlessOk(0) == Some(0)
    ensures forall status :: FailUnlessOk(status) == None <==> status == 1
  {
  }

  datatype DisplayState = Uninitialized | Initialized

  /** Length of the C string held in a character buffer: the characters
      before the first NUL. */
  function CStrLen(s: string): (n: nat)
    ensures n <= |s|
    ensures forall j :: 0 <= j < n ==> s[j] != '\0'
    ensures n < |s| ==> s[n] == '\0'
  {
    if s == [] || s[0] == '\0' then 0 else 1 + CStrLen(s[1..])
  }

  /** The text of an input line once its last character (the newline) is
      cut off. */
  function Stripped(line: string): (text: string)
    requires 0 < CStrLen(line)
    ensures |text| == CStrLen(line) - 1 && |text| < |line|
    ensures forall j :: 0 <= j < |text| ==> text[j] == line[j] && text[j] != '\0'
  {
    line[..CStrLen(line) - 1]
  }

  /** The bit-banged form of one register write used when the bcm2835
      library drives the pins: the same calls the kernel transport makes,
      on the given pins. An idle chip on those pins latches the frame's
      instruction and nothing else. */
  method BitbangWrite(w: Wiring, reg: bv8, val: bv8) returns (ops: seq<PinOp>)
    ensures ops == InstructionOps(w, Pack(Frame(reg, val)))
    ensures Distinct(w) ==> forall c: Chip :: c.load ==>
      Run(c, w, ops).latched == c.latched + [Pack(Frame(reg, val))] && Run(c, w, ops).load
  {
    var bits := Pack(Frame(reg, val));
    ops := [SetPin(w.load)];
    var i := 16;
    while i > 0
      invariant 0 <= i <= 16
      invariant ops == [SetPin(w.load)] + BitOps(w, bits, i)
    {
      ops := ops + [ClearPin(w.clk)];
      if BitSet(bits, i - 1) {
        ops := ops + [SetPin(w.din)];
      } else {
        ops := ops + [ClearPin(w.din)];
      }
      ops := ops + [SetPin(w.clk)];
      i := i - 1;
    }
    ops := ops + [ClearPin(w.load), SetPin(w.load)];
    if Distinct(w) {
      forall c: Chip | c.load
        ensures Run(c, w, ops).latched == c.latched + [bits] && Run(c, w, ops).load
      {
        IdleInstructionLatchesWord(c, w, bits);
      }
    }
  }

  class Display {
    /** Output buffer holding the compiled message. */
    const outBuff: CircularBuffer
    var state: DisplayState
    /** Slot the encoder last wrote; -1 before the first. */
    var outBuffIndex: int
    /** Whether the last character was a dot, which moved the encoder on
        to a fresh slot already. */
    var dotDisplayed: bool
    /** Whether no message has been shown yet. */
    var firstTime: bool
    /** Whether the kernel device is open. */
    var transportOpen: bool
    /** Whether the refresh task is running, and how often it was started. */
    var refreshRunning: bool
    var refreshStarts: nat
    /** Every register write so far, oldest first. */
    var sent: seq<Frame>

    ghost predicate Valid()
      reads this, outBuff
    {
      outBuff.data.Length == CIRC_BUFF_MAX_OUT_LEN &&
      refreshStarts == (if firstTime then 0 else 1)
    }

    /** The encoder's view of the context. */
    function Encoding(): EncoderState
      reads this, outBuff, outBuff.data
    {
      EncoderState(outBuffIndex, outBuff.len, dotDisplayed, outBuff.data[..])
    }

    /** The context before anything runs; the buffer's cursor starts on slot 0 (see README, Left out). */
    constructor ()
      ensures Valid() && fresh(outBuff) && fresh(outBuff.data)
      ensures state == Uninitialized && firstTime && sent == []
      ensures Encoding() == RESET && outBuff.firstDisplayed == 0
      ensures !transportOpen && !refreshRunning && refreshStarts == 0
    {
      outBuff := new CircularBuffer();
      state := Uninitialized;
      outBuffIndex := -1;
      dotDisplayed := false;
      firstTime := true;
      transportOpen := false;
      refreshRunning := false;
      refreshStarts := 0;
      sent := [];
    }

    /** One register write. */
    method SpiWrite(reg: bv8, val: bv8)
      modifies this`sent
      ensures sent == old(sent) + [Frame(reg, val)]
    {
      sent := sent + [Frame(reg, val)];
    }

    /** display_init as written, on the kernel transport: once the device
        is open the status check returns 0 at once, so the chip is never
        configured, the buffer is never initialised and the state stays
        as it was, although the caller is told that all went well.
        deviceOpens says whether the device file could be opened. */
    method InitAsWritten(deviceOpens: bool) returns (ret: int)
      modifies this`transportOpen
      ensures transportOpen == deviceOpens
      ensures ret == (if deviceOpens then 0 else 4)
      ensures sent == old(sent) && state == old(state)
    {
      transportOpen := deviceOpens;
      if !deviceOpens {
        return 4;
      }
      var status := 0;
      var early := FailUnlessOk(status);
      assert early == Some(0);
      ret := early.value;
    }

    /** display_init with the status check skipped on the kernel transport:
        the chip is configured, the buffer initialised and the display
        marked initialised. */
    method Init(deviceOpens: bool) returns (ret: int)
      requires Valid()
      modifies this`transportOpen, this`sent, this`state, outBuff, outBuff.data
      ensures Valid() && transportOpen == deviceOpens
      ensures !deviceOpens ==>
        ret == 4 && sent == old(sent) && state == old(state) &&
        outBuff.data[..] == old(outBuff.data[..]) && outBuff.len == old(outBuff.len) &&
        outBuff.firstDisplayed == old(outBuff.firstDisplayed)
      ensures deviceOpens ==>
        ret == 0 && sent == old(sent) + INIT_FRAMES && state == Initialized &&
        outBuff.data[..] == CLEARED && outBuff.len == 0 && outBuff.firstDisplayed == 0
    {
      transportOpen := deviceOpens;
      if !deviceOpens {
        return 4;
      }
      SpiWrite(REG_SCAN_LIMIT, SCAN_LIMIT_7);
      SpiWrite(REG_DECODE_MODE, DECODE_OFF);
      SpiWrite(REG_DISPLAY_TEST, TEST_MODE_OFF);
      SpiWrite(REG_INTENSITY, INTENSITY_31_32);
      SpiWrite(REG_SHUTDOWN, SHUTDOWN_5V);
      outBuff.Init();
      state := Initialized;
      ret := 0;
    }

    /** Blanks all eight digits. */
    method Clear()
      modifies this`sent
      ensures sent == old(sent) + CLEAR_FRAMES
    {
      SpiWrite(REG_DIGIT_0, CHAR_EMPTY);
      SpiWrite(REG_DIGIT_1, CHAR_EMPTY);
      SpiWrite(REG_DIGIT_2, CHAR_EMPTY);
      SpiWrite(REG_DIGIT_3, CHAR_EMPTY);
      SpiWrite(REG_DIGIT_4, CHAR_EMPTY);
      SpiWrite(REG_DIGIT_5, CHAR_EMPTY);
      SpiWrite(REG_DIGIT_6, CHAR_EMPTY);
      SpiWrite(REG_DIGIT_7, CHAR_EMPTY);
    }

    /** Shows "1.2.3.4.5.6.7.8.". */
    method PrintTest()
      modifies this`sent
      ensures sent == old(sent) + TEST_FRAMES
    {
      SpiWrite(REG_DIGIT_7, CHAR_ONE | CHAR_DOT);
      SpiWrite(REG_DIGIT_6, CHAR_TWO | CHAR_DOT);
      SpiWrite(REG_DIGIT_5, CHAR_THREE | CHAR_DOT);
      SpiWrite(REG_DIGIT_4, CHAR_FOUR | CHAR_DOT);
      SpiWrite(REG_DIGIT_3, CHAR_FIVE | CHAR_DOT);
      SpiWrite(REG_DIGIT_2, CHAR_SIX | CHAR_DOT);
      SpiWrite(REG_DIGIT_1, CHAR_SEVEN | CHAR_DOT);
      SpiWrite(REG_DIGIT_0, CHAR_EIGHT | CHAR_DOT);
    }

    /** Encodes one character into the output buffer, counting the slot a
        leading dot lights. */
    method ParseChar(c: char) returns (status: int)
      requires Valid() && Fits(Encoding(), 1)
      modifies this`outBuffIndex, this`dotDisplayed, outBuff`len, outBuff.data
      ensures Valid()
      ensures Encoding() == ParseStep(old(Encoding()), c)
      ensures status == ParseStatus(c)
    {
      if c == '.' || c == ',' {
        if outBuffIndex == -1 {
          outBuffIndex := 0;
          outBuff.len := outBuff.len + 1;
        }
        outBuff.data[outBuffIndex] := outBuff.data[outBuffIndex] | CHAR_DOT;
        outBuffIndex := outBuffIndex + 1;
        outBuff.len := outBuff.len + 1;
        dotDisplayed := true;
        return 0;
      }
      if !dotDisplayed {
        outBuffIndex := outBuffIndex + 1;
        outBuff.len := outBuff.len + 1;
      }
      dotDisplayed := false;
      match GlyphOf(c)
      case Known(g) =>
        outBuff.data[outBuffIndex] := g;
        status := 0;
      case Unlisted =>
        outBuff.data[outBuffIndex] := CHAR_EMPTY;
        status := -1;
    }

    /** One step of the refresh task's digit runner: advance it through
        the buffer and send the slot it lands on to the next digit. After
        the k-th step the frames sent since base are the first k + 1 frames
        of the refresh from cursor. */
    method ShowNext(reg: bv8, runner: int, ghost cursor: int, ghost k: nat, ghost base: seq<Frame>)
      returns (next: int)
      requires outBuff.Valid() && Reachable(outBuff.len, cursor) && 1 <= k < 8
      requires reg == DigitRegister(7 - k)
      requires runner == AdvanceTimes(outBuff.len, cursor, k - 1)
      requires sent == base + Shown(outBuff.data[..], outBuff.len, cursor, k)
      modifies this`sent
      ensures next == AdvanceTimes(outBuff.len, cursor, k)
      ensures sent == base + Shown(outBuff.data[..], outBuff.len, cursor, k + 1)
    {
      next := outBuff.Advance(runner);
      SpiWrite(reg, outBuff.data[next]);
    }

    /** The eight digit writes of one refresh pass: slots read circularly
        from the cursor go to digits 7 down to 0. */
    method ShowWindow()
      requires outBuff.Valid()
      modifies this`sent
      ensures sent == old(sent) + CycleFrames(outBuff.data[..], outBuff.len, outBuff.firstDisplayed)
    {
      var r0 := outBuff.firstDisplayed;
      SpiWrite(REG_DIGIT_7, outBuff.data[r0]);
      var r1 := ShowNext(REG_DIGIT_6, r0, r0, 1, old(sent));
      var r2 := ShowNext(REG_DIGIT_5, r1, r0, 2, old(sent));
      var r3 := ShowNext(REG_DIGIT_4, r2, r0, 3, old(sent));
      var r4 := ShowNext(REG_DIGIT_3, r3, r0, 4, old(sent));
      var r5 := ShowNext(REG_DIGIT_2, r4, r0, 5, old(sent));
      var r6 := ShowNext(REG_DIGIT_1, r5, r0, 6, old(sent));
      var r7 := ShowNext(REG_DIGIT_0, r6, r0, 7, old(sent));
    }

    /** One pass of the refresh task: eight slots, read circularly from the
        cursor, go to digits 7 down to 0, and the cursor moves on one slot. */
    method RefreshCycle()
      requires Valid() && outBuff.Valid()
      modifies this`sent, outBuff`firstDisplayed
      ensures Valid() && outBuff.Valid()
      ensures sent == old(sent) + CycleFrames(outBuff.data[..], outBuff.len, old(outBuff.firstDisplayed))
      ensures outBuff.firstDisplayed == AdvanceIndex(outBuff.len, old(outBuff.firstDisplayed))
    {
      ShowWindow();
      var next := outBuff.Advance(outBuff.firstDisplayed);
      outBuff.firstDisplayed := next;
    }

    /** Starts the refresh task. */
    method StartRefresh()
      modifies this`refreshRunning, this`refreshStarts
      ensures refreshRunning && refreshStarts == old(refreshStarts) + 1
    {
      refreshRunning := true;
      refreshStarts := refreshStarts + 1;
    }

    /** Stops the refresh task, blanks the digits and closes the device. */
    method Destroy()
      modifies this`refreshRunning, this`sent, this`transportOpen
      ensures !refreshRunning && !transportOpen
      ensures sent == old(sent) + CLEAR_FRAMES
    {
      refreshRunning := false;
      Clear();
      transportOpen := false;
    }

    /** Resets the encoder and the output buffer, then encodes text one
        character at a time. */
    method LoadMessage(text: string)
      requires Valid() && |text| < DISPLAY_MAX_STR_LEN
      modifies this`outBuffIndex, this`dotDisplayed, outBuff, outBuff.data
      ensures Valid() && outBuff.firstDisplayed == 0
      ensures Encoding() == ParseLine(RESET, text)
    {
      outBuffIndex := -1;
      dotDisplayed := false;
      outBuff.Init();
      for i := 0 to |text|
        modifies this`outBuffIndex, this`dotDisplayed, outBuff`len, outBuff.data
        invariant Valid() && outBuff.firstDisplayed == 0
        invariant Encoding() == ParseLine(RESET, text[..i])
      {
        ParseLineSnoc(RESET, text[..i], text[i]);
        assert text[..i + 1] == text[..i] + [text[i]];
        var _ := ParseChar(text[i]);
      }
      assert text[..|text|] == text;
    }

    /** Shows a new message. line is what the read of one input line left
        in the 128-byte input buffer; its last character is cut off. The
        exit command shuts the display down; any other text is compiled
        into the freshly initialised buffer, and the refresh task is
        started the first time only. */
    method Advertisement(line: string) returns (ret: int)
      requires Valid()
      requires 0 < CStrLen(line) && |line| < DISPLAY_MAX_STR_LEN
      modifies this`outBuffIndex, this`dotDisplayed, this`firstTime, this`sent,
        this`refreshRunning, this`refreshStarts, this`transportOpen, outBuff, outBuff.data
      ensures Valid()
      ensures Stripped(line) == EXIT_COMMAND ==>
        ret == -DISPLAY_EXIT_CODE && sent == old(sent) + CLEAR_FRAMES &&
        !refreshRunning && !transportOpen && firstTime == old(firstTime) &&
        Encoding() == old(Encoding()) && outBuff.firstDisplayed == old(outBuff.firstDisplayed)
      ensures Stripped(line) != EXIT_COMMAND ==>
        ret == 0 && sent == old(sent) + CLEAR_FRAMES &&
        Encoding() == ParseLine(RESET, Stripped(line)) &&
        outBuff.len == |Render(Stripped(line))| &&
        outBuff.data[..outBuff.len] == Render(Stripped(line)) &&
        (forall j :: outBuff.len <= j < CIRC_BUFF_MAX_OUT_LEN ==> outBuff.data[j] == 0) &&
        outBuff.firstDisplayed == 0 && outBuff.Valid() &&
        refreshRunning == (old(refreshRunning) || old(firstTime)) &&
        refreshStarts == old(refreshStarts) + (if old(firstTime) then 1 else 0) &&
        !firstTime && transportOpen == old(transportOpen)
    {
      var text := Stripped(line);
      if text == EXIT_COMMAND {
        Destroy();
        return -DISPLAY_EXIT_CODE;
      }
      Clear();
      LoadMessage(text);
      ParseMessage(text);
      if firstTime {
        StartRefresh();
      }
      firstTime := false;
      ret := 0;
    }
  }
}
