# MAX7219 seven-segment driver, modelled in Dafny

The system drives an 8-digit seven-segment display through a MAX7219 chip on a
Raspberry Pi. It has two parts:

- **A user-space driver** (`display.c`, `circular_buffer.c`, `max7219_types.h`).
  It reads a line of text and compiles it into glyph bytes in a 128-slot output
  buffer. A refresh task then scrolls that buffer across the eight digits. Each
  register write is packed into a 16-bit MAX7219 instruction, register in the
  high byte.
- **A kernel module** (`gpio_bitbang/gpio.c`, `gpio_bitbang/main.c`). It exposes
  a character device. Each 2-byte write to the device is reassembled into one
  instruction, which is bit-banged MSB first on three GPIO lines: LOAD on
  GPIO 27, CLK on GPIO 22 and DIN on GPIO 17.

The model has one module per source file, plus two shared modules:

| module | file | models |
|---|---|---|
| `Max7219` | `max7219_types.dfy` | the register, glyph, intensity and scan-limit tables |
| `Circular` | `circular_buffer.dfy` | the output buffer as a class, with its read cursor as an index; `Init` and `Advance` |
| `Bitbang` | `bitbang.dfy` | the pin-call sequence of one instruction; a model of the chip's serial input (shift on CLK rise, latch on LOAD rise) that gives that sequence its meaning |
| `Gpio` | `gpio.dfy` | the GPIO layer as a class over a register map `map<int, bv32>`, plus the ordered log of every access |
| `GpioDevice` | `gpio_device.dfy` | the character-device write handler |
| `Encoder` | `encoder.dfy` | the message compiler as a pure state machine, and an independent reference layout `Render` |
| `Display` | `display.dfy` | the driver context as a class; every register write is recorded as a `Frame` in `sent` |
| `EndToEnd` | `end_to_end.dfy` | the composition: a driver frame, through the device, to the word the chip latches |

The C code's read pointers become integer indices into `data`. Bytes are `bv8`,
unsigned as on the ARM target. Instructions are `bv16` and registers `bv32`.
Threads, sleeps, file descriptors and hardware access become recorded traces
(`sent`, `log`) and flags (`refreshRunning`, `transportOpen`).

## Model

| member | source | states |
|---|---|---|
| Max7219.DigitRegister | max7219_types.h:19-26 | digit k's register is k + 1 (DIGIT_0 rightmost) and is neither NO_OP nor a control register |
| Max7219.ControlRegistersDistinct | max7219_types.h:16-33 | the five control registers differ from NO_OP, from every digit register and from each other |
| Max7219.SegmentGlyphsBelowDot | max7219_types.h:39-90 | every glyph except DOT/COMMA is below 0x80; DOT == COMMA == 0x80 |
| Max7219.DotSetsOnlyDecimalPoint | max7219_types.h:39-90 | OR-ing CHAR_DOT into a glyph below 0x80 sets only bit 7; masking with 0x7F gives the glyph back |
| Max7219.GlyphCollisions | max7219_types.h:39-90 | the nine pairs of characters that share a segment pattern (8/B, 0/O, 1/I, 5/S, 9/g, 4/Y, empty/space, dot/comma, minus/hyphen) |
| Max7219.Intensity | max7219_types.h:99-114 | the setting for duty cycle k/32 (k odd) is (k-1)/2, at most 0x0F |
| Max7219.IntensitiesCoverNibble | max7219_types.h:99-114 | the sixteen intensity settings are exactly 0x00..0x0F, in order |
| Max7219.ScanLimit | max7219_types.h:123-130 | SCAN_LIMIT_k == k for k in 0..7 |
| Circular.AdvanceIndex | circular_buffer.c:16-37 | an index reachable from slot 0 stays reachable after one step |
| Circular.AdvanceTimes | circular_buffer.c:16-37 | reachability is kept for any number of steps |
| Circular.AdvanceWithinPrefix | circular_buffer.c:26-34 | inside a non-empty prefix, a step is (i+1) mod len: the last slot goes to 0, the rest to i+1, and with len 1 slot 0 is a fixed point |
| Circular.AdvanceOutsideIsIdentity | circular_buffer.c:19-23 | an index below 0 or above len is returned unchanged |
| Circular.AdvanceAtLength | circular_buffer.c:19-34 | the `>` guard admits idx == len, which steps to len + 1; with len 0, slot 0 goes to 1 and stays there for any number of steps |
| Circular.AdvanceTimesStuckAtOne | circular_buffer.c:19-34 | with len 0, k ≥ 1 steps from slot 0 end on slot 1 |
| Circular.AdvanceTimesIsModular | circular_buffer.c:26-34 | k steps from i in [0, len) land on (i + k) mod len |
| Circular.CircularBuffer.constructor | circular_buffer.c:5-14 | a buffer in the state circular_buffer_init leaves it: all 128 slots zero, len 0, cursor on slot 0 |
| Circular.CircularBuffer.Init | circular_buffer.c:5-14 | after init all 128 slots are 0, len is 0 and the cursor is slot 0 |
| Circular.CircularBuffer.Advance | circular_buffer.c:16-37 | returns the next cursor position (AdvanceIndex); (i+1) mod len inside the prefix; unchanged outside [0, len]; data and len untouched |
| Bitbang.BitFrame | gpio_bitbang/gpio.c:186-201 | the three calls of one bit: CLK low first and CLK high last, so DIN only changes while CLK is low |
| Bitbang.BitOps | gpio_bitbang/gpio.c:180-203 | bits 15 down to i take 3 calls each |
| Bitbang.InstructionOps | gpio_bitbang/gpio.c:177-209 | an instruction is 51 pin calls: LOAD high first, then LOAD low and LOAD high last |
| Bitbang.StreamOps | gpio_bitbang/gpio.c:173-210 | n instructions are 51·n calls |
| Bitbang.RunAppend | gpio_bitbang/gpio.c:173-210 | running two call sequences in turn is running their concatenation |
| Bitbang.BitFrameShifts | gpio_bitbang/gpio.c:186-201 | one bit's calls shift that bit into the chip's register on the CLK rise and latch nothing |
| Bitbang.BitOpsShift | gpio_bitbang/gpio.c:180-203 | the loop from bit 15 down to i shifts in exactly those bits, MSB first, and leaves LOAD and the latched words alone |
| Bitbang.FeedWholeWord | gpio_bitbang/gpio.c:180-203 | sixteen shifts, MSB first, replace the register by the word: reading DIN at each CLK rise rebuilds the word |
| Bitbang.InstructionLatchesWord | gpio_bitbang/gpio.c:173-210 | from any chip state, one instruction makes the chip latch exactly the word, with LOAD and CLK left high |
| Bitbang.IdleInstructionLatchesWord | gpio_bitbang/gpio.c:173-210 | from an idle chip (LOAD high), one instruction latches the word and nothing else, and leaves the chip idle |
| Bitbang.StreamLatchesWords | gpio_bitbang/gpio.c:173-210 | from an idle chip, a sequence of instructions latches exactly its words, in order |
| Gpio.CheckPin | gpio_bitbang/gpio.c:40-47 | the check returns 0 exactly for pins 2..27, otherwise 1; an accepted pin has a table entry and a bit in the 32-bit registers |
| Gpio.GpfselOffsets | gpio_bitbang/gpio.c:54-89 | for pin p in 0..27 the table gives register 4·(p/10) and shift 3·(p mod 10) |
| Gpio.FieldsDisjoint | gpio_bitbang/gpio.c:54-83 | two different pins never share a function field |
| Gpio.PinMask | gpio_bitbang/gpio.c:153 | the mask 1 << pin is non-zero for pins below 32 |
| Gpio.PinMaskInjective | gpio_bitbang/gpio.c:153-161 | different pins have different set/clear masks |
| Gpio.Field | gpio_bitbang/gpio.c:104-110 | a 3-bit field is below 8 |
| Gpio.PinmuxSetsField | gpio_bitbang/gpio.c:106-110 | with fun < 8, the read-modify-write puts fun into bits [shift, shift+3) |
| Gpio.PinmuxKeepsOtherFields | gpio_bitbang/gpio.c:106-110 | with fun < 8, every other pin's 3-bit field of the register is unchanged |
| Gpio.PinmuxKeepsOtherBits | gpio_bitbang/gpio.c:106-110 | with fun < 8, every bit outside the pin's field (bits 30-31 included) is unchanged |
| Gpio.PinmuxWideFunctionSpills | gpio_bitbang/gpio.c:110 | a function number in 8..63 is not masked: the pin's field keeps its low three bits and its high bits are or-ed into the next pin's field |
| Gpio.PinFunction | gpio_bitbang/gpio.c:92-114 | the function read back for a pin is a 3-bit value |
| Gpio.SteeringSelectsOnlyThatPin | gpio_bitbang/gpio.c:92-114 | steering selects fun for the pin and leaves every other pin's function unchanged |
| Gpio.Apply | gpio_bitbang/gpio.c:104-161 | replaying accesses never unmaps a register |
| Gpio.PinAccesses | gpio_bitbang/gpio.c:150-161 | a pin call makes one register write exactly when the pin is accepted, and none otherwise |
| Gpio.Strobes | gpio_bitbang/gpio.c:130-162 | a sequence of pin calls makes at most one write per call |
| Gpio.StrobesIdentifyCalls | gpio_bitbang/gpio.c:150-161 | for accepted pins, the register writes determine the pin calls that made them |
| Gpio.KernelWiringAccepted | gpio_bitbang/gpio.c:177-208 | the LOAD, CLK and DIN pins are distinct and pass the range check |
| Gpio.GpioRegisters.constructor | gpio_bitbang/gpio.c:22-28 | a freshly mapped window: every word present, empty log |
| Gpio.GpioRegisters.IoRead | gpio_bitbang/gpio.c:104 | a read returns the word, changes nothing and is logged |
| Gpio.GpioRegisters.IoWrite | gpio_bitbang/gpio.c:113 | a write stores exactly that word and is logged |
| Gpio.GpioRegisters.SteerPinmux | gpio_bitbang/gpio.c:92-114 | a rejected pin touches nothing; otherwise one read and one write of the pin's GPFSEL register, and the registers become Steered |
| Gpio.GpioRegisters.Set | gpio_bitbang/gpio.c:130-155 | an accepted pin writes exactly 1 << pin to GPSET0 (0x1C) with no read first; a rejected pin writes nothing |
| Gpio.GpioRegisters.Clear | gpio_bitbang/gpio.c:157-162 | an accepted pin writes exactly 1 << pin to GPCLR0 (0x28) with no read first; a rejected pin writes nothing |
| Gpio.GpioRegisters.ReadPin | gpio_bitbang/gpio.c:164-171 | an accepted pin returns bit `pin` of GPLEV0 (0x34) after one read; a rejected pin returns 0xFF with no access |
| Gpio.GpioRegisters.ClockOutBit | gpio_bitbang/gpio.c:183-202 | one loop pass logs the writes of that bit's three pin calls |
| Gpio.GpioRegisters.SpiInstruction | gpio_bitbang/gpio.c:173-210 | the instruction logs exactly the writes of the protocol's 51 pin calls, in order, and the registers are those writes applied |
| GpioDevice.Reassemble | gpio_bitbang/main.c:52 | byte 1 becomes the high byte and byte 0 the low byte, both recoverable from the word |
| GpioDevice.HandlerAsWritten | gpio_bitbang/main.c:35-64 | the handler as written: it sends and returns 2 exactly for an unfaulted 2-byte write; it stores all len bytes before checking len; any other unfaulted length returns -1; a fault returns -EFAULT and stores nothing |
| GpioDevice.AsWrittenOverflowsOnLongWrite | gpio_bitbang/main.c:39-45 | an 11-byte write stores more than the 10-byte buffer holds and returns -1 |
| GpioDevice.AsWrittenOverflowsExactlyOnLongWrites | gpio_bitbang/main.c:12-45 | the handler as written overflows the buffer exactly on unfaulted writes longer than 10 bytes |
| GpioDevice.BitbangDevice.constructor | gpio_bitbang/main.c:12-16 | a zeroed 10-byte buffer over a valid register window |
| GpioDevice.BitbangDevice.Write | gpio_bitbang/main.c:35-64 | a 2-byte write clocks out buf[1]·256 + buf[0] and returns 2; any other length returns -1 and a fault -EFAULT, both with no register access; the buffer holds the bytes, zero-padded |
| Encoder.GlyphOf | display.c:235-296 | every listed glyph is below 0x80, and "." and "," have no entry of their own |
| Encoder.DigitsAreTellable | display.c:237-246 | the ten digits are all listed, with ten different patterns |
| Encoder.SlotByte | display.c:235-296 | the byte a character writes is below 0x80, and CHAR_EMPTY for an unlisted character |
| Encoder.ParseStatus | display.c:223-298 | parseChar returns -1 exactly for a non-dot character outside the table, else 0 |
| Encoder.ParseStepAsWritten | display.c:206-299 | the step as written: dot flag == character is a dot; the next free slot moves by at most one; len == index + 1 is kept once a slot is written; a leading dot leaves len == index |
| Encoder.ParseStep | display.c:206-299 | the corrected step: same slots and bytes, but len == index + 1 after every character, and the slots past the next one stay blank |
| Encoder.ParseLine | display.c:386-389 | parsing a text keeps len == index + 1 and advances the next free slot by at most one per character |
| Encoder.ParseLineAsWritten | display.c:386-389 | parsing with the step as written keeps the state well formed |
| Encoder.AgreeUpToLen | display.c:206-299 | the step as written and the corrected step write the same slots, index and dot flag; the lengths differ only by the one slot a leading dot leaves uncounted |
| Encoder.ParseMessageAsWritten | display.c:383-389 | the parse as written puts Render(text) in slots 0.. with zeros after it and the index on its last slot; len is \|Render(text)\| except for a text starting with a dot, where it is one less |
| Encoder.ParseLineSnoc | display.c:386-389 | parsing one more character is one more step |
| Encoder.LeadingDotLosesLastSlot | display.c:214-221 | as written, a text starting with a dot ends with len == index, one slot short |
| Encoder.LeadingDotExample | display.c:214-232 | as written, ".12" gives len 2 with slots [0x80, 0x30, 0x6D]; corrected, len 3 |
| Encoder.Render | display.c:206-299 | the reference layout of a text has at most one slot more than characters, and at least one for non-empty text |
| Encoder.AfterDot | display.c:208-223 | the slots after a dot: at least one, since the dot opens a slot |
| Encoder.ParseAtBoundary | display.c:383-389 | from a slot boundary, parsing writes exactly Render(text) after the index and ends on its last slot |
| Encoder.ParseMessage | display.c:383-389 | from the reset state, a text under 128 characters yields len == \|Render(text)\| == index + 1, data[..len] == Render(text), all later slots 0, and the dot flag set exactly when the text ends in a dot |
| Encoder.DottedDigitsExample | display.c:214-237 | "1.2.3" renders as [0xB0, 0xED, 0x79], "1." as [0xB0, 0x00] and "1..5" as [0xB0, 0x80, 0x5B] |
| Display.Pack | display.c:97 | the register is the high byte of the instruction and the value the low byte |
| Display.PackRoundTrip | display.c:97 | unpacking a packed frame gives it back, and packing an unpacked word gives the word back |
| Display.Payload | display.c:97-99 | the two bytes written to the device are [val, reg], low byte first |
| Display.InitFramesConfigureChip | display.c:183-187 | init sends, in order, (SCAN_LIMIT, 7), (DECODE_MODE, off), (DISPLAY_TEST, off), (INTENSITY, 31/32), (SHUTDOWN, on): each control register once and no digit |
| Display.ClearFramesBlankEveryDigit | display.c:413-424 | clear writes 0x00 to DIGIT_0..DIGIT_7 in ascending order |
| Display.TestFramesSpellDigits | display.c:401-411 | printTest shows "1.2.3.4.5.6.7.8." from the leftmost digit |
| Display.Shown | display.c:306-329 | the first k frames of a refresh are k frames long |
| Display.CycleFrames | display.c:306-329 | a refresh is eight frames |
| Display.ShownAt | display.c:306-329 | frame i of a refresh from cursor c goes to DIGIT_(7-i) with data[(c+i) mod len] |
| Display.CycleShowsWindow | display.c:306-329 | for len ≥ 1 and c in [0, len), the refresh writes data[(c+i) mod len] to DIGIT_(7-i) for i = 0..7 |
| Display.CyclesScrollLeft | display.c:306-332 | after the cursor moves, digit 6-i shows what digit 7-i showed: the message scrolls left by one digit |
| Display.ThreeSlotExample | display.c:306-332 | [X,Y,Z] read from slot 0 fills the digits with X,Y,Z,X,Y,Z,X,Y |
| Display.UnassignedStatusReturnsEarly | display.c:32-40 | the macro returns the status exactly when it is not 1, so the status 0 on the kernel path returns 0 at once |
| Display.CStrLen | display.c:368-369 | a C string's length: the characters before the first NUL |
| Display.Stripped | display.c:369 | the text is the line without its last character, and holds no NUL |
| Display.BitbangWrite | display.c:101-138 | the bcm bit-bang variant issues exactly the protocol's pin calls for reg·256 + val, so an idle chip on those pins latches that word and nothing else |
| Display.Display.constructor | display.c:52-85 | the static context: encoder reset (index -1, no dot), nothing sent, firstTime set, refresh thread not running; the buffer's cursor is placed on slot 0 (see Left out) |
| Display.Display.SpiWrite | display.c:88-141 | one register write is recorded as its frame |
| Display.Display.InitAsWritten | display.c:143-193 | as written on the kernel path: once the device opens, init returns 0 without sending a frame or initialising anything; an unopenable device returns 4 |
| Display.Display.Init | display.c:143-193 | corrected: an open device gets the five config frames, the buffer is initialised, the state becomes Initialized and 0 is returned; otherwise 4 and nothing changes |
| Display.Display.Clear | display.c:413-424 | clear appends CLEAR_FRAMES to what was sent |
| Display.Display.PrintTest | display.c:401-411 | printTest appends TEST_FRAMES to what was sent |
| Display.Display.ParseChar | display.c:206-299 | one character changes the context exactly as ParseStep (with the leading dot counted) and returns ParseStatus |
| Display.Display.ShowNext | display.c:310-329 | one runner step: the runner is advanced once more and the next frame of the refresh is sent |
| Display.Display.ShowWindow | display.c:306-329 | the eight digit writes of a refresh are CycleFrames from the cursor |
| Display.Display.RefreshCycle | display.c:306-332 | one pass sends CycleFrames from the old cursor, then moves the cursor by one step of Advance |
| Display.Display.StartRefresh | display.c:340-355 | the refresh task is running and has been started once more |
| Display.Display.Destroy | display.c:195-204 | the refresh thread is stopped, the digits cleared and the device closed |
| Display.Display.LoadMessage | display.c:383-389 | after the reset and the parse loop, the context is ParseLine(RESET, text) with the cursor on slot 0 |
| Display.Display.Advertisement | display.c:357-399 | "exit" destroys and returns -150; any other text clears the digits, compiles Render(text) into the buffer from slot 0 with zeros after it, starts the refresh task only the first time, clears firstTime and returns 0; "exit" leaves the buffer, cursor and encoder state alone |
| EndToEnd.PayloadReassembles | gpio_bitbang/main.c:52 | the device reassembles the driver's [val, reg] bytes into exactly the packed instruction, which unpacks to the frame |
| EndToEnd.SendFrame | gpio_bitbang/main.c:49-54 | a driver frame written to the device is accepted with return 2 and clocked out as exactly its packed instruction |
| EndToEnd.Packed | display.c:97 | the instruction words of a frame list, one per frame, each unpacking to its frame |
| EndToEnd.FramesReachChip | gpio_bitbang/gpio.c:173-210 | an idle chip fed the instructions of a frame list latches one word per frame, in order, each read back as its frame, and is idle afterwards |

## Left out

- Threads: pthread_create/detach/cancel and the refresh `while (1)` loop (display.c:301-355). One pass is `RefreshCycle`. Starting and stopping the refresh thread are the flags `refreshRunning` and `refreshStarts`. The unsynchronised sharing between a new message and the running refresh is not modelled.
- Timing: usleep, usleep_range and delay. Only the order of calls is kept.
- Input: the zeroing of the input buffer, fflush and the fgets read (display.c:360-368). The line read is the parameter `line` of `Advertisement`.
- Display.Display.Advertisement: requires a non-empty line. An empty read makes `strlen - 1` index before the buffer (display.c:369), which C leaves undefined.
- Output: printf and printk text are not modelled.
- The bcm2835 SPI path (display.c:90-94, 148-158) and the bcm2835 library calls bcm2835_init, bcm2835_gpio_fsel, bcm2835_gpio_set and bcm2835_gpio_clr. `BitbangWrite` returns the pin calls of the bcm bit-bang variant as a list.
- bcm_bitbang.h is not part of this model. The pins of the bcm bit-bang variant are a parameter of `BitbangWrite`.
- gpio.h is not part of this model. The kernel pins LOAD 27, CLK 22 and DIN 17 come from the wiring comment in display.h:17-21.
- Platform details of display.c:97-99 and gpio_bitbang/main.c:52. `char` is taken as unsigned, as on the ARM target, both for the display's frames and for the driver's `data_buffer` that `Reassemble` reads. The host is taken as little-endian, so `Payload` is [val, reg].
- The write syscall's own return value in display.c:99 is not modelled; `SendFrame` states what the device returns.
- ioremap/iounmap (gpio.c:22-34): the window is the register map given to the constructor.
- ioread32/iowrite32 are replaced by the map and the access log.
- Module init/exit, register_chrdev, and the open, release and read handlers of gpio_bitbang/main.c.
- main.c (the user-space driver loop).
- The `#if 0` branch of gpio__set (gpio.c:131-147), and the GPSET1, GPCLR1, GPLEV1 and pull-up offsets, which no active code uses.
- copy_from_user is the flag `faulted`. A faulting copy is taken to store nothing.
- GpioDevice.BitbangDevice.Write: models the corrected handler, which refuses writes longer than 10 bytes with -1 before copying. A faulting long write therefore returns -1 where the code as written returns -EFAULT (after overflowing). `HandlerAsWritten` keeps the program's order.
- Display.Display.constructor: starts the buffer's cursor on slot 0, where the zero-filled C context holds a NULL `firstDisplayed` until the first `circular_buffer_init` (circular_buffer.c:13, display.c:190 and display.c:385); the only reader of the cursor is the refresh thread, which the program starts (display.c:394) right after the init at display.c:385.
- Display.Display.ParseChar: models the corrected step, in which a leading dot counts its slot. `ParseStepAsWritten` keeps the program's step.
- Display.Display.LoadMessage: runs the corrected `ParseChar`, so for a text starting with a dot its length is one more than the program's. `Encoder.ParseMessageAsWritten` gives the program's length.
- Display.Display.Advertisement: inherits the corrected leading-dot step through `LoadMessage`. For a text starting with a dot it ensures len == \|Render(text)\|, where the program leaves one less (`Encoder.ParseMessageAsWritten`).
- Each `char` of `line` stands for one byte of the C input buffer. A non-ASCII character is one slot in the model but several bytes, and so several slots, in the program.
- Display.Display.Init: models the status check skipped on the kernel path. `InitAsWritten` keeps the early return.
- Circular buffer `len` is a `uint8_t` in the C structure. The model's `len` is a `nat` bounded by 128 through `Fits`, so it never reaches 256.

## Findings

| source | as written | input that shows it | evidently intended | confidence | as-written member | corrected member |
|---|---|---|---|---|---|---|
| display.c:169 | on the kernel transport, `DISPLAY_FAIL_UNLESS_OK(status)` runs with `status` still 0 from its initialiser. The macro returns unless the status is 1, so display_init returns 0 before any config frame or buffer init | any run with the device file present | check only a status that was assigned, or treat an opened device as success; send the five config frames and init the buffer | high (not executed) | Display.Display.InitAsWritten, Display.UnassignedStatusReturnsEarly | Display.Display.Init |
| gpio_bitbang/main.c:41 | copy_from_user copies `len` bytes into the 10-byte `data_buffer` before the `len == 2` test | a write of 11 bytes | refuse a length the buffer cannot hold before copying | high (not executed) | GpioDevice.HandlerAsWritten, GpioDevice.AsWrittenOverflowsOnLongWrite, GpioDevice.AsWrittenOverflowsExactlyOnLongWrites | GpioDevice.BitbangDevice.Write |
| display.c:214-221 | a leading dot moves the index from -1 to 0 and then to 1, but `len` is incremented once, so len stays equal to the index and the last slot written is never shown | the text ".12": slots [0x80, 0x30, 0x6D], len 2, so "2" never appears | len == index + 1 after every character, as for all other inputs | medium (not executed) | Encoder.ParseStepAsWritten, Encoder.LeadingDotLosesLastSlot, Encoder.LeadingDotExample, Encoder.ParseMessageAsWritten | Encoder.ParseStep, Encoder.ParseMessage, Display.Display.ParseChar |
