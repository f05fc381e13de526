/** The user-space driver on the kernel transport: display_spi_write hands
    each frame to the character device as a 2-byte write, the device clocks
    it out on the GPIO pins, and the chip latches the instruction. */
module EndToEnd {
  import opened Bitbang
  import opened Gpio
  import opened GpioDevice
  import Display

  /** The device puts the payload's two bytes back together into exactly
      the instruction the driver packed. */
  lemma PayloadReassembles(f: Display.Frame)
    ensures Reassemble(Display.Payload(f)[0], Display.Payload(f)[1]) == Display.Pack(f)
    ensures Display.Unpack(Reassemble(Display.Payload(f)[0], Display.Payload(f)[1])) == f
  {
    Display.PackRoundTrip(f, 0);
  }

  /** One frame on the kernel transport: the 2-byte write is accepted, and
      the device's register writes are exactly those of the frame's
      instruction. */
  method SendFrame(dev: BitbangDevice, f: Display.Frame) returns (ret: int)
    requires dev.Valid()
    modifies dev.dataBuffer, dev.gpio
    ensures dev.Valid()
    ensures ret == Display.DISPLAY_INSTR_LEN
    ensures dev.gpio.log == old(dev.gpio.log) + Strobes(InstructionOps(KERNEL_WIRING, Display.Pack(f)))
  {
    PayloadReassembles(f);
    ret := dev.Write(Display.Payload(f), false);
  }

  /** The instruction words of a list of frames, in order. */
  function Packed(frames: seq<Display.Frame>): (words: seq<bv16>)
    ensures |words| == |frames|
    ensures forall i :: 0 <= i < |frames| ==> Display.Unpack(words[i]) == frames[i]
  {
    if frames == [] then []
    else
      Display.PackRoundTrip(frames[0], 0);
      [Display.Pack(frames[0])] + Packed(frames[1..])
  }

  /** Sending a list of frames, one instruction after another, to an idle
      chip: the chip latches one instruction per frame, in order, each read
      back as its frame, and is idle again afterwards. */
  lemma FramesReachChip(c: Chip, frames: seq<Display.Frame>)
    requires c.load
    ensures var after := Run(c, KERNEL_WIRING, StreamOps(KERNEL_WIRING, Packed(frames)));
      after.load &&
      |after.latched| == |c.latched| + |frames| &&
      after.latched[..|c.latched|] == c.latched &&
      forall i :: 0 <= i < |frames| ==> Display.Unpack(after.latched[|c.latched| + i]) == frames[i]
  {
    KernelWiringAccepted();
    StreamLatchesWords(c, KERNEL_WIRING, Packed(frames));
  }
}
