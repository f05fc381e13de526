/** The kernel module's character device: a write of exactly two bytes is
    one MAX7219 instruction, low byte first, clocked out on the GPIO pins. */
module GpioDevice {
  import opened Bitbang
  import opened Gpio

  const DATA_BUFF_LEN: nat := 10
  const EFAULT: int := 14

  /** The instruction word of a 2-byte write: byte 1 is the high byte and
      byte 0 the low byte, and both come back out of the word unchanged. */
  function Reassemble(lo: bv8, hi: bv8): (instr: bv16)
    ensures instr >> 8 == hi as bv16 && instr & 0xFF == lo as bv16
  {
    ((hi as bv16) << 8) | (lo as bv16)
  }

  /** What the write handler as written does with a write of len bytes:
      how many bytes it stores from the start of its 10-byte buffer, what
      it returns, and whether it sends an instruction. The copy from user
      space comes before the length test, so a long write is stored in full.
      A faulting copy is taken to store nothing. */
  datatype HandlerEffect = HandlerEffect(stored: nat, ret: int, sends: bool)

  function HandlerAsWritten(len: nat, faulted: bool): (e: HandlerEffect)
    ensures e.sends <==> !faulted && len == 2
    ensures e.ret == 2 <==> e.sends
    ensures !faulted ==> e.stored == len
    ensures faulted ==> e.ret == -EFAULT && e.stored == 0
    ensures !faulted && len != 2 ==> e.ret == -1
  {
    if faulted then HandlerEffect(0, -EFAULT, false)
    else if len == 2 then HandlerEffect(len, 2, true)
    else HandlerEffect(len, -1, false)
  }

  /** An 11-byte write is stored in full: one byte lands past the end of
      the 10-byte buffer, and the caller only sees the wrong-length error. */
  lemma AsWrittenOverflowsOnLongWrite()
    ensures HandlerAsWritten(11, false).stored > DATA_BUFF_LEN
    ensures HandlerAsWritten(11, false).ret == -1
  {
  }

  /** Every write longer than the buffer overflows it. */
  lemma AsWrittenOverflowsExactlyOnLongWrites(len: nat, faulted: bool)
    ensures HandlerAsWritten(len, faulted).stored > DATA_BUFF_LEN <==> !faulted && len > DATA_BUFF_LEN
  {
  }

  class BitbangDevice {
    /** Bytes of the last write. */
    const dataBuffer: array<bv8>
    /** The mapped GPIO registers the instruction is clocked out on. */
    const gpio: GpioRegisters

    ghost predicate Valid()
      reads this, gpio
    {
      dataBuffer.Length == DATA_BUFF_LEN && gpio.Valid()
    }

    constructor (g: GpioRegisters)
      requires g.Valid()
      ensures Valid() && gpio == g && fresh(dataBuffer)
      ensures dataBuffer[..] == seq(DATA_BUFF_LEN, _ => 0)
    {
      dataBuffer := new bv8[DATA_BUFF_LEN](_ => 0);
      gpio := g;
    }

    /** The write handler, with the length checked before the copy: a
        write longer than the buffer is refused without storing anything.
        For every length the buffer can hold it returns what the handler as
        written returns; a 2-byte write clocks out the instruction whose
        high byte is the second byte. faulted says whether copying from user
        space fails. */
    method Write(buf: seq<bv8>, faulted: bool) returns (ret: int)
      requires Valid()
      modifies dataBuffer, gpio
      ensures Valid() && gpio.boot == old(gpio.boot)
      ensures |buf| <= DATA_BUFF_LEN ==> ret == HandlerAsWritten(|buf|, faulted).ret
      ensures |buf| > DATA_BUFF_LEN ==> ret == -1
      ensures ret != 2 ==> gpio.log == old(gpio.log) && gpio.regs == old(gpio.regs)
      ensures ret == 2 ==>
        |buf| == 2 && !faulted &&
        gpio.log == old(gpio.log) + Strobes(InstructionOps(KERNEL_WIRING, Reassemble(buf[0], buf[1])))
      ensures |buf| <= DATA_BUFF_LEN && !faulted ==>
        dataBuffer[..] == buf + seq(DATA_BUFF_LEN - |buf|, _ => 0)
      ensures (|buf| > DATA_BUFF_LEN || faulted) ==> dataBuffer[..] == seq(DATA_BUFF_LEN, _ => 0)
    {
      forall k | 0 <= k < DATA_BUFF_LEN {
        dataBuffer[k] := 0;
      }
      if |buf| > DATA_BUFF_LEN || faulted {
        ret := if faulted && |buf| <= DATA_BUFF_LEN then -EFAULT else -1;
        return;
      }
      forall k | 0 <= k < |buf| {
        dataBuffer[k] := buf[k];
      }
      if |buf| == 2 {
        var instr := Reassemble(dataBuffer[0], dataBuffer[1]);
        gpio.SpiInstruction(instr);
        ret := 2;
      } else {
        ret := -1;
      }
    }
  }
}
