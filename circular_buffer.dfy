/** The driver's "pseudo circular" output buffer: glyph bytes are written
    linearly from slot 0, and only reads wrap around the written prefix
    data[0..len). The C code's read pointers become indices into data. */
module Circular {

  const CIRC_BUFF_MAX_OUT_LEN := 128

  /** Contents of a freshly initialised buffer. */
  const CLEARED: seq<bv8> := seq(CIRC_BUFF_MAX_OUT_LEN, _ => 0)

  /** The indices a read cursor takes when it starts at slot 0 and only ever
      advances: the written prefix, or slots 0 and 1 while nothing is written. */
  predicate Reachable(len: nat, idx: int)
  {
    if len == 0 then 0 <= idx <= 1 else 0 <= idx < len
  }

  /** One step of a read cursor. An index below the array or past slot len is
      left alone; the last written slot steps back to slot 0; any other index
      steps forward. The range test admits idx == len, which then moves past
      the written prefix. */
  function AdvanceIndex(len: nat, idx: int): (next: int)
    ensures Reachable(len, idx) ==> Reachable(len, next)
  {
    if idx < 0 || idx > len then idx
    else if idx == len - 1 then 0
    else idx + 1
  }

  /** k steps of a read cursor. */
  function AdvanceTimes(len: nat, idx: int, k: nat): (r: int)
    ensures Reachable(len, idx) ==> Reachable(len, r)
  {
    if k == 0 then idx else AdvanceIndex(len, AdvanceTimes(len, idx, k - 1))
  }

  /** Inside a non-empty prefix, advancing is successor modulo len; with a
      single written slot, slot 0 is a fixed point. */
  lemma AdvanceWithinPrefix(len: nat, idx: int)
    requires 0 <= idx < len
    ensures AdvanceIndex(len, idx) == (idx + 1) % len
    ensures idx < len - 1 ==> AdvanceIndex(len, idx) == idx + 1
    ensures idx == len - 1 ==> AdvanceIndex(len, idx) == 0
    ensures len == 1 ==> AdvanceIndex(len, idx) == 0
  {
  }

  /** An index outside [0, len] is returned unchanged. */
  lemma AdvanceOutsideIsIdentity(len: nat, idx: int)
    requires idx < 0 || idx > len
    ensures AdvanceIndex(len, idx) == idx
  {
  }

  /** The range test accepts idx == len, which then steps past the prefix.
      With nothing written, slot 0 moves to slot 1 and stays there. */
  lemma AdvanceAtLength(len: nat)
    ensures AdvanceIndex(len, len) == len + 1
    ensures AdvanceIndex(0, 0) == 1 && AdvanceIndex(0, 1) == 1
    ensures forall k: nat :: k >= 1 ==> AdvanceTimes(0, 0, k) == 1
  {
    forall k: nat | k >= 1 ensures AdvanceTimes(0, 0, k) == 1 {
      AdvanceTimesStuckAtOne(k);
    }
  }

  lemma {:induction false} AdvanceTimesStuckAtOne(k: nat)
    requires k >= 1
    ensures AdvanceTimes(0, 0, k) == 1
  {
    if k > 1 {
      AdvanceTimesStuckAtOne(k - 1);
    }
  }

  /** k steps from a written slot land on slot (idx + k) mod len. */
  lemma {:induction false} AdvanceTimesIsModular(len: nat, idx: int, k: nat)
    requires 0 <= idx < len
    ensures AdvanceTimes(len, idx, k) == (idx + k) % len
  {
    if k > 0 {
      AdvanceTimesIsModular(len, idx, k - 1);
      var prev := AdvanceTimes(len, idx, k - 1);
      AdvanceWithinPrefix(len, prev);
      ModSuccessor(idx + k - 1, len);
    }
  }

  lemma ModSuccessor(a: nat, n: nat)
    requires n > 0
    ensures (a % n + 1) % n == (a + 1) % n
  {
    var q, r := a / n, a % n;
    assert a == q * n + r;
    if r + 1 < n {
      ModOfDecomposition(a + 1, n, q, r + 1);
      ModOfDecomposition(r + 1, n, 0, r + 1);
    } else {
      assert a + 1 == (q + 1) * n + 0;
      ModOfDecomposition(a + 1, n, q + 1, 0);
      ModOfDecomposition(r + 1, n, 1, 0);
    }
  }

  /** Division with remainder is unique. */
  lemma ModOfDecomposition(x: int, n: int, q: int, r: int)
    requires n > 0 && 0 <= r < n && x == q * n + r
    ensures x % n == r
  {
    var q', r' := x / n, x % n;
    assert x == q' * n + r';
    assert (q - q') * n == r' - r;
    if q > q' {
      MulAtLeast(q - q', n);
    } else if q < q' {
      MulAtLeast(q' - q, n);
    }
  }

  lemma MulAtLeast(d: int, n: int)
    requires n > 0 && d >= 1
    ensures d * n >= n
  {
  }

  class CircularBuffer {
    /** Encoded glyphs. */
    const data: array<bv8>
    /** Number of written slots. */
    var len: nat
    /** Slot shown on the leftmost digit. */
    var firstDisplayed: int

    ghost predicate Valid()
      reads this
    {
      data.Length == CIRC_BUFF_MAX_OUT_LEN &&
      len <= CIRC_BUFF_MAX_OUT_LEN &&
      Reachable(len, firstDisplayed)
    }

    /** A buffer as circular_buffer_init leaves it: all slots zero, nothing written, cursor on slot 0. */
    constructor ()
      ensures Valid() && fresh(data)
      ensures data[..] == CLEARED && len == 0 && firstDisplayed == 0
    {
      data := new bv8[CIRC_BUFF_MAX_OUT_LEN](_ => 0);
      len := 0;
      firstDisplayed := 0;
    }

    /** Clears every slot, empties the buffer and puts the cursor on slot 0. */
    method Init()
      requires data.Length == CIRC_BUFF_MAX_OUT_LEN
      modifies this, data
      ensures Valid()
      ensures data[..] == CLEARED && len == 0 && firstDisplayed == 0
    {
      for i := 0 to CIRC_BUFF_MAX_OUT_LEN
        invariant forall j :: 0 <= j < i ==> data[j] == 0
      {
        data[i] := 0;
      }
      len := 0;
      firstDisplayed := 0;
    }

    /** The position after idx: the caller stores it back into the cursor
        it advanced. */
    method Advance(idx: int) returns (next: int)
      ensures next == AdvanceIndex(len, idx)
      ensures 0 <= idx < len ==> next == (idx + 1) % len
      ensures (idx < 0 || idx > len) ==> next == idx
    {
      if idx < 0 || idx > len {
        return idx;
      }
      if idx == len - 1 {
        return 0;
      }
      next := idx + 1;
    }
  }
}
