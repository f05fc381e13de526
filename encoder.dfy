/** The display driver's message compiler: it turns the text typed by the
    user into glyph bytes in the output buffer. Every character takes a
    slot of its own, except '.' and ',', which light the decimal point of a
    slot instead. The state it works on is the write index (-1 before the
    first slot), the buffer length, the "a dot has just been shown" flag and
    the 128 data bytes. */
module Encoder {
  import opened Max7219
  import opened Circular

  predicate IsDot(c: char)
  {
    c == '.' || c == ','
  }

  predicate EndsInDot(text: string)
  {
    text != [] && IsDot(text[|text| - 1])
  }

  /** The segment pattern the encoder knows for a character, if any. */
  datatype Glyph = Known(segments: bv8) | Unlisted

  /** The character table of the encoder. Letters that a seven-segment
      digit can only show in one case share their pattern between cases;
      K, M, V, W, X and Z have no pattern. */
  function GlyphOf(c: char): (g: Glyph)
    ensures g.Known? ==> g.segments < CHAR_DOT
    ensures IsDot(c) ==> g == Unlisted
  {
    match c
    case '0' => Known(CHAR_ZERO)
    case '1' => Known(CHAR_ONE)
    case '2' => Known(CHAR_TWO)
    case '3' => Known(CHAR_THREE)
    case '4' => Known(CHAR_FOUR)
    case '5' => Known(CHAR_FIVE)
    case '6' => Known(CHAR_SIX)
    case '7' => Known(CHAR_SEVEN)
    case '8' => Known(CHAR_EIGHT)
    case '9' => Known(CHAR_NINE)
    case 'A' => Known(CHAR_A)
    case 'a' => Known(CHAR_A)
    case 'B' => Known(CHAR_B_UPPER)
    case 'b' => Known(CHAR_B_LOWER)
    case 'C' => Known(CHAR_C_UPPER)
    case 'c' => Known(CHAR_C_LOWER)
    case 'D' => Known(CHAR_D)
    case 'd' => Known(CHAR_D)
    case 'E' => Known(CHAR_E)
    case 'e' => Known(CHAR_E)
    case 'F' => Known(CHAR_F)
    case 'f' => Known(CHAR_F)
    case 'G' => Known(CHAR_G_UPPER)
    case 'g' => Known(CHAR_G_LOWER)
    case 'H' => Known(CHAR_H_UPPER)
    case 'h' => Known(CHAR_H_LOWER)
    case 'I' => Known(CHAR_I_UPPER)
    case 'i' => Known(CHAR_I_LOWER)
    case 'J' => Known(CHAR_J_UPPER)
    case 'j' => Known(CHAR_J_LOWER)
    case 'L' => Known(CHAR_L_UPPER)
    case 'l' => Known(CHAR_L_LOWER)
    case 'N' => Known(CHAR_N_UPPER)
    case 'n' => Known(CHAR_N_LOWER)
    case 'O' => Known(CHAR_O_UPPER)
    case 'o' => Known(CHAR_O_LOWER)
    case 'P' => Known(CHAR_P)
    case 'p' => Known(CHAR_P)
    case 'Q' => Known(CHAR_Q)
    case 'q' => Known(CHAR_Q)
    case 'R' => Known(CHAR_R)
    case 'r' => Known(CHAR_R)
    case 'S' => Known(CHAR_S)
    case 's' => Known(CHAR_S)
    case 'T' => Known(CHAR_T)
    case 't' => Known(CHAR_T)
    case 'U' => Known(CHAR_U_UPPER)
    case 'u' => Known(CHAR_U_LOWER)
    case 'Y' => Known(CHAR_Y)
    case 'y' => Known(CHAR_Y)
    case ' ' => Known(CHAR_SPACE)
    case '-' => Known(CHAR_MINUS)
    case '_' => Known(CHAR_LOW_LINE)
    case '\"' => Known(CHAR_QUOTATION_MARK)
    case '\'' => Known(CHAR_APOSTROPHE)
    case '=' => Known(CHAR_EQUAL_SIGN)
    case _ => Unlisted
  }

  const DIGITS: string := "0123456789"

  /** The ten digits are all in the table, with ten different patterns. */
  lemma DigitsAreTellable()
    ensures forall i :: 0 <= i < 10 ==> GlyphOf(DIGITS[i]).Known?
    ensures forall i, j :: 0 <= i < j < 10 ==> GlyphOf(DIGITS[i]) != GlyphOf(DIGITS[j])
  {
  }

  /** The byte a character that takes a slot writes into it: its pattern,
      or a blank slot for a character outside the table. */
  function SlotByte(c: char): (b: bv8)
    ensures b < CHAR_DOT
    ensures GlyphOf(c) == Unlisted ==> b == CHAR_EMPTY
  {
    match GlyphOf(c)
    case Known(g) => g
    case Unlisted => CHAR_EMPTY
  }

  /** The status the encoder returns for a character: -1 when it had to
      leave the slot blank, 0 otherwise. */
  function ParseStatus(c: char): (status: int)
    ensures status == 0 || status == -1
    ensures status == -1 <==> !IsDot(c) && GlyphOf(c) == Unlisted
  {
    if IsDot(c) then 0
    else match GlyphOf(c)
      case Known(_) => 0
      case Unlisted => -1
  }

  /** The encoder's part of the display context. */
  datatype EncoderState = EncoderState(index: int, len: nat, dot: bool, data: seq<bv8>)

  /** The state a new message starts from: no slot written yet and the
      output buffer freshly cleared. */
  const RESET: EncoderState := EncoderState(-1, 0, false, CLEARED)

  /** The slot the next character that takes a slot is written to: the one
      after the index, or the index itself when a dot has opened it. */
  function NextSlot(s: EncoderState): int
  {
    if s.dot then s.index else s.index + 1
  }

  predicate WellFormed(s: EncoderState)
  {
    |s.data| == CIRC_BUFF_MAX_OUT_LEN && -1 <= s.index && (s.index == -1 ==> !s.dot)
  }

  /** n more characters can be encoded without writing past the buffer. */
  predicate Fits(s: EncoderState, n: nat)
  {
    WellFormed(s) && NextSlot(s) + n <= CIRC_BUFF_MAX_OUT_LEN
  }

  /** Every slot from the next one on is still blank. */
  predicate Blank(s: EncoderState)
    requires WellFormed(s)
  {
    forall j :: NextSlot(s) <= j < CIRC_BUFF_MAX_OUT_LEN ==> s.data[j] == 0
  }

  /** The buffer length counts every slot up to the index. */
  predicate Counted(s: EncoderState)
  {
    s.len == s.index + 1
  }

  /** One character, as the driver encodes it. A dot ORs the decimal point
      into the slot at the index (slot 0 when nothing is written yet) and
      moves the index on to a fresh slot, which the next character then
      fills; any other character moves to the next slot unless a dot has
      just opened one. When the text starts with a dot, the index jumps from
      -1 to 0 but the length is incremented only once for the two slots the
      dot accounts for. */
  function ParseStepAsWritten(s: EncoderState, c: char): (t: EncoderState)
    requires Fits(s, 1)
    ensures WellFormed(t) && t.index >= 0
    ensures t.dot <==> IsDot(c)
    ensures NextSlot(s) <= NextSlot(t) <= NextSlot(s) + 1
    ensures Counted(s) && s.index >= 0 ==> Counted(t)
    ensures Counted(s) && s.index == -1 && IsDot(c) ==> t.len == t.index
  {
    if IsDot(c) then
      var i := if s.index == -1 then 0 else s.index;
      EncoderState(i + 1, s.len + 1, true, s.data[i := s.data[i] | CHAR_DOT])
    else
      var i := NextSlot(s);
      EncoderState(i, if s.dot then s.len else s.len + 1, false, s.data[i := SlotByte(c)])
  }

  /** One character, with the slot a leading dot lights counted in the
      length as well: the length always stays one past the index. */
  function ParseStep(s: EncoderState, c: char): (t: EncoderState)
    requires Fits(s, 1)
    ensures WellFormed(t) && t.index >= 0
    ensures t.dot <==> IsDot(c)
    ensures NextSlot(s) <= NextSlot(t) <= NextSlot(s) + 1
    ensures Counted(s) ==> Counted(t)
    ensures Blank(s) ==> Blank(t)
  {
    var t := ParseStepAsWritten(s, c);
    if IsDot(c) && s.index == -1 then t.(len := t.len + 1) else t
  }

  /** The characters of a text, first to last. */
  function ParseLine(s: EncoderState, text: string): (t: EncoderState)
    requires Fits(s, |text|)
    ensures WellFormed(t) && NextSlot(s) <= NextSlot(t) <= NextSlot(s) + |text|
    ensures Counted(s) ==> Counted(t)
    decreases |text|
  {
    if text == [] then s else ParseLine(ParseStep(s, text[0]), text[1..])
  }

  function ParseLineAsWritten(s: EncoderState, text: string): (t: EncoderState)
    requires Fits(s, |text|)
    ensures WellFormed(t)
    decreases |text|
  {
    if text == [] then s else ParseLineAsWritten(ParseStepAsWritten(s, text[0]), text[1..])
  }

  /** Parsing one more character is one more step. */
  lemma {:induction false} ParseLineSnoc(s: EncoderState, text: string, c: char)
    requires Fits(s, |text| + 1)
    ensures Fits(ParseLine(s, text), 1)
    ensures ParseLine(s, text + [c]) == ParseStep(ParseLine(s, text), c)
    decreases |text|
  {
    if text == [] {
      assert [c][1..] == [];
    } else {
      assert (text + [c])[1..] == text[1..] + [c];
      ParseLineSnoc(ParseStep(s, text[0]), text[1..], c);
    }
  }

  /** As written, a message that starts with a dot ends with the length
      equal to the index, one short: the last slot written is never shown. */
  lemma LeadingDotLosesLastSlot(text: string)
    requires 0 < |text| <= CIRC_BUFF_MAX_OUT_LEN && IsDot(text[0])
    ensures ParseLineAsWritten(RESET, text).len == ParseLineAsWritten(RESET, text).index
  {
    var s1 := ParseStepAsWritten(RESET, text[0]);
    KeepsLenIndexGap(s1, text[1..]);
  }

  lemma {:induction false} KeepsLenIndexGap(s: EncoderState, text: string)
    requires Fits(s, |text|) && s.index >= 0 && s.len == s.index
    ensures ParseLineAsWritten(s, text).len == ParseLineAsWritten(s, text).index
    decreases |text|
  {
    if text != [] {
      var s1 := ParseStepAsWritten(s, text[0]);
      assert s1.len == s1.index;
      KeepsLenIndexGap(s1, text[1..]);
    }
  }

  /** ".12": the dot and the 1 land in slots 0 and 1 and the 2 in slot 2,
      but the length is 2, so the display never shows the 2. The step that
      counts the leading dot's slot gives length 3. */
  lemma LeadingDotExample()
    ensures ParseLineAsWritten(RESET, ".12").len == 2
    ensures ParseLineAsWritten(RESET, ".12").data[..3] == [CHAR_DOT, CHAR_ONE, CHAR_TWO]
    ensures ParseLine(RESET, ".12").len == 3
    ensures ParseLine(RESET, ".12").data[..3] == [CHAR_DOT, CHAR_ONE, CHAR_TWO]
  {
    var s1 := ParseStepAsWritten(RESET, '.');
    var s2 := ParseStepAsWritten(s1, '1');
    var s3 := ParseStepAsWritten(s2, '2');
    assert ParseLineAsWritten(RESET, ".12") == s3 by {
      assert ".12"[1..] == "12" && "12"[1..] == "2" && "2"[1..] == "";
    }
    var t1 := ParseStep(RESET, '.');
    var t2 := ParseStep(t1, '1');
    var t3 := ParseStep(t2, '2');
    assert ParseLine(RESET, ".12") == t3 by {
      assert ".12"[1..] == "12" && "12"[1..] == "2" && "2"[1..] == "";
    }
  }

  // ------------------------------------------------- the layout of a message

  /** The slots a text should light, read left to right. A character takes
      a slot, and a dot right after it lights that slot's decimal point; a
      dot with no character before it (at the start of the text, or after
      another dot) lights the decimal point of a slot of its own. */
  function Render(text: string): (cells: seq<bv8>)
    ensures |cells| <= |text| + 1
    ensures text != [] ==> |cells| >= 1
    decreases |text|, 0
  {
    if text == [] then []
    else if IsDot(text[0]) then [CHAR_DOT] + AfterDot(text[1..])
    else if |text| > 1 && IsDot(text[1]) then [SlotByte(text[0]) | CHAR_DOT] + AfterDot(text[2..])
    else [SlotByte(text[0])] + Render(text[1..])
  }

  /** The slots after a dot: the slot the dot opened is blank when the text
      ends there. */
  function AfterDot(text: string): (cells: seq<bv8>)
    ensures 1 <= |cells| <= |text| + 1
    decreases |text|, 1
  {
    if text == [] then [CHAR_EMPTY]
    else if IsDot(text[0]) then [CHAR_DOT] + AfterDot(text[1..])
    else Render(text)
  }

  /** The data bytes with cells written from slot k on. */
  function Overwrite(d: seq<bv8>, k: nat, cells: seq<bv8>): (r: seq<bv8>)
    requires k + |cells| <= |d|
    ensures |r| == |d|
  {
    d[..k] + cells + d[k + |cells|..]
  }

  lemma OverwriteCons(d: seq<bv8>, k: nat, x: bv8, cells: seq<bv8>)
    requires k + 1 + |cells| <= |d|
    ensures Overwrite(d[k := x], k + 1, cells) == Overwrite(d, k, [x] + cells)
  {
    assert d[k := x][..k + 1] == d[..k] + [x];
  }

  lemma OverwriteBlank(d: seq<bv8>, k: nat)
    requires k < |d| && d[k] == 0
    ensures Overwrite(d, k, [CHAR_EMPTY]) == d
  {
    assert d[..k] + [CHAR_EMPTY] + d[k + 1..] == d;
  }

  /** From a state at a slot boundary (no dot pending), a text not starting
      with a dot, or any text from the reset state, lands its rendering in
      the slots after the index. */
  lemma ParseAtBoundary(s: EncoderState, text: string)
    requires Fits(s, |text| + 1) && Blank(s) && !s.dot && Counted(s)
    requires text == [] || !IsDot(text[0]) || s.index == -1
    ensures s.index + 1 + |Render(text)| <= CIRC_BUFF_MAX_OUT_LEN
    ensures ParseLine(s, text).data == Overwrite(s.data, s.index + 1, Render(text))
    ensures ParseLine(s, text).index == s.index + |Render(text)|
    ensures ParseLine(s, text).dot == EndsInDot(text)
  {
    if text == [] {
      assert s.data[..s.index + 1] + [] + s.data[s.index + 1..] == s.data;
    } else if IsDot(text[0]) {
      var s1 := ParseStep(s, text[0]);
      assert s1.data == s.data[0 := CHAR_DOT] && s1.index == 1;
      ParseAfterDot(s1, text[1..]);
      OverwriteCons(s.data, 0, CHAR_DOT, AfterDot(text[1..]));
      assert EndsInDot(text) == (text[1..] == [] || EndsInDot(text[1..]));
    } else {
      ParseFromCell(s, text);
    }
  }

  /** A text starting with a character that takes a slot lands its
      rendering from the next slot on. */
  lemma {:induction false} ParseFromCell(s: EncoderState, text: string)
    requires Fits(s, |text| + 1) && Blank(s) && Counted(s)
    requires text != [] && !IsDot(text[0])
    ensures NextSlot(s) + |Render(text)| <= CIRC_BUFF_MAX_OUT_LEN
    ensures ParseLine(s, text).data == Overwrite(s.data, NextSlot(s), Render(text))
    ensures ParseLine(s, text).index == NextSlot(s) + |Render(text)| - 1
    ensures ParseLine(s, text).dot == EndsInDot(text)
    decreases |text|, 1
  {
    if |text| > 1 && IsDot(text[1]) {
      ParseCellThenDot(s, text);
    } else {
      var k := NextSlot(s);
      var g := SlotByte(text[0]);
      var s1 := ParseStep(s, text[0]);
      assert s1.data == s.data[k := g] && s1.index == k && !s1.dot;
      assert Render(text) == [g] + Render(text[1..]);
      OverwriteCons(s.data, k, g, Render(text[1..]));
      if |text| == 1 {
        assert text[1..] == [];
        assert s1.data == s1.data[..k + 1] + [] + s1.data[k + 1..];
      } else {
        ParseFromCell(s1, text[1..]);
        assert EndsInDot(text) == EndsInDot(text[1..]);
      }
    }
  }

  /** A character followed by a dot fills the next slot with its pattern and
      the decimal point, and opens the slot after it. */
  lemma {:induction false} ParseCellThenDot(s: EncoderState, text: string)
    requires Fits(s, |text| + 1) && Blank(s) && Counted(s)
    requires |text| > 1 && !IsDot(text[0]) && IsDot(text[1])
    ensures NextSlot(s) + |Render(text)| <= CIRC_BUFF_MAX_OUT_LEN
    ensures ParseLine(s, text).data == Overwrite(s.data, NextSlot(s), Render(text))
    ensures ParseLine(s, text).index == NextSlot(s) + |Render(text)| - 1
    ensures ParseLine(s, text).dot == EndsInDot(text)
    decreases |text|, 0
  {
    var k := NextSlot(s);
    var g := SlotByte(text[0]);
    var s2 := ParseStep(ParseStep(s, text[0]), text[1]);
    StepsOfCellThenDot(s, text[0], text[1]);
    assert ParseLine(s, text) == ParseLine(s2, text[2..]) by {
      assert text[1..][0] == text[1] && text[1..][1..] == text[2..];
    }
    assert Render(text) == [g | CHAR_DOT] + AfterDot(text[2..]);
    ParseAfterDot(s2, text[2..]);
    OverwriteCons(s.data, k, g | CHAR_DOT, AfterDot(text[2..]));
    assert EndsInDot(text) == (text[2..] == [] || EndsInDot(text[2..]));
  }

  lemma StepsOfCellThenDot(s: EncoderState, c: char, dot: char)
    requires Fits(s, 2) && Blank(s) && Counted(s) && !IsDot(c) && IsDot(dot)
    ensures var s2 := ParseStep(ParseStep(s, c), dot);
      s2.data == s.data[NextSlot(s) := SlotByte(c) | CHAR_DOT] &&
      s2.index == NextSlot(s) + 1 && s2.dot && Blank(s2) && Counted(s2)
  {
  }

  /** From a state whose index is a slot a dot has just opened, the text
      lands its rendering after the dot from the index on. */
  lemma {:induction false} ParseAfterDot(s: EncoderState, text: string)
    requires Fits(s, |text| + 1) && Blank(s) && s.dot && Counted(s)
    ensures s.index + |AfterDot(text)| <= CIRC_BUFF_MAX_OUT_LEN
    ensures ParseLine(s, text).data == Overwrite(s.data, s.index, AfterDot(text))
    ensures ParseLine(s, text).index == s.index + |AfterDot(text)| - 1
    ensures ParseLine(s, text).dot == (text == [] || EndsInDot(text))
    decreases |text|, 2
  {
    var k := s.index;
    if text == [] {
      OverwriteBlank(s.data, k);
    } else if IsDot(text[0]) {
      var s1 := ParseStep(s, text[0]);
      assert s1.data == s.data[k := CHAR_DOT] && s1.index == k + 1;
      ParseAfterDot(s1, text[1..]);
      OverwriteCons(s.data, k, CHAR_DOT, AfterDot(text[1..]));
      assert EndsInDot(text) == (text[1..] == [] || EndsInDot(text[1..]));
    } else {
      ParseFromCell(s, text);
    }
  }

  /** A message of fewer than 128 characters fills exactly the slots of its
      rendering from slot 0: the length is the number of slots, every slot
      past it stays blank, and the index is the last slot. */
  lemma ParseMessage(text: string)
    requires |text| < CIRC_BUFF_MAX_OUT_LEN
    ensures var t := ParseLine(RESET, text);
      t.len == |Render(text)| && t.index == t.len - 1 &&
      t.data[..t.len] == Render(text) &&
      (forall j :: t.len <= j < CIRC_BUFF_MAX_OUT_LEN ==> t.data[j] == 0) &&
      t.dot == EndsInDot(text)
  {
    ParseAtBoundary(RESET, text);
  }

  /** The encoder as written and the corrected one, started from states that
      differ only in the length, write the same slots, index and dot flag;
      their lengths keep their distance, which grows by one when the text
      starts with a dot before any slot is written. */
  lemma {:induction false} AgreeUpToLen(s: EncoderState, u: EncoderState, text: string)
    requires Fits(s, |text|) && u == s.(len := u.len) && u.len >= s.len
    ensures ParseLineAsWritten(s, text).(len := 0) == ParseLine(u, text).(len := 0)
    ensures ParseLine(u, text).len
         == ParseLineAsWritten(s, text).len + (u.len - s.len)
            + (if s.index == -1 && text != [] && IsDot(text[0]) then 1 else 0)
    decreases |text|
  {
    if text != [] {
      var s1 := ParseStepAsWritten(s, text[0]);
      var u1 := ParseStep(u, text[0]);
      assert u1 == s1.(len := u1.len);
      AgreeUpToLen(s1, u1, text[1..]);
    }
  }

  /** The encoder as written, on a message of fewer than 128 characters,
      lays out the same slots as the reference rendering with zeros after
      them; its length counts every slot except when the text starts with a
      dot, where it is one short. */
  lemma ParseMessageAsWritten(text: string)
    requires |text| < CIRC_BUFF_MAX_OUT_LEN
    ensures var t := ParseLineAsWritten(RESET, text);
      t.index == |Render(text)| - 1 &&
      t.data[..|Render(text)|] == Render(text) &&
      (forall j :: |Render(text)| <= j < CIRC_BUFF_MAX_OUT_LEN ==> t.data[j] == 0) &&
      t.dot == EndsInDot(text) &&
      t.len == |Render(text)| - (if text != [] && IsDot(text[0]) then 1 else 0)
  {
    AgreeUpToLen(RESET, RESET, text);
    ParseMessage(text);
  }

  /** "1.2.3": three slots, each of the first two with its decimal point. */
  lemma DottedDigitsExample()
    ensures Render("1.2.3") == [0xB0, 0xED, 0x79]
    ensures Render("1.") == [0xB0, 0x00]
    ensures Render("1..5") == [0xB0, 0x80, 0x5B]
  {
    assert "1.2.3"[2..] == "2.3" && "2.3"[2..] == "3" && "3"[1..] == "";
    assert "1."[2..] == "";
    assert "1..5"[2..] == ".5" && ".5"[1..] == "5" && "5"[1..] == "";
  }
}
