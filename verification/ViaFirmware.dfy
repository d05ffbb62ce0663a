/** The VIA firmware at the other end of the wire: what a request frame does to
    the board, and the frame that answers it. */
module ViaFirmware {
  import opened Basics
  import opened ViaFrames
  import opened ViaBoard

  /** The board and the EEPROM that follows its macro buffer. */
  datatype Chip = Chip(board: Board, beyond: seq<u8>)

  function Spilled(eeprom: seq<u8>, offset: nat, data: seq<u8>): (e: seq<u8>)
    ensures |e| == |eeprom|
  {
    seq(|eeprom|, i requires 0 <= i < |eeprom| => if offset <= i < offset + |data| then data[i - offset] else eeprom[i])
  }

  function KeyIn(f: Frame): Key {
    Key(f[1], f[2], f[3])
  }

  /** What a request frame does. Macro offsets are not range checked. */
  function Executed(c: Chip, f: Frame): Chip {
    var b := c.board;
    if f[0] == SET_KEYCODE then c.(board := WroteKey(b, KeyIn(f), Be16(f[4], f[5])))
    else if f[0] == CUSTOM_SAVE then c.(board := SavedOnce(b, f[1]))
    else if f[0] == LIGHTING_SET_VALUE then c.(board := Lit(b, f[1], f[2], f[3..]))
    else if f[0] == MACRO_SET_BUFFER && f[3] <= MAX_MACRO_CHUNK then
      var eeprom := Spilled(b.macros + c.beyond, Be16(f[1], f[2]), f[4..4 + f[3]]);
      Chip(b.(macros := eeprom[..|b.macros|]), eeprom[|b.macros|..])
    else c
  }

  function MacroBytes(c: Chip, offset: nat, n: nat): (bytes: seq<u8>)
    ensures |bytes| == n
  {
    var eeprom := c.board.macros + c.beyond;
    seq(n, i requires 0 <= i < n => if offset + i < |eeprom| then eeprom[offset + i] else 0)
  }

  /** The answer is the request with the asked-for bytes written over it; a
      command that is not handled is answered 0xFF. */
  function Answer(c: Chip, f: Frame): Frame {
    var b := c.board;
    if f[0] == GET_PROTOCOL_VERSION then [f[0], Hi(b.version), Lo(b.version)] + f[3..]
    else if f[0] == GET_LAYER_COUNT then [f[0], b.layers] + f[2..]
    else if f[0] == GET_KEYCODE then
      var v := KeyAt(b.keys, KeyIn(f));
      f[..4] + [Hi(v), Lo(v)] + f[6..]
    else if f[0] == LIGHTING_GET_VALUE then f[..3] + LitValue(b.ram, f[1], f[2])
    else if f[0] == MACRO_GET_BUFFER_SIZE then [f[0], Hi(|b.macros|), Lo(|b.macros|)] + f[3..]
    else if f[0] == MACRO_GET_BUFFER && f[3] <= MAX_MACRO_CHUNK then
      f[..4] + MacroBytes(c, Be16(f[1], f[2]), f[3]) + f[4 + f[3]..]
    else if f[0] in {SET_KEYCODE, CUSTOM_SAVE, LIGHTING_SET_VALUE} then f
    else if f[0] == MACRO_SET_BUFFER && f[3] <= MAX_MACRO_CHUNK then f
    else [UNHANDLED] + f[1..]
  }

  // ── A round trip is the board operation ────────────────────────────────

  /** A keymap write that reaches the firmware is the keymap write. */
  lemma KeyWriteOnBoard(c: Chip, k: Key, v: u16)
    ensures Executed(c, Request(WriteKey(k, v))) == c.(board := WroteKey(c.board, k, v))
    ensures Echoes(Answer(c, Request(WriteKey(k, v))), Header(WriteKey(k, v)))
  {
    var f := Request(WriteKey(k, v));
    assert f[..6] == Header(WriteKey(k, v));
    assert f[4] == Hi(v) && f[5] == Lo(v) && KeyIn(f) == k;
    WordRoundTrips(v);
  }

  /** Reads change nothing, and the answer carries the board's own value. */
  lemma KeyReadOnBoard(c: Chip, k: Key)
    ensures Executed(c, Request(AskKey(k))) == c
    ensures var a := Answer(c, Request(AskKey(k)));
            Echoes(a, Header(AskKey(k))) && CodeIn(a) == KeyAt(c.board.keys, k)
  {
    var f := Request(AskKey(k));
    assert f[..4] == Header(AskKey(k));
    assert KeyIn(f) == k;
    assert Answer(c, f)[..4] == f[..4];
  }

  lemma NumbersOnBoard(c: Chip)
    ensures Executed(c, Request(AskVersion)) == c && Executed(c, Request(AskLayers)) == c
    ensures Executed(c, Request(AskMacroSize)) == c
    ensures var a := Answer(c, Request(AskVersion));
            Echoes(a, Header(AskVersion)) && NumberIn(a) == c.board.version
    ensures var a := Answer(c, Request(AskLayers)); Echoes(a, Header(AskLayers)) && a[1] == c.board.layers
    ensures var a := Answer(c, Request(AskMacroSize));
            Echoes(a, Header(AskMacroSize)) && NumberIn(a) == |c.board.macros|
  {
  }

  lemma ValueReadOnBoard(c: Chip, ch: u8, id: u8)
    ensures Executed(c, Request(AskValue(ch, id))) == c
    ensures var a := Answer(c, Request(AskValue(ch, id)));
            Echoes(a, Header(AskValue(ch, id))) && ValueIn(a) == LitValue(c.board.ram, ch, id)
  {
    var f := Request(AskValue(ch, id));
    assert f[..3] == Header(AskValue(ch, id));
    assert f[1] == ch && f[2] == id;
    assert Answer(c, f)[..3] == f[..3];
  }

  lemma ValueWriteOnBoard(c: Chip, ch: u8, id: u8, data: seq<u8>)
    requires |data| <= MAX_LIGHTING_VALUE
    ensures Executed(c, Request(WriteValue(ch, id, data))) == c.(board := Lit(c.board, ch, id, data))
  {
    var f := Request(WriteValue(ch, id, data));
    assert f[0] == LIGHTING_SET_VALUE && f[1] == ch && f[2] == id;
    assert f[3..] == Padded(data);
    assert Padded(f[3..]) == f[3..];
  }

  lemma SaveOnBoard(c: Chip, ch: u8)
    ensures Executed(c, Request(SaveChannel(ch))) == c.(board := SavedOnce(c.board, ch))
    ensures Echoes(Answer(c, Request(SaveChannel(ch))), Header(SaveChannel(ch)))
  {
    var f := Request(SaveChannel(ch));
    assert f[..2] == Header(SaveChannel(ch));
    assert f[1] == ch;
  }

  /** A macro read within the buffer answers with that slice of it. */
  lemma MacroReadOnBoard(c: Chip, offset: u16, length: u8)
    requires MacroRange(c.board, offset, length)
    ensures Executed(c, Request(ReadMacro(offset, length))) == c
    ensures var a := Answer(c, Request(ReadMacro(offset, length)));
            && Echoes(a, Header(ReadMacro(offset, length)))
            && ChunkIn(a, length) == c.board.macros[offset..offset + length]
  {
    var f := Request(ReadMacro(offset, length));
    assert f[..4] == Header(ReadMacro(offset, length));
    assert f[1] == Hi(offset) && f[2] == Lo(offset) && f[3] == length;
    WordRoundTrips(offset);
    assert MacroBytes(c, offset, length) == c.board.macros[offset..offset + length];
    assert Answer(c, f)[..4] == f[..4];
  }

  lemma WriteMacroFrame(c: Chip, offset: u16, data: seq<u8>)
    requires |data| <= MAX_MACRO_CHUNK
    ensures var f := Request(WriteMacro(offset, data));
            && Echoes(Answer(c, f), Header(WriteMacro(offset, data)))
            && f[0] == MACRO_SET_BUFFER && Be16(f[1], f[2]) == offset && f[3] == |data| && f[4..4 + f[3]] == data
  {
    var f := Request(WriteMacro(offset, data));
    assert f[..4] == Header(WriteMacro(offset, data));
    assert f[1] == Hi(offset) && f[2] == Lo(offset) && f[3] == |data|;
    WordRoundTrips(offset);
  }

  lemma SpilledWithin(macros: seq<u8>, beyond: seq<u8>, offset: nat, data: seq<u8>)
    requires offset + |data| <= |macros|
    ensures Spilled(macros + beyond, offset, data)[..|macros|] == macros[..offset] + data + macros[offset + |data|..]
    ensures Spilled(macros + beyond, offset, data)[|macros|..] == beyond
  {
  }

  /** A macro write within the buffer changes that slice of it and nothing
      past its end. */
  lemma MacroWriteOnBoard(c: Chip, offset: u16, data: seq<u8>)
    requires MacroRange(c.board, offset, |data|)
    ensures Executed(c, Request(WriteMacro(offset, data))) == c.(board := WroteMacro(c.board, offset, data))
    ensures Echoes(Answer(c, Request(WriteMacro(offset, data))), Header(WriteMacro(offset, data)))
  {
    WriteMacroFrame(c, offset, data);
    SpilledWithin(c.board.macros, c.beyond, offset, data);
    hide Answer;
    hide Spilled;
    hide Request;
  }

  /** Why the host checks the range: among the chunks a frame can carry, those
      it lets through are exactly the ones that leave the EEPROM behind the
      macro buffer alone whatever their bytes are. */
  lemma RangeCheckIsExact(c: Chip, offset: u16, len: nat)
    requires 0 < len <= MAX_MACRO_CHUNK && offset + len <= |c.board.macros| + |c.beyond|
    ensures MacroRange(c.board, offset, len) <==>
            forall data: seq<u8> :: |data| == len ==>
              Executed(c, Request(WriteMacro(offset, data))).beyond == c.beyond
  {
    if MacroRange(c.board, offset, len) {
      forall data: seq<u8> | |data| == len ensures Executed(c, Request(WriteMacro(offset, data))).beyond == c.beyond {
        MacroWriteOnBoard(c, offset, data);
      }
    } else {
      var n := |c.board.macros|;
      var at := offset + len - 1;
      var other: u8 := if c.beyond[at - n] == 0 then 1 else 0;
      var data: seq<u8> := seq(len, _ => other);
      WriteMacroFrame(c, offset, data);
      assert Executed(c, Request(WriteMacro(offset, data))).beyond[at - n] == other;
    }
  }

  /** Every answer repeats its question. */
  lemma AnswerRepeats(c: Chip, y: Exchange)
    requires Fits(y)
    ensures Repeats(Answer(c, Request(y)), y)
  {
    match y
    case AskVersion => NumbersOnBoard(c);
    case AskLayers => NumbersOnBoard(c);
    case AskMacroSize => NumbersOnBoard(c);
    case AskKey(k) => KeyReadOnBoard(c, k);
    case WriteKey(k, v) => KeyWriteOnBoard(c, k, v);
    case SaveChannel(ch) => SaveOnBoard(c, ch);
    case AskValue(ch, id) => ValueReadOnBoard(c, ch, id);
    case WriteValue(_, _, _) =>
    case ReadMacro(offset, length) => assert Request(y)[..4] == Header(y);
    case WriteMacro(offset, data) => WriteMacroFrame(c, offset, data);
  }

  /** An answer tells what the board holds when it gives it. */
  lemma AnswerTells(c: Chip, x: Exchange)
    requires Fits(x)
    ensures Tells(c.board, x, Answer(c, Request(x)))
  {
    match x
    case AskKey(k) => KeyReadOnBoard(c, k);
    case AskValue(ch, id) => ValueReadOnBoard(c, ch, id);
    case ReadMacro(offset, length) =>
      if MacroRange(c.board, offset, length) {
        MacroReadOnBoard(c, offset, length);
      }
    case _ =>
  }
}
