/** The VIA frames byte by byte, as the protocol numbers them. */
module ViaWire {
  import opened Basics
  import opened ViaFrames

  /** The bytes from the front of a frame; what follows is zero. */
  predicate Begins(f: Frame, front: seq<u8>)
    requires |front| <= 32
  {
    && (forall i :: 0 <= i < |front| ==> f[i] == front[i])
    && forall i :: |front| <= i < 32 ==> f[i] == 0
  }

  /** Each request in numbers: the command, then key and offset with words high
      byte first, then zeros. */
  lemma KeymapOnTheWire(k: Key, v: u16)
    ensures Begins(Request(AskVersion), [0x01]) && Begins(Request(AskLayers), [0x11])
    ensures Begins(Request(AskKey(k)), [0x04, k.layer, k.row, k.col])
    ensures Begins(Request(WriteKey(k, v)), [0x05, k.layer, k.row, k.col, v / 256, v % 256])
  {
  }

  lemma StorageOnTheWire(c: u8, id: u8, offset: u16, length: u8)
    requires length <= 28
    ensures Begins(Request(SaveChannel(c)), [0x09, c]) && Begins(Request(AskValue(c, id)), [0x08, c, id])
    ensures Begins(Request(AskMacroSize), [0x0D])
    ensures Begins(Request(ReadMacro(offset, length)), [0x0E, offset / 256, offset % 256, length])
  {
  }

  /** A lighting value and a macro chunk follow their headers. */
  lemma DataOnTheWire(c: u8, id: u8, value: seq<u8>, offset: u16, chunk: seq<u8>)
    requires |value| <= 29 && |chunk| <= 28
    ensures Begins(Request(WriteValue(c, id, value)), [0x07, c, id] + value)
    ensures Begins(Request(WriteMacro(offset, chunk)), [0x0F, offset / 256, offset % 256, |chunk|] + chunk)
  {
  }

  /** Where the host finds what it asked for. */
  lemma AnswersOnTheWire(a: Frame, length: u8)
    requires length <= 28
    ensures NumberIn(a) == a[1] as int * 256 + a[2] as int && CodeIn(a) == a[4] as int * 256 + a[5] as int
    ensures |ValueIn(a)| == 29 && forall i :: 0 <= i < 29 ==> ValueIn(a)[i] == a[3 + i]
    ensures |ChunkIn(a, length)| == length && forall i :: 0 <= i < length ==> ChunkIn(a, length)[i] == a[4 + i]
  {
  }

  /** The prefix an answer must repeat: all that a request says before its data,
      and of a lighting write nothing. */
  lemma EchoedPrefix(x: Exchange)
    requires Fits(x)
    ensures |Header(x)| == match x
                           case AskVersion => 1
                           case AskLayers => 1
                           case AskMacroSize => 1
                           case SaveChannel(_) => 2
                           case AskValue(_, _) => 3
                           case AskKey(_) => 4
                           case ReadMacro(_, _) => 4
                           case WriteMacro(_, _) => 4
                           case WriteKey(_, _) => 6
                           case WriteValue(_, _, _) => 0
    ensures forall i :: 0 <= i < |Header(x)| ==> Header(x)[i] == Request(x)[i]
  {
    if !x.WriteValue? {
      assert Request(x)[..|Header(x)|] == Header(x);
      SamePrefix(Request(x), Header(x), |Header(x)|);
    }
  }
}
