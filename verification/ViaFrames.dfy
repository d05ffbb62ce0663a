/** The 32-byte VIA frames: what the host asks, and which answers it takes for
    its own. */
module ViaFrames {
  import opened Basics

  const FRAME_LEN := 32

  /** Value bytes a lighting frame can carry: 32 - [cmd, channel, value id]. */
  const MAX_LIGHTING_VALUE := 29
  /** Macro bytes a frame can carry: 32 - [cmd, offset hi, offset lo, size]. */
  const MAX_MACRO_CHUNK := 28

  type Value = s: seq<u8> | |s| == MAX_LIGHTING_VALUE witness seq(MAX_LIGHTING_VALUE, _ => 0)

  type Frame = f: seq<u8> | |f| == FRAME_LEN witness seq(FRAME_LEN, _ => 0)

  const GET_PROTOCOL_VERSION: u8 := 0x01
  const GET_KEYCODE: u8 := 0x04
  const SET_KEYCODE: u8 := 0x05
  const LIGHTING_SET_VALUE: u8 := 0x07
  const LIGHTING_GET_VALUE: u8 := 0x08
  const CUSTOM_SAVE: u8 := 0x09
  const MACRO_GET_BUFFER_SIZE: u8 := 0x0D
  const MACRO_GET_BUFFER: u8 := 0x0E
  const MACRO_SET_BUFFER: u8 := 0x0F
  const GET_LAYER_COUNT: u8 := 0x11
  const UNHANDLED: u8 := 0xFF

  /** Big-endian words. */
  function Hi(v: u16): u8 { v / 0x100 }
  function Lo(v: u16): u8 { v % 0x100 }
  function Be16(hi: u8, lo: u8): u16 { 0x100 * hi + lo }

  lemma WordRoundTrips(v: u16)
    ensures Be16(Hi(v), Lo(v)) == v
  {
  }

  /** A request frame is zero filled, so the value field is always 29 bytes. */
  function Padded(data: seq<u8>): Value
    requires |data| <= MAX_LIGHTING_VALUE
  {
    data + seq(MAX_LIGHTING_VALUE - |data|, _ => 0)
  }

  /** One round trip's worth of asking. */
  datatype Exchange =
    | AskVersion
    | AskLayers
    | AskKey(key: Key)
    | WriteKey(key: Key, code: u16)
    | SaveChannel(channel: u8)
    | AskValue(channel: u8, id: u8)
    | WriteValue(channel: u8, id: u8, data: seq<u8>)
    | AskMacroSize
    | ReadMacro(offset: u16, length: u8)
    | WriteMacro(offset: u16, data: seq<u8>)

  /** What the host checks before it builds a frame. */
  predicate Fits(x: Exchange) {
    && (x.WriteValue? ==> |x.data| <= MAX_LIGHTING_VALUE)
    && (x.ReadMacro? ==> x.length <= MAX_MACRO_CHUNK)
    && (x.WriteMacro? ==> |x.data| <= MAX_MACRO_CHUNK)
  }

  /** The leading bytes the answer must repeat. Nothing is checked on the
      answer to a lighting write. */
  function Header(x: Exchange): (h: seq<u8>)
    requires Fits(x)
    ensures |h| <= 6
  {
    match x
    case AskVersion => [GET_PROTOCOL_VERSION]
    case AskLayers => [GET_LAYER_COUNT]
    case AskKey(k) => [GET_KEYCODE, k.layer, k.row, k.col]
    case WriteKey(k, v) => [SET_KEYCODE, k.layer, k.row, k.col, Hi(v), Lo(v)]
    case SaveChannel(c) => [CUSTOM_SAVE, c]
    case AskValue(c, v) => [LIGHTING_GET_VALUE, c, v]
    case WriteValue(_, _, _) => []
    case AskMacroSize => [MACRO_GET_BUFFER_SIZE]
    case ReadMacro(offset, length) => [MACRO_GET_BUFFER, Hi(offset), Lo(offset), length]
    case WriteMacro(offset, data) => [MACRO_SET_BUFFER, Hi(offset), Lo(offset), |data|]
  }

  /** A frame is zero filled behind what is written at its front. */
  function Filled(front: seq<u8>): (f: Frame)
    requires |front| <= FRAME_LEN
    ensures f[..|front|] == front
  {
    front + seq(FRAME_LEN - |front|, _ => 0)
  }

  function Request(x: Exchange): Frame
    requires Fits(x)
  {
    match x
    case WriteValue(c, v, data) => Filled([LIGHTING_SET_VALUE, c, v] + data)
    case WriteMacro(_, data) => Filled(Header(x) + data)
    case _ => Filled(Header(x))
  }

  predicate Echoes(answer: Frame, expected: seq<u8>)
    requires |expected| <= FRAME_LEN
  {
    answer[..|expected|] == expected
  }

  method ValidateEcho(answer: Frame, expected: seq<u8>) returns (r: Result<()>)
    requires |expected| <= FRAME_LEN
    ensures r == if Echoes(answer, expected) then Ok(()) else Err(ProtocolViolation)
  {
    if answer[..|expected|] == expected {
      r := Ok(());
    } else {
      r := Err(ProtocolViolation);
    }
  }

  method ValidateMacroRange(offset: u16, len: nat, bufferSize: u16) returns (r: Result<()>)
    ensures r == if len <= MAX_MACRO_CHUNK && offset + len <= bufferSize then Ok(()) else Err(ProtocolViolation)
  {
    if len > MAX_MACRO_CHUNK {
      return Err(ProtocolViolation);
    }
    if offset + len > bufferSize {
      return Err(ProtocolViolation);
    }
    r := Ok(());
  }

  // ── Telling answers apart ──────────────────────────────────────────────

  lemma SamePrefix(f: seq<u8>, g: seq<u8>, n: nat)
    requires n <= |f| && n <= |g| && f[..n] == g[..n]
    ensures forall i :: 0 <= i < n ==> f[i] == g[i]
  {
    forall i | 0 <= i < n ensures f[i] == g[i] { assert f[..n][i] == g[..n][i]; }
  }

  function CommandOf(x: Exchange): u8
    requires Fits(x)
  {
    if x.WriteValue? then LIGHTING_SET_VALUE else Header(x)[0]
  }

  /** What every answer to `y` looks like: command and header come back. */
  predicate Repeats(answer: Frame, y: Exchange)
    requires Fits(y)
  {
    answer[0] == CommandOf(y) && Echoes(answer, Header(y))
  }

  lemma RequestRepeats(y: Exchange)
    requires Fits(y)
    ensures Repeats(Request(y), y)
  {
    if !y.WriteValue? {
      assert Request(y)[..|Header(y)|] == Header(y);
      assert Request(y)[..|Header(y)|][0] == Header(y)[0];
    }
  }

  /** The answer to one exchange passes the check of another exactly if the two
      have the same header: a late answer is refused unless the question was,
      up to the bytes of a macro chunk, the same. */
  lemma EchoTellsApart(a: Frame, x: Exchange, y: Exchange)
    requires Fits(x) && Fits(y) && !x.WriteValue? && Repeats(a, y)
    ensures Echoes(a, Header(x)) <==> Header(x) == Header(y)
  {
    if Echoes(a, Header(x)) {
      SamePrefix(a, Header(x), |Header(x)|);
      assert a[..|Header(x)|][0] == Header(x)[0];
      assert CommandOf(x) == CommandOf(y);
      assert |Header(x)| == |Header(y)|;
    }
  }

  /** A refusal is caught by every check there is; a lighting write has none. */
  lemma RefusalIsCaught(x: Exchange)
    requires Fits(x)
    ensures Echoes([UNHANDLED] + Request(x)[1..], Header(x)) <==> x.WriteValue?
  {
    var a: Frame := [UNHANDLED] + Request(x)[1..];
    if !x.WriteValue? {
      assert Header(x)[0] != UNHANDLED;
      assert a[..|Header(x)|][0] == UNHANDLED;
    }
  }

  lemma HeadersAreDistinct(x: Exchange, y: Exchange)
    requires Fits(x) && Fits(y) && !x.WriteValue? && !y.WriteValue?
    ensures Header(x) == Header(y) <==>
            x == y || (x.WriteMacro? && y.WriteMacro? && x.offset == y.offset && |x.data| == |y.data|)
  {
    if Header(x) == Header(y) {
      assert Header(x)[0] == Header(y)[0];
      match x {
        case WriteKey(k, v) => WordRoundTrips(v); WordRoundTrips(y.code);
        case ReadMacro(offset, _) => WordRoundTrips(offset); WordRoundTrips(y.offset);
        case WriteMacro(offset, _) => WordRoundTrips(offset); WordRoundTrips(y.offset);
        case _ =>
      }
    }
  }

  /** No two questions share a frame, except lighting values that differ only
      in trailing zeros. */
  lemma RequestsAreDistinct(x: Exchange, y: Exchange)
    requires Fits(x) && Fits(y)
    ensures Request(x) == Request(y) <==>
            x == y || (x.WriteValue? && y.WriteValue? && x.channel == y.channel && x.id == y.id
                       && Padded(x.data) == Padded(y.data))
  {
    RequestRepeats(x);
    RequestRepeats(y);
    if x.WriteValue? && y.WriteValue? {
      ValuesAreDistinct(x, y);
    } else if Request(x) == Request(y) && !x.WriteValue? && !y.WriteValue? {
      EchoTellsApart(Request(x), x, y);
      HeadersAreDistinct(x, y);
      if x.WriteMacro? {
        MacroData(x.offset, x.data);
        MacroData(y.offset, y.data);
      }
    }
  }

  lemma MacroData(offset: u16, data: seq<u8>)
    requires |data| <= MAX_MACRO_CHUNK
    ensures Request(WriteMacro(offset, data))[4..4 + |data|] == data
  {
  }

  lemma ValuesAreDistinct(x: Exchange, y: Exchange)
    requires Fits(x) && Fits(y) && x.WriteValue? && y.WriteValue?
    ensures Request(x) == Request(y) <==> x.channel == y.channel && x.id == y.id && Padded(x.data) == Padded(y.data)
  {
    var f, g := Request(x), Request(y);
    assert f == [LIGHTING_SET_VALUE, x.channel, x.id] + Padded(x.data);
    assert g == [LIGHTING_SET_VALUE, y.channel, y.id] + Padded(y.data);
    if f == g {
      assert f[1] == g[1] && f[2] == g[2] && f[3..] == g[3..];
      assert f[3..] == Padded(x.data) && g[3..] == Padded(y.data);
    }
  }

  // ── What the host reads out of an answer ───────────────────────────────

  function NumberIn(a: Frame): u16 { Be16(a[1], a[2]) }
  function CodeIn(a: Frame): u16 { Be16(a[4], a[5]) }
  function ValueIn(a: Frame): Value { a[3..] }

  function ChunkIn(a: Frame, length: u8): seq<u8>
    requires length <= MAX_MACRO_CHUNK
  {
    a[4..4 + length]
  }

  /** The same question, up to the bytes of a macro chunk. */
  predicate SameQuestion(x: Exchange, y: Exchange) {
    x == y || (x.WriteMacro? && y.WriteMacro? && x.offset == y.offset && |x.data| == |y.data|)
  }

  /** A question and the answer given to it. */
  datatype Report = Report(asked: Exchange, answer: Frame)

  predicate IsReport(o: Report) {
    Fits(o.asked) && Repeats(o.answer, o.asked)
  }

  type Owed = o: Report | IsReport(o) witness Report(AskVersion, Filled([GET_PROTOCOL_VERSION]))

  /** What it asks after never changes. */
  predicate AsksFixed(x: Exchange) {
    x.AskVersion? || x.AskLayers? || x.AskMacroSize?
  }
}
