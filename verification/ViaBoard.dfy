/** A VIA board as the host sees it, one operation at a time, with the answers
    it still owes. */
module ViaBoard {
  import opened Basics
  import opened ViaFrames

  /** Values of one custom-value channel, keyed by value id. */
  type Values = map<u8, Value>
  type Lighting = map<u8, Values>
  /** The macro buffer; its size is a 16-bit word on the wire. */
  type Macros = s: seq<u8> | |s| < 0x1_0000 witness []

  /** `writes` and `saves` count the keycode writes and channel saves carried
      out, whether or not the host learned of it. `owed` holds the answers that
      came after the host had given up on them: they wait in the input queue,
      oldest first, and a later read gets them. A `reliable` board faults no
      more. */
  datatype Board = Board(
    keys: Keymap,
    ram: Lighting,
    nvram: Lighting,
    macros: Macros,
    layers: u8,
    version: u16,
    writes: nat,
    saves: nat,
    reliable: bool,
    owed: seq<Owed>)

  /** Nothing goes wrong and nothing is left over from before. */
  predicate Faultless(b: Board) {
    b.reliable && b.owed == []
  }

  /** The same board but for the answers it owes. */
  predicate SameMemory(b: Board, b': Board) {
    b' == b.(owed := b'.owed)
  }

  function Channel(l: Lighting, c: u8): Values {
    if c in l then l[c] else map[]
  }

  function LitValue(l: Lighting, c: u8, v: u8): Value {
    if v in Channel(l, c) then Channel(l, c)[v] else seq(MAX_LIGHTING_VALUE, _ => 0)
  }

  function WroteKey(b: Board, k: Key, v: u16): Board {
    b.(keys := b.keys[k := v], writes := b.writes + 1)
  }

  function Lit(b: Board, c: u8, v: u8, data: seq<u8>): Board
    requires |data| <= MAX_LIGHTING_VALUE
  {
    b.(ram := b.ram[c := Channel(b.ram, c)[v := Padded(data)]])
  }

  function Saved(b: Board, c: u8): Board {
    b.(nvram := b.nvram[c := Channel(b.ram, c)])
  }

  function SavedOnce(b: Board, c: u8): Board {
    Saved(b, c).(saves := b.saves + 1)
  }

  /** The host-side range check: the firmware itself checks nothing. */
  predicate MacroRange(b: Board, offset: u16, len: nat) {
    len <= MAX_MACRO_CHUNK && offset + len <= |b.macros|
  }

  function WroteMacro(b: Board, offset: u16, data: seq<u8>): Board
    requires MacroRange(b, offset, |data|)
  {
    b.(macros := b.macros[..offset] + data + b.macros[offset + |data|..])
  }

  // ── Answers owed ───────────────────────────────────────────────────────

  /** The answer to `x` says what the board holds now. */
  predicate Tells(b: Board, x: Exchange, answer: Frame) {
    match x
    case AskKey(k) => CodeIn(answer) == KeyAt(b.keys, k)
    case AskValue(c, v) => ValueIn(answer) == LitValue(b.ram, c, v)
    case ReadMacro(offset, length) =>
      MacroRange(b, offset, length) ==> ChunkIn(answer, length) == b.macros[offset..offset + length]
    case _ => true
  }

  /** How asking the questions `X`, the last perhaps in vain, may change what is
      owed: what is added was asked just now and told the truth; a success adds
      nothing, a failure one answer at most; and where no fault comes in, each
      answer owed pushes another one back. */
  ghost predicate Owes(b: Board, b': Board, X: set<Exchange>, ok: bool) {
    && (forall o :: o in b'.owed ==> o in b.owed || (o.asked in X && Tells(b, o.asked, o.answer)))
    && |b'.owed| <= |b.owed| + (if ok then 0 else 1)
    && (b.reliable ==> |b'.owed| == |b.owed|)
  }

  /** The answer that asking `x` gets if it gets one that passes the check: the
      one longest owed if any is, else the true one. */
  ghost predicate Front(b: Board, x: Exchange, o: Owed) {
    o.asked == x && if b.owed == [] then Tells(b, x, o.answer) else o == b.owed[0]
  }

  /** The same after another question was asked first. */
  ghost predicate NearFront(b: Board, x: Exchange, o: Owed) {
    o.asked == x && (Tells(b, x, o.answer) || (b.owed != [] && o in b.owed))
  }

  /** Another answer is in the way of the one to `x`. */
  predicate Blocked(b: Board, x: Exchange) {
    b.owed != [] && !SameQuestion(x, b.owed[0].asked)
  }

  /** Why asking `x` may fail. */
  predicate MayFail(b: Board, x: Exchange) {
    !b.reliable || Blocked(b, x)
  }

  // ── Operations ─────────────────────────────────────────────────────────

  /** A keycode write either lands, or fails and leaves anything at its own key. */
  ghost predicate KeyWrite(b: Board, k: Key, v: u16, b': Board, r: Result<()>) {
    && Owes(b, b', {WriteKey(k, v)}, r.Ok?)
    && if r.Ok? then SameMemory(WroteKey(b, k, v), b')
       else
         && MayFail(b, WriteKey(k, v))
         && (SameMemory(b, b') ||
             (b' == b.(keys := b'.keys, writes := b.writes + 1, owed := b'.owed)
              && forall j :: j != k ==> SameAt(b.keys, b'.keys, j)))
  }

  /** A failed channel save may or may not have reached the NVRAM. */
  ghost predicate ChannelSave(b: Board, c: u8, b': Board, r: Result<()>) {
    && Owes(b, b', {SaveChannel(c)}, r.Ok?)
    && if r.Ok? then SameMemory(SavedOnce(b, c), b')
       else MayFail(b, SaveChannel(c)) && (SameMemory(b, b') || SameMemory(SavedOnce(b, c), b'))
  }

  /** A failed lighting write may or may not have reached the RAM. */
  ghost predicate LightWrite(b: Board, c: u8, v: u8, data: seq<u8>, b': Board, r: Result<()>) {
    if |data| > MAX_LIGHTING_VALUE then r == Err(ProtocolViolation) && b' == b
    else
      && Owes(b, b', {WriteValue(c, v, data)}, r.Ok?)
      && if r.Ok? then SameMemory(Lit(b, c, v, data), b')
         else !b.reliable && (SameMemory(b, b') || SameMemory(Lit(b, c, v, data), b'))
  }

  ghost predicate MacroWrite(b: Board, offset: u16, data: seq<u8>, b': Board, r: Result<()>) {
    && Owes(b, b', {AskMacroSize, WriteMacro(offset, data)}, r.Ok?)
    && if MacroRange(b, offset, |data|) then
         if r.Ok? then SameMemory(WroteMacro(b, offset, data), b')
         else !Faultless(b) && (SameMemory(b, b') || SameMemory(WroteMacro(b, offset, data), b'))
       else r.Err? && SameMemory(b, b') && (Faultless(b) ==> r == Err(ProtocolViolation))
  }

  ghost predicate MacroRead(b: Board, offset: u16, length: u8, b': Board, r: Result<seq<u8>>) {
    && SameMemory(b, b') && Owes(b, b', {AskMacroSize, ReadMacro(offset, length)}, r.Ok?)
    && if MacroRange(b, offset, length) then
         if r.Ok? then
           exists o: Owed :: NearFront(b, ReadMacro(offset, length), o) && r.value == ChunkIn(o.answer, length)
         else !Faultless(b)
       else r.Err? && (Faultless(b) ==> r == Err(ProtocolViolation))
  }

  /** A read of what never changes answers with it or, on a board with faults,
      fails. */
  ghost predicate ReadFixed<T>(b: Board, x: Exchange, value: T, b': Board, r: Result<T>) {
    && SameMemory(b, b') && Owes(b, b', {x}, r.Ok?)
    && (r == Ok(value) || (r.Err? && MayFail(b, x)))
  }

  ghost predicate KeyRead(b: Board, k: Key, b': Board, r: Result<u16>) {
    && SameMemory(b, b') && Owes(b, b', {AskKey(k)}, r.Ok?)
    && if r.Ok? then exists o: Owed :: Front(b, AskKey(k), o) && r.value == CodeIn(o.answer) else MayFail(b, AskKey(k))
  }

  ghost predicate LightRead(b: Board, c: u8, v: u8, b': Board, r: Result<seq<u8>>) {
    && SameMemory(b, b') && Owes(b, b', {AskValue(c, v)}, r.Ok?)
    && if r.Ok? then exists o: Owed :: Front(b, AskValue(c, v), o) && r.value == ValueIn(o.answer)
       else MayFail(b, AskValue(c, v))
  }
}
