/** The hidraw transport: each board operation as a round trip of frames, any
    of which may go wrong. */
module ViaTransport {
  import opened Basics
  import opened ViaFrames
  import opened ViaBoard
  import opened ViaFirmware

  function Owing(c: Chip, queue: seq<Owed>): Chip {
    c.(board := c.board.(owed := queue))
  }

  function OwnAnswer(c: Chip, x: Exchange): (o: Owed)
    requires Fits(x)
    ensures o.asked == x
  {
    AnswerRepeats(c, x);
    Report(x, Answer(c, Request(x)))
  }

  /** What a read of a queued answer yields. Where the answer can never change
      it is not recorded but given anew. */
  function Handed(c: Chip, o: Owed): Frame {
    if AsksFixed(o.asked) then Answer(c, Request(o.asked)) else o.answer
  }

  ghost predicate Torn(c: Chip, k: Key, c': Chip) {
    c' == c.(board := c.board.(keys := c.board.keys[k := KeyAt(c'.board.keys, k)], writes := c.board.writes + 1,
                               owed := c'.board.owed))
  }

  /** A request that was carried out, with `queue` waiting to be read: the oldest
      answer is taken, or, on a board with faults, none comes in time. Then the
      write of a key may have torn it. */
  ghost predicate Concluded(c: Chip, x: Exchange, queue: seq<Owed>, c': Chip, r: Result<Frame>)
    requires Fits(x)
  {
    var done := Executed(c, Request(x));
    if r.Ok? then queue != [] && r.value == Handed(c, queue[0]) && c' == Owing(done, queue[1..])
    else !c.board.reliable && c'.board.owed == queue && (c' == Owing(done, queue) || (x.WriteKey? && Torn(c, x.key, c')))
  }

  /** One round trip. On a board with faults the request may not arrive, and its
      answer may never come; an answer that does come joins the queue. */
  ghost predicate Exchanged(c: Chip, x: Exchange, c': Chip, r: Result<Frame>)
    requires Fits(x)
  {
    || (!c.board.reliable && r.Err? && c' == c)
    || Concluded(c, x, c.board.owed + [OwnAnswer(c, x)], c', r)
    || (!c.board.reliable && Concluded(c, x, c.board.owed, c', r))
  }

  class Transport {
    var board: Board
    /** The EEPROM behind the macro buffer. */
    var beyond: seq<u8>

    function Wired(): Chip
      reads this
    {
      Chip(board, beyond)
    }

    constructor (b: Board, behind: seq<u8>)
      ensures board == b && beyond == behind
    {
      board, beyond := b, behind;
    }

    /** The firmware carries the request out; its answer, if it comes, joins the
        queue. */
    method Deliver(x: Exchange, answered: bool)
      requires Fits(x)
      modifies this
      ensures Wired() == Owing(Executed(old(Wired()), Request(x)),
                               old(board.owed) + if answered then [OwnAnswer(old(Wired()), x)] else [])
    {
      var queue := board.owed + if answered then [OwnAnswer(Wired(), x)] else [];
      var c := Executed(Wired(), Request(x));
      board, beyond := c.board.(owed := queue), c.beyond;
    }

    /** The frame goes out and the oldest one waiting comes back, or not. */
    method Roundtrip(x: Exchange) returns (r: Result<Frame>)
      requires Fits(x)
      modifies this
      ensures Exchanged(old(Wired()), x, Wired(), r)
    {
      hide Answer;
      hide Request;
      hide Executed;
      hide AsksFixed;
      var before := Wired();
      var lost, answered, late, torn: bool := *, *, *, *;
      var e: DriverError := *;
      if lost && !board.reliable {
        return Err(e);
      }
      FaultsStay(before, x);
      Deliver(x, answered || board.reliable);
      var queue := board.owed;
      assert answered || before.board.reliable ==> queue == before.board.owed + [OwnAnswer(before, x)];
      assert !answered && !before.board.reliable ==> queue == before.board.owed;
      if queue == [] || (late && !before.board.reliable) {
        if torn && x.WriteKey? {
          var junk: u16 := *;
          board := before.board.(keys := before.board.keys[x.key := junk], writes := before.board.writes + 1, owed := queue);
          beyond := before.beyond;
        }
        r := Err(e);
      } else {
        board := board.(owed := queue[1..]);
        r := Ok(Handed(before, queue[0]));
      }
      assert Concluded(before, x, queue, Wired(), r);
    }

    /** A round trip whose answer must repeat the question's header. */
    method Asked(x: Exchange) returns (r: Result<Frame>)
      requires Fits(x) && !x.WriteValue?
      modifies this
      ensures Checked(old(Wired()), x, Wired(), r)
    {
      ghost var c := Wired();
      r := Roundtrip(x);
      CheckedIfEchoed(c, x, Wired(), r);
      if r.Ok? {
        var echo := ValidateEcho(r.value, Header(x));
        if echo.Err? {
          r := Err(echo.error);
        }
      }
    }

    // ── Board operations ─────────────────────────────────────────────────

    method GetProtocolVersion() returns (r: Result<u16>)
      modifies this
      ensures ReadFixed(old(board), AskVersion, board.version, board, r)
    {
      NumbersOnBoard(Wired());
      hide Owes;
      var o := Asked(AskVersion);
      r := if o.Ok? then Ok(NumberIn(o.value)) else Err(o.error);
    }

    method GetLayerCount() returns (r: Result<u8>)
      modifies this
      ensures ReadFixed(old(board), AskLayers, board.layers, board, r)
    {
      NumbersOnBoard(Wired());
      hide Owes;
      var o := Asked(AskLayers);
      r := if o.Ok? then Ok(o.value[1]) else Err(o.error);
    }

    method GetKeycode(k: Key) returns (r: Result<u16>)
      modifies this
      ensures KeyRead(old(board), k, board, r)
    {
      ghost var c := Wired();
      KeyReadOnBoard(c, k);
      hide Owes;
      var o := Asked(AskKey(k));
      if o.Ok? {
        FrontAnswer(c, AskKey(k), o.value);
      }
      r := if o.Ok? then Ok(CodeIn(o.value)) else Err(o.error);
    }

    method SetKeycode(k: Key, v: u16) returns (r: Result<()>)
      modifies this
      ensures KeyWrite(old(board), k, v, board, r)
    {
      KeyWriteOnBoard(Wired(), k, v);
      hide Owes;
      var o := Asked(WriteKey(k, v));
      r := if o.Ok? then Ok(()) else Err(o.error);
    }

    method CustomSave(c: u8) returns (r: Result<()>)
      modifies this
      ensures ChannelSave(old(board), c, board, r)
    {
      SaveOnBoard(Wired(), c);
      hide Owes;
      var o := Asked(SaveChannel(c));
      r := if o.Ok? then Ok(()) else Err(o.error);
    }

    method GetLighting(c: u8, v: u8) returns (r: Result<seq<u8>>)
      modifies this
      ensures LightRead(old(board), c, v, board, r)
    {
      ghost var was := Wired();
      ValueReadOnBoard(was, c, v);
      hide Owes;
      var o := Asked(AskValue(c, v));
      if o.Ok? {
        FrontAnswer(was, AskValue(c, v), o.value);
      }
      r := if o.Ok? then Ok(ValueIn(o.value)) else Err(o.error);
    }

    /** Whatever answer comes is taken for success. */
    method SetLighting(c: u8, v: u8, data: seq<u8>) returns (r: Result<()>)
      modifies this
      ensures LightWrite(old(board), c, v, data, board, r)
    {
      if |data| > MAX_LIGHTING_VALUE {
        return Err(ProtocolViolation);
      }
      ghost var was := Wired();
      ValueWriteOnBoard(was, c, v, data);
      var o := Roundtrip(WriteValue(c, v, data));
      ExchangeOwes(was, WriteValue(c, v, data), Wired(), o);
      hide Owes;
      r := if o.Ok? then Ok(()) else Err(o.error);
    }

    /** The size is asked for once and remembered; which call asks is left open. */
    method EnsureMacroBufferSize() returns (r: Result<u16>)
      modifies this
      ensures ReadFixed(old(board), AskMacroSize, |board.macros|, board, r) && beyond == old(beyond)
    {
      var remembered: bool := *;
      if remembered {
        OwesNothingNew(board, {AskMacroSize});
        return Ok(|board.macros|);
      }
      NumbersOnBoard(Wired());
      hide Owes;
      var o := Asked(AskMacroSize);
      r := if o.Ok? then Ok(NumberIn(o.value)) else Err(o.error);
    }

    method GetMacroBuffer(offset: u16, length: u8) returns (r: Result<seq<u8>>)
      modifies this
      ensures MacroRead(old(board), offset, length, board, r)
    {
      hide Owes;
      var x := ReadMacro(offset, length);
      ghost var b := board;
      var size := EnsureMacroBufferSize();
      ghost var mid := Wired();
      OwesWiden(b, board, {AskMacroSize}, {AskMacroSize, x}, size.Ok?);
      if size.Err? {
        return Err(size.error);
      }
      var range := ValidateMacroRange(offset, length, size.value);
      if range.Err? {
        return Err(range.error);
      }
      MacroReadOnBoard(mid, offset, length);
      var o := Asked(x);
      OwesWiden(mid.board, board, {x}, {AskMacroSize, x}, o.Ok?);
      OwesThen(b, mid.board, board, {AskMacroSize, x}, o.Ok?);
      if o.Ok? {
        NearFrontAnswer(b, mid, x, {AskMacroSize, x}, o.value);
      }
      r := if o.Ok? then Ok(ChunkIn(o.value, length)) else Err(o.error);
    }

    /** Never touches the EEPROM behind the macro buffer. */
    method SetMacroBuffer(offset: u16, data: seq<u8>) returns (r: Result<()>)
      modifies this
      ensures MacroWrite(old(board), offset, data, board, r)
      ensures beyond == old(beyond)
    {
      hide Owes;
      var x := WriteMacro(offset, data);
      ghost var b := board;
      var size := EnsureMacroBufferSize();
      ghost var mid := Wired();
      OwesWiden(b, board, {AskMacroSize}, {AskMacroSize, x}, size.Ok?);
      if size.Err? {
        return Err(size.error);
      }
      var range := ValidateMacroRange(offset, |data|, size.value);
      if range.Err? {
        return range;
      }
      MacroWriteOnBoard(mid, offset, data);
      var o := Asked(x);
      OwesWiden(mid.board, board, {x}, {AskMacroSize, x}, o.Ok?);
      OwesThen(b, mid.board, board, {AskMacroSize, x}, o.Ok?);
      r := if o.Ok? then Ok(()) else Err(o.error);
    }
  }

  /** No frame changes what faults the board has, or what it owes. */
  lemma FaultsStay(c: Chip, x: Exchange)
    requires Fits(x)
    ensures Executed(c, Request(x)).board.reliable == c.board.reliable
    ensures Executed(c, Request(x)).board.owed == c.board.owed
  {
  }

  // ── What the header check leaves open ──────────────────────────────────

  /** The frame is the answer to this very question, up to the bytes of a macro
      chunk: the one longest owed if any is, else the one given now. */
  ghost predicate Genuine(c: Chip, x: Exchange, answer: Frame)
    requires Fits(x)
  {
    if c.board.owed == [] || AsksFixed(x) then answer == Answer(c, Request(x))
    else SameQuestion(x, c.board.owed[0].asked) && answer == c.board.owed[0].answer
  }

  ghost predicate Checked(c: Chip, x: Exchange, c': Chip, r: Result<Frame>)
    requires Fits(x)
  {
    var done := Executed(c, Request(x));
    && Owes(c.board, c'.board, {x}, r.Ok?)
    && if r.Ok? then c' == Owing(done, c'.board.owed) && Genuine(c, x, r.value)
       else
         && MayFail(c.board, x)
         && (c' == Owing(c, c'.board.owed) || c' == Owing(done, c'.board.owed) || (x.WriteKey? && Torn(c, x.key, c')))
  }

  lemma OwesWhenTaken(c: Chip, x: Exchange, b': Board, own: bool, ok: bool)
    requires Fits(x)
    requires var queue := c.board.owed + (if own then [OwnAnswer(c, x)] else []);
             queue != [] && b'.owed == queue[1..]
    requires own || !c.board.reliable
    ensures Owes(c.board, b', {x}, ok)
  {
    AnswerTells(c, x);
    hide Answer;
    hide Request;
    hide Tells;
  }

  lemma OwesWhenLate(c: Chip, x: Exchange, b': Board, own: bool)
    requires Fits(x) && !c.board.reliable
    requires b'.owed == c.board.owed + if own then [OwnAnswer(c, x)] else []
    ensures Owes(c.board, b', {x}, false)
  {
    AnswerTells(c, x);
    hide Answer;
    hide Request;
    hide Tells;
  }

  lemma ExchangeOwes(c: Chip, x: Exchange, c': Chip, r: Result<Frame>)
    requires Fits(x) && Exchanged(c, x, c', r)
    ensures Owes(c.board, c'.board, {x}, false) && (r.Ok? ==> Owes(c.board, c'.board, {x}, true))
    ensures r.Ok? ==> c' == Owing(Executed(c, Request(x)), c'.board.owed)
    ensures r.Err? ==> !c.board.reliable
    ensures r.Ok? ==> (c.board.owed == [] && r.value == Answer(c, Request(x)))
                      || (c.board.owed != [] && r.value == Handed(c, c.board.owed[0]))
  {
    hide Executed;
    hide Answer;
    hide Request;
    hide Owes;
    if !c.board.reliable && r.Err? && c' == c {
      OwesNothingNew(c.board, {x});
    } else {
      var own := Concluded(c, x, c.board.owed + [OwnAnswer(c, x)], c', r);
      var queue := c.board.owed + if own then [OwnAnswer(c, x)] else [];
      assert own || queue == c.board.owed;
      assert Concluded(c, x, queue, c', r);
      if r.Ok? {
        OwesWhenTaken(c, x, c'.board, own, true);
        OwesWhenTaken(c, x, c'.board, own, false);
      } else {
        OwesWhenLate(c, x, c'.board, own);
      }
    }
  }

  lemma OwesNothingNew(b: Board, X: set<Exchange>)
    ensures Owes(b, b, X, true) && Owes(b, b, X, false)
  {
  }

  lemma OwesWiden(b: Board, b': Board, X: set<Exchange>, Y: set<Exchange>, ok: bool)
    requires Owes(b, b', X, ok) && X <= Y
    ensures Owes(b, b', Y, ok) && Owes(b, b', Y, false)
  {
  }

  lemma OwesThen(b: Board, mid: Board, b': Board, X: set<Exchange>, ok: bool)
    requires Owes(b, mid, X, true) && SameMemory(b, mid) && Owes(mid, b', X, ok)
    ensures Owes(b, b', X, ok)
  {
  }

  /** A checked answer to a read is the one at the front of the queue. */
  lemma FrontAnswer(c: Chip, x: Exchange, answer: Frame)
    requires Fits(x) && !AsksFixed(x) && !x.WriteMacro? && Genuine(c, x, answer)
    ensures exists o: Owed :: Front(c.board, x, o) && answer == o.answer
  {
    AnswerTells(c, x);
    hide Answer;
    hide Request;
    hide Tells;
    if c.board.owed == [] {
      assert Front(c.board, x, OwnAnswer(c, x));
    } else {
      assert Front(c.board, x, c.board.owed[0]);
    }
  }

  lemma NearFrontAnswer(b: Board, mid: Chip, x: Exchange, X: set<Exchange>, answer: Frame)
    requires Fits(x) && !AsksFixed(x) && !x.WriteMacro? && Genuine(mid, x, answer)
    requires Owes(b, mid.board, X, true) && SameMemory(b, mid.board)
    ensures exists o: Owed :: NearFront(b, x, o) && answer == o.answer
  {
    FrontAnswer(mid, x, answer);
    var o: Owed :| Front(mid.board, x, o) && answer == o.answer;
    assert NearFront(b, x, o);
  }

  /** The header check turns any round trip into a checked one. */
  lemma CheckedIfEchoed(c: Chip, x: Exchange, c': Chip, r: Result<Frame>)
    requires Fits(x) && !x.WriteValue? && Exchanged(c, x, c', r)
    ensures Checked(c, x, c', if r.Ok? && !Echoes(r.value, Header(x)) then Err(ProtocolViolation) else r)
  {
    ExchangeOwes(c, x, c', r);
    AnswerRepeats(c, x);
    hide Owes;
    hide Answer;
    hide Executed;
    hide Header;
    hide Request;
    if r.Ok? && c.board.owed != [] {
      var o := c.board.owed[0];
      AnswerRepeats(c, o.asked);
      EchoTellsApart(r.value, x, o.asked);
      SameHeaderIffQuestion(x, o.asked);
    }
  }

  /** A device that stalls during a read and a write of one key, and then
      catches up: the next read of the key passes the echo check with the code
      from before the write. */
  lemma StaleRead(k: Key, before: u16, after: u16) returns (c0: Chip, c1: Chip, c2: Chip, c3: Chip, a: Frame)
    ensures c0.board.owed == [] && KeyAt(c0.board.keys, k) == before
    ensures Exchanged(c0, AskKey(k), c1, Err(Timeout)) && Exchanged(c1, WriteKey(k, after), c2, Err(Timeout))
    ensures KeyAt(c2.board.keys, k) == after
    ensures Exchanged(c2, AskKey(k), c3, Ok(a)) && Echoes(a, Header(AskKey(k))) && CodeIn(a) == before
  {
    c0 := Chip(Board(map[k := before], map[], map[], [], 0, 0, 0, 0, false, []), []);
    KeyReadOnBoard(c0, k);
    c1 := Owing(c0, [OwnAnswer(c0, AskKey(k))]);
    assert Concluded(c0, AskKey(k), c0.board.owed + [OwnAnswer(c0, AskKey(k))], c1, Err(Timeout));
    KeyWriteOnBoard(c1, k, after);
    var queue := c1.board.owed + [OwnAnswer(c1, WriteKey(k, after))];
    c2 := Owing(Executed(c1, Request(WriteKey(k, after))), queue);
    assert Concluded(c1, WriteKey(k, after), queue, c2, Err(Timeout));
    KeyReadOnBoard(c2, k);
    a := queue[0].answer;
    var next := c2.board.owed + [OwnAnswer(c2, AskKey(k))];
    c3 := Owing(c2, next[1..]);
    assert next[0] == queue[0];
    assert Concluded(c2, AskKey(k), next, c3, Ok(a));
  }

  lemma SameHeaderIffQuestion(x: Exchange, y: Exchange)
    requires Fits(x) && Fits(y) && !x.WriteValue?
    ensures Header(x) == Header(y) <==> SameQuestion(x, y)
  {
    if y.WriteValue? {
      assert Header(x) != [];
    } else {
      HeadersAreDistinct(x, y);
    }
  }
}
