/** What a fault-free board stores and answers, told from the requests alone. */
module ViaStorage {
  import opened Basics
  import opened ViaFrames
  import opened ViaBoard
  import opened ViaCoalescer
  import opened ViaRuns

  // ── Lighting ───────────────────────────────────────────────────────────

  /** The data of the last accepted write of a lighting value. */
  function LastLight(trace: seq<Event>, c: u8, v: u8): Option<seq<u8>> {
    if trace == [] then None
    else
      match trace[|trace| - 1]
      case Serve(SetLighting(d, w, data), Done) => if d == c && w == v then Some(data) else LastLight(trace[..|trace| - 1], c, v)
      case _ => LastLight(trace[..|trace| - 1], c, v)
  }

  /** Byte `i` of a lighting value, zero past what was written. */
  function ByteOf(value: seq<u8>, i: nat): u8 {
    if i < |value| then value[i] else 0
  }

  lemma FlushKeepsRam(s: Cache, e: Event, s': Cache)
    requires Step(s, e, s') && (e.Timer? || e.Close? || (e.Serve? && e.request.Flush?))
    ensures s'.board.ram == s.board.ram && s'.board.macros == s.board.macros
    ensures s'.board.version == s.board.version && s'.board.layers == s.board.layers
  {
    hide AfterFlush;
    hide AfterTimer;
    hide AfterClose;
    hide Owes;
    var mid := Drained(s, s');
  }

  lemma LightStep(s: Cache, e: Event, s': Cache, c: u8, v: u8)
    requires Step(s, e, s') && Faultless(s.board)
    ensures e.Serve? && e.request.SetLighting? ==> (e.reply == Done <==> |e.request.data| <= 29)
    ensures var now, was := LitValue(s'.board.ram, c, v), LitValue(s.board.ram, c, v);
            if e.Serve? && e.request.SetLighting? && e.reply == Done && e.request.channel == c && e.request.value == v
            then forall i :: 0 <= i < 29 ==> now[i] == ByteOf(e.request.data, i)
            else now == was
  {
    hide Owes;
    if e.Timer? || e.Close? || (e.Serve? && e.request.Flush?) {
      FlushKeepsRam(s, e, s');
    } else if e.Serve? && e.request.SetLighting? {
      var d, data := e.request.channel, e.request.data;
      var r :| LightWrite(s.board, d, e.request.value, data, s'.board, r) && e.reply == Ack(r);
    } else {
      OtherKeepsStorage(s, e, s');
    }
  }

  /** Over every fault-free run each lighting value is the last one accepted for
      it, zero filled, and was the initial one before; a write is accepted
      exactly if it is at most 29 bytes long. */
  lemma {:induction false} LightingIsLast(states: seq<Cache>, trace: seq<Event>, n: nat, c: u8, v: u8)
    requires IsRun(states, trace) && n <= |trace| && Faultless(states[0].board)
    ensures Faultless(states[n].board)
    ensures var last := LastLight(trace[..n], c, v);
            forall i :: 0 <= i < 29 ==>
              LitValue(states[n].board.ram, c, v)[i] ==
              if last.Some? then ByteOf(last.value, i) else LitValue(states[0].board.ram, c, v)[i]
    ensures n > 0 && trace[n - 1].Serve? && trace[n - 1].request.SetLighting? ==>
              (trace[n - 1].reply == Done <==> |trace[n - 1].request.data| <= 29)
  {
    hide Step;
    LagPersists(states, trace, n);
    if n > 0 {
      LightingIsLast(states, trace, n - 1, c, v);
      LightStep(states[n - 1], trace[n - 1], states[n], c, v);
      assert trace[..n][..n - 1] == trace[..n - 1];
    }
  }

  // ── What is saved, and when ────────────────────────────────────────────

  /** Only a commit or a close saves, and only channels that were waiting; a
      commit answered Done costs one save for each of them. */
  lemma SavingStep(s: Cache, e: Event, s': Cache)
    requires Step(s, e, s')
    ensures !e.Close? && !(e.Serve? && e.request.Flush?) ==>
              s'.board.nvram == s.board.nvram && s'.board.saves == s.board.saves
    ensures forall c :: c !in s.touched ==> Channel(s'.board.nvram, c) == Channel(s.board.nvram, c)
    ensures forall c :: c in s.touched && c !in s'.touched ==> Channel(s'.board.nvram, c) == Channel(s'.board.ram, c)
    ensures e == Event.Serve(Flush, Done) ==> s'.touched == {} && s'.board.saves == s.board.saves + |s.touched|
  {
    hide Owes;
    if e.Timer? || e.Close? || (e.Serve? && e.request.Flush?) {
      FlushSaves(s, e, s');
    } else if e.Serve? && e.request.SetLighting? {
    } else {
      OtherKeepsStorage(s, e, s');
    }
  }

  lemma FlushSaves(s: Cache, e: Event, s': Cache)
    requires Step(s, e, s') && (e.Timer? || e.Close? || (e.Serve? && e.request.Flush?))
    ensures e.Timer? ==> s'.board.nvram == s.board.nvram && s'.board.saves == s.board.saves && s'.touched == s.touched
    ensures forall c :: c !in s.touched ==> Channel(s'.board.nvram, c) == Channel(s.board.nvram, c)
    ensures forall c :: c in s.touched && c !in s'.touched ==> Channel(s'.board.nvram, c) == Channel(s'.board.ram, c)
    ensures e == Event.Serve(Flush, Done) ==> s'.touched == {} && s'.board.saves == s.board.saves + |s.touched|
  {
    hide Flushed;
    hide Owes;
    hide Channel;
    if e.Timer? {
      FlushKeepsStorage(s.board, s.buffer, s'.board, s'.buffer);
    } else {
      hide AfterFlush;
      hide AfterTimer;
      hide AfterClose;
      var mid := Drained(s, s');
      FlushKeepsStorage(s.board, s.buffer, mid, s'.buffer);
    }
  }

  // ── Macros ─────────────────────────────────────────────────────────────

  /** What the last accepted write over byte `i` put there. */
  function LastByte(trace: seq<Event>, i: nat): Option<u8> {
    if trace == [] then None
    else
      match trace[|trace| - 1]
      case Serve(SetMacro(offset, data), Done) =>
        if offset <= i < offset + |data| then Some(data[i - offset]) else LastByte(trace[..|trace| - 1], i)
      case _ => LastByte(trace[..|trace| - 1], i)
  }

  lemma MacroStep(s: Cache, e: Event, s': Cache, i: nat)
    requires Step(s, e, s') && Faultless(s.board) && i < |s.board.macros|
    ensures |s'.board.macros| == |s.board.macros|
    ensures e.Serve? && e.request.SetMacro? ==>
              (e.reply == Done <==> |e.request.data| <= 28 && e.request.offset + |e.request.data| <= |s.board.macros|)
    ensures s'.board.macros[i] ==
            if e.Serve? && e.request.SetMacro? && e.reply == Done
               && e.request.offset <= i < e.request.offset + |e.request.data|
            then e.request.data[i - e.request.offset] else s.board.macros[i]
  {
    hide Owes;
    StepKeepsSize(s, e, s');
    if e.Timer? || e.Close? || (e.Serve? && e.request.Flush?) {
      FlushKeepsRam(s, e, s');
    }
  }

  /** Over every fault-free run each byte of the macro buffer is what the last
      accepted write over it put there, and was the initial one before; a chunk
      is accepted exactly if it is at most 28 bytes long and ends within the
      buffer. */
  lemma {:induction false} MacrosAreLast(states: seq<Cache>, trace: seq<Event>, n: nat, i: nat)
    requires IsRun(states, trace) && n <= |trace| && Faultless(states[0].board) && i < |states[0].board.macros|
    ensures |states[n].board.macros| == |states[0].board.macros|
    ensures var last := LastByte(trace[..n], i);
            states[n].board.macros[i] == if last.Some? then last.value else states[0].board.macros[i]
    ensures n > 0 && trace[n - 1].Serve? && trace[n - 1].request.SetMacro? ==>
              var offset, data := trace[n - 1].request.offset, trace[n - 1].request.data;
              (trace[n - 1].reply == Done <==> |data| <= 28 && offset + |data| <= |states[0].board.macros|)
  {
    hide Step;
    SizeStays(states, trace, n);
    if n > 0 {
      MacrosAreLast(states, trace, n - 1, i);
      LagPersists(states, trace, n - 1);
      MacroStep(states[n - 1], trace[n - 1], states[n], i);
      assert trace[..n][..n - 1] == trace[..n - 1];
    }
  }

  // ── What never changes ─────────────────────────────────────────────────

  lemma FixedStep(s: Cache, e: Event, s': Cache)
    requires Step(s, e, s')
    ensures s'.board.version == s.board.version && s'.board.layers == s.board.layers
    ensures e.Serve? && e.request.GetProtocolVersion? ==>
              if Faultless(s.board) then e.reply == Number(s.board.version)
              else e.reply == Number(s.board.version) || e.reply.Failed?
    ensures e.Serve? && e.request.GetLayerCount? ==>
              if Faultless(s.board) then e.reply == Number(s.board.layers)
              else e.reply == Number(s.board.layers) || e.reply.Failed?
  {
    hide Owes;
    if e.Timer? || e.Close? || (e.Serve? && e.request.Flush?) {
      FlushKeepsRam(s, e, s');
    }
  }

  lemma {:induction false} FixedStays(states: seq<Cache>, trace: seq<Event>, n: nat)
    requires IsRun(states, trace) && n <= |trace|
    ensures states[n].board.version == states[0].board.version && states[n].board.layers == states[0].board.layers
  {
    hide Step;
    if n > 0 {
      FixedStays(states, trace, n - 1);
      FixedStep(states[n - 1], trace[n - 1], states[n]);
    }
  }

  /** Over every run, on any board, version and layer count are answered with the
      board's own or fail, and do not fail where nothing does. */
  lemma FixedReadsOverRuns(states: seq<Cache>, trace: seq<Event>, n: nat)
    requires IsRun(states, trace) && n < |trace| && trace[n].Serve?
    ensures trace[n].request.GetProtocolVersion? ==>
              trace[n].reply == Number(states[0].board.version) || (trace[n].reply.Failed? && !Faultless(states[n].board))
    ensures trace[n].request.GetLayerCount? ==>
              trace[n].reply == Number(states[0].board.layers) || (trace[n].reply.Failed? && !Faultless(states[n].board))
  {
    FixedStays(states, trace, n);
    FixedStep(states[n], trace[n], states[n + 1]);
    hide Step;
  }
}
