/** On a fault-free board the coalescer cannot be told from the unbuffered
    driver. */
module ViaRefinement {
  import opened Basics
  import opened ViaFrames
  import opened ViaBoard
  import opened ViaCoalescer
  import opened ViaRuns
  import ViaDirect

  ghost predicate SameLighting(a: Lighting, b: Lighting) {
    forall c :: Channel(a, c) == Channel(b, c)
  }

  /** The unbuffered driver's board is the coalescer's view, and it has written
      at least as often. */
  ghost predicate Simulates(s: Cache, p: ViaDirect.Plain) {
    && Faultless(s.board) && Faultless(p.board)
    && p.board.keys == View(s)
    && p.board.ram == s.board.ram
    && SameLighting(p.board.nvram, s.board.nvram)
    && p.board.macros == s.board.macros
    && p.board.layers == s.board.layers && p.board.version == s.board.version
    && p.touched == s.touched
    && p.board.saves == s.board.saves
    && s.board.writes + |s.buffer| <= p.board.writes
  }

  function SavedAll(b: Board, touched: set<u8>): Board {
    b.(nvram := b.nvram + (map c | c in touched :: Channel(b.ram, c)), saves := b.saves + |touched|)
  }

  lemma SavedAllSaves(b: Board, touched: set<u8>)
    ensures SavedChannels(b, touched, SavedAll(b, touched), {})
  {
    var b' := SavedAll(b, touched);
    forall c ensures Channel(b'.nvram, c) == if c in touched then Channel(b.ram, c) else Channel(b.nvram, c) {}
  }

  lemma FaultlessSave(b: Board, touched: set<u8>, b': Board, touched': set<u8>)
    requires SavedChannels(b, touched, b', touched') && Faultless(b)
    ensures touched' == {} && Faultless(b') && b' == b.(nvram := b'.nvram, saves := b.saves + |touched|)
    ensures forall c :: Channel(b'.nvram, c) == if c in touched then Channel(b.ram, c) else Channel(b.nvram, c)
  {
  }

  lemma FaultlessFlush(b: Board, buffer: Keymap, b': Board, buffer': Keymap)
    requires Flushed(b, buffer, b', buffer') && Faultless(b)
    ensures buffer' == map[] && Faultless(b') && b' == b.(keys := b'.keys, writes := b.writes + |buffer|)
    ensures b'.keys == b.keys + buffer
  {
    FlushKeepsView(b, buffer, b', buffer');
  }

  /** What a save of all channels makes of the NVRAM. */
  ghost predicate AllSaved(b: Board, touched: set<u8>, b': Board) {
    && b' == b.(nvram := b'.nvram, saves := b.saves + |touched|)
    && forall c :: Channel(b'.nvram, c) == if c in touched then Channel(b.ram, c) else Channel(b.nvram, c)
  }

  lemma DirectFlush(p: ViaDirect.Plain) returns (p': ViaDirect.Plain)
    requires Faultless(p.board)
    ensures ViaDirect.Called(p, Flush, Done, p') && p'.touched == {} && AllSaved(p.board, p.touched, p'.board)
  {
    p' := ViaDirect.Plain(SavedAll(p.board, p.touched), {});
    SavedAllSaves(p.board, p.touched);
    FaultlessSave(p.board, p.touched, p'.board, {});
    hide SavedChannels;
    hide Channel;
  }

  lemma CachedFlush(s: Cache, reply: Reply, s': Cache)
    requires AfterFlush(s, s', reply) && Faultless(s.board)
    ensures reply == Done && s'.buffer == map[] && s'.touched == {}
    ensures AllSaved(s.board.(keys := View(s), writes := s.board.writes + |s.buffer|), s.touched, s'.board)
  {
    hide Flushed;
    hide SavedChannels;
    hide Channel;
    var mid := Drained(s, s');
    FaultlessFlush(s.board, s.buffer, mid, s'.buffer);
    assert s'.buffer == map[];
    var drained :| Flushed(s.board, s.buffer, drained, map[]) && SavedChannels(drained, s.touched, s'.board, s'.touched);
    FaultlessFlush(s.board, s.buffer, drained, map[]);
    FaultlessSave(drained, s.touched, s'.board, s'.touched);
    assert drained == s.board.(keys := View(s), writes := s.board.writes + |s.buffer|);
  }

  lemma SimulatedFlush(s: Cache, reply: Reply, s': Cache, p: ViaDirect.Plain) returns (p': ViaDirect.Plain)
    requires s.open && AfterFlush(s, s', reply) && Simulates(s, p)
    ensures ViaDirect.Called(p, Flush, reply, p') && Simulates(s', p')
  {
    CachedFlush(s, reply, s');
    hide AfterFlush;
    p' := DirectFlush(p);
    hide ViaDirect.Called;
    hide Channel;
    forall c ensures Channel(p'.board.nvram, c) == Channel(s'.board.nvram, c) {
      assert Channel(p.board.nvram, c) == Channel(s.board.nvram, c);
    }
    DrainedView(s');
  }

  lemma DrainedView(s: Cache)
    requires s.buffer == map[]
    ensures View(s) == s.board.keys
  {
  }

  lemma DirectSet(p: ViaDirect.Plain, k: Key, v: u16)
    requires Faultless(p.board)
    ensures ViaDirect.Called(p, SetKeycode(k, v), Done, p.(board := WroteKey(p.board, k, v)))
  {
    var b := WroteKey(p.board, k, v);
    assert KeyWrite(p.board, k, v, b, Ok(()));
    assert Ack(Ok(())) == Done;
    hide KeyWrite;
  }

  lemma SetView(s: Cache, k: Key, v: u16)
    ensures View(AfterSet(s, k, v)) == View(s)[k := v]
    ensures |AfterSet(s, k, v).buffer| <= |s.buffer| + 1
  {
    OverlaySet(s.board.keys, s.buffer, k, v);
    SetGrows(s.buffer, k, v);
    assert AfterSet(s, k, v).buffer == s.buffer[k := v] && AfterSet(s, k, v).board == s.board;
    hide AfterSet;
  }

  lemma OverlaySet(under: Keymap, m: Keymap, k: Key, v: u16)
    ensures under + m[k := v] == (under + m)[k := v]
  {
  }

  lemma SetGrows(m: Keymap, k: Key, v: u16)
    ensures |m[k := v]| <= |m| + 1
  {
    assert m[k := v].Keys == m.Keys + {k};
  }

  lemma SimulatedSet(s: Cache, k: Key, v: u16, s': Cache, p: ViaDirect.Plain) returns (p': ViaDirect.Plain)
    requires s' == AfterSet(s, k, v) && Simulates(s, p)
    ensures ViaDirect.Called(p, SetKeycode(k, v), Done, p') && Simulates(s', p')
  {
    p' := p.(board := WroteKey(p.board, k, v));
    DirectSet(p, k, v);
    SetView(s, k, v);
    hide ViaDirect.Called;
    hide View;
    hide SameLighting;
  }

  lemma SimulatedMacroWrite(s: Cache, offset: u16, data: seq<u8>, reply: Reply, s': Cache, p: ViaDirect.Plain)
    returns (p': ViaDirect.Plain)
    requires Served(s, SetMacro(offset, data), reply, s') && Simulates(s, p)
    ensures ViaDirect.Called(p, SetMacro(offset, data), reply, p') && Simulates(s', p')
  {
    var r :| MacroWrite(s.board, offset, data, s'.board, r) && reply == Ack(r);
    p' := p.(board := p.board.(macros := s'.board.macros));
    assert MacroWrite(p.board, offset, data, p'.board, r);
  }

  lemma SimulatedLight(s: Cache, c: u8, v: u8, data: seq<u8>, reply: Reply, s': Cache, p: ViaDirect.Plain)
    returns (p': ViaDirect.Plain)
    requires Served(s, SetLighting(c, v, data), reply, s') && Simulates(s, p)
    ensures ViaDirect.Called(p, SetLighting(c, v, data), reply, p') && Simulates(s', p')
  {
    var r :| LightWrite(s.board, c, v, data, s'.board, r) && reply == Ack(r);
    p' := ViaDirect.Plain(p.board.(ram := s'.board.ram), s'.touched);
    assert LightWrite(p.board, c, v, data, p'.board, r);
  }

  predicate IsRead(request: Request) {
    !request.SetKeycode? && !request.SetMacro? && !request.SetLighting? && !request.Flush?
  }

  lemma AnswerWithCode(k: Key, v: u16) returns (o: Owed)
    ensures o.asked == AskKey(k) && CodeIn(o.answer) == v
  {
    var a: Frame := Filled([GET_KEYCODE, k.layer, k.row, k.col, Hi(v), Lo(v)]);
    assert a[..4] == Header(AskKey(k));
    WordRoundTrips(v);
    o := Report(AskKey(k), a);
  }

  lemma SimulatedKeyRead(s: Cache, k: Key, reply: Reply, s': Cache, p: ViaDirect.Plain)
    requires Served(s, GetKeycode(k), reply, s') && Simulates(s, p)
    ensures ViaDirect.Called(p, GetKeycode(k), reply, p) && s' == s
  {
    ServedMovesView(s, GetKeycode(k), reply, s');
    var v := KeyAt(p.board.keys, k);
    assert reply == AckNumber(Ok(v));
    var o := AnswerWithCode(k, v);
    assert Front(p.board, AskKey(k), o);
    assert KeyRead(p.board, k, p.board, Ok(v));
  }

  lemma SimulatedRead(s: Cache, request: Request, reply: Reply, s': Cache, p: ViaDirect.Plain)
    requires IsRead(request) && Served(s, request, reply, s') && Simulates(s, p)
    ensures ViaDirect.Called(p, request, reply, p) && s' == s
  {
    match request
    case GetKeycode(k) => SimulatedKeyRead(s, k, reply, s', p);
    case GetMacro(offset, length) =>
      var r :| MacroRead(s.board, offset, length, s'.board, r) && reply == AckBytes(r);
      if r.Ok? {
        var o: Owed :| NearFront(s.board, ReadMacro(offset, length), o) && r.value == ChunkIn(o.answer, length);
        assert NearFront(p.board, ReadMacro(offset, length), o);
      }
      assert MacroRead(p.board, offset, length, p.board, r);
    case GetLighting(c, v) =>
      var r :| LightRead(s.board, c, v, s'.board, r) && reply == AckBytes(r);
      var o: Owed :| Front(s.board, AskValue(c, v), o) && r.value == ValueIn(o.answer);
      assert Front(p.board, AskValue(c, v), o);
      assert LightRead(p.board, c, v, p.board, r);
    case GetLayerCount =>
      var r :| ReadFixed(s.board, AskLayers, s.board.layers as u16, s'.board, r) && reply == AckNumber(r);
      assert ReadFixed(p.board, AskLayers, p.board.layers as u16, p.board, r);
    case GetProtocolVersion =>
      var r :| ReadFixed(s.board, AskVersion, s.board.version, s'.board, r) && reply == AckNumber(r);
      assert ReadFixed(p.board, AskVersion, p.board.version, p.board, r);
  }

  /** The unbuffered driver does nothing where the coalescer's timer fires,
      time passes, or the channel closes. */
  ghost predicate Mirrors(p: ViaDirect.Plain, e: Event, p': ViaDirect.Plain) {
    if e.Serve? then ViaDirect.Called(p, e.request, e.reply, p') else p' == p
  }

  lemma SimulatedTimer(s: Cache, s': Cache, p: ViaDirect.Plain)
    requires AfterTimer(s, s') && Simulates(s, p)
    ensures Simulates(s', p)
  {
    FaultlessFlush(s.board, s.buffer, s'.board, s'.buffer);
    hide Flushed;
    forall c ensures Channel(p.board.nvram, c) == Channel(s'.board.nvram, c) {
      assert Channel(p.board.nvram, c) == Channel(s.board.nvram, c);
    }
  }

  lemma SimulatedStep(s: Cache, e: Event, s': Cache, p: ViaDirect.Plain) returns (p': ViaDirect.Plain)
    requires Step(s, e, s') && Simulates(s, p) && !e.Close?
    ensures Mirrors(p, e, p') && Simulates(s', p')
  {
    hide ViaDirect.Called;
    hide AfterFlush;
    hide AfterTimer;
    p' := p;
    match e {
      case Serve(SetKeycode(k, v), _) => p' := SimulatedSet(s, k, v, s', p);
      case Serve(Flush, reply) => p' := SimulatedFlush(s, reply, s', p);
      case Serve(SetMacro(offset, data), reply) => p' := SimulatedMacroWrite(s, offset, data, reply, s', p);
      case Serve(SetLighting(c, v, data), reply) => p' := SimulatedLight(s, c, v, data, reply, s', p);
      case Serve(request, reply) => SimulatedRead(s, request, reply, s', p);
      case Timer => SimulatedTimer(s, s', p);
      case Elapse(_) =>
    }
  }

  /** Refinement: on a fault-free board every run of the coalescer, timer
      flushes anywhere, is matched by the unbuffered driver giving the same
      replies to the same calls, its keymap always the coalescer's view. */
  lemma {:induction false} CoalescingRefinesDirect(states: seq<Cache>, trace: seq<Event>, p: ViaDirect.Plain)
    returns (plains: seq<ViaDirect.Plain>)
    requires IsRun(states, trace) && Simulates(states[0], p)
    requires Close !in trace
    ensures |plains| == |states| && plains[0] == p
    ensures forall i :: 0 <= i < |states| ==> Simulates(states[i], plains[i])
    ensures forall i :: 0 <= i < |trace| ==> Mirrors(plains[i], trace[i], plains[i + 1])
  {
    hide Step;
    hide Simulates;
    hide Mirrors;
    if trace == [] {
      plains := [p];
    } else {
      var n := |trace| - 1;
      assert IsRun(states[..n + 1], trace[..n]);
      plains := CoalescingRefinesDirect(states[..n + 1], trace[..n], p);
      assert trace[n] in trace;
      var p' := SimulatedStep(states[n], trace[n], states[n + 1], plains[n]);
      plains := plains + [p'];
    }
  }

  /** On a fault-free board the unbuffered driver has one possible reply to each
      call, so matching replies are forced, not chosen. */
  lemma DirectRepliesAreForced(p: ViaDirect.Plain, request: Request,
                               r1: Reply, p1: ViaDirect.Plain, r2: Reply, p2: ViaDirect.Plain)
    requires Faultless(p.board)
    requires ViaDirect.Called(p, request, r1, p1) && ViaDirect.Called(p, request, r2, p2)
    ensures r1 == r2 && p1.touched == p2.touched
    ensures p1.board == p2.board.(nvram := p1.board.nvram) && SameLighting(p1.board.nvram, p2.board.nvram)
  {
  }

  predicate SameRequests(calls: seq<(Request, Reply)>, answers: seq<(Request, Reply)>) {
    |calls| == |answers| && forall i :: 0 <= i < |calls| ==> calls[i].0 == answers[i].0
  }

  /** What the unbuffered driver may differ in does not matter to a match. */
  lemma SimulatesUpToNvram(s: Cache, p: ViaDirect.Plain, q: ViaDirect.Plain)
    requires Simulates(s, p) && q.touched == p.touched
    requires q.board == p.board.(nvram := q.board.nvram) && SameLighting(q.board.nvram, p.board.nvram)
    ensures Simulates(s, q)
  {
    forall c ensures Channel(q.board.nvram, c) == Channel(s.board.nvram, c) {
      assert Channel(p.board.nvram, c) == Channel(s.board.nvram, c);
      assert Channel(q.board.nvram, c) == Channel(p.board.nvram, c);
    }
  }

  /** One call of any direct run, beside the coalescer's step that served it. */
  lemma ForcedStep(s: Cache, request: Request, reply: Reply, s': Cache,
                   p: ViaDirect.Plain, answer: Reply, q: ViaDirect.Plain)
    requires Step(s, Event.Serve(request, reply), s') && Simulates(s, p)
    requires ViaDirect.Called(p, request, answer, q)
    ensures answer == reply && Simulates(s', q)
  {
    var p' := SimulatedStep(s, Event.Serve(request, reply), s', p);
    assert Faultless(p.board);
    hide Step;
    hide Simulates;
    DirectRepliesAreForced(p, request, reply, p', answer, q);
    hide ViaDirect.Called;
    assert SameLighting(q.board.nvram, p'.board.nvram);
    SimulatesUpToNvram(s', p', q);
  }

  /** Indistinguishable: on a fault-free board, every run of the unbuffered
      driver over the same requests gives the coalescer's replies, whatever the
      timer did in between, and stays matched to it; and after each commit the
      two hardware keymaps are equal. */
  lemma {:induction false} EveryDirectRunAgrees(states: seq<Cache>, trace: seq<Event>,
                                                plains: seq<ViaDirect.Plain>, calls: seq<(Request, Reply)>)
    requires IsRun(states, trace) && Close !in trace
    requires IsDirectRun(plains, calls) && Simulates(states[0], plains[0])
    requires SameRequests(calls, Answers(trace))
    ensures calls == Answers(trace) && Simulates(states[|trace|], plains[|calls|])
    ensures trace != [] && trace[|trace| - 1] == Event.Serve(Flush, Done) ==>
              states[|trace|].board.keys == plains[|calls|].board.keys
  {
    hide Step;
    hide Simulates;
    hide ViaDirect.Called;
    if trace != [] {
      var n := |trace| - 1;
      assert trace[n] in trace;
      assert IsRun(states[..n + 1], trace[..n]);
      if trace[n].Serve? {
        var m := |calls| - 1;
        assert Answers(trace) == Answers(trace[..n]) + [(trace[n].request, trace[n].reply)];
        assert SameRequests(calls[..m], Answers(trace[..n]));
        assert IsDirectRun(plains[..m + 1], calls[..m]);
        EveryDirectRunAgrees(states[..n + 1], trace[..n], plains[..m + 1], calls[..m]);
        ForcedStep(states[n], trace[n].request, trace[n].reply, states[n + 1], plains[m], calls[m].1, plains[m + 1]);
        assert calls == calls[..m] + [calls[m]];
        if trace[n] == Event.Serve(Flush, Done) {
          FlushedKeymapsAgree(states[n], states[n + 1], plains[m + 1]);
        }
      } else {
        assert Answers(trace) == Answers(trace[..n]);
        EveryDirectRunAgrees(states[..n + 1], trace[..n], plains, calls);
        var q := SimulatedStep(states[n], trace[n], states[n + 1], plains[|calls|]);
      }
    }
  }

  lemma FlushedKeymapsAgree(s: Cache, s': Cache, p: ViaDirect.Plain)
    requires Step(s, Event.Serve(Flush, Done), s') && Simulates(s', p)
    ensures s'.board.keys == p.board.keys
  {
    StepMovesView(s, Event.Serve(Flush, Done), s');
  }

  /** At the end of a fault-free session the keymaps agree, and the coalescer
      has nothing left to lose. The unbuffered driver saves no lighting when it
      goes away, so the two NVRAMs agree exactly if it had nothing unsaved. */
  lemma CloseAgrees(s: Cache, s': Cache, p: ViaDirect.Plain)
    requires Simulates(s, p) && Step(s, Close, s')
    ensures s'.board.keys == p.board.keys && s'.buffer == map[] && s'.touched == {}
    ensures SameLighting(s'.board.nvram, p.board.nvram)
            <==> forall c :: c in p.touched ==> Channel(p.board.nvram, c) == Channel(p.board.ram, c)
  {
    hide Flushed;
    hide SavedChannels;
    hide Channel;
    var drained :| Flushed(s.board, s.buffer, drained, s'.buffer) && SavedAtClose(drained, s.touched, s'.board, s'.touched);
    FaultlessFlush(s.board, s.buffer, drained, s'.buffer);
    if s.touched != {} {
      FaultlessSave(drained, s.touched, s'.board, s'.touched);
    }
    forall c ensures Channel(s'.board.nvram, c)
        == if c in p.touched then Channel(p.board.ram, c) else Channel(p.board.nvram, c) {
      assert Channel(p.board.nvram, c) == Channel(s.board.nvram, c);
    }
  }

  lemma CloseOf(s: Cache) returns (s': Cache)
    requires s.open && s.buffer == map[] && s.born == map[]
    ensures Step(s, Close, s')
  {
    s' := s.(board := SavedAll(s.board, s.touched), touched := {}, open := false);
    SavedAllSaves(s.board, s.touched);
    if s.touched == {} {
      assert SavedAll(s.board, {}) == s.board;
    }
    assert Flushed(s.board, s.buffer, s.board, map[]);
    assert SavedAtClose(s.board, s.touched, s'.board, s'.touched);
    assert Surviving(s.born, s.buffer) == map[];
    hide SavedChannels;
    hide Flushed;
  }

  lemma LitOnce(b: Board) returns (lit: Board)
    requires b.nvram == map[]
    ensures LightWrite(b, 0, 1, [5], lit, Ok(())) && lit == b.(ram := lit.ram)
    ensures Channel(lit.nvram, 0) != Channel(lit.ram, 0)
  {
    lit := Lit(b, 0, 1, [5]);
    assert 1 in Channel(lit.ram, 0);
  }

  /** The NVRAMs can differ: one lighting write, never committed. */
  lemma UnsavedLightingIsDropped() returns (s0: Cache, s1: Cache, s2: Cache, p0: ViaDirect.Plain, p1: ViaDirect.Plain)
    ensures Simulates(s0, p0) && IsRun([s0, s1, s2], [Event.Serve(SetLighting(0, 1, [5]), Done), Close])
    ensures ViaDirect.Called(p0, SetLighting(0, 1, [5]), Done, p1) && Simulates(s1, p1)
    ensures !SameLighting(s2.board.nvram, p1.board.nvram)
  {
    var b := Board(map[], map[], map[], [], 0, 0, 0, 0, true, []);
    s0, p0 := Cache(b, map[], None, {}, 0, 0, 1, true, map[], 0), ViaDirect.Plain(b, {});
    var lit := LitOnce(b);
    hide LightWrite;
    hide Lit;
    hide Channel;
    hide AfterClose;
    s1, p1 := s0.(board := lit, touched := {0}), ViaDirect.Plain(lit, {0});
    assert Ack(Ok(())) == Done;
    assert Step(s0, Event.Serve(SetLighting(0, 1, [5]), Done), s1);
    s2 := CloseOf(s1);
    hide Step;
    CloseAgrees(s1, s2, p1);
  }
}
