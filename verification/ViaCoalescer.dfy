/** The write-coalescing actor: a write-back cache in front of the firmware
    keymap, with a non-sliding flush deadline and deferred lighting saves. */
module ViaCoalescer {
  import opened Basics
  import opened ViaFrames
  import opened ViaBoard
  import opened ViaTransport

  datatype Request =
    | GetProtocolVersion
    | GetLayerCount
    | GetKeycode(key: Key)
    | SetKeycode(key: Key, code: u16)
    | Flush
    | GetMacro(offset: u16, length: u8)
    | SetMacro(offset: u16, data: seq<u8>)
    | GetLighting(channel: u8, value: u8)
    | SetLighting(channel: u8, value: u8, data: seq<u8>)

  datatype Reply =
    | Done
    | Number(n: u16)
    | Bytes(bytes: seq<u8>)
    | Failed(error: DriverError)

  function Ack(r: Result<()>): Reply {
    if r.Ok? then Done else Failed(r.error)
  }

  function AckNumber(r: Result<u16>): Reply {
    if r.Ok? then Number(r.value) else Failed(r.error)
  }

  function AckBytes(r: Result<seq<u8>>): Reply {
    if r.Ok? then Bytes(r.value) else Failed(r.error)
  }

  /** The actor's state as one value. The last two fields are history: when
      each buffered key entered the buffer, and when the deadline was last
      armed other than by a set into an empty buffer. */
  datatype Cache = Cache(
    board: Board,
    buffer: Keymap,
    deadline: Option<nat>,
    touched: set<u8>,
    layoutEvents: nat,
    clock: nat,
    interval: nat,
    open: bool,
    born: map<Key, nat>,
    rearmed: nat)

  datatype Event =
    | Serve(request: Request, reply: Reply)
    | Timer
    | Elapse(to: nat)
    | Close

  /** What a reader sees: the hardware overlaid by the buffer. */
  function View(s: Cache): Keymap {
    s.board.keys + s.buffer
  }

  // ── Flushing and saving, as relations ──────────────────────────────────

  /** Keys that left the buffer are on the board and nothing else moved, but
      for one failed write that may have left anything at its own key, which
      is still buffered. That one write, carried out or not, is the only one
      beyond those that left the buffer. */
  ghost predicate Flushed(b: Board, buffer: Keymap, b': Board, buffer': Keymap) {
    && b' == b.(keys := b'.keys, writes := b'.writes, owed := b'.owed)
    && Owes(b, b', WritesOf(buffer), buffer' == map[])
    && buffer'.Keys <= buffer.Keys
    && (forall k :: k in buffer' ==> buffer'[k] == buffer[k])
    && (forall k :: k in buffer && k !in buffer' ==> k in b'.keys && b'.keys[k] == buffer[k])
    && (forall k :: k !in buffer ==> SameAt(b.keys, b'.keys, k))
    && (buffer' == map[] || exists f :: f in buffer' && UntouchedBut(b.keys, b'.keys, buffer', f))
    && b.writes + |buffer| <= b'.writes + |buffer'| <= b.writes + |buffer| + (if buffer' == map[] then 0 else 1)
    && (Faultless(b) ==> buffer' == map[])
  }

  function WritesOf(buffer: Keymap): set<Exchange> {
    set k | k in buffer :: WriteKey(k, buffer[k])
  }

  function SavesOf(channels: set<u8>): set<Exchange> {
    set c | c in channels :: SaveChannel(c)
  }

  ghost predicate UntouchedBut(hw: Keymap, hw': Keymap, buffer': Keymap, f: Key) {
    forall k :: k in buffer' && k != f ==> SameAt(hw, hw', k)
  }

  /** Channels that left the touched set are persisted, at one save each; a save
      that failed may have been carried out. */
  ghost predicate SavedChannels(b: Board, touched: set<u8>, b': Board, touched': set<u8>) {
    && b' == b.(nvram := b'.nvram, saves := b'.saves, owed := b'.owed)
    && Owes(b, b', SavesOf(touched), touched' == {})
    && touched' <= touched
    && (forall c :: c in touched && c !in touched' ==> Channel(b'.nvram, c) == Channel(b.ram, c))
    && (forall c :: c !in touched ==> Channel(b'.nvram, c) == Channel(b.nvram, c))
    && (forall c :: c in touched' ==>
          Channel(b'.nvram, c) == Channel(b.nvram, c) || Channel(b'.nvram, c) == Channel(b.ram, c))
    && b.saves + |touched| <= b'.saves + |touched'| <= b.saves + |touched| + (if touched' == {} then 0 else 1)
    && (Faultless(b) ==> touched' == {})
  }

  // ── A flush is invisible to readers ────────────────────────────────────

  lemma FlushKeepsView(b: Board, buffer: Keymap, b': Board, buffer': Keymap)
    requires Flushed(b, buffer, b', buffer')
    ensures b'.keys + buffer' == b.keys + buffer
    ensures buffer' == map[] ==> b'.keys == b.keys + buffer
    ensures Faultless(b) ==> buffer' == map[]
  {
    hide Owes;
    forall k ensures SameAt(b'.keys + buffer', b.keys + buffer, k) {
      if k !in buffer {
        assert SameAt(b.keys, b'.keys, k);
      }
    }
    SameEverywhere(b'.keys + buffer', b.keys + buffer);
  }

  // ── One event ──────────────────────────────────────────────────────────

  function Surviving(born: map<Key, nat>, buffer: Keymap): map<Key, nat> {
    map k | k in born && k in buffer :: born[k]
  }

  function AfterSet(s: Cache, k: Key, v: u16): Cache {
    s.(buffer := s.buffer[k := v],
       deadline := if s.deadline.None? then Some(s.clock + s.interval) else s.deadline,
       born := if k in s.buffer then s.born else s.born[k := s.clock],
       rearmed := if s.buffer != map[] && s.deadline.None? then s.clock else s.rearmed)
  }

  /** The explicit flush saves lighting only once the keymap has drained, and
      disarms the timer whether or not it succeeded. */
  ghost predicate AfterFlush(s: Cache, s': Cache, reply: Reply) {
    && s' == s.(board := s'.board, buffer := s'.buffer, touched := s'.touched, deadline := None,
                layoutEvents := s'.layoutEvents, born := Surviving(s.born, s'.buffer))
    && if s'.buffer == map[] then
         && (exists drained :: Flushed(s.board, s.buffer, drained, map[])
                               && SavedChannels(drained, s.touched, s'.board, s'.touched))
         && s'.layoutEvents == s.layoutEvents + 1
         && (reply == Done <==> s'.touched == {}) && (reply.Done? || reply.Failed?)
       else
         && Flushed(s.board, s.buffer, s'.board, s'.buffer)
         && s'.touched == s.touched && s'.layoutEvents == s.layoutEvents && reply.Failed?
  }

  /** An expired deadline flushes the keymap only; a failure re-arms it. */
  ghost predicate AfterTimer(s: Cache, s': Cache) {
    && s' == s.(board := s'.board, buffer := s'.buffer,
                deadline := if s'.buffer == map[] then None else Some(s.clock + s.interval),
                layoutEvents := if s'.buffer == map[] then s.layoutEvents + 1 else s.layoutEvents,
                born := Surviving(s.born, s'.buffer),
                rearmed := if s'.buffer == map[] then s.rearmed else s.clock)
    && Flushed(s.board, s.buffer, s'.board, s'.buffer)
  }

  /** The channel closed: one last best-effort flush, then one last save,
      whatever the flush did. */
  ghost predicate AfterClose(s: Cache, s': Cache) {
    && s' == s.(board := s'.board, buffer := s'.buffer, touched := s'.touched, open := false,
                layoutEvents := if s.buffer != map[] && s'.buffer == map[] then s.layoutEvents + 1
                                else s.layoutEvents,
                born := Surviving(s.born, s'.buffer))
    && exists drained :: Flushed(s.board, s.buffer, drained, s'.buffer)
                         && SavedAtClose(drained, s.touched, s'.board, s'.touched)
  }

  /** Nothing is asked of the board if there is nothing to save. */
  ghost predicate SavedAtClose(b: Board, touched: set<u8>, b': Board, touched': set<u8>) {
    if touched == {} then b' == b && touched' == {} else SavedChannels(b, touched, b', touched')
  }

  ghost predicate Served(s: Cache, request: Request, reply: Reply, s': Cache) {
    match request
    case GetProtocolVersion =>
      && OnlyBoard(s, s')
      && exists r :: ReadFixed(s.board, AskVersion, s.board.version, s'.board, r) && reply == AckNumber(r)
    case GetLayerCount =>
      && OnlyBoard(s, s')
      && exists r :: ReadFixed(s.board, AskLayers, s.board.layers as u16, s'.board, r) && reply == AckNumber(r)
    case GetKeycode(k) =>
      if k in s.buffer then s' == s && reply == Number(s.buffer[k])
      else OnlyBoard(s, s') && exists r :: KeyRead(s.board, k, s'.board, r) && reply == AckNumber(r)
    case SetKeycode(k, v) =>
      reply == Done && s' == AfterSet(s, k, v)
    case Flush =>
      AfterFlush(s, s', reply)
    case GetMacro(offset, length) =>
      OnlyBoard(s, s') && exists r :: MacroRead(s.board, offset, length, s'.board, r) && reply == AckBytes(r)
    case SetMacro(offset, data) =>
      OnlyBoard(s, s') && exists r :: MacroWrite(s.board, offset, data, s'.board, r) && reply == Ack(r)
    case GetLighting(c, v) =>
      OnlyBoard(s, s') && exists r :: LightRead(s.board, c, v, s'.board, r) && reply == AckBytes(r)
    case SetLighting(c, v, data) =>
      && s' == s.(board := s'.board, touched := s'.touched)
      && s'.touched == (if reply == Done then s.touched + {c} else s.touched)
      && exists r :: LightWrite(s.board, c, v, data, s'.board, r) && reply == Ack(r)
  }

  predicate OnlyBoard(s: Cache, s': Cache) {
    s' == s.(board := s'.board)
  }

  ghost predicate Step(s: Cache, e: Event, s': Cache) {
    && s.open
    && match e
       case Serve(request, reply) => Served(s, request, reply, s')
       case Timer => s.deadline.Some? && s.deadline.value <= s.clock && AfterTimer(s, s')
       case Elapse(to) => s.clock <= to && s' == s.(clock := to)
       case Close => AfterClose(s, s')
  }

  /** Any finite run: `trace[i]` leads from `states[i]` to `states[i + 1]`. */
  ghost predicate IsRun(states: seq<Cache>, trace: seq<Event>) {
    && |states| == |trace| + 1
    && forall i :: 0 <= i < |trace| ==> Step(states[i], trace[i], states[i + 1])
  }

  // ── The actor ──────────────────────────────────────────────────────────

  /** Every write so far went through; what is still buffered is still to come. */
  ghost predicate FlushedSoFar(b: Board, buffer: Keymap, b': Board, left: Keymap) {
    && left.Keys <= buffer.Keys && (forall k :: k in left ==> left[k] == buffer[k])
    && b' == b.(keys := b'.keys, writes := b'.writes, owed := b'.owed)
    && Owes(b, b', WritesOf(buffer), true)
    && (forall k :: k in buffer && k !in left ==> k in b'.keys && b'.keys[k] == buffer[k])
    && (forall k :: k !in buffer || k in left ==> SameAt(b.keys, b'.keys, k))
    && b'.writes + |left| == b.writes + |buffer|
  }

  lemma FlushingStarts(b: Board, buffer: Keymap)
    ensures FlushedSoFar(b, buffer, b, buffer)
  {
  }

  lemma FlushingGoesOn(b: Board, buffer: Keymap, mid: Board, left: Keymap, k: Key, b': Board, r: Result<()>)
    requires FlushedSoFar(b, buffer, mid, left) && k in left && KeyWrite(mid, k, left[k], b', r)
    ensures r.Ok? ==> FlushedSoFar(b, buffer, b', left - {k})
    ensures r.Err? ==> Flushed(b, buffer, b', left)
  {
    WriteEffect(mid, k, left[k], b', r);
    assert WriteKey(k, buffer[k]) in WritesOf(buffer);
    OwesChain(b, mid, b', WritesOf(buffer), WriteKey(k, buffer[k]), r.Ok?);
    StillFaultless(b, mid, WritesOf(buffer));
    OnlyOwnKeyScribbled(b.keys, mid.keys, b'.keys, buffer, left, k);
    assert (left - {k}).Keys == left.Keys - {k};
    assert |left - {k}| == |left| - 1 by { assert |left.Keys - {k}| == |left.Keys| - 1; }
    hide Owes;
    hide KeyWrite;
    hide WritesOf;
    if r.Ok? {
      forall j | j !in buffer || j in left - {k} ensures SameAt(b.keys, b'.keys, j) {
        assert SameAt(b.keys, mid.keys, j) && SameAt(mid.keys, b'.keys, j);
      }
    }
  }

  lemma FlushingEnds(b: Board, buffer: Keymap, b': Board)
    requires FlushedSoFar(b, buffer, b', map[])
    ensures Flushed(b, buffer, b', map[])
  {
    hide Owes;
  }

  lemma WriteEffect(b: Board, k: Key, v: u16, b': Board, r: Result<()>)
    requires KeyWrite(b, k, v, b', r)
    ensures b' == b.(keys := b'.keys, writes := b'.writes, owed := b'.owed)
    ensures if r.Ok? then b'.writes == b.writes + 1 else b.writes <= b'.writes <= b.writes + 1
    ensures r.Ok? ==> b'.keys == b.keys[k := v]
    ensures forall j :: j != k ==> SameAt(b.keys, b'.keys, j)
    ensures r.Err? ==> !Faultless(b)
    ensures Owes(b, b', {WriteKey(k, v)}, r.Ok?)
  {
    hide Owes;
  }

  lemma SaveEffect(b: Board, c: u8, b': Board, r: Result<()>)
    requires ChannelSave(b, c, b', r)
    ensures b' == b.(nvram := b'.nvram, saves := b'.saves, owed := b'.owed)
    ensures if r.Ok? then b'.saves == b.saves + 1 else b.saves <= b'.saves <= b.saves + 1
    ensures forall d :: d != c ==> Channel(b'.nvram, d) == Channel(b.nvram, d)
    ensures Channel(b'.nvram, c) == Channel(b.ram, c) || (r.Err? && Channel(b'.nvram, c) == Channel(b.nvram, c))
    ensures r.Err? ==> !Faultless(b)
    ensures Owes(b, b', {SaveChannel(c)}, r.Ok?)
  {
    hide Owes;
  }

  /** Where only writes and saves are asked, what they add to the queue tells
      nothing of the board. */
  lemma OwesChain(b: Board, mid: Board, b': Board, X: set<Exchange>, x: Exchange, ok: bool)
    requires Owes(b, mid, X, true) && mid.reliable == b.reliable && Owes(mid, b', {x}, ok) && x in X
    requires x.WriteKey? || x.SaveChannel?
    ensures Owes(b, b', X, ok)
  {
  }

  lemma OwesAtFirst(b: Board, X: set<Exchange>)
    ensures Owes(b, b, X, true)
  {
  }

  /** Every save so far went through; those still touched are still to come. */
  ghost predicate SavedSoFar(b: Board, channels: set<u8>, b': Board, touched: set<u8>) {
    && touched <= channels
    && b' == b.(nvram := b'.nvram, saves := b'.saves, owed := b'.owed)
    && Owes(b, b', SavesOf(channels), true)
    && (forall c :: c in channels && c !in touched ==> Channel(b'.nvram, c) == Channel(b.ram, c))
    && (forall c :: c !in channels || c in touched ==> Channel(b'.nvram, c) == Channel(b.nvram, c))
    && b'.saves + |touched| == b.saves + |channels|
  }

  lemma SavingStarts(b: Board, channels: set<u8>)
    ensures SavedSoFar(b, channels, b, channels)
  {
  }

  lemma SavingGoesOn(b: Board, channels: set<u8>, mid: Board, touched: set<u8>, c: u8, b': Board, r: Result<()>)
    requires SavedSoFar(b, channels, mid, touched) && c in touched && ChannelSave(mid, c, b', r)
    ensures r.Ok? ==> SavedSoFar(b, channels, b', touched - {c})
    ensures r.Err? ==> SavedChannels(b, channels, b', touched)
  {
    SaveEffect(mid, c, b', r);
    assert SaveChannel(c) in SavesOf(channels);
    OwesChain(b, mid, b', SavesOf(channels), SaveChannel(c), r.Ok?);
    StillFaultless(b, mid, SavesOf(channels));
    assert |touched - {c}| == |touched| - 1;
    hide Owes;
    hide ChannelSave;
    hide Channel;
    hide SavesOf;
  }

  lemma SavingEnds(b: Board, channels: set<u8>, b': Board)
    requires SavedSoFar(b, channels, b', {})
    ensures SavedChannels(b, channels, b', {})
  {
    hide Owes;
  }

  /** One save per touched channel, in arbitrary order, stopping at the first
      failure; the failed channel and the later ones are still touched. */
  method SaveTouched(transport: Transport, channels: set<u8>) returns (r: Result<()>, touched: set<u8>)
    modifies transport
    ensures SavedChannels(old(transport.board), channels, transport.board, touched)
    ensures r.Ok? <==> touched == {}
    ensures channels == {} ==> transport.board == old(transport.board)
  {
    hide ChannelSave;
    hide SavedChannels;
    hide SavedSoFar;
    ghost var b0 := transport.board;
    SavingStarts(b0, channels);
    touched := channels;
    var pending := channels;
    while pending != {}
      invariant pending == touched <= channels
      invariant SavedSoFar(b0, channels, transport.board, touched) && (channels == {} ==> transport.board == b0)
      decreases pending
    {
      var channel :| channel in pending;
      ghost var b := transport.board;
      r := transport.CustomSave(channel);
      SavingGoesOn(b0, channels, b, touched, channel, transport.board, r);
      if r.Err? {
        return;
      }
      pending := pending - {channel};
      touched := touched - {channel};
    }
    SavingEnds(b0, channels, transport.board);
    r := Ok(());
  }

  lemma StillFaultless(b: Board, b': Board, X: set<Exchange>)
    requires Owes(b, b', X, true) && b'.reliable == b.reliable
    ensures b.owed == [] ==> b'.owed == []
    ensures Faultless(b) ==> Faultless(b')
  {
  }

  /** What wakes the actor's `select!`: a request, or the clock reaching `at`. */
  datatype Input = Op(request: Request) | Wake(at: nat)

  /** One pass of the loop: a request is served; the clock moves up to `at`, and
      a deadline that has then passed is served by the timer. */
  ghost predicate IsPass(s: Cache, input: Input, events: seq<Event>) {
    match input
    case Op(request) => |events| == 1 && events[0].Serve? && events[0].request == request
    case Wake(at) =>
      events == (if s.clock < at then [Elapse(at)] else [])
                + (if s.deadline.Some? && (s.deadline.value <= s.clock || s.deadline.value <= at) then [Timer] else [])
  }

  /** The loop over these inputs: the events from `marks[i]` up to `marks[i + 1]`
      are the pass that input `i` woke. */
  ghost predicate Follows(inputs: seq<Input>, states: seq<Cache>, trace: seq<Event>, marks: seq<nat>) {
    && |states| == |trace| + 1 && |marks| == |inputs| + 1 && marks[0] == 0
    && (forall i :: 0 <= i <= |inputs| ==> marks[i] <= |trace|)
    && forall i :: 0 <= i < |inputs| ==>
         marks[i] <= marks[i + 1] && IsPass(states[marks[i]], inputs[i], trace[marks[i]..marks[i + 1]])
  }

  lemma PassesGrow(inputs: seq<Input>, input: Input, states: seq<Cache>, trace: seq<Event>, marks: seq<nat>,
                   states': seq<Cache>, trace': seq<Event>)
    requires Follows(inputs, states, trace, marks) && marks[|inputs|] == |trace|
    requires states <= states' && trace <= trace' && |states'| == |trace'| + 1
    requires IsPass(states[|trace|], input, trace'[|trace|..])
    ensures Follows(inputs + [input], states', trace', marks + [|trace'|])
  {
    hide IsPass;
    forall i | 0 <= i < |inputs| ensures trace'[marks[i]..marks[i + 1]] == trace[marks[i]..marks[i + 1]] {
    }
    assert trace'[|trace|..|trace'|] == trace'[|trace|..];
  }

  class Coalescer {
    const transport: Transport
    const interval: nat
    var buffer: Keymap
    var deadline: Option<nat>
    var touched: set<u8>
    var layoutEvents: nat
    var clock: nat
    var open: bool
    ghost var born: map<Key, nat>
    ghost var rearmed: nat

    ghost function State(): Cache
      reads this, transport
    {
      Cache(transport.board, buffer, deadline, touched, layoutEvents, clock, interval, open,
            born, rearmed)
    }

    constructor (t: Transport, flushInterval: nat, now: nat)
      ensures transport == t && interval == flushInterval
      ensures State() == Cache(t.board, map[], None, {}, 0, now, flushInterval, true, map[], 0)
    {
      transport := t;
      interval := flushInterval;
      buffer := map[];
      deadline := None;
      touched := {};
      layoutEvents := 0;
      clock := now;
      open := true;
      born := map[];
      rearmed := 0;
    }

    /** Drains the buffer through the transport in arbitrary order, stopping at
        the first failure with that entry and all later ones retained. */
    method FlushBuffer() returns (r: Result<()>)
      modifies this`buffer, transport
      ensures Flushed(old(transport.board), old(buffer), transport.board, buffer)
      ensures r.Ok? <==> buffer == map[]
      ensures old(buffer) == map[] ==> transport.board == old(transport.board)
    {
      hide KeyWrite;
      hide Flushed;
      hide FlushedSoFar;
      ghost var b0, f0 := transport.board, buffer;
      FlushingStarts(b0, f0);
      if buffer == map[] {
        FlushingEnds(b0, f0, b0);
        return Ok(());
      }
      var keys := buffer.Keys;
      while keys != {}
        invariant keys == buffer.Keys
        invariant FlushedSoFar(b0, f0, transport.board, buffer)
        decreases keys
      {
        var key :| key in keys;
        ghost var mid := transport.board;
        r := transport.SetKeycode(key, buffer[key]);
        FlushingGoesOn(b0, f0, mid, buffer, key, transport.board, r);
        if r.Err? {
          return;
        }
        keys := keys - {key};
        assert (buffer - {key}).Keys == buffer.Keys - {key};
        buffer := buffer - {key};
      }
      assert buffer == map[];
      FlushingEnds(b0, f0, transport.board);
      r := Ok(());
    }

    /** One request off the command channel. */
    method Serve(request: Request) returns (reply: Reply)
      requires open
      modifies this, transport
      ensures Step(old(State()), Event.Serve(request, reply), State()) && open
    {
      hide KeyRead;
      hide LightRead;
      hide LightWrite;
      hide MacroRead;
      hide MacroWrite;
      hide AfterFlush;
      hide AfterSet;
      match request {
        case SetKeycode(k, v) =>
          ServeSet(k, v);
          reply := Done;
        case GetKeycode(k) =>
          if k in buffer {
            reply := Number(buffer[k]);
          } else {
            var r := transport.GetKeycode(k);
            reply := AckNumber(r);
          }
        case GetLayerCount =>
          var r := transport.GetLayerCount();
          reply := AckNumber(r);
        case GetProtocolVersion =>
          var r := transport.GetProtocolVersion();
          reply := AckNumber(r);
        case Flush =>
          reply := ServeFlush();
        case GetMacro(offset, length) =>
          var r := transport.GetMacroBuffer(offset, length);
          reply := AckBytes(r);
        case SetMacro(offset, data) =>
          var r := transport.SetMacroBuffer(offset, data);
          reply := Ack(r);
        case GetLighting(c, v) =>
          var r := transport.GetLighting(c, v);
          reply := AckBytes(r);
        case SetLighting(c, v, data) =>
          var r := transport.SetLighting(c, v, data);
          if r.Ok? {
            touched := touched + {c};
          }
          reply := Ack(r);
      }
    }

    /** Buffers the set and arms the deadline if it is not armed. */
    method ServeSet(k: Key, v: u16)
      modifies this
      ensures State() == AfterSet(old(State()), k, v) && open == old(open)
    {
      born := if k in buffer then born else born[k := clock];
      rearmed := if buffer != map[] && deadline.None? then clock else rearmed;
      buffer := buffer[k := v];
      if deadline.None? {
        deadline := Some(clock + interval);
      }
    }

    method ServeFlush() returns (reply: Reply)
      modifies this, transport
      ensures AfterFlush(old(State()), State(), reply) && open == old(open)
    {
      ghost var s0 := State();
      var r := FlushBuffer();
      ghost var mid := transport.board;
      if r.Ok? {
        layoutEvents := layoutEvents + 1;
        r, touched := SaveTouched(transport, touched);
        assert Flushed(s0.board, s0.buffer, mid, map[]);
      }
      deadline := None;
      born := Surviving(born, buffer);
      reply := Ack(r);
    }

    /** The deadline expired. Once drained, the hardware holds what readers saw. */
    method OnTimer()
      requires open && deadline.Some? && deadline.value <= clock
      modifies this, transport
      ensures Step(old(State()), Timer, State()) && open
      ensures Faultless(old(transport.board)) ==> buffer == map[]
      ensures transport.board.keys + buffer == old(transport.board.keys) + old(buffer)
      ensures deadline == (if buffer == map[] then None else Some(clock + interval)) && clock == old(clock)
    {
      hide Flushed;
      ghost var b0, f0 := transport.board, buffer;
      var r := FlushBuffer();
      FlushKeepsView(b0, f0, transport.board, buffer);
      born := Surviving(born, buffer);
      if r.Ok? {
        layoutEvents := layoutEvents + 1;
        deadline := None;
      } else {
        deadline := Some(clock + interval);
        rearmed := clock;
      }
    }

    /** The command channel closed. */
    method OnClose()
      requires open
      modifies this, transport
      ensures Step(old(State()), Close, State()) && !open
    {
      hide Flushed;
      hide SavedChannels;
      ghost var s0 := State();
      FinalFlush();
      ghost var drained := transport.board;
      if touched != {} {
        var r;
        r, touched := SaveTouched(transport, touched);
      }
      assert SavedAtClose(drained, s0.touched, transport.board, touched);
      hide SavedAtClose;
      assert Flushed(s0.board, s0.buffer, drained, buffer) && SavedAtClose(drained, s0.touched, transport.board, touched);
      born := Surviving(born, buffer);
      open := false;
    }

    method FinalFlush()
      modifies this`buffer, this`layoutEvents, transport
      ensures Flushed(old(transport.board), old(buffer), transport.board, buffer)
      ensures layoutEvents == if old(buffer) != map[] && buffer == map[] then old(layoutEvents) + 1
                              else old(layoutEvents)
    {
      if buffer != map[] {
        var r := FlushBuffer();
        if r.Ok? {
          layoutEvents := layoutEvents + 1;
        }
      }
    }

    /** One pass of the actor loop, recorded: a request is served, and a wake
        ends in the timer exactly if a deadline was armed and has passed. On a
        fault-free board that leaves nothing buffered, and the hardware holding
        what readers saw. */
    method React(input: Input, ghost states: seq<Cache>, ghost trace: seq<Event>)
      returns (reply: Option<Reply>, ghost states': seq<Cache>, ghost trace': seq<Event>)
      requires open
      requires IsRun(states, trace) && states[|trace|] == State()
      modifies this, transport
      ensures open
      ensures |states'| == |trace'| + 1 && states <= states' && trace <= trace' && states'[|trace'|] == State()
      ensures IsRun(states', trace')
      ensures IsPass(old(State()), input, trace'[|trace|..])
      ensures reply.Some? <==> input.Op?
      ensures Answers(trace') == Answers(trace) + if input.Op? then [(input.request, reply.value)] else []
      ensures input.Wake? ==> clock == if old(clock) < input.at then input.at else old(clock)
      ensures input.Wake? ==>
                (trace' != trace && trace'[|trace'| - 1] == Timer <==>
                 old(deadline).Some? && old(deadline).value <= clock)
      ensures input.Wake? && 0 < interval && deadline.Some? ==> clock < deadline.value
      ensures input.Wake? && old(deadline).Some? && old(deadline).value <= clock && Faultless(old(transport.board)) ==>
                buffer == map[] && transport.board.keys == old(transport.board.keys) + old(buffer)
    {
      hide Step;
      reply, states', trace' := None, states, trace;
      match input {
        case Op(request) =>
          var answer := Serve(request);
          reply := Some(answer);
          RunGrows(states, trace, Event.Serve(request, answer), State());
          states', trace' := states + [State()], trace + [Event.Serve(request, answer)];
        case Wake(at) =>
          states', trace' := Awake(at, states, trace);
      }
    }

    method Awake(at: nat, ghost states: seq<Cache>, ghost trace: seq<Event>)
      returns (ghost states': seq<Cache>, ghost trace': seq<Event>)
      requires open
      requires IsRun(states, trace) && states[|trace|] == State()
      modifies this, transport
      ensures open
      ensures |states'| == |trace'| + 1 && states <= states' && trace <= trace' && states'[|trace'|] == State()
      ensures IsRun(states', trace')
      ensures IsPass(old(State()), Wake(at), trace'[|trace|..]) && Answers(trace') == Answers(trace)
      ensures clock == if old(clock) < at then at else old(clock)
      ensures var late := old(deadline).Some? && old(deadline).value <= clock;
              && (trace' != trace && trace'[|trace'| - 1] == Timer <==> late)
              && (late && Faultless(old(transport.board)) ==> buffer == map[])
              && (late ==> transport.board.keys + buffer == old(transport.board.keys) + old(buffer))
      ensures 0 < interval && deadline.Some? ==> clock < deadline.value
    {
      hide Served;
      hide AfterTimer;
      hide AfterClose;
      states', trace' := states, trace;
      if clock < at {
        clock := at;
        RunGrows(states', trace', Elapse(at), State());
        states', trace' := states' + [State()], trace' + [Elapse(at)];
      }
      hide Step;
      if deadline.Some? && deadline.value <= clock {
        OnTimer();
        RunGrows(states', trace', Timer, State());
        states', trace' := states' + [State()], trace' + [Timer];
      }
    }

    /** The actor loop, over everything that will ever wake it; `replies` holds
        one reply per request, in request order. */
    method Run(inputs: seq<Input>)
      returns (replies: seq<Reply>, ghost states: seq<Cache>, ghost trace: seq<Event>, ghost marks: seq<nat>)
      requires open
      modifies this, transport
      ensures !open
      ensures |states| == |trace| + 1 && states[0] == old(State()) && states[|trace|] == State()
      ensures IsRun(states, trace) && Follows(inputs, states, trace, marks)
      ensures |marks| == |inputs| + 1 && |trace| == marks[|inputs|] + 1 && trace[|trace| - 1] == Close
      ensures Replied(inputs, trace, replies)
    {
      hide IsPass;
      hide Step;
      hide Flushed;
      hide IsRun;
      replies, states, trace, marks := [], [State()], [], [0];
      LoopStarts(State());
      hide Follows;
      hide Replied;
      var i := 0;
      while i < |inputs|
        invariant 0 <= i <= |inputs|
        invariant open
        invariant |states| == |trace| + 1 && states[0] == old(State()) && states[|trace|] == State()
        invariant IsRun(states, trace)
        invariant Follows(inputs[..i], states, trace, marks) && |marks| == i + 1 && marks[i] == |trace|
        invariant Replied(inputs[..i], trace, replies)
      {
        ghost var states0, trace0 := states, trace;
        var reply;
        reply, states, trace := React(inputs[i], states, trace);
        RepliesGrow(inputs[..i], inputs[i], trace0, trace, replies, reply);
        PassesGrow(inputs[..i], inputs[i], states0, trace0, marks, states, trace);
        marks := marks + [|trace|];
        assert inputs[..i + 1] == inputs[..i] + [inputs[i]];
        if reply.Some? {
          replies := replies + [reply.value];
        } else {
          assert replies + [] == replies;
        }
        i := i + 1;
      }
      assert inputs[..i] == inputs;
      OnClose();
      RunGrows(states, trace, Close, State());
      CloseFollows(inputs, states, trace, marks, replies, State());
      states, trace := states + [State()], trace + [Close];
    }
  }

  /** One reply for each request, in request order. */
  ghost predicate Replied(inputs: seq<Input>, trace: seq<Event>, replies: seq<Reply>) {
    |Requests(inputs)| == |replies| && Answers(trace) == Pair(Requests(inputs), replies)
  }

  lemma RepliesGrow(inputs: seq<Input>, input: Input, trace: seq<Event>, trace': seq<Event>,
                    replies: seq<Reply>, reply: Option<Reply>)
    requires Replied(inputs, trace, replies) && (reply.Some? <==> input.Op?)
    requires Answers(trace') == Answers(trace) + if input.Op? then [(input.request, reply.value)] else []
    ensures Replied(inputs + [input], trace', replies + if reply.Some? then [reply.value] else [])
  {
    assert (inputs + [input])[..|inputs|] == inputs;
  }

  lemma LoopStarts(s: Cache)
    ensures IsRun([s], []) && Follows([], [s], [], [0]) && Replied([], [], [])
  {
  }

  lemma CloseFollows(inputs: seq<Input>, states: seq<Cache>, trace: seq<Event>, marks: seq<nat>,
                     replies: seq<Reply>, s: Cache)
    requires Follows(inputs, states, trace, marks) && Replied(inputs, trace, replies)
    ensures Follows(inputs, states + [s], trace + [Close], marks) && Replied(inputs, trace + [Close], replies)
  {
    hide IsPass;
    assert (trace + [Close])[..|trace|] == trace;
    forall i | 0 <= i < |inputs| ensures (trace + [Close])[marks[i]..marks[i + 1]] == trace[marks[i]..marks[i + 1]] {
    }
  }

  /** The requests among the inputs. */
  function Requests(inputs: seq<Input>): (r: seq<Request>) {
    if inputs == [] then []
    else Requests(inputs[..|inputs| - 1])
         + if inputs[|inputs| - 1].Op? then [inputs[|inputs| - 1].request] else []
  }

  /** The requests a trace answered, with the answers. */
  function Answers(trace: seq<Event>): (r: seq<(Request, Reply)>) {
    if trace == [] then []
    else Answers(trace[..|trace| - 1])
         + if trace[|trace| - 1].Serve? then [(trace[|trace| - 1].request, trace[|trace| - 1].reply)] else []
  }

  function Pair(requests: seq<Request>, replies: seq<Reply>): (r: seq<(Request, Reply)>)
    requires |requests| == |replies|
  {
    seq(|requests|, i requires 0 <= i < |requests| => (requests[i], replies[i]))
  }

  lemma RunGrows(states: seq<Cache>, trace: seq<Event>, e: Event, s: Cache)
    requires IsRun(states, trace) && Step(states[|trace|], e, s)
    ensures IsRun(states + [s], trace + [e])
    ensures Answers(trace + [e]) == Answers(trace) + if e.Serve? then [(e.request, e.reply)] else []
  {
    hide Step;
    assert (trace + [e])[..|trace|] == trace;
  }

  /** A flush stopped by a failed write of `key` has disturbed no other
      buffered key, and no key that had already left the buffer. */
  lemma OnlyOwnKeyScribbled(hw0: Keymap, hw: Keymap, hw': Keymap, buffer0: Keymap, buffer: Keymap, key: Key)
    requires key in buffer && buffer.Keys <= buffer0.Keys
    requires forall k :: k in buffer0 && k !in buffer ==> k in hw && hw[k] == buffer0[k]
    requires forall k :: k !in buffer0 || k in buffer ==> SameAt(hw0, hw, k)
    requires forall j :: j != key ==> SameAt(hw, hw', j)
    ensures forall k :: k in buffer0 && k !in buffer ==> k in hw' && hw'[k] == buffer0[k]
    ensures forall k :: k !in buffer0 ==> SameAt(hw0, hw', k)
    ensures UntouchedBut(hw0, hw', buffer, key)
  {
    forall k | k in buffer0 && k !in buffer ensures k in hw' && hw'[k] == buffer0[k] {
      assert SameAt(hw, hw', k);
    }
    forall k | k !in buffer0 ensures SameAt(hw0, hw', k) {
      assert SameAt(hw0, hw, k) && SameAt(hw, hw', k);
    }
    forall k | k in buffer && k != key ensures SameAt(hw0, hw', k) {
      assert SameAt(hw0, hw, k) && SameAt(hw, hw', k);
    }
  }
}
