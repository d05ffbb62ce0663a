/** What holds of every run of the coalescer, whatever faults the board throws
    and wherever the timer fires. */
module ViaRuns {
  import opened Basics
  import opened ViaFrames
  import opened ViaBoard
  import opened ViaCoalescer
  import ViaDirect

  // ── Reads see the latest accepted set ──────────────────────────────────

  /** The keymap an ideal, fault-free, unbuffered board would hold: `start`
      overwritten by the sets of the trace in order. */
  function Ledger(start: Keymap, trace: seq<Event>): Keymap {
    if trace == [] then start
    else
      var before := Ledger(start, trace[..|trace| - 1]);
      match trace[|trace| - 1]
      case Serve(SetKeycode(k, v), _) => before[k := v]
      case _ => before
  }

  function Sets(trace: seq<Event>): nat {
    if trace == [] then 0
    else Sets(trace[..|trace| - 1]) + if IsSet(trace[|trace| - 1]) then 1 else 0
  }

  predicate IsSet(e: Event) {
    e.Serve? && e.request.SetKeycode?
  }

  lemma FlushDrainsView(s: Cache, s': Cache, reply: Reply)
    requires AfterFlush(s, s', reply)
    ensures View(s') == View(s) && (reply.Done? ==> s'.board.keys == View(s))
  {
    hide Owes;
    if s'.buffer == map[] {
      var drained :| Flushed(s.board, s.buffer, drained, map[]) && SavedChannels(drained, s.touched, s'.board, s'.touched);
      FlushKeepsView(s.board, s.buffer, drained, map[]);
      assert s'.board.keys == drained.keys;
    } else {
      FlushKeepsView(s.board, s.buffer, s'.board, s'.buffer);
    }
  }

  lemma CloseDrainsView(s: Cache, s': Cache)
    requires AfterClose(s, s')
    ensures View(s') == View(s) && (s'.buffer == map[] ==> s'.board.keys == View(s))
  {
    hide Owes;
    var drained :| Flushed(s.board, s.buffer, drained, s'.buffer) && SavedAtClose(drained, s.touched, s'.board, s'.touched);
    FlushKeepsView(s.board, s.buffer, drained, s'.buffer);
    assert s'.board.keys == drained.keys;
  }

  /** What a read can come to: the buffered code; else the answer longest owed,
      which must be to a read of this key, or with none owed the board's code; or
      a failure. */
  ghost predicate ReadOutcome(s: Cache, k: Key, reply: Reply) {
    if k in s.buffer then reply == Number(s.buffer[k])
    else if reply.Number? then
      if s.board.owed == [] then reply.n == KeyAt(s.board.keys, k)
      else s.board.owed[0].asked == AskKey(k) && reply.n == CodeIn(s.board.owed[0].answer)
    else reply.Failed? && MayFail(s.board, AskKey(k))
  }

  lemma ServedMovesView(s: Cache, request: Request, reply: Reply, s': Cache)
    requires Served(s, request, reply, s')
    ensures View(s') == if request.SetKeycode? then View(s)[request.key := request.code] else View(s)
    ensures request.GetKeycode? ==> ReadOutcome(s, request.key, reply)
    ensures request.Flush? && reply.Done? ==> s'.board.keys == View(s)
  {
    hide AfterFlush;
    hide Owes;
    match request
    case Flush => FlushDrainsView(s, s', reply);
    case SetKeycode(k, v) => assert View(s') == View(s)[k := v];
    case GetKeycode(k) => assert s'.board.keys == s.board.keys && s'.buffer == s.buffer;
    case _ => assert s'.board.keys == s.board.keys && s'.buffer == s.buffer;
  }

  lemma StepMovesView(s: Cache, e: Event, s': Cache)
    requires Step(s, e, s')
    ensures View(s') == if IsSet(e) then View(s)[e.request.key := e.request.code] else View(s)
    ensures e.Serve? && e.request.GetKeycode? ==> ReadOutcome(s, e.request.key, e.reply)
    ensures e == Event.Serve(Flush, Done) || ((e == Timer || e == Close) && s'.buffer == map[]) ==>
              s'.board.keys == View(s)
  {
    hide Served;
    hide AfterClose;
    match e
    case Serve(request, reply) => ServedMovesView(s, request, reply, s');
    case Timer => FlushKeepsView(s.board, s.buffer, s'.board, s'.buffer);
    case Close => CloseDrainsView(s, s');
    case Elapse(_) =>
  }

  lemma {:induction false} ViewIsLedger(states: seq<Cache>, trace: seq<Event>, n: nat)
    requires IsRun(states, trace) && n <= |trace|
    ensures View(states[n]) == Ledger(View(states[0]), trace[..n])
  {
    hide Step;
    if n > 0 {
      ViewIsLedger(states, trace, n - 1);
      StepMovesView(states[n - 1], trace[n - 1], states[n]);
      assert trace[..n][..n - 1] == trace[..n - 1];
    }
  }

  /** When an answered read is current: exactly if the key is buffered, nothing
      is owed, or the answer longest owed has the key's present code. If it is
      owed at all it is to a read of this key. */
  lemma ReadIsCurrentIff(s: Cache, k: Key, n: u16, s': Cache)
    requires Served(s, GetKeycode(k), Number(n), s')
    ensures k in s.buffer || s.board.owed == [] || s.board.owed[0].asked == AskKey(k)
    ensures n == KeyAt(View(s), k) <==>
            k in s.buffer || s.board.owed == [] || CodeIn(s.board.owed[0].answer) == KeyAt(s.board.keys, k)
  {
    ServedMovesView(s, GetKeycode(k), Number(n), s');
  }

  /** When a read is answered at all, once the board faults no more: exactly if
      the key is buffered, nothing is owed, or the answer longest owed is to a
      read of this key. */
  lemma ReadIsAnsweredIff(s: Cache, k: Key, reply: Reply, s': Cache)
    requires Served(s, GetKeycode(k), reply, s') && s.board.reliable
    ensures reply.Number? <==> k in s.buffer || s.board.owed == [] || s.board.owed[0].asked == AskKey(k)
  {
    ServedMovesView(s, GetKeycode(k), reply, s');
  }

  // ── Late answers ───────────────────────────────────────────────────────

  /** Questions whose answer depends on when they are asked. */
  predicate Recorded(x: Exchange) {
    x.AskKey? || x.AskValue? || x.ReadMacro?
  }

  predicate AsksFor(e: Event, x: Exchange) {
    && e.Serve?
    && match x
       case AskKey(k) => e.request == Request.GetKeycode(k)
       case AskValue(c, v) => e.request == Request.GetLighting(c, v)
       case ReadMacro(offset, length) => e.request == Request.GetMacro(offset, length)
       case _ => false
  }

  /** Event `i` put this question to the board, and the answer was true then. */
  ghost predicate AskedAt(states: seq<Cache>, trace: seq<Event>, i: nat, o: Owed)
    requires |states| == |trace| + 1 && i < |trace|
  {
    && AsksFor(trace[i], o.asked) && Tells(states[i].board, o.asked, o.answer)
    && (o.asked.AskKey? ==> o.asked.key !in states[i].buffer)
  }

  ghost predicate NewlyOwed(s: Cache, e: Event, o: Owed) {
    AsksFor(e, o.asked) && Tells(s.board, o.asked, o.answer) && (o.asked.AskKey? ==> o.asked.key !in s.buffer)
  }

  lemma FlushOwes(s: Cache, s': Cache, o: Owed)
    requires Recorded(o.asked) && o in s'.board.owed
    requires (exists reply :: AfterFlush(s, s', reply)) || AfterTimer(s, s') || AfterClose(s, s')
    ensures o in s.board.owed
  {
    hide AfterFlush;
    hide AfterTimer;
    hide AfterClose;
    hide Owes;
    var mid := Drained(s, s');
    assert o in mid.owed by {
      if mid != s'.board {
        QueueFrom(mid, s'.board, SavesOf(s.touched), s'.touched == {}, o);
      }
    }
    QueueFrom(s.board, mid, WritesOf(s.buffer), s'.buffer == map[], o);
  }

  /** The board between the keymap flush and the lighting save. */
  lemma Drained(s: Cache, s': Cache) returns (mid: Board)
    requires (exists reply :: AfterFlush(s, s', reply)) || AfterTimer(s, s') || AfterClose(s, s')
    ensures Flushed(s.board, s.buffer, mid, s'.buffer)
    ensures (mid == s'.board && s'.touched == s.touched) || SavedChannels(mid, s.touched, s'.board, s'.touched)
    ensures s'.buffer != map[] && s'.open ==> mid == s'.board
  {
    hide Flushed;
    hide SavedChannels;
    if AfterTimer(s, s') {
      mid := s'.board;
    } else if AfterClose(s, s') {
      var drained :| Flushed(s.board, s.buffer, drained, s'.buffer)
                     && SavedAtClose(drained, s.touched, s'.board, s'.touched);
      mid := drained;
    } else {
      var reply :| AfterFlush(s, s', reply);
      if s'.buffer == map[] {
        var drained :| Flushed(s.board, s.buffer, drained, map[])
                       && SavedChannels(drained, s.touched, s'.board, s'.touched);
        mid := drained;
      } else {
        mid := s'.board;
      }
    }
  }

  lemma QueueFrom(b: Board, b': Board, X: set<Exchange>, ok: bool, o: Owed)
    requires Owes(b, b', X, ok) && o in b'.owed && o.asked !in X
    ensures o in b.owed
  {
  }

  /** What a step adds to the queue are true answers to the question it asked. */
  lemma StepOwes(s: Cache, e: Event, s': Cache, o: Owed)
    requires Step(s, e, s') && Recorded(o.asked) && o in s'.board.owed
    ensures o in s.board.owed || NewlyOwed(s, e, o)
  {
    hide AfterFlush;
    hide AfterTimer;
    hide AfterClose;
    hide Tells;
    match e
    case Timer => FlushOwes(s, s', o);
    case Close => FlushOwes(s, s', o);
    case Elapse(_) =>
    case Serve(Flush, reply) => FlushOwes(s, s', o);
    case Serve(_, _) =>
  }

  lemma {:induction false} OwedAreTraced(states: seq<Cache>, trace: seq<Event>, n: nat, o: Owed)
    requires IsRun(states, trace) && n <= |trace| && states[0].board.owed == []
    requires Recorded(o.asked) && o in states[n].board.owed
    ensures exists i :: 0 <= i < n && AskedAt(states, trace, i, o)
  {
    hide Step;
    hide Tells;
    hide AsksFor;
    if n > 0 {
      StepOwes(states[n - 1], trace[n - 1], states[n], o);
      if o in states[n - 1].board.owed {
        OwedAreTraced(states, trace, n - 1, o);
      } else {
        assert AskedAt(states, trace, n - 1, o);
      }
    }
  }

  /** Some round trip of the step failed. */
  predicate Failing(s: Cache, e: Event, s': Cache) {
    match e
    case Serve(_, reply) => reply.Failed?
    case Timer => s'.buffer != map[]
    case Elapse(_) => false
    case Close => s'.buffer != map[] || s'.touched != {}
  }

  lemma QueueStaysEmpty(b: Board, b': Board, X: set<Exchange>, ok: bool)
    requires Owes(b, b', X, ok) && b.owed == [] && ok
    ensures b'.owed == []
  {
  }

  lemma FlushOwesNothing(s: Cache, e: Event, s': Cache)
    requires Step(s, e, s') && (e.Timer? || e.Close? || (e.Serve? && e.request.Flush?))
    requires s.board.owed == [] && !Failing(s, e, s')
    ensures s'.board.owed == []
  {
    assert s'.buffer == map[] && (s'.touched == {} || e.Timer?);
    hide AfterFlush;
    hide AfterTimer;
    hide AfterClose;
    hide Owes;
    var mid := Drained(s, s');
    QueueStaysEmpty(s.board, mid, WritesOf(s.buffer), true);
    if mid != s'.board {
      QueueStaysEmpty(mid, s'.board, SavesOf(s.touched), s'.touched == {});
    }
  }

  lemma StepOwesNothing(s: Cache, e: Event, s': Cache)
    requires Step(s, e, s') && s.board.owed == [] && !Failing(s, e, s')
    ensures s'.board.owed == []
  {
    if e.Timer? || e.Close? || (e.Serve? && e.request.Flush?) {
      FlushOwesNothing(s, e, s');
    } else {
      hide AfterFlush;
      hide AfterTimer;
      hide AfterClose;
    }
  }

  lemma {:induction false} OwedOnlyAfterFailure(states: seq<Cache>, trace: seq<Event>, n: nat)
    requires IsRun(states, trace) && n <= |trace| && states[0].board.owed == [] && states[n].board.owed != []
    ensures exists j :: 0 <= j < n && Failing(states[j], trace[j], states[j + 1])
  {
    hide Step;
    if states[n - 1].board.owed != [] {
      OwedOnlyAfterFailure(states, trace, n - 1);
    } else if !Failing(states[n - 1], trace[n - 1], states[n]) {
      StepOwesNothing(states[n - 1], trace[n - 1], states[n]);
    }
  }

  /** Coalescing is transparent on a faulty board. In every run from an empty
      queue an answered read gives what the accepted sets before some read of
      that key said: before this one, if the key is buffered or nothing is owed;
      and answers are owed only once a round trip has failed. Only a read of an
      unbuffered key can fail. After a successful commit, or a timer or close that
      drained, the hardware holds what the sets say. */
  lemma ReadsAreTransparent(states: seq<Cache>, trace: seq<Event>, n: nat)
    requires IsRun(states, trace) && n < |trace| && states[0].board.owed == []
    ensures trace[n].Serve? && trace[n].request.GetKeycode? ==>
              var k, reply := trace[n].request.key, trace[n].reply;
              if reply.Number? then ReadOf(states, trace, n, k, reply.n)
              else reply.Failed? && k !in states[n].buffer && MayFail(states[n].board, AskKey(k))
    ensures trace[n] == Event.Serve(Flush, Done)
            || ((trace[n] == Timer || trace[n] == Close) && states[n + 1].buffer == map[]) ==>
              states[n + 1].board.keys == Ledger(View(states[0]), trace[..n])
    ensures states[n].board.owed != [] ==> exists j :: 0 <= j < n && Failing(states[j], trace[j], states[j + 1])
  {
    ViewIsLedger(states, trace, n);
    StepMovesView(states[n], trace[n], states[n + 1]);
    if states[n].board.owed != [] {
      OwedOnlyAfterFailure(states, trace, n);
    }
    hide Step;
    hide Ledger;
    hide Failing;
    if trace[n].Serve? && trace[n].request.GetKeycode? && trace[n].reply.Number? {
      ReadWasTrue(states, trace, n, trace[n].request.key, trace[n].reply.n);
    }
  }

  /** The code is what the sets before event `i`, a read of `k`, said. */
  ghost predicate SaidAt(states: seq<Cache>, trace: seq<Event>, i: nat, k: Key, code: u16)
    requires |states| == |trace| + 1 && i < |trace|
  {
    AsksFor(trace[i], AskKey(k)) && code == KeyAt(Ledger(View(states[0]), trace[..i]), k)
  }

  ghost predicate ReadOf(states: seq<Cache>, trace: seq<Event>, n: nat, k: Key, code: u16)
    requires |states| == |trace| + 1 && n < |trace|
  {
    && (exists i :: 0 <= i <= n && SaidAt(states, trace, i, k, code))
    && (k in states[n].buffer || states[n].board.owed == [] ==> SaidAt(states, trace, n, k, code))
  }

  lemma ReadWasTrue(states: seq<Cache>, trace: seq<Event>, n: nat, k: Key, code: u16)
    requires IsRun(states, trace) && n < |trace| && states[0].board.owed == []
    requires trace[n] == Event.Serve(GetKeycode(k), Number(code)) && ReadOutcome(states[n], k, Number(code))
    ensures ReadOf(states, trace, n, k, code)
  {
    hide Step;
    hide Ledger;
    ViewIsLedger(states, trace, n);
    if k in states[n].buffer || states[n].board.owed == [] {
      assert SaidAt(states, trace, n, k, code);
    } else {
      var o := states[n].board.owed[0];
      OwedAreTraced(states, trace, n, o);
      var i: nat :| i < n && AskedAt(states, trace, i, o);
      ViewIsLedger(states, trace, i);
      assert SaidAt(states, trace, i, k, code);
    }
  }

  /** The same of lighting values: an answered read gives what the RAM held when
      some read of that value was asked. */
  lemma LightReadWasTrue(states: seq<Cache>, trace: seq<Event>, n: nat, c: u8, v: u8, bytes: seq<u8>) returns (i: nat)
    requires IsRun(states, trace) && n < |trace| && states[0].board.owed == []
    requires trace[n] == Event.Serve(GetLighting(c, v), Bytes(bytes))
    ensures i <= n && AsksFor(trace[i], AskValue(c, v)) && bytes == LitValue(states[i].board.ram, c, v)
    ensures states[n].board.owed == [] ==> i == n
  {
    assert Step(states[n], trace[n], states[n + 1]);
    var r :| LightRead(states[n].board, c, v, states[n + 1].board, r) && Bytes(bytes) == AckBytes(r);
    var o: Owed :| Front(states[n].board, AskValue(c, v), o) && r.value == ValueIn(o.answer);
    hide Step;
    i := n;
    if states[n].board.owed != [] {
      OwedAreTraced(states, trace, n, o);
      var j: nat :| j < n && AskedAt(states, trace, j, o);
      i := j;
    }
  }

  lemma StepKeepsSize(s: Cache, e: Event, s': Cache)
    requires Step(s, e, s')
    ensures |s'.board.macros| == |s.board.macros|
  {
    hide Owes;
    if e.Timer? || e.Close? || (e.Serve? && e.request.Flush?) {
      hide AfterFlush;
      hide AfterTimer;
      hide AfterClose;
      var mid := Drained(s, s');
    }
  }

  lemma {:induction false} SizeStays(states: seq<Cache>, trace: seq<Event>, n: nat)
    requires IsRun(states, trace) && n <= |trace|
    ensures |states[n].board.macros| == |states[0].board.macros|
  {
    hide Step;
    if n > 0 {
      SizeStays(states, trace, n - 1);
      StepKeepsSize(states[n - 1], trace[n - 1], states[n]);
    }
  }

  /** The same of macro chunks. */
  lemma MacroReadWasTrue(states: seq<Cache>, trace: seq<Event>, n: nat, offset: u16, length: u8, bytes: seq<u8>)
    returns (i: nat)
    requires IsRun(states, trace) && n < |trace| && states[0].board.owed == []
    requires trace[n] == Event.Serve(GetMacro(offset, length), Bytes(bytes))
    ensures i <= n && AsksFor(trace[i], ReadMacro(offset, length)) && MacroRange(states[i].board, offset, length)
    ensures bytes == states[i].board.macros[offset..offset + length]
    ensures states[n].board.owed == [] ==> i == n
  {
    assert Step(states[n], trace[n], states[n + 1]);
    var r :| MacroRead(states[n].board, offset, length, states[n + 1].board, r) && Bytes(bytes) == AckBytes(r);
    var x := ReadMacro(offset, length);
    var o: Owed :| NearFront(states[n].board, x, o) && r.value == ChunkIn(o.answer, length);
    hide Step;
    i := n;
    if !Tells(states[n].board, x, o.answer) {
      OwedAreTraced(states, trace, n, o);
      var j: nat :| j < n && AskedAt(states, trace, j, o);
      i := j;
    }
    SizeStays(states, trace, n);
    SizeStays(states, trace, i);
  }

  lemma StepKeepsLag(s: Cache, e: Event, s': Cache)
    requires Step(s, e, s') && s.board.reliable
    ensures |s'.board.owed| == |s.board.owed| && s'.board.reliable
  {
    if e.Timer? || e.Close? || (e.Serve? && e.request.Flush?) {
      FlushKeepsLag(s, e, s');
    } else {
      hide AfterFlush;
      hide AfterTimer;
      hide AfterClose;
    }
  }

  lemma FlushKeepsLag(s: Cache, e: Event, s': Cache)
    requires Step(s, e, s') && s.board.reliable && (e.Timer? || e.Close? || (e.Serve? && e.request.Flush?))
    ensures |s'.board.owed| == |s.board.owed| && s'.board.reliable
  {
    hide AfterFlush;
    hide AfterTimer;
    hide AfterClose;
    var mid := Drained(s, s');
  }

  /** Once behind, behind for good: when the board faults no more, every answer
      read pushes another one back, and as many are owed ever after. */
  lemma {:induction false} LagPersists(states: seq<Cache>, trace: seq<Event>, n: nat)
    requires IsRun(states, trace) && n <= |trace| && states[0].board.reliable
    ensures states[n].board.reliable && |states[n].board.owed| == |states[0].board.owed|
  {
    hide Step;
    if n > 0 {
      LagPersists(states, trace, n - 1);
      StepKeepsLag(states[n - 1], trace[n - 1], states[n]);
    }
  }

  // ── The deadline ───────────────────────────────────────────────────────

  /** An armed deadline guards a non-empty buffer and is at most one interval
      after the later of any buffered key's arrival and the last re-arming. */
  ghost predicate Armed(s: Cache) {
    && s.born.Keys == s.buffer.Keys
    && (s.deadline.Some? && s.open ==> s.buffer != map[])
    && (s.deadline.Some? ==> s.deadline.value <= s.clock + s.interval)
    && (s.deadline.Some? ==> forall k :: k in s.buffer ==>
          s.deadline.value <= s.interval + if s.born[k] < s.rearmed then s.rearmed else s.born[k])
  }

  lemma ArmedSet(s: Cache, k: Key, v: u16)
    requires Armed(s) && s.open
    ensures Armed(AfterSet(s, k, v))
  {
    var s' := AfterSet(s, k, v);
    assert k in s'.buffer;
    forall j | j in s'.buffer
      ensures s'.deadline.value <= s.interval + if s'.born[j] < s'.rearmed then s'.rearmed else s'.born[j] {
      assert j == k || j in s.buffer;
    }
  }

  lemma FlushShrinks(b: Board, buffer: Keymap, b': Board, buffer': Keymap)
    requires Flushed(b, buffer, b', buffer')
    ensures buffer'.Keys <= buffer.Keys
  {
  }

  lemma ArmedFlush(s: Cache, s': Cache, reply: Reply)
    requires Armed(s) && s.open && AfterFlush(s, s', reply)
    ensures Armed(s') && s'.deadline.None? && (s'.buffer != map[] ==> reply.Failed?)
  {
    hide Flushed;
    hide SavedChannels;
    if s'.buffer != map[] {
      FlushShrinks(s.board, s.buffer, s'.board, s'.buffer);
    }
  }

  lemma ArmedTimer(s: Cache, s': Cache)
    requires Armed(s) && s.open && AfterTimer(s, s')
    ensures Armed(s') && (s'.deadline.None? <==> s'.buffer == map[])
  {
    hide Flushed;
    FlushShrinks(s.board, s.buffer, s'.board, s'.buffer);
  }

  lemma ArmedClose(s: Cache, s': Cache)
    requires Armed(s) && AfterClose(s, s')
    ensures Armed(s') && !s'.open
  {
    hide Flushed;
    hide SavedChannels;
    var mid := Drained(s, s');
    FlushShrinks(s.board, s.buffer, mid, s'.buffer);
    assert s'.buffer.Keys <= s.buffer.Keys;
    assert s'.born.Keys == s'.buffer.Keys;
  }

  lemma ArmedStep(s: Cache, e: Event, s': Cache)
    requires Armed(s) && Step(s, e, s')
    ensures Armed(s') && s'.interval == s.interval
    ensures IsSet(e) && s.deadline.Some? ==> s'.deadline == s.deadline
    ensures s'.deadline.None? && s'.buffer != map[] && s'.open ==>
              || (e.Serve? && e.request.Flush? && e.reply.Failed?)
              || (s.deadline.None? && s.buffer != map[] && !IsSet(e))
  {
    hide Flushed;
    hide SavedChannels;
    match e
    case Serve(SetKeycode(k, v), _) => ArmedSet(s, k, v);
    case Serve(Flush, reply) => ArmedFlush(s, s', reply);
    case Timer => ArmedTimer(s, s');
    case Close => ArmedClose(s, s');
    case _ =>
  }

  /** A failed explicit flush disarms, and only a set arms again. */
  lemma FailedFlushDisarms(s: Cache, e: Event, s': Cache)
    requires Step(s, e, s')
    ensures FailedFlush(e) || (s.deadline.None? && !IsSet(e)) ==> s'.deadline.None?
  {
    hide Flushed;
    hide SavedChannels;
  }

  lemma {:induction false} UnarmedSince(states: seq<Cache>, trace: seq<Event>, j: nat, n: nat)
    requires IsRun(states, trace) && j < n <= |trace| && FailedFlush(trace[j]) && NoSet(trace, j + 1, n)
    ensures states[n].deadline.None?
  {
    hide Step;
    if n > j + 1 {
      UnarmedSince(states, trace, j, n - 1);
    }
    FailedFlushDisarms(states[n - 1], trace[n - 1], states[n]);
  }

  /** Over every run from an empty buffer: an armed deadline guards a non-empty
      buffer; a non-empty buffer is unarmed exactly if an explicit flush failed
      and there was no set since; and no set moves an armed deadline. */
  lemma {:induction false} DeadlineOverRuns(states: seq<Cache>, trace: seq<Event>, n: nat)
    requires IsRun(states, trace) && n <= |trace| && states[n].open
    requires states[0].buffer == map[] && states[0].born == map[] && states[0].deadline.None?
    ensures Armed(states[n])
    ensures states[n].buffer != map[] ==>
              (states[n].deadline.None? <==> exists j :: 0 <= j < n && FailedFlush(trace[j]) && NoSet(trace, j + 1, n))
    ensures n < |trace| && IsSet(trace[n]) && states[n].deadline.Some? ==>
              states[n + 1].deadline == states[n].deadline
  {
    if n > 0 {
      assert Step(states[n - 1], trace[n - 1], states[n]);
      DeadlineOverRuns(states, trace, n - 1);
      ArmedStep(states[n - 1], trace[n - 1], states[n]);
      if states[n].deadline.None? && states[n].buffer != map[] {
        LastFailedFlush(states, trace, n);
      }
      forall j: nat | j < n && FailedFlush(trace[j]) && NoSet(trace, j + 1, n) ensures states[n].deadline.None? {
        UnarmedSince(states, trace, j, n);
      }
    }
    if n < |trace| {
      assert Step(states[n], trace[n], states[n + 1]);
      ArmedStep(states[n], trace[n], states[n + 1]);
    }
  }

  lemma LastFailedFlush(states: seq<Cache>, trace: seq<Event>, n: nat)
    requires 0 < n <= |trace| && |states| == |trace| + 1
    requires FailedFlush(trace[n - 1]) || (!IsSet(trace[n - 1]) &&
               exists j :: 0 <= j < n - 1 && FailedFlush(trace[j]) && NoSet(trace, j + 1, n - 1))
    ensures exists j :: 0 <= j < n && FailedFlush(trace[j]) && NoSet(trace, j + 1, n)
  {
    if FailedFlush(trace[n - 1]) {
      assert NoSet(trace, n, n);
    } else {
      var j :| 0 <= j < n - 1 && FailedFlush(trace[j]) && NoSet(trace, j + 1, n - 1);
      assert NoSet(trace, j + 1, n);
    }
  }

  /** The exception occurs: a set, then a flush whose write fails, and the entry
      stays buffered with no timer to retry it. */
  lemma FailedFlushStrands() returns (states: seq<Cache>, trace: seq<Event>)
    ensures IsRun(states, trace) && states[0].buffer == map[] && states[0].born == map[] && states[0].deadline.None?
    ensures |trace| == 2 && states[2].open && states[2].buffer != map[] && states[2].deadline.None?
  {
    var k := Key(0, 0, 0);
    var b := Board(map[], map[], map[], [], 0, 0, 0, 0, false, []);
    var s0 := Cache(b, map[], None, {}, 0, 0, 1, true, map[], 0);
    var s1 := AfterSet(s0, k, 5);
    var s2 := s1.(deadline := None);
    assert k in s1.buffer && UntouchedBut(b.keys, b.keys, s1.buffer, k);
    assert Surviving(s1.born, s1.buffer) == s1.born;
    states, trace := [s0, s1, s2], [Event.Serve(SetKeycode(k, 5), Done), Event.Serve(Flush, Failed(Io))];
    assert AfterFlush(s1, s2, Failed(Io));
  }

  predicate FailedFlush(e: Event) {
    e.Serve? && e.request.Flush? && e.reply.Failed?
  }

  predicate NoSet(trace: seq<Event>, lo: nat, hi: nat)
    requires hi <= |trace|
  {
    forall i :: lo <= i < hi ==> !IsSet(trace[i])
  }

  /** Time never passes an armed deadline unflushed. */
  ghost predicate Urgent(states: seq<Cache>, trace: seq<Event>)
    requires |states| == |trace| + 1
  {
    forall i :: 0 <= i < |trace| && trace[i].Elapse? && states[i].deadline.Some? ==>
      trace[i].to <= states[i].deadline.value
  }

  lemma StepFrame(s: Cache, e: Event, s': Cache)
    requires Step(s, e, s')
    ensures s.open && (s'.open ==> !e.Close?)
  {
    hide Served;
    hide AfterTimer;
    hide Flushed;
    hide SavedAtClose;
  }

  lemma FaultlessFlush(s: Cache, e: Event, s': Cache)
    requires Step(s, e, s') && Faultless(s.board) && (e.Timer? || (e.Serve? && e.request.Flush?))
    ensures s'.buffer == map[]
  {
    hide AfterFlush;
    hide AfterTimer;
    hide Owes;
    var mid := Drained(s, s');
  }

  /** On a fault-free board with a punctual timer. */
  lemma LatencyStep(s: Cache, e: Event, s': Cache)
    requires Step(s, e, s') && !e.Close? && Armed(s) && Armed(s') && Faultless(s.board) && s.rearmed == 0
    requires e.Elapse? && s.deadline.Some? ==> e.to <= s.deadline.value
    requires s.deadline.Some? <==> s.buffer != map[]
    requires s.deadline.Some? ==> s.clock <= s.deadline.value
    ensures Faultless(s'.board) && s'.rearmed == 0
    ensures s'.deadline.Some? <==> s'.buffer != map[]
    ensures s'.deadline.Some? ==> s'.clock <= s'.deadline.value
    ensures forall k :: k in s'.buffer ==> s'.clock <= s'.born[k] + s'.interval
  {
    StepKeepsLag(s, e, s');
    if e.Timer? || (e.Serve? && e.request.Flush?) {
      FaultlessFlush(s, e, s');
    }
    hide Flushed;
    hide SavedChannels;
    hide Owes;
    hide AfterClose;
  }

  /** Bounded write latency: on a fault-free board whose timer is served on
      time, no buffered set is ever older than one flush interval, whatever the
      write pressure. */
  lemma {:induction false} LatencyIsBounded(states: seq<Cache>, trace: seq<Event>, n: nat)
    requires IsRun(states, trace) && Urgent(states, trace) && n <= |trace| && states[n].open
    requires states[0].buffer == map[] && states[0].born == map[] && states[0].deadline.None?
    requires Faultless(states[0].board) && states[0].rearmed == 0
    ensures Faultless(states[n].board) && states[n].rearmed == 0 && Armed(states[n])
    ensures states[n].deadline.Some? <==> states[n].buffer != map[]
    ensures states[n].deadline.Some? ==> states[n].clock <= states[n].deadline.value
    ensures forall k :: k in states[n].buffer ==>
              states[n].clock <= states[n].born[k] + states[n].interval
  {
    hide Step;
    if n > 0 {
      StepFrame(states[n - 1], trace[n - 1], states[n]);
      LatencyIsBounded(states, trace, n - 1);
      ArmedStep(states[n - 1], trace[n - 1], states[n]);
      LatencyStep(states[n - 1], trace[n - 1], states[n]);
    }
  }

  // ── Lighting durability ────────────────────────────────────────────────

  predicate Persisted(b: Board, c: u8) {
    Channel(b.nvram, c) == Channel(b.ram, c)
  }

  /** Every channel is the same in NVRAM and RAM but those waiting for a save
      and those in doubt. */
  ghost predicate Durable(b: Board, touched: set<u8>, doubt: set<u8>) {
    forall c :: c !in touched && c !in doubt ==> Persisted(b, c)
  }

  /** A lighting write that failed once it was sent. */
  predicate FailedLight(request: Request, reply: Reply) {
    request.SetLighting? && reply.Failed? && |request.data| <= MAX_LIGHTING_VALUE
  }

  /** The channels in doubt after one more event: a lighting write to them failed,
      and they have not been saved since. */
  function DoubtAfter(doubt: set<u8>, touched: set<u8>, e: Event, touched': set<u8>): set<u8> {
    (doubt - (touched - touched')) + if e.Serve? && FailedLight(e.request, e.reply) then {e.request.channel} else {}
  }

  function InDoubt(states: seq<Cache>, trace: seq<Event>, n: nat): set<u8>
    requires |states| == |trace| + 1 && n <= |trace|
  {
    if n == 0 then {}
    else DoubtAfter(InDoubt(states, trace, n - 1), states[n - 1].touched, trace[n - 1], states[n].touched)
  }

  lemma SavingKeepsDurable(b: Board, touched: set<u8>, b': Board, touched': set<u8>, doubt: set<u8>)
    requires SavedChannels(b, touched, b', touched') && Durable(b, touched, doubt)
    ensures Durable(b', touched', doubt - (touched - touched'))
  {
    hide Owes;
    forall c | c !in touched' && c !in doubt - (touched - touched') ensures Persisted(b', c) {
      if c !in touched {
        assert Persisted(b, c);
      }
    }
  }

  lemma LightingKeepsDurable(b: Board, touched: set<u8>, c: u8, v: u8, data: seq<u8>, b': Board, r: Result<()>, doubt: set<u8>)
    requires Durable(b, touched, doubt) && LightWrite(b, c, v, data, b', r)
    ensures r.Ok? ==> Durable(b', touched + {c}, doubt)
    ensures r.Err? ==> Durable(b', touched, if |data| <= MAX_LIGHTING_VALUE then doubt + {c} else doubt)
  {
    hide Owes;
    forall d | d !in touched && d !in doubt && (d != c || b'.ram == b.ram) ensures Persisted(b', d) {
      assert Persisted(b, d);
    }
  }

  lemma SameStorageKeepsDurable(b: Board, b': Board, touched: set<u8>, doubt: set<u8>)
    requires Durable(b, touched, doubt) && b'.ram == b.ram && b'.nvram == b.nvram
    ensures Durable(b', touched, doubt)
  {
    forall c | c !in touched && c !in doubt ensures Persisted(b', c) { assert Persisted(b, c); }
  }

  lemma SameDoubt(b: Board, touched: set<u8>, doubt: set<u8>, doubt': set<u8>)
    requires Durable(b, touched, doubt) && doubt <= doubt'
    ensures Durable(b, touched, doubt')
  {
  }

  lemma FlushKeepsStorage(b: Board, buffer: Keymap, b': Board, buffer': Keymap)
    requires Flushed(b, buffer, b', buffer')
    ensures b'.ram == b.ram && b'.nvram == b.nvram && b'.saves == b.saves
  {
    hide Owes;
  }

  lemma FlushKeepsDurable(s: Cache, e: Event, s': Cache, doubt: set<u8>)
    requires Durable(s.board, s.touched, doubt) && Step(s, e, s')
    requires e.Timer? || e.Close? || (e.Serve? && e.request.Flush?)
    ensures Durable(s'.board, s'.touched, doubt - (s.touched - s'.touched))
    ensures s'.buffer != map[] && s'.open ==> s'.board.nvram == s.board.nvram && s'.board.saves == s.board.saves
  {
    hide Durable;
    hide Flushed;
    hide SavedChannels;
    hide AfterFlush;
    hide AfterTimer;
    hide AfterClose;
    var mid := Drained(s, s');
    hide Step;
    FlushKeepsStorage(s.board, s.buffer, mid, s'.buffer);
    SameStorageKeepsDurable(s.board, mid, s.touched, doubt);
    if SavedChannels(mid, s.touched, s'.board, s'.touched) {
      SavingKeepsDurable(mid, s.touched, s'.board, s'.touched, doubt);
    } else {
      assert doubt - (s.touched - s'.touched) == doubt;
    }
  }

  lemma LightStepKeepsDurable(s: Cache, e: Event, s': Cache, doubt: set<u8>)
    requires Durable(s.board, s.touched, doubt) && Step(s, e, s') && e.Serve? && e.request.SetLighting?
    ensures Durable(s'.board, s'.touched, DoubtAfter(doubt, s.touched, e, s'.touched))
    ensures s'.board.nvram == s.board.nvram && s'.board.saves == s.board.saves
  {
    hide Durable;
    hide Owes;
    var c, data := e.request.channel, e.request.data;
    var r :| LightWrite(s.board, c, e.request.value, data, s'.board, r) && e.reply == Ack(r);
    LightingKeepsDurable(s.board, s.touched, c, e.request.value, data, s'.board, r, doubt);
    SameDoubt(s'.board, s'.touched, if r.Err? && |data| <= MAX_LIGHTING_VALUE then doubt + {c} else doubt,
              DoubtAfter(doubt, s.touched, e, s'.touched));
  }

  lemma OtherKeepsStorage(s: Cache, e: Event, s': Cache)
    requires Step(s, e, s') && (e.Elapse? || (e.Serve? && !e.request.Flush? && !e.request.SetLighting?))
    ensures s'.board.ram == s.board.ram && s'.board.nvram == s.board.nvram && s'.board.saves == s.board.saves
    ensures s'.touched == s.touched
  {
    hide Owes;
    hide Front;
    hide NearFront;
    hide MayFail;
    hide MacroRange;
    match e
    case Elapse(_) =>
    case Serve(SetKeycode(_, _), _) =>
    case Serve(SetMacro(_, _), _) =>
    case Serve(_, _) =>
  }

  lemma DurableStep(s: Cache, e: Event, s': Cache, doubt: set<u8>)
    requires Durable(s.board, s.touched, doubt) && Step(s, e, s')
    ensures Durable(s'.board, s'.touched, DoubtAfter(doubt, s.touched, e, s'.touched))
    ensures e == Event.Serve(Flush, Done) ==> s'.buffer == map[] && s'.touched == {}
    ensures s'.buffer != map[] && s'.open ==> s'.board.nvram == s.board.nvram && s'.board.saves == s.board.saves
  {
    hide Durable;
    hide Flushed;
    hide SavedChannels;
    if e.Timer? || e.Close? || (e.Serve? && e.request.Flush?) {
      FlushKeepsDurable(s, e, s', doubt);
      SameDoubt(s'.board, s'.touched, doubt - (s.touched - s'.touched), DoubtAfter(doubt, s.touched, e, s'.touched));
    } else if e.Serve? && e.request.SetLighting? {
      LightStepKeepsDurable(s, e, s', doubt);
    } else {
      OtherKeepsStorage(s, e, s');
      hide Step;
      SameStorageKeepsDurable(s.board, s'.board, s.touched, doubt);
      SameDoubt(s'.board, s'.touched, doubt, DoubtAfter(doubt, s.touched, e, s'.touched));
    }
  }

  /** Durability over every run, through any failures: every channel is the same
      in NVRAM and RAM unless it is waiting for a save or a lighting write to it
      failed and it has not been saved since. A successful commit leaves nothing
      waiting; and no channel is saved while a keycode is still buffered, but at
      close. */
  lemma {:induction false} DurableOverRuns(states: seq<Cache>, trace: seq<Event>, n: nat)
    requires IsRun(states, trace) && n <= |trace| && Durable(states[0].board, states[0].touched, {})
    ensures Durable(states[n].board, states[n].touched, InDoubt(states, trace, n))
    ensures n > 0 && trace[n - 1] == Event.Serve(Flush, Done) ==> states[n].buffer == map[] && states[n].touched == {}
    ensures n > 0 && states[n].open && states[n].buffer != map[] ==>
              states[n].board.saves == states[n - 1].board.saves
  {
    hide Step;
    hide Durable;
    hide DoubtAfter;
    if n > 0 {
      DurableOverRuns(states, trace, n - 1);
      DurableStep(states[n - 1], trace[n - 1], states[n], InDoubt(states, trace, n - 1));
    }
  }

  /** What a failed lighting write does to a durable board: it stays durable
      exactly if the channel was already waiting for a save, or what the channel
      holds in RAM is what it held before. */
  lemma FailedLightIff(s: Cache, c: u8, v: u8, data: seq<u8>, e: DriverError, s': Cache)
    requires Durable(s.board, s.touched, {}) && Step(s, Event.Serve(SetLighting(c, v, data), Failed(e)), s')
    ensures Durable(s'.board, s'.touched, {}) <==> c in s.touched || Channel(s'.board.ram, c) == Channel(s.board.ram, c)
  {
    var r :| LightWrite(s.board, c, v, data, s'.board, r) && Failed(e) == Ack(r);
    hide Owes;
    assert forall d :: d != c ==> Channel(s'.board.ram, d) == Channel(s.board.ram, d);
    if c !in s.touched {
      assert Persisted(s.board, c);
      if Channel(s'.board.ram, c) != Channel(s.board.ram, c) {
        assert !Persisted(s'.board, c);
      }
    }
    if c in s.touched || Channel(s'.board.ram, c) == Channel(s.board.ram, c) {
      forall d | d !in s'.touched ensures Persisted(s'.board, d) { assert Persisted(s.board, d); }
    }
  }

  /** And it does happen: on a board that faults, any lighting write of a new
      value may land and still be reported failed, leaving a channel that nobody
      will save with RAM and NVRAM apart. */
  lemma FailedLightMayLand(s: Cache, c: u8, v: u8, data: seq<u8>) returns (s': Cache)
    requires s.open && !s.board.reliable && |data| <= MAX_LIGHTING_VALUE
    requires Durable(s.board, s.touched, {}) && c !in s.touched
    requires v !in Channel(s.board.ram, c) || Channel(s.board.ram, c)[v] != Padded(data)
    ensures Step(s, Event.Serve(SetLighting(c, v, data), Failed(Timeout)), s')
    ensures c !in s'.touched && !Persisted(s'.board, c)
  {
    s' := s.(board := Lit(s.board, c, v, data));
    var r: Result<()> := Err(Timeout);
    assert LightWrite(s.board, c, v, data, s'.board, r);
    assert Ack(r) == Failed(Timeout);
    assert Persisted(s.board, c);
    assert Channel(s'.board.ram, c)[v] == Padded(data);
  }

  lemma DirectKeepsStorage(p: ViaDirect.Plain, request: Request, reply: Reply, p': ViaDirect.Plain)
    requires ViaDirect.Called(p, request, reply, p') && !request.Flush? && !request.SetLighting?
    ensures p'.board.ram == p.board.ram && p'.board.nvram == p.board.nvram && p'.touched == p.touched
  {
    hide Owes;
  }

  /** The unbuffered driver keeps the same invariant, call by call. */
  lemma DirectKeepsDurable(p: ViaDirect.Plain, request: Request, reply: Reply, p': ViaDirect.Plain, doubt: set<u8>)
    requires Durable(p.board, p.touched, doubt) && ViaDirect.Called(p, request, reply, p')
    ensures Durable(p'.board, p'.touched, DoubtAfter(doubt, p.touched, Event.Serve(request, reply), p'.touched))
    ensures request.Flush? && reply.Done? ==> p'.touched == {}
  {
    hide Durable;
    hide Owes;
    var doubt' := DoubtAfter(doubt, p.touched, Event.Serve(request, reply), p'.touched);
    match request
    case SetLighting(c, v, data) =>
      var r :| LightWrite(p.board, c, v, data, p'.board, r) && reply == Ack(r);
      LightingKeepsDurable(p.board, p.touched, c, v, data, p'.board, r, doubt);
      SameDoubt(p'.board, p'.touched, if r.Err? && |data| <= MAX_LIGHTING_VALUE then doubt + {c} else doubt, doubt');
    case Flush =>
      SavingKeepsDurable(p.board, p.touched, p'.board, p'.touched, doubt);
      SameDoubt(p'.board, p'.touched, doubt - (p.touched - p'.touched), doubt');
    case _ =>
      DirectKeepsStorage(p, request, reply, p');
      hide ViaDirect.Called;
      SameStorageKeepsDurable(p.board, p'.board, p.touched, doubt);
      SameDoubt(p'.board, p'.touched, doubt, doubt');
  }

  /** Any sequence of unbuffered calls, with the replies they got. */
  ghost predicate IsDirectRun(plains: seq<ViaDirect.Plain>, calls: seq<(Request, Reply)>) {
    && |plains| == |calls| + 1
    && forall i :: 0 <= i < |calls| ==> ViaDirect.Called(plains[i], calls[i].0, calls[i].1, plains[i + 1])
  }

  function DirectDoubt(plains: seq<ViaDirect.Plain>, calls: seq<(Request, Reply)>, n: nat): set<u8>
    requires |plains| == |calls| + 1 && n <= |calls|
  {
    if n == 0 then {}
    else DoubtAfter(DirectDoubt(plains, calls, n - 1), plains[n - 1].touched,
                    Event.Serve(calls[n - 1].0, calls[n - 1].1), plains[n].touched)
  }

  lemma {:induction false} DirectDurableOverRuns(plains: seq<ViaDirect.Plain>, calls: seq<(Request, Reply)>, n: nat)
    requires IsDirectRun(plains, calls) && n <= |calls| && Durable(plains[0].board, plains[0].touched, {})
    ensures Durable(plains[n].board, plains[n].touched, DirectDoubt(plains, calls, n))
  {
    hide ViaDirect.Called;
    hide Durable;
    hide DoubtAfter;
    if n > 0 {
      DirectDurableOverRuns(plains, calls, n - 1);
      DirectKeepsDurable(plains[n - 1], calls[n - 1].0, calls[n - 1].1, plains[n], DirectDoubt(plains, calls, n - 1));
    }
  }

  // ── EEPROM wear ────────────────────────────────────────────────────────

  /** A flush, explicit, timed or last, that stopped at a failed write. */
  predicate StoppedFlush(e: Event, s': Cache) {
    (e.Timer? || e.Close? || (e.Serve? && e.request.Flush?)) && s'.buffer != map[]
  }

  function StoppedFlushes(states: seq<Cache>, trace: seq<Event>, n: nat): nat
    requires |states| == |trace| + 1 && n <= |trace|
  {
    if n == 0 then 0
    else StoppedFlushes(states, trace, n - 1) + if StoppedFlush(trace[n - 1], states[n]) then 1 else 0
  }

  lemma FlushWear(s: Cache, e: Event, s': Cache)
    requires Step(s, e, s') && (e.Timer? || e.Close? || (e.Serve? && e.request.Flush?))
    ensures s'.board.writes + |s'.buffer| <= s.board.writes + |s.buffer| + if StoppedFlush(e, s') then 1 else 0
    ensures s.board.writes + |s.buffer| <= s'.board.writes + |s'.buffer|
  {
    hide AfterFlush;
    hide AfterTimer;
    hide AfterClose;
    hide Owes;
    var mid := Drained(s, s');
    assert s'.board.writes == mid.writes;
  }

  lemma OtherWear(s: Cache, e: Event, s': Cache)
    requires Step(s, e, s') && (e.Elapse? || (e.Serve? && !e.request.Flush?))
    ensures s'.board.writes == s.board.writes
    ensures |s'.buffer| <= |s.buffer| + if IsSet(e) then 1 else 0
  {
    hide Owes;
    if IsSet(e) {
      assert |s.buffer[e.request.key := e.request.code]| <= |s.buffer| + 1;
    }
  }

  lemma WearStep(s: Cache, e: Event, s': Cache)
    requires Step(s, e, s')
    ensures s'.board.writes + |s'.buffer| <=
            s.board.writes + |s.buffer| + (if IsSet(e) then 1 else 0) + if StoppedFlush(e, s') then 1 else 0
    ensures e == Event.Serve(Flush, Done) ==> s'.board.writes == s.board.writes + |s.buffer|
  {
    if e.Timer? || e.Close? || (e.Serve? && e.request.Flush?) {
      FlushWear(s, e, s');
      hide Flushed;
      hide SavedChannels;
    } else {
      OtherWear(s, e, s');
      hide Served;
    }
  }

  /** Wear conservation: over every run, the keycode writes carried out, whether
      or not the host learned of it, plus those still buffered never exceed the
      sets accepted plus the flushes that stopped at a failed write; a successful
      commit costs one write for each distinct buffered key. */
  lemma {:induction false} WearOverRuns(states: seq<Cache>, trace: seq<Event>, n: nat)
    requires IsRun(states, trace) && n <= |trace| && states[0].buffer == map[]
    ensures states[n].board.writes + |states[n].buffer| <=
            states[0].board.writes + Sets(trace[..n]) + StoppedFlushes(states, trace, n)
    ensures n > 0 && trace[n - 1] == Event.Serve(Flush, Done) ==>
              states[n].board.writes == states[n - 1].board.writes + |states[n - 1].buffer|
  {
    hide Step;
    if n > 0 {
      WearOverRuns(states, trace, n - 1);
      assert trace[..n][..n - 1] == trace[..n - 1];
      WearStep(states[n - 1], trace[n - 1], states[n]);
    }
  }

  /** Each stopped flush can indeed cost a write: one that is carried out and
      never acknowledged is carried out again at every deadline. */
  lemma UnacknowledgedWriteRepeats(s: Cache, k: Key) returns (s': Cache)
    requires s.open && !s.board.reliable && s.buffer.Keys == {k} && s.born.Keys == {k}
    requires s.deadline.Some? && s.deadline.value <= s.clock
    ensures Step(s, Timer, s') && s'.buffer == s.buffer && s'.board.writes == s.board.writes + 1
    ensures s'.deadline == Some(s.clock + s.interval)
  {
    var b' := WroteKey(s.board, k, s.buffer[k]);
    assert k in s.buffer && UntouchedBut(s.board.keys, b'.keys, s.buffer, k);
    assert Surviving(s.born, s.buffer) == s.born;
    assert Flushed(s.board, s.buffer, b', s.buffer);
    s' := s.(board := b', deadline := Some(s.clock + s.interval), rearmed := s.clock);
    assert s.buffer != map[];
  }

  /** The unbuffered driver writes at most once for each set. */
  lemma {:induction false} DirectWearOverRuns(plains: seq<ViaDirect.Plain>, calls: seq<(Request, Reply)>, n: nat)
    requires IsDirectRun(plains, calls) && n <= |calls|
    ensures plains[n].board.writes <= plains[0].board.writes + |SetsAmong(calls[..n])|
  {
    hide ViaDirect.Called;
    if n > 0 {
      DirectWearOverRuns(plains, calls, n - 1);
      assert calls[..n][..n - 1] == calls[..n - 1];
      DirectWear(plains[n - 1], calls[n - 1].0, calls[n - 1].1, plains[n]);
    }
  }

  function SetsAmong(calls: seq<(Request, Reply)>): seq<(Request, Reply)> {
    if calls == [] then []
    else SetsAmong(calls[..|calls| - 1]) + if calls[|calls| - 1].0.SetKeycode? then [calls[|calls| - 1]] else []
  }

  lemma DirectWear(p: ViaDirect.Plain, request: Request, reply: Reply, p': ViaDirect.Plain)
    requires ViaDirect.Called(p, request, reply, p')
    ensures p'.board.writes <= p.board.writes + if request.SetKeycode? then 1 else 0
  {
    hide Owes;
  }
}
