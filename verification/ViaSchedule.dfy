/** When the coalescer's timer fires: exactly one interval after what armed it,
    and, in the loop itself, whenever it is woken at or past the deadline. */
module ViaSchedule {
  import opened Basics
  import opened ViaFrames
  import opened ViaBoard
  import opened ViaCoalescer
  import opened ViaRuns

  // ── The deadline is exact ──────────────────────────────────────────────

  /** When the timer was armed, told from the events alone: by the first set
      since it was last off, or by its own last firing that did not drain. A
      flush, whatever comes of it, and a firing that drains turn it off. */
  function ArmedSince(states: seq<Cache>, trace: seq<Event>, n: nat): Option<nat>
    requires |states| == |trace| + 1 && n <= |trace|
  {
    if n == 0 then None
    else
      var before := ArmedSince(states, trace, n - 1);
      match trace[n - 1]
      case Serve(SetKeycode(_, _), _) => if before.None? then Some(states[n - 1].clock) else before
      case Serve(Flush, _) => None
      case Timer => if states[n].buffer == map[] then None else Some(states[n - 1].clock)
      case _ => before
  }

  lemma StepTimes(s: Cache, e: Event, s': Cache)
    requires Step(s, e, s')
    ensures s'.interval == s.interval && s'.clock == (if e.Elapse? then e.to else s.clock) && s.clock <= s'.clock
    ensures e == Timer ==> s.deadline.Some? && s.deadline.value <= s.clock
    ensures s'.deadline == match e
                           case Serve(SetKeycode(_, _), _) =>
                             if s.deadline.None? then Some(s.clock + s.interval) else s.deadline
                           case Serve(Flush, _) => None
                           case Timer => if s'.buffer == map[] then None else Some(s.clock + s.interval)
                           case _ => s.deadline
  {
    hide Flushed;
    hide SavedChannels;
    hide Owes;
  }

  /** Over every run, on any board: the deadline is armed exactly if the events
      say so, and then it lies exactly one interval after what armed it. */
  lemma {:induction false} DeadlineIsExact(states: seq<Cache>, trace: seq<Event>, n: nat)
    requires IsRun(states, trace) && n <= |trace| && states[0].deadline.None?
    ensures states[n].interval == states[0].interval
    ensures var since := ArmedSince(states, trace, n);
            && (states[n].deadline.Some? <==> since.Some?)
            && (since.Some? ==> states[n].deadline.value == since.value + states[0].interval)
  {
    hide Step;
    if n > 0 {
      DeadlineIsExact(states, trace, n - 1);
      StepTimes(states[n - 1], trace[n - 1], states[n]);
    }
  }

  /** What armed the timer that is on before event `n`: a set, or a firing that
      did not drain, with no flush and no firing since. */
  ghost predicate ArmsFor(states: seq<Cache>, trace: seq<Event>, j: nat, n: nat)
    requires |states| == |trace| + 1 && j < n <= |trace|
  {
    && (IsSet(trace[j]) || (trace[j] == Timer && states[j + 1].buffer != map[]))
    && forall i :: j < i < n ==> trace[i] != Timer && !(trace[i].Serve? && trace[i].request.Flush?)
  }

  lemma {:induction false} ArmedByEvent(states: seq<Cache>, trace: seq<Event>, n: nat) returns (j: nat)
    requires IsRun(states, trace) && n <= |trace| && ArmedSince(states, trace, n).Some?
    ensures j < n && ArmsFor(states, trace, j, n) && ArmedSince(states, trace, n) == Some(states[j].clock)
  {
    hide Step;
    var e := trace[n - 1];
    if e == Timer || (IsSet(e) && ArmedSince(states, trace, n - 1).None?) {
      j := n - 1;
    } else {
      j := ArmedByEvent(states, trace, n - 1);
    }
  }

  /** No firing comes early: in every run one interval has gone by since a set,
      or a firing that did not drain, with no flush and no firing in between. */
  lemma TimerIsNeverEarly(states: seq<Cache>, trace: seq<Event>, n: nat) returns (j: nat)
    requires IsRun(states, trace) && n < |trace| && states[0].deadline.None? && trace[n] == Timer
    ensures j < n && ArmsFor(states, trace, j, n)
    ensures states[j].clock + states[0].interval <= states[n].clock
  {
    DeadlineIsExact(states, trace, n);
    assert Step(states[n], trace[n], states[n + 1]);
    StepTimes(states[n], trace[n], states[n + 1]);
    j := ArmedByEvent(states, trace, n);
  }

  // ── The loop is punctual ───────────────────────────────────────────────

  /** The clock and the timer as the inputs alone tell them, where every flush
      drains. */
  datatype Schedule = Schedule(now: nat, due: Option<nat>)

  function Scheduled(inputs: seq<Input>, start: nat, interval: nat): Schedule {
    if inputs == [] then Schedule(start, None)
    else
      var p := Scheduled(inputs[..|inputs| - 1], start, interval);
      match inputs[|inputs| - 1]
      case Op(SetKeycode(_, _)) => if p.due.None? then p.(due := Some(p.now + interval)) else p
      case Op(Flush) => p.(due := None)
      case Op(_) => p
      case Wake(at) =>
        var now := if p.now < at then at else p.now;
        Schedule(now, if p.due.Some? && p.due.value <= now then None else p.due)
  }

  /** The inputs wake the loop at each deadline before time passes it. */
  ghost predicate OnTime(inputs: seq<Input>, start: nat, interval: nat) {
    forall i :: 0 <= i < |inputs| && inputs[i].Wake? ==>
      var due := Scheduled(inputs[..i], start, interval).due;
      due.Some? ==> inputs[i].at <= due.value
  }

  /** A loop on a fault-free board that starts with nothing buffered. */
  ghost predicate CleanLoop(inputs: seq<Input>, states: seq<Cache>, trace: seq<Event>, marks: seq<nat>) {
    && IsRun(states, trace) && Follows(inputs, states, trace, marks)
    && Faultless(states[0].board) && states[0].deadline.None? && states[0].buffer == map[]
  }

  lemma CleanStep(s: Cache, e: Event, s': Cache)
    requires Step(s, e, s') && Faultless(s.board)
    ensures Faultless(s'.board)
    ensures e.Timer? || (e.Serve? && e.request.Flush?) ==> s'.buffer == map[]
    ensures e == Timer ==> s'.board.keys == View(s)
  {
    StepKeepsLag(s, e, s');
    StepMovesView(s, e, s');
    if e.Timer? || (e.Serve? && e.request.Flush?) {
      FaultlessFlush(s, e, s');
    }
  }

  /** The loop keeps to the schedule of its inputs. */
  ghost predicate OnSchedule(s: Cache, p: Schedule) {
    Faultless(s.board) && s.clock == p.now && s.deadline == p.due
  }

  lemma PassKeepsSchedule(s: Cache, p: Schedule, input: Input, states: seq<Cache>, events: seq<Event>, inputs: seq<Input>,
                          start: nat)
    requires IsRun(states, events) && states[0] == s && IsPass(s, input, events)
    requires p == Scheduled(inputs, start, s.interval) && OnSchedule(s, p)
    ensures OnSchedule(states[|events|], Scheduled(inputs + [input], start, s.interval))
    ensures states[|events|].interval == s.interval
    ensures forall i :: 0 <= i < |events| && events[i].Elapse? ==>
              i == 0 && input.Wake? && events[i].to == input.at
    ensures input.Wake? && s.deadline.Some? && s.deadline.value <= states[|events|].clock ==>
              states[|events|].buffer == map[] && states[|events|].board.keys == View(s)
  {
    assert (inputs + [input])[..|inputs|] == inputs;
    hide Step;
    hide Owes;
    if |events| > 0 {
      StepTimes(s, events[0], states[1]);
      CleanStep(s, events[0], states[1]);
      StepMovesView(s, events[0], states[1]);
    }
    if |events| > 1 {
      StepTimes(states[1], events[1], states[2]);
      CleanStep(states[1], events[1], states[2]);
    }
  }

  lemma SubRun(states: seq<Cache>, trace: seq<Event>, a: nat, b: nat)
    requires IsRun(states, trace) && a <= b <= |trace|
    ensures IsRun(states[a..b + 1], trace[a..b])
  {
    hide Step;
  }

  /** The pass that input `i` wakes, and where it leaves the loop. */
  lemma PassOf(inputs: seq<Input>, states: seq<Cache>, trace: seq<Event>, marks: seq<nat>, i: nat)
    requires CleanLoop(inputs, states, trace, marks) && i < |inputs|
    requires states[marks[i]].interval == states[0].interval
    requires OnSchedule(states[marks[i]], Scheduled(inputs[..i], states[0].clock, states[0].interval))
    ensures OnSchedule(states[marks[i + 1]], Scheduled(inputs[..i + 1], states[0].clock, states[0].interval))
    ensures states[marks[i + 1]].interval == states[0].interval
    ensures forall j :: marks[i] <= j < marks[i + 1] && trace[j].Elapse? ==>
              j == marks[i] && inputs[i].Wake? && trace[j].to == inputs[i].at
    ensures var s, s' := states[marks[i]], states[marks[i + 1]];
            inputs[i].Wake? && s.deadline.Some? && s.deadline.value <= s'.clock ==>
              s'.buffer == map[] && s'.board.keys == View(s)
  {
    hide Step;
    hide IsPass;
    var a, b := marks[i], marks[i + 1];
    SubRun(states, trace, a, b);
    assert inputs[..i + 1] == inputs[..i] + [inputs[i]];
    PassKeepsSchedule(states[a], Scheduled(inputs[..i], states[0].clock, states[0].interval), inputs[i],
                      states[a..b + 1], trace[a..b], inputs[..i], states[0].clock);
    forall j | a <= j < b && trace[j].Elapse?
      ensures j == a && inputs[i].Wake? && trace[j].to == inputs[i].at
    {
      assert trace[a..b][j - a] == trace[j];
    }
  }

  lemma {:induction false} LoopKeepsSchedule(inputs: seq<Input>, states: seq<Cache>, trace: seq<Event>, marks: seq<nat>,
                                             i: nat)
    requires CleanLoop(inputs, states, trace, marks) && i <= |inputs|
    ensures OnSchedule(states[marks[i]], Scheduled(inputs[..i], states[0].clock, states[0].interval))
    ensures states[marks[i]].interval == states[0].interval
  {
    hide IsPass;
    hide IsRun;
    if i > 0 {
      LoopKeepsSchedule(inputs, states, trace, marks, i - 1);
      PassOf(inputs, states, trace, marks, i - 1);
    }
  }

  /** On a fault-free board the loop serves its timer: after any wake at or past
      the deadline nothing is buffered, and the hardware holds what the sets
      accepted so far say. */
  lemma LoopDrains(inputs: seq<Input>, states: seq<Cache>, trace: seq<Event>, marks: seq<nat>, i: nat)
    requires CleanLoop(inputs, states, trace, marks) && i < |inputs| && inputs[i].Wake?
    requires var due := Scheduled(inputs[..i], states[0].clock, states[0].interval).due;
             due.Some? && due.value <= inputs[i].at
    ensures var s := states[marks[i + 1]];
            s.buffer == map[] && s.deadline.None? && s.board.keys == Ledger(states[0].board.keys, trace[..marks[i]])
  {
    LoopKeepsSchedule(inputs, states, trace, marks, i);
    LoopKeepsSchedule(inputs, states, trace, marks, i + 1);
    PassOf(inputs, states, trace, marks, i);
    ViewIsLedger(states, trace, marks[i]);
    assert View(states[0]) == states[0].board.keys;
    assert inputs[..i + 1][..i] == inputs[..i];
  }

  lemma {:induction false} UrgentSoFar(inputs: seq<Input>, states: seq<Cache>, trace: seq<Event>, marks: seq<nat>,
                                       i: nat, j: nat)
    requires CleanLoop(inputs, states, trace, marks) && OnTime(inputs, states[0].clock, states[0].interval)
    requires i <= |inputs| && j < marks[i] && trace[j].Elapse? && states[j].deadline.Some?
    ensures trace[j].to <= states[j].deadline.value
  {
    hide IsPass;
    hide IsRun;
    if j < marks[i - 1] {
      UrgentSoFar(inputs, states, trace, marks, i - 1, j);
    } else {
      LoopKeepsSchedule(inputs, states, trace, marks, i - 1);
      PassOf(inputs, states, trace, marks, i - 1);
    }
  }

  /** Woken on time, the loop never lets time pass an armed deadline unflushed,
      so the latency bound holds of every run of the loop. */
  lemma LoopIsUrgent(inputs: seq<Input>, states: seq<Cache>, trace: seq<Event>, marks: seq<nat>)
    requires CleanLoop(inputs, states, trace, marks) && OnTime(inputs, states[0].clock, states[0].interval)
    requires |trace| == marks[|inputs|] + 1 && trace[|trace| - 1] == Close
    requires states[0].born == map[] && states[0].rearmed == 0
    ensures Urgent(states, trace)
    ensures forall n, k :: 0 <= n < |trace| && k in states[n].buffer ==>
              k in states[n].born && states[n].clock <= states[n].born[k] + states[0].interval
  {
    hide IsPass;
    forall j | 0 <= j < |trace| && trace[j].Elapse? && states[j].deadline.Some?
      ensures trace[j].to <= states[j].deadline.value
    {
      UrgentSoFar(inputs, states, trace, marks, |inputs|, j);
    }
    forall n, k | 0 <= n < |trace| && k in states[n].buffer
      ensures k in states[n].born && states[n].clock <= states[n].born[k] + states[0].interval
    {
      assert Step(states[n], trace[n], states[n + 1]);
      hide Step;
      LatencyIsBounded(states, trace, n);
      DeadlineIsExact(states, trace, n);
    }
  }

  // ── Announcements ──────────────────────────────────────────────────────

  /** A flush or a firing that drained, even of nothing; at close, one that
      drained something. */
  predicate Drains(s: Cache, e: Event, s': Cache) {
    && s'.buffer == map[]
    && (e == Timer || (e.Serve? && e.request.Flush?) || (e == Close && s.buffer != map[]))
  }

  function Drainings(states: seq<Cache>, trace: seq<Event>, n: nat): nat
    requires |states| == |trace| + 1 && n <= |trace|
  {
    if n == 0 then 0
    else Drainings(states, trace, n - 1) + if Drains(states[n - 1], trace[n - 1], states[n]) then 1 else 0
  }

  lemma StepAnnounces(s: Cache, e: Event, s': Cache)
    requires Step(s, e, s')
    ensures s'.layoutEvents == s.layoutEvents + if Drains(s, e, s') then 1 else 0
    ensures s.buffer != map[] && s'.buffer == map[] ==> s'.layoutEvents == s.layoutEvents + 1
  {
    hide Flushed;
    hide SavedChannels;
    hide Owes;
    match e
    case Serve(SetKeycode(_, _), _) =>
    case Serve(Flush, _) =>
    case _ =>
  }

  /** Over every run a layout update is announced for each flush that drained and
      for nothing else; the buffer never empties unannounced. */
  lemma {:induction false} AnnouncedOverRuns(states: seq<Cache>, trace: seq<Event>, n: nat)
    requires IsRun(states, trace) && n <= |trace|
    ensures states[n].layoutEvents == states[0].layoutEvents + Drainings(states, trace, n)
    ensures n > 0 && states[n - 1].buffer != map[] && states[n].buffer == map[] ==>
              states[n].layoutEvents == states[n - 1].layoutEvents + 1
  {
    hide Step;
    if n > 0 {
      AnnouncedOverRuns(states, trace, n - 1);
      StepAnnounces(states[n - 1], trace[n - 1], states[n]);
    }
  }
}
