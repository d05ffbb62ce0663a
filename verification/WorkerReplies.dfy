/** What the worker answers, over every run, in terms of what it answered before. */
module WorkerReplies {
  import opened Basics
  import opened KeyMatrix
  import opened ShadowState
  import opened Gmk67Driver
  import opened DeviceWorker
  import Gmk67Runs

  /** The step accepts a set. */
  predicate AcceptsSome(w: Worker, e: Event) {
    e == Event.Serve(Done) && w.queue != [] && w.queue[0].SetKeycode?
  }

  /** What one step does to the pending edits. */
  lemma DirtyStep(w: Worker, e: Event, w': Worker)
    requires Step(w, e, w')
    ensures w'.sys.shadow.dirty ==
            if AcceptsSome(w, e) then w.sys.shadow.dirty[w.queue[0].key := w.queue[0].code]
            else if Commits(w, e) then map[]
            else w.sys.shadow.dirty
  {
    if Commits(w, e) {
      CommitEmpties(w, e, w');
    }
    hide CommitStep;
  }

  lemma CommitEmpties(w: Worker, e: Event, w': Worker)
    requires Step(w, e, w') && Commits(w, e)
    ensures w'.sys.shadow.dirty == map[]
  {
    hide CommitStep;
    hide SetStep;
    hide LightStep;
    match e
    case Timer =>
      var r: Result<()> :| CommitStep(w.sys, w'.sys, r.Ok?);
      CommitSettles(w.sys, w'.sys, r.Ok?);
    case Drain =>
      var ok :| CommitStep(w.sys, w'.sys, ok);
      CommitSettles(w.sys, w'.sys, ok);
    case Serve(reply) =>
      var r: Result<()> :| CommitStep(w.sys, w'.sys, r.Ok?) && reply == Ack(r);
      CommitSettles(w.sys, w'.sys, r.Ok?);
  }

  /** The code of the last set of `k` answered Done since the last commit attempt. */
  function LastSet(states: seq<Worker>, trace: seq<Event>, n: nat, k: Key): Option<u16>
    requires |states| == |trace| + 1 && n <= |trace|
  {
    if n == 0 then None
    else if Accepts(states[n - 1], trace[n - 1], k) then Some(states[n - 1].queue[0].code)
    else if Commits(states[n - 1], trace[n - 1]) then None
    else LastSet(states, trace, n - 1, k)
  }

  lemma {:induction false} PendingIsLastSet(states: seq<Worker>, trace: seq<Event>, n: nat, k: Key)
    requires IsRun(states, trace) && n <= |trace| && states[0].sys.shadow.dirty == map[]
    ensures k in states[n].sys.shadow.dirty <==> LastSet(states, trace, n, k).Some?
    ensures k in states[n].sys.shadow.dirty ==> states[n].sys.shadow.dirty[k] == LastSet(states, trace, n, k).value
  {
    hide Step;
    if n > 0 {
      PendingIsLastSet(states, trace, n - 1, k);
      DirtyStep(states[n - 1], trace[n - 1], states[n]);
    }
  }

  /** The settings of the last lighting command answered Done, or the first ones. */
  function LastLight(states: seq<Worker>, trace: seq<Event>, n: nat): Lighting
    requires |states| == |trace| + 1 && n <= |trace|
  {
    if n == 0 then states[0].sys.lighting
    else
      var w := states[n - 1];
      if trace[n - 1] == Event.Serve(Done) && w.queue != [] && w.queue[0].SetLighting? then w.queue[0].lighting
      else LastLight(states, trace, n - 1)
  }

  lemma LightStepped(w: Worker, e: Event, w': Worker)
    requires Step(w, e, w')
    ensures w'.sys.lighting ==
            if e == Event.Serve(Done) && w.queue != [] && w.queue[0].SetLighting? then w.queue[0].lighting else w.sys.lighting
  {
    hide PushedAll;
    hide LayersOf;
    hide ModeFrame;
  }

  lemma {:induction false} LightingIsLast(states: seq<Worker>, trace: seq<Event>, n: nat)
    requires IsRun(states, trace) && n <= |trace|
    ensures states[n].sys.lighting == LastLight(states, trace, n)
  {
    hide Step;
    if n > 0 {
      LightingIsLast(states, trace, n - 1);
      LightStepped(states[n - 1], trace[n - 1], states[n]);
    }
  }

  /** The position has a key, on a layer that has an area. */
  predicate Remappable(k: Key) {
    k.layer <= 1 && k.row < 5 && k.col < 15 && KEY_INDEX[k.row][k.col] != 0xFF
  }

  /** What serving a command answers, told by the state alone. */
  lemma ReplyOfStep(w: Worker, reply: Reply, w': Worker)
    requires Step(w, Event.Serve(reply), w')
    ensures w.queue != []
    ensures match w.queue[0]
            case GetKeycode(k) => reply == Code(KeyAt(w.sys.shadow.keymap, k))
            case SetKeycode(k, _) => reply == if Remappable(k) then Done else Refused(Unsupported)
            case GetLighting => reply == Settings(w.sys.lighting)
            case Macro => reply == Refused(Unsupported)
            case Commit => reply.Done? || reply.Refused?
            case SetLighting(l) =>
              if 1 <= l.mode <= 0x13 || l.mode == 0x80 then reply.Done? || reply.Refused?
              else reply == Refused(ProtocolViolation)
  {
    hide CommitStep;
    hide SameAreas;
    hide ModeFrame;
  }

  /** Over every run from a clean shadow: a read is answered with the code of the
      last set of that key answered Done since the last commit attempt, else with
      the confirmed one; a read of the lighting with the settings last accepted;
      a set is accepted exactly where there is a key to remap; and macros are
      refused. */
  lemma RepliesOverRuns(states: seq<Worker>, trace: seq<Event>, n: nat)
    requires IsRun(states, trace) && n < |trace| && trace[n].Serve?
    requires Sound(states[0].sys) && states[0].sys.shadow.dirty == map[]
    ensures states[n].queue != []
    ensures var op, reply := states[n].queue[0], trace[n].reply;
            && (op.GetKeycode? ==>
                  && (LastSet(states, trace, n, op.key).Some? ==> reply == Code(LastSet(states, trace, n, op.key).value))
                  && (LastSet(states, trace, n, op.key).None? ==> reply == Code(KeyAt(states[n].sys.shadow.confirmed, op.key))))
            && (op.GetLighting? ==> reply == Settings(LastLight(states, trace, n)))
            && (op.SetKeycode? ==> reply == if Remappable(op.key) then Done else Refused(Unsupported))
            && (op.Macro? ==> reply == Refused(Unsupported))
  {
    ReplyOfStep(states[n], trace[n].reply, states[n + 1]);
    WorkerStaysSound(states, trace, n);
    LightingIsLast(states, trace, n);
    hide Step;
    hide LastSet;
    hide LastLight;
    match states[n].queue[0]
    case GetKeycode(k) => PendingIsLastSet(states, trace, n, k);
    case _ =>
  }

  // ── What a commit's answer and announcement mean ───────────────────────

  /** A commit answered Done has confirmed everything, one refused has rolled
      everything back; a layout is announced exactly if a timer or explicit
      commit went through; the final one is never announced. */
  lemma CommitMeansWhatItSays(w: Worker, e: Event, w': Worker)
    requires Step(w, e, w') && Overlaid(w.sys.shadow)
    ensures w'.layoutEvents == w.layoutEvents || w'.layoutEvents == w.layoutEvents + 1
    ensures w'.layoutEvents == w.layoutEvents + 1 ==>
              (e.Timer? || e == Event.Serve(Done)) && Commits(w, e) && w'.sys.shadow.confirmed == w.sys.shadow.keymap
    ensures (e.Timer? || e.Serve?) && Commits(w, e) && w'.layoutEvents == w.layoutEvents ==>
              w'.sys.shadow.keymap == w.sys.shadow.confirmed && e != Event.Serve(Done)
  {
    hide CommitStep;
    hide SetStep;
    hide LightStep;
    match e
    case Timer =>
      var r: Result<()> :| CommitStep(w.sys, w'.sys, r.Ok?) && w' == AfterCommit(w, w'.sys, r);
      CommitSettles(w.sys, w'.sys, r.Ok?);
    case Serve(reply) =>
      if w.queue[0].Commit? {
        var r: Result<()> :| CommitStep(w.sys, w'.sys, r.Ok?) && reply == Ack(r)
          && w' == AfterCommit(w.(queue := w.queue[1..]), w'.sys, r);
        CommitSettles(w.sys, w'.sys, r.Ok?);
      }
    case _ =>
  }

  // ── When the worker retires, and when it commits by itself ─────────────

  /** A command retires the worker exactly if its answer says that the device is
      gone or out of reach, and it was a commit or a lighting command. */
  lemma RetiresIff(w: Worker, reply: Reply, w': Worker)
    requires Step(w, Event.Serve(reply), w') && !w.failed
    ensures w'.failed <==> reply == Refused(Disconnected) || reply == Refused(PermissionDenied)
    ensures w'.failed <==> !w'.running
  {
    hide CommitStep;
    hide SameAreas;
    hide ModeFrame;
    if w.queue[0].SetKeycode? {
      assert reply != Refused(Disconnected) && reply != Refused(PermissionDenied);
    }
  }

  lemma ClockAndLast(w: Worker, e: Event, w': Worker)
    requires Step(w, e, w') && w.lastSet <= w.clock
    ensures w.clock <= w'.clock && w'.lastSet <= w'.clock
    ensures w'.lastSet == if AcceptsSome(w, e) then w.clock else w.lastSet
  {
    hide CommitStep;
    hide LightStep;
  }

  lemma {:induction false} LastSetIsLast(states: seq<Worker>, trace: seq<Event>, i: nat, n: nat)
    requires IsRun(states, trace) && i < n <= |trace| && AcceptsSome(states[i], trace[i])
    requires states[0].lastSet <= states[0].clock
    ensures states[i].clock <= states[n].lastSet <= states[n].clock
  {
    hide Step;
    LastBeforeNow(states, trace, n - 1);
    ClockAndLast(states[n - 1], trace[n - 1], states[n]);
    if i < n - 1 {
      LastSetIsLast(states, trace, i, n - 1);
    }
  }

  lemma {:induction false} LastBeforeNow(states: seq<Worker>, trace: seq<Event>, n: nat)
    requires IsRun(states, trace) && n <= |trace| && states[0].lastSet <= states[0].clock
    ensures states[n].lastSet <= states[n].clock
  {
    hide Step;
    if n > 0 {
      LastBeforeNow(states, trace, n - 1);
      ClockAndLast(states[n - 1], trace[n - 1], states[n]);
    }
  }

  /** The debounce slides: in every run a timer commit comes at least 500 ms after
      every set accepted before it. */
  lemma TimerKeepsDistance(states: seq<Worker>, trace: seq<Event>, i: nat, n: nat)
    requires IsRun(states, trace) && i < n < |trace| && trace[n] == Timer
    requires InStep(states[0]) && states[0].running && !states[0].failed && states[0].lastSet <= states[0].clock
    requires AcceptsSome(states[i], trace[i])
    ensures states[i].clock + 500 <= states[n].clock
  {
    LastSetIsLast(states, trace, i, n);
    WorkerStaysInStep(states, trace, n);
    StepInStep(states[n], trace[n], states[n + 1]);
    hide Step;
    hide InStep;
  }

  /** And it does come: while edits are pending and nothing is queued, the debounce
      is due 500 ms after the last set accepted. */
  lemma TimerIsDue(states: seq<Worker>, trace: seq<Event>, n: nat)
    requires IsRun(states, trace) && n <= |trace|
    requires InStep(states[0]) && states[0].running && !states[0].failed
    ensures states[n].running && states[n].sys.shadow.dirty != map[] ==> states[n].deadline == Some(states[n].lastSet + 500)
  {
    WorkerStaysInStep(states, trace, n);
    hide Step;
  }
}
