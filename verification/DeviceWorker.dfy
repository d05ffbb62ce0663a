/** The per-device worker over a GMK67 driver: a biased select between its
    command queue and a debounced commit. */
module DeviceWorker {
  import opened Basics
  import opened ShadowState
  import opened KeydefCodec
  import opened Gmk67Device
  import opened Gmk67Driver
  import Gmk67Runs

  /** Milliseconds without edits before the pending ones are pushed. */
  const DEBOUNCE: nat := 500

  datatype WorkerOp =
    | GetKeycode(key: Key)
    | SetKeycode(key: Key, code: u16)
    | Commit
    | Macro
    | SetLighting(lighting: Lighting)
    | GetLighting

  datatype Reply = Done | Code(code: u16) | Settings(lighting: Lighting) | Refused(error: DriverError)

  /** The errors that retire a worker. */
  predicate IsFatal(r: Result<()>) {
    r.Err? && (r.error.Disconnected? || r.error.PermissionDenied?)
  }

  function Ack(r: Result<()>): Reply {
    if r.Ok? then Done else Refused(r.error)
  }

  /** `lastSet` is history: when the last set was accepted. */
  datatype Worker = Worker(
    sys: Sys,
    queue: seq<WorkerOp>,
    closed: bool,
    deadline: Option<nat>,
    clock: nat,
    running: bool,
    failed: bool,
    layoutEvents: nat,
    lastSet: nat)

  datatype Event =
    | Arrive(op: WorkerOp)
    | Hangup
    | Elapse(to: nat)
    | Serve(reply: Reply)
    | Timer
    | Drain

  /** Serving the oldest queued command. */
  ghost predicate Served(w: Worker, reply: Reply, w': Worker) {
    && w.queue != []
    && var next := w.(queue := w.queue[1..]);
       match w.queue[0]
       case GetKeycode(k) =>
         w' == next && reply == Code(KeyAt(w.sys.shadow.keymap, k))
       case SetKeycode(k, v) =>
         exists r :: SetStep(w.sys, k, v, w'.sys, r) && reply == Ack(r)
           && w' == if r.Ok? then next.(sys := w'.sys, deadline := Some(w.clock + DEBOUNCE), lastSet := w.clock)
                    else next
       case Commit =>
         exists r: Result<()> :: CommitStep(w.sys, w'.sys, r.Ok?) && reply == Ack(r)
           && w' == AfterCommit(next, w'.sys, r)
       case SetLighting(l) =>
         exists r :: LightStep(w.sys, l, w'.sys, r) && reply == Ack(r) && w' == Retired(next.(sys := w'.sys), r)
       case GetLighting =>
         w' == next && reply == Settings(w.sys.lighting)
       case Macro =>
         w' == next && reply == Refused(Unsupported)
  }

  /** A fatal result ends the loop. */
  function Retired(w: Worker, r: Result<()>): Worker {
    if IsFatal(r) then w.(running := false, failed := true) else w
  }

  function AfterCommit(w: Worker, sys: Sys, r: Result<()>): Worker {
    Retired(w.(sys := sys, deadline := None, layoutEvents := if r.Ok? then w.layoutEvents + 1 else w.layoutEvents), r)
  }

  ghost predicate Step(w: Worker, e: Event, w': Worker) {
    match e
    case Arrive(op) => !w.closed && w' == w.(queue := w.queue + [op])
    case Hangup => w' == w.(closed := true)
    case Elapse(to) => w.clock <= to && w' == w.(clock := to)
    case Serve(reply) => w.running && Served(w, reply, w')
    case Timer =>
      && w.running && w.queue == [] && !w.closed
      && w.deadline.Some? && w.deadline.value <= w.clock
      && exists r: Result<()> :: CommitStep(w.sys, w'.sys, r.Ok?) && w' == AfterCommit(w, w'.sys, r)
    case Drain =>
      && w.running && w.queue == [] && w.closed
      && if w.deadline.Some? then
           (exists ok :: CommitStep(w.sys, w'.sys, ok)) && w' == w.(sys := w'.sys, deadline := None, running := false)
         else w' == w.(running := false)
  }

  ghost predicate IsRun(states: seq<Worker>, trace: seq<Event>) {
    && |states| == |trace| + 1
    && forall i :: 0 <= i < |trace| ==> Step(states[i], trace[i], states[i + 1])
  }

  // ── The worker and the shadow stay in step ─────────────────────────────

  /** While the worker runs, the debounce is armed exactly when edits are
      pending, for 500 ms after the last accepted set. Once it has stopped,
      edits are pending only if it failed before their commit. */
  predicate InStep(w: Worker) {
    && (w.running ==> (w.deadline.Some? <==> w.sys.shadow.dirty != map[]))
    && (w.deadline.Some? ==> w.deadline == Some(w.lastSet + DEBOUNCE))
    && (!w.running && w.sys.shadow.dirty != map[] ==> w.failed && w.deadline.Some?)
  }

  /** Every pending edit has become part of the confirmed keymap, or every one
      has been given up. */
  predicate AllSettled(s: Sys, s': Sys) {
    && s'.shadow.dirty == map[] && s'.shadow.keymap == s'.shadow.confirmed
    && (s'.shadow.confirmed == s.shadow.keymap || s'.shadow.keymap == s.shadow.confirmed)
  }

  lemma CommitSettles(s: Sys, s': Sys, ok: bool)
    requires CommitStep(s, s', ok)
    ensures s'.shadow.dirty == map[]
    ensures Overlaid(s.shadow) ==> AllSettled(s, s')
    ensures Overlaid(s.shadow) && ok ==> s'.shadow.confirmed == s.shadow.keymap
    ensures !ok ==> s'.shadow.keymap == s.shadow.confirmed == s'.shadow.confirmed
  {
    hide PushedAll;
    hide LayersOf;
  }

  lemma ServedInStep(w: Worker, reply: Reply, w': Worker)
    requires InStep(w) && w.running && Served(w, reply, w')
    ensures InStep(w')
    ensures w'.failed && !w.failed && w'.sys.shadow.dirty != map[] ==> w.queue[0].SetLighting?
  {
    hide CommitStep;
    match w.queue[0]
    case Commit =>
      var r: Result<()> :| CommitStep(w.sys, w'.sys, r.Ok?) && reply == Ack(r)
           && w' == AfterCommit(w.(queue := w.queue[1..]), w'.sys, r);
      CommitSettles(w.sys, w'.sys, r.Ok?);
    case SetKeycode(k, v) =>
      assert k in w.sys.shadow.dirty[k := v];
    case _ =>
  }

  lemma StepInStep(w: Worker, e: Event, w': Worker)
    requires InStep(w) && Step(w, e, w')
    ensures InStep(w')
    ensures e.Timer? ==> w.clock >= w.lastSet + DEBOUNCE
    ensures e.Drain? ==> w'.sys.shadow.dirty == map[] && !w'.running
    ensures Commits(w, e) && Overlaid(w.sys.shadow) ==> AllSettled(w.sys, w'.sys)
    ensures w.running && w'.failed && !w.failed && w'.sys.shadow.dirty != map[] ==> e.Serve? && w.queue[0].SetLighting?
  {
    if Commits(w, e) && Overlaid(w.sys.shadow) {
      CommitsSettle(w, e, w');
    }
    hide CommitStep;
    hide Served;
    hide AllSettled;
    match e
    case Serve(reply) => ServedInStep(w, reply, w');
    case Timer =>
      var r: Result<()> :| CommitStep(w.sys, w'.sys, r.Ok?) && w' == AfterCommit(w, w'.sys, r);
      CommitSettles(w.sys, w'.sys, r.Ok?);
    case Drain =>
      if w.deadline.Some? {
        var ok :| CommitStep(w.sys, w'.sys, ok);
        CommitSettles(w.sys, w'.sys, ok);
      }
    case _ =>
  }

  /** Over every run: the debounce is armed exactly when edits are pending; a
      timer commit never comes within 500 ms of the last accepted set; every
      commit attempt confirms all pending edits or rolls all of them back; a
      worker that stops because its channel closed leaves none pending; and one
      is left pending, neither committed nor rolled back, only by a lighting
      command that fails fatally. */
  lemma {:induction false} WorkerStaysInStep(states: seq<Worker>, trace: seq<Event>, n: nat)
    requires IsRun(states, trace) && n <= |trace| && InStep(states[0]) && states[0].running && !states[0].failed
    ensures InStep(states[n])
    ensures n > 0 && trace[n - 1] == Timer ==> states[n].clock >= states[n - 1].lastSet + DEBOUNCE
    ensures n > 0 && trace[n - 1] == Drain ==> states[n].sys.shadow.dirty == map[]
    ensures n > 0 && Commits(states[n - 1], trace[n - 1]) && Overlaid(states[n - 1].sys.shadow) ==>
              AllSettled(states[n - 1].sys, states[n].sys)
    ensures !states[n].failed && !states[n].running ==> states[n].sys.shadow.dirty == map[]
    ensures states[n].failed ==> !states[n].running
    ensures states[n].failed && states[n].sys.shadow.dirty != map[] ==>
              exists j :: 0 <= j < n && trace[j].Serve? && states[j].queue != [] && states[j].queue[0].SetLighting?
                          && !states[j].failed && states[j + 1].failed
  {
    hide Step;
    if n > 0 {
      WorkerStaysInStep(states, trace, n - 1);
      StepInStep(states[n - 1], trace[n - 1], states[n]);
      StepFrame(states[n - 1], trace[n - 1], states[n]);
    }
  }

  /** The steps that try to commit: a timer, a drain with the debounce armed,
      an explicit commit. */
  predicate Commits(w: Worker, e: Event) {
    e.Timer? || (e.Drain? && w.deadline.Some?) || (e.Serve? && w.queue != [] && w.queue[0].Commit?)
  }

  lemma CommitsSettle(w: Worker, e: Event, w': Worker)
    requires Step(w, e, w') && Commits(w, e) && Overlaid(w.sys.shadow)
    ensures AllSettled(w.sys, w'.sys)
  {
    hide CommitStep;
    hide SetStep;
    hide LightStep;
    hide AllSettled;
    match e
    case Timer =>
      var r: Result<()> :| CommitStep(w.sys, w'.sys, r.Ok?);
      CommitSettles(w.sys, w'.sys, r.Ok?);
    case Drain =>
      var ok :| CommitStep(w.sys, w'.sys, ok);
      CommitSettles(w.sys, w'.sys, ok);
    case Serve(reply) =>
      var r: Result<()> :| CommitStep(w.sys, w'.sys, r.Ok?) && reply == Ack(r);
      CommitSettles(w.sys, w'.sys, r.Ok?);
  }

  /** Nothing but a commit attempt takes a pending edit away. */
  lemma EditsStayPending(w: Worker, e: Event, w': Worker)
    requires Step(w, e, w') && !Commits(w, e)
    ensures w.sys.shadow.dirty.Keys <= w'.sys.shadow.dirty.Keys
    ensures w'.sys.shadow.confirmed == w.sys.shadow.confirmed
  {
    hide CommitStep;
  }

  /** The step accepts an edit of `k`. */
  predicate Accepts(w: Worker, e: Event, k: Key) {
    e == Event.Serve(Done) && w.queue != [] && w.queue[0].SetKeycode? && w.queue[0].key == k
  }

  lemma AcceptedIsPending(w: Worker, e: Event, k: Key, w': Worker)
    requires Step(w, e, w') && Accepts(w, e, k)
    ensures k in w'.sys.shadow.dirty && w'.sys.shadow.keymap == w.sys.shadow.keymap[k := w.queue[0].code]
  {
    hide CommitStep;
    hide LightStep;
    var r :| SetStep(w.sys, k, w.queue[0].code, w'.sys, r) && Done == Ack(r);
  }

  lemma {:induction false} WorkerStaysSound(states: seq<Worker>, trace: seq<Event>, n: nat)
    requires IsRun(states, trace) && n <= |trace| && Sound(states[0].sys)
    ensures Sound(states[n].sys)
  {
    hide Step;
    hide Gmk67Runs.Step;
    hide Sound;
    if n > 0 {
      WorkerStaysSound(states, trace, n - 1);
      StepIsDriverStep(states[n - 1], trace[n - 1], states[n]);
      if states[n].sys != states[n - 1].sys {
        var op, ok :| Gmk67Runs.Step(states[n - 1].sys, op, ok, states[n].sys);
        Gmk67Runs.StepIsSound(states[n - 1].sys, op, ok, states[n].sys);
      }
    }
  }

  /** Step `j` commits an edit of `k` together with all the others pending, or
      rolls it back together with them. */
  ghost predicate SettledAt(states: seq<Worker>, trace: seq<Event>, j: nat, k: Key)
    requires |states| == |trace| + 1 && j < |trace|
  {
    k in states[j].sys.shadow.dirty && Commits(states[j], trace[j]) && AllSettled(states[j].sys, states[j + 1].sys)
  }

  /** No accepted edit is ever lost from sight: from the moment it is accepted
      it is pending until some step commits it or rolls it back. */
  lemma {:induction false} EditsAreSettled(states: seq<Worker>, trace: seq<Event>, i: nat, k: Key, n: nat)
    requires IsRun(states, trace) && i < n <= |trace| && Sound(states[0].sys)
    requires Accepts(states[i], trace[i], k)
    ensures k in states[n].sys.shadow.dirty || exists j :: i < j < n && SettledAt(states, trace, j, k)
  {
    hide Step;
    hide AllSettled;
    if n == i + 1 {
      AcceptedIsPending(states[i], trace[i], k, states[n]);
    } else {
      EditsAreSettled(states, trace, i, k, n - 1);
      if k in states[n - 1].sys.shadow.dirty {
        if Commits(states[n - 1], trace[n - 1]) {
          WorkerStaysSound(states, trace, n - 1);
          CommitsSettle(states[n - 1], trace[n - 1], states[n]);
          assert SettledAt(states, trace, n - 1, k);
        } else {
          EditsStayPending(states[n - 1], trace[n - 1], states[n]);
        }
      }
    }
  }

  /** A worker that has stopped without failing, so because its channel closed,
      has committed or rolled back every edit it ever accepted. */
  lemma ClosedWorkerSettledAll(states: seq<Worker>, trace: seq<Event>, i: nat, k: Key, n: nat)
    requires IsRun(states, trace) && i < n <= |trace| && Sound(states[0].sys)
    requires InStep(states[0]) && states[0].running && !states[0].failed
    requires Accepts(states[i], trace[i], k) && !states[n].running && !states[n].failed
    ensures exists j :: i < j < n && SettledAt(states, trace, j, k)
  {
    hide Step;
    hide InStep;
    EditsAreSettled(states, trace, i, k, n);
    WorkerStaysInStep(states, trace, n);
  }

  lemma StepFrame(w: Worker, e: Event, w': Worker)
    requires Step(w, e, w')
    ensures w.failed ==> w'.failed
    ensures w'.failed && !w.failed ==> !w'.running
    ensures !w.running ==> !w'.running && w'.sys == w.sys
    ensures e.Timer? ==> w'.clock == w.clock
    ensures e.Serve? ==> w.queue != []
  {
    hide CommitStep;
    hide SetStep;
    hide LightStep;
  }

  // ── The device agrees with the shadow under the worker too ─────────────

  /** Whatever the worker does to the driver is one of the driver's own steps. */
  lemma StepIsDriverStep(w: Worker, e: Event, w': Worker)
    requires Step(w, e, w')
    ensures w'.sys == w.sys || exists op, ok :: Gmk67Runs.Step(w.sys, op, ok, w'.sys)
  {
    hide CommitStep;
    hide SetStep;
    hide LightStep;
    match e
    case Serve(reply) =>
      match w.queue[0] {
        case SetKeycode(k, v) =>
          var r :| SetStep(w.sys, k, v, w'.sys, r) && reply == Ack(r);
          assert Gmk67Runs.Step(w.sys, Gmk67Runs.Set(k, v), r.Ok?, w'.sys);
        case Commit =>
          var r: Result<()> :| CommitStep(w.sys, w'.sys, r.Ok?) && reply == Ack(r);
          assert Gmk67Runs.Step(w.sys, Gmk67Runs.Commit, r.Ok?, w'.sys);
        case SetLighting(l) =>
          var r :| LightStep(w.sys, l, w'.sys, r) && reply == Ack(r);
          assert Gmk67Runs.Step(w.sys, Gmk67Runs.Light(l), r.Ok?, w'.sys);
        case _ =>
      }
    case Timer =>
      var r: Result<()> :| CommitStep(w.sys, w'.sys, r.Ok?);
      assert Gmk67Runs.Step(w.sys, Gmk67Runs.Commit, r.Ok?, w'.sys);
    case Drain =>
      if w.deadline.Some? {
        var ok :| CommitStep(w.sys, w'.sys, ok);
        assert Gmk67Runs.Step(w.sys, Gmk67Runs.Commit, ok, w'.sys);
      }
    case _ =>
  }

  /** The composed guarantee: at every point of every run each unsuspected layer
      of the device decodes to its confirmed remaps; and once the channel has
      closed and the worker has drained, to everything the shadow holds. */
  lemma {:induction false} WorkerKeepsAgreement(states: seq<Worker>, trace: seq<Event>, n: nat)
    requires IsRun(states, trace) && n <= |trace| && InStep(states[0]) && states[0].running && !states[0].failed
    requires Sound(states[0].sys) && Gmk67Runs.Agreement(states[0].sys)
    ensures Sound(states[n].sys) && Gmk67Runs.Agreement(states[n].sys)
    ensures n > 0 && trace[n - 1] == Drain ==>
              forall l: u8 :: l <= 1 && l !in states[n].sys.suspect ==>
                Decoded(AreaOf(states[n].sys.device, l), l) == LayerOf(states[n].sys.shadow.keymap, l)
  {
    hide Step;
    hide Gmk67Runs.Step;
    hide Decoded;
    hide LayerOf;
    hide InStep;
    if n > 0 {
      WorkerKeepsAgreement(states, trace, n - 1);
      StepIsDriverStep(states[n - 1], trace[n - 1], states[n]);
      if states[n].sys != states[n - 1].sys {
        var op, ok :| Gmk67Runs.Step(states[n - 1].sys, op, ok, states[n].sys);
        Gmk67Runs.StepKeepsAgreement(states[n - 1].sys, op, ok, states[n].sys);
      }
      if trace[n - 1] == Drain {
        WorkerStaysInStep(states, trace, n);
        assert states[n].sys.shadow.keymap == states[n].sys.shadow.confirmed;
        forall l: u8 | l <= 1 && l !in states[n].sys.suspect
          ensures Decoded(AreaOf(states[n].sys.device, l), l) == LayerOf(states[n].sys.shadow.keymap, l) {
          assert Gmk67Runs.AgreesOn(states[n].sys, l);
        }
      }
    }
  }

  // ── Commands are served in arrival order, once each ────────────────────

  /** The commands that arrived, and those answered. */
  function Arrived(trace: seq<Event>): seq<WorkerOp> {
    if trace == [] then []
    else Arrived(trace[..|trace| - 1]) + if trace[|trace| - 1].Arrive? then [trace[|trace| - 1].op] else []
  }

  function Replies(trace: seq<Event>): nat {
    if trace == [] then 0
    else Replies(trace[..|trace| - 1]) + if trace[|trace| - 1].Serve? then 1 else 0
  }

  /** Every command is either answered, in arrival order, or still queued; one
      drained worker has answered them all. */
  lemma {:induction false} ServedInOrder(states: seq<Worker>, trace: seq<Event>, n: nat)
    requires IsRun(states, trace) && n <= |trace| && states[0].queue == []
    ensures Replies(trace[..n]) + |states[n].queue| == |Arrived(trace[..n])|
    ensures Arrived(trace[..n])[Replies(trace[..n])..] == states[n].queue
    ensures n > 0 && trace[n - 1] == Drain ==> Replies(trace[..n]) == |Arrived(trace[..n])|
  {
    hide Step;
    if n > 0 {
      ServedInOrder(states, trace, n - 1);
      QueueStep(states[n - 1], trace[n - 1], states[n]);
      assert trace[..n][..n - 1] == trace[..n - 1];
    }
  }

  lemma QueueStep(w: Worker, e: Event, w': Worker)
    requires Step(w, e, w')
    ensures w'.queue == if e.Arrive? then w.queue + [e.op] else if e.Serve? then w.queue[1..] else w.queue
    ensures e.Serve? ==> w.queue != []
    ensures e.Drain? ==> w.queue == []
  {
    hide CommitStep;
    hide SetStep;
    hide LightStep;
  }

  // ── The worker itself ──────────────────────────────────────────────────

  class WorkerTask {
    const driver: Driver
    var queue: seq<WorkerOp>
    var closed: bool
    var deadline: Option<nat>
    var clock: nat
    var running: bool
    var failed: bool
    var layoutEvents: nat
    ghost var lastSet: nat

    ghost function State(): Worker
      reads this, driver, driver.io, driver.shadow
    {
      Worker(driver.State(), queue, closed, deadline, clock, running, failed, layoutEvents, lastSet)
    }

    ghost predicate Valid()
      reads this, driver, driver.io, driver.shadow
    {
      driver.Valid() && InStep(State())
    }

    constructor (d: Driver, now: nat)
      requires d.Valid() && d.shadow.dirty == map[]
      ensures driver == d && Valid() && running && !failed && !closed && queue == []
      ensures State() == Worker(d.State(), [], false, None, now, true, false, 0, 0)
    {
      driver := d;
      queue, closed, deadline, clock := [], false, None, now;
      running, failed, layoutEvents, lastSet := true, false, 0, 0;
    }

    method ServeSet(k: Key, v: u16) returns (reply: Reply)
      requires driver.Valid()
      modifies this`deadline, this`lastSet, driver.shadow
      ensures driver.Valid()
      ensures exists r ::
                && SetStep(old(driver.State()), k, v, driver.State(), r) && reply == Ack(r)
                && State() == if r.Ok? then old(State()).(sys := driver.State(), deadline := Some(clock + DEBOUNCE),
                                                          lastSet := clock)
                              else old(State())
    {
      hide Logged;
      hide Sound;
      ghost var s := driver.State();
      var r := driver.SetKeycode(k, v);
      reply := Ack(r);
      assert SetStep(s, k, v, driver.State(), r);
      if r.Ok? {
        deadline := Some(clock + DEBOUNCE);
        lastSet := clock;
      }
    }

    method ServeLighting(l: Lighting) returns (reply: Reply)
      requires driver.Valid()
      modifies this`running, this`failed, driver, driver.io, driver.shadow
      ensures driver.Valid()
      ensures exists r ::
                && LightStep(old(driver.State()), l, driver.State(), r) && reply == Ack(r)
                && State() == Retired(old(State()).(sys := driver.State()), r)
    {
      hide Logged;
      hide Sound;
      hide LightStep;
      ghost var s := driver.State();
      var r := driver.SetLighting(l);
      reply := Ack(r);
      assert LightStep(s, l, driver.State(), r);
      if IsFatal(r) {
        running, failed := false, true;
      }
    }

    /** Serves the oldest command and replies to it. */
    method Serve() returns (reply: Reply)
      requires Valid() && running && queue != []
      modifies this, driver, driver.io, driver.shadow
      ensures Valid() && Step(old(State()), Event.Serve(reply), State())
      ensures queue == old(queue)[1..]
      ensures old(queue)[0].GetKeycode? ==> reply == Code(KeyAt(old(driver.shadow.keymap), old(queue)[0].key))
      ensures old(queue)[0].GetLighting? ==> reply == Settings(old(driver.lighting))
    {
      hide CommitStep;
      hide SetStep;
      hide LightStep;
      hide Logged;
      hide Sound;
      hide InStep;
      ghost var w := State();
      var op := queue[0];
      queue := queue[1..];
      match op {
        case GetKeycode(k) =>
          var code := driver.GetKeycode(k);
          reply := Code(code);
        case SetKeycode(k, v) =>
          reply := ServeSet(k, v);
        case Commit =>
          var r := CommitNow();
          reply := Ack(r);
        case Macro =>
          reply := Refused(Unsupported);
        case GetLighting =>
          reply := Settings(driver.lighting);
        case SetLighting(l) =>
          reply := ServeLighting(l);
      }
      assert Served(w, reply, State());
      ServedInStep(w, reply, State());
    }

    /** A commit supersedes the debounce whatever comes of it. */
    method CommitNow() returns (r: Result<()>)
      requires driver.Valid()
      modifies this, driver, driver.io, driver.shadow
      ensures driver.Valid() && CommitStep(old(driver.State()), driver.State(), r.Ok?)
      ensures State() == AfterCommit(old(State()), driver.State(), r)
      ensures deadline == None && layoutEvents == old(layoutEvents) + if r.Ok? then 1 else 0
      ensures failed <==> old(failed) || r == Err(Disconnected) || r == Err(PermissionDenied)
    {
      hide CommitStep;
      hide Logged;
      hide Sound;
      deadline := None;
      r := driver.CommitToNvram();
      if r.Ok? {
        layoutEvents := layoutEvents + 1;
      }
      if IsFatal(r) {
        running, failed := false, true;
      }
    }

    /** The debounce expired with nothing queued: the select is biased. */
    method OnTimer() returns (r: Result<()>)
      requires Valid() && running && queue == [] && !closed && deadline.Some? && deadline.value <= clock
      modifies this, driver, driver.io, driver.shadow
      ensures Valid() && Step(old(State()), Timer, State())
      ensures layoutEvents == old(layoutEvents) + if r.Ok? then 1 else 0
      ensures !old(failed) ==> (failed <==> r == Err(Disconnected) || r == Err(PermissionDenied))
    {
      ghost var w := State();
      r := CommitNow();
      assert Step(w, Timer, State());
      StepInStep(w, Timer, State());
    }

    /** The channel is closed and drained: flush what is pending and stop. */
    method OnClosed()
      requires Valid() && running && queue == [] && closed
      modifies this, driver, driver.io, driver.shadow
      ensures Valid() && Step(old(State()), Drain, State())
    {
      ghost var w := State();
      if deadline.Some? {
        deadline := None;
        var r := driver.CommitToNvram();
      }
      running := false;
      assert Step(w, Drain, State());
      StepInStep(w, Drain, State());
    }

    /** One turn of the loop: a queued command before anything else, then the
        closed channel, then an expired debounce; else there is nothing to do. */
    method Turn() returns (e: Option<Event>)
      requires Valid() && running
      modifies this, driver, driver.io, driver.shadow
      ensures Valid()
      ensures match e
              case Some(event) => Step(old(State()), event, State())
              case None => State() == old(State())
      ensures if old(queue) != [] then e.Some? && e.value.Serve?
              else if old(closed) then e == Some(Drain)
              else if old(deadline).Some? && old(deadline).value <= old(clock) then e == Some(Timer)
              else e == None
    {
      if queue != [] {
        var reply := Serve();
        e := Some(Event.Serve(reply));
      } else if closed {
        OnClosed();
        e := Some(Drain);
      } else if deadline.Some? && deadline.value <= clock {
        var _ := OnTimer();
        e := Some(Timer);
      } else {
        e := None;
      }
    }
  }
}
