/** What every run of the engine shows its subscribers, what a failed worker's
    report comes to, and who still lives when a device has been replaced. */
module EngineEvents {
  import opened Basics
  import opened Registry
  import opened EngineRuns

  // ── What subscribers see ───────────────────────────────────────────────

  /** An event broadcast about the device. */
  predicate IsEvent(h: Happening, id: DeviceId) {
    (h.Added? || h.Removed?) && h.id == id
  }

  predicate Evicts(h: Happening, id: DeviceId) {
    h == ClosedEviction(id)
  }

  lemma {:induction false} LastSurvives(hist: seq<Happening>, i: nat, j: nat, id: DeviceId)
    requires i < j <= |hist| && (IsEvent(hist[i], id) || Evicts(hist[i], id))
    requires forall m :: i < m < j ==> !IsEvent(hist[m], id) && !Evicts(hist[m], id)
    ensures Last(hist[..j], id) == Some(hist[i])
  {
    assert hist[..j][..j - 1] == hist[..j - 1];
    if i < j - 1 {
      LastSurvives(hist, i, j - 1, id);
    }
  }

  lemma {:induction false} LastOfNothing(hist: seq<Happening>, j: nat, id: DeviceId)
    requires j <= |hist| && forall m :: 0 <= m < j ==> !IsEvent(hist[m], id) && !Evicts(hist[m], id)
    ensures Last(hist[..j], id) == None
  {
    if j > 0 {
      assert hist[..j][..j - 1] == hist[..j - 1];
      LastOfNothing(hist, j - 1, id);
    }
  }

  /** The latest eviction before `j`, if it comes after `i`. */
  lemma LatestEviction(hist: seq<Happening>, i: int, j: nat, id: DeviceId)
      returns (m: int)
    requires -1 <= i < j <= |hist|
    ensures i <= m < j && (m > i ==> Evicts(hist[m], id))
    ensures forall n :: m < n < j ==> !Evicts(hist[n], id)
  {
    m := j - 1;
    while m > i && !Evicts(hist[m], id)
      invariant i <= m < j
      invariant forall n :: m < n < j ==> !Evicts(hist[n], id)
    {
      m := m - 1;
    }
  }

  /** The first event about a device is an addition. */
  lemma FirstEventAdds(hist: seq<Happening>, j: nat, id: DeviceId)
    requires Alternates(hist) && j < |hist| && IsEvent(hist[j], id)
    requires forall m :: 0 <= m < j ==> !IsEvent(hist[m], id)
    ensures hist[j].Added?
  {
    if hist[j].Removed? {
      var m := LatestEviction(hist, -1, j, id);
      if m >= 0 {
        LastSurvives(hist, m, j, id);
      } else {
        LastOfNothing(hist, j, id);
      }
    }
  }

  /** Of two consecutive events about a device, a removal is followed by an
      addition; and an addition is followed by a removal unless, and only
      unless, the device was evicted unannounced in between. */
  lemma EventsAlternate(hist: seq<Happening>, i: nat, j: nat, id: DeviceId)
    requires Alternates(hist) && i < j < |hist| && IsEvent(hist[i], id) && IsEvent(hist[j], id)
    requires forall m :: i < m < j ==> !IsEvent(hist[m], id)
    ensures hist[i].Removed? ==> hist[j].Added?
    ensures hist[i].Added? ==> (hist[j].Added? <==> exists m :: i < m < j && Evicts(hist[m], id))
  {
    var m := LatestEviction(hist, i, j, id);
    LastSurvives(hist, m, j, id);
  }

  /** Registry safety as a subscriber sees it, at every point of every run. */
  lemma EventsOverRuns(states: seq<Engine>, labels: seq<Label>, n: nat, i: nat, j: nat, id: DeviceId)
    requires IsRun(states, labels) && n <= |labels| && i < j < |states[n].hist|
    requires var h := states[n].hist;
             IsEvent(h[i], id) && IsEvent(h[j], id) && forall m :: i < m < j ==> !IsEvent(h[m], id)
    ensures var h := states[n].hist;
            && (h[i].Removed? ==> h[j].Added?)
            && (h[i].Added? ==> (h[j].Added? <==> exists m :: i < m < j && Evicts(h[m], id)))
  {
    hide Next;
    hide Enabled;
    hide QueuesGood;
    hide Conserved;
    EngineOverRuns(states, labels, n);
    EventsAlternate(states[n].hist, i, j, id);
  }

  lemma FirstEventOverRuns(states: seq<Engine>, labels: seq<Label>, n: nat, j: nat, id: DeviceId)
    requires IsRun(states, labels) && n <= |labels| && j < |states[n].hist| && IsEvent(states[n].hist[j], id)
    requires forall m :: 0 <= m < j ==> !IsEvent(states[n].hist[m], id)
    ensures states[n].hist[j].Added?
  {
    hide Next;
    hide Enabled;
    hide QueuesGood;
    hide Conserved;
    EngineOverRuns(states, labels, n);
    FirstEventAdds(states[n].hist, j, id);
  }

  // ── What a failed worker's report comes to ─────────────────────────────

  /** Every report under way says that the device is gone, and comes from a
      worker of that device that has exited. */
  ghost predicate ReportsGood(s: Engine) {
    forall i :: 0 <= i < |s.inbox| && s.inbox[i].DeviceError? ==> ReportGood(s, s.inbox[i])
  }

  ghost predicate ReportGood(s: Engine, c: Command)
    requires c.DeviceError?
  {
    && c.error.Disconnected? && c.reporter in s.workers
    && s.workers[c.reporter].phase.Exited? && s.workers[c.reporter].id == c.id
  }

  lemma ReportsSurvive(s: Engine, s': Engine, c: Command)
    requires c.DeviceError? && ReportGood(s, c) && WorkersAge(s, s')
    ensures ReportGood(s', c)
  {
  }

  /** Workers stay known by their device, and stay gone. */
  ghost predicate WorkersAge(s: Engine, s': Engine) {
    forall w :: w in s.workers ==>
      && w in s'.workers && s'.workers[w].id == s.workers[w].id
      && (s.workers[w].phase.Exited? ==> s'.workers[w].phase.Exited?)
  }

  lemma HandlingAges(s: Engine, c: Command, a: Attach)
    requires s.spawned !in s.workers
    ensures WorkersAge(s, Handled(s, c, a))
  {
    hide FateOf;
    match c
    case Dispatch(id, op) => match FateOf(s, id, op) { case _ => }
    case _ =>
  }

  lemma StepAges(s: Engine, l: Label)
    requires Enabled(s, l) && s.spawned !in s.workers
    ensures WorkersAge(s, Next(s, l))
  {
    hide HasSender;
    hide Handled;
    if l.Handle? {
      HandlingAges(s.(inbox := s.inbox[1..]), s.inbox[0], l.a);
    }
  }

  lemma HandlingOnlyTakes(s: Engine, c: Command, a: Attach)
    ensures Handled(s, c, a).inbox == if c.Shutdown? then [] else s.inbox
  {
    hide FateOf;
    hide InBounds;
    hide InboxReplies;
    match c
    case Dispatch(id, op) => match FateOf(s, id, op) { case _ => }
    case _ =>
  }

  /** A step puts at most one command behind the others; a report among the new
      ones comes from a worker that exits with it. */
  lemma InboxStep(s: Engine, l: Label, i: nat)
    requires Enabled(s, l) && i < |Next(s, l).inbox| && Next(s, l).inbox[i].DeviceError?
    ensures (exists j :: 0 <= j < |s.inbox| && s.inbox[j] == Next(s, l).inbox[i]) || ReportGood(Next(s, l), Next(s, l).inbox[i])
  {
    hide HasSender;
    hide Handled;
    if l.Handle? {
      HandlingOnlyTakes(s.(inbox := s.inbox[1..]), s.inbox[0], l.a);
      if !s.inbox[0].Shutdown? {
        assert s.inbox[i + 1] == Next(s, l).inbox[i];
      }
    } else if i < |s.inbox| {
      assert s.inbox[i] == Next(s, l).inbox[i];
    }
  }

  lemma ReportsStep(s: Engine, l: Label)
    requires ReportsGood(s) && Enabled(s, l) && s.spawned !in s.workers
    ensures ReportsGood(Next(s, l))
  {
    StepAges(s, l);
    hide Enabled;
    hide Next;
    hide WorkersAge;
    hide ReportGood;
    var s' := Next(s, l);
    forall i | 0 <= i < |s'.inbox| && s'.inbox[i].DeviceError? ensures ReportGood(s', s'.inbox[i]) {
      InboxStep(s, l, i);
      if exists j :: 0 <= j < |s.inbox| && s.inbox[j] == s'.inbox[i] {
        ReportsSurvive(s, s', s'.inbox[i]);
      }
    }
  }

  lemma SpawnedIsNew(s: Engine)
    requires QueuesGood(s)
    ensures s.spawned !in s.workers
  {
  }

  lemma {:induction false} ReportsOverRuns(states: seq<Engine>, labels: seq<Label>, n: nat)
    requires IsRun(states, labels) && n <= |labels|
    ensures ReportsGood(states[n])
  {
    hide Next;
    hide Enabled;
    hide QueuesGood;
    hide RegistryGood;
    hide Conserved;
    if n > 0 {
      ReportsOverRuns(states, labels, n - 1);
      EngineOverRuns(states, labels, n - 1);
      SpawnedIsNew(states[n - 1]);
      ReportsStep(states[n - 1], labels[n - 1]);
    }
  }

  /** In every run, a failed worker's report removes the device and starts a
      reconnect exactly if the device's last event is still its addition when
      the report is handled; a report that comes after an unannounced eviction
      does nothing. */
  lemma ReportStartsReconnectIff(states: seq<Engine>, labels: seq<Label>, n: nat)
    requires IsRun(states, labels) && n < |labels| && labels[n].Handle?
    requires states[n].inbox != [] && states[n].inbox[0].DeviceError?
    ensures var s, s', id := states[n], states[n + 1], states[n].inbox[0].id;
            && (id in s.devices <==> IsAdded(Last(s.hist, id)))
            && s'.hist == (if IsAdded(Last(s.hist, id)) then s.hist + [Removed(id)] + [Started(id, s.nextToken)]
                           else s.hist)
            && (IsAdded(Last(s.hist, id)) ==> id !in s.reconnecting && s'.reconnecting[id] == s.nextToken)
            && (!IsAdded(Last(s.hist, id)) ==> s'.reconnecting == s.reconnecting && s'.devices == s.devices)
  {
    assert Enabled(states[n], labels[n]) && states[n + 1] == Next(states[n], labels[n]);
    EngineOverRuns(states, labels, n);
    ReportsOverRuns(states, labels, n);
    hide IsRun;
    hide QueuesGood;
    hide Conserved;
    hide Last;
    hide Alternates;
  }

  /** Event `j` registered the worker for the device, and none was since. */
  predicate LastRegistered(hist: seq<Happening>, j: nat, id: DeviceId, w: WorkerId) {
    j < |hist| && hist[j] == Added(id, w) && forall m :: j < m < |hist| ==> !(hist[m].Added? && hist[m].id == id)
  }

  lemma {:induction false} LastIsRegistered(hist: seq<Happening>, id: DeviceId, w: WorkerId) returns (j: nat)
    requires Last(hist, id) == Some(Added(id, w))
    ensures LastRegistered(hist, j, id, w)
  {
    var n := |hist| - 1;
    if hist[n] == Added(id, w) {
      j := n;
    } else {
      j := LastIsRegistered(hist[..n], id, w);
    }
  }

  /** Whose handle a report evicts. In every run, the worker evicted is the one
      that failed exactly if no other was registered for the device since that
      one was; if one was, it is evicted in the failed one's place. */
  lemma ReportEvictsReporterIff(states: seq<Engine>, labels: seq<Label>, n: nat)
    requires IsRun(states, labels) && n < |labels| && labels[n].Handle?
    requires states[n].inbox != [] && states[n].inbox[0].DeviceError?
    requires states[n].inbox[0].id in states[n].devices
    ensures var s, id, w := states[n], states[n].inbox[0].id, states[n].inbox[0].reporter;
            && w in s.workers && s.workers[w].phase.Exited? && s.workers[w].id == id
            && (s.devices[id].worker == w <==> exists j :: LastRegistered(s.hist, j, id, w))
            && id !in states[n + 1].devices
  {
    var s, id, w := states[n], states[n].inbox[0].id, states[n].inbox[0].reporter;
    assert Enabled(s, labels[n]) && states[n + 1] == Next(s, labels[n]);
    EngineOverRuns(states, labels, n);
    ReportsOverRuns(states, labels, n);
    assert ReportGood(s, s.inbox[0]);
    hide IsRun;
    hide QueuesGood;
    hide Conserved;
    hide Alternates;
    var j := LastIsRegistered(s.hist, id, s.devices[id].worker);
    forall i: nat | LastRegistered(s.hist, i, id, w) ensures i == j {}
  }

  // ── Who lives beside the registered worker ─────────────────────────────

  /** A worker is only ever given a command as the registered one of a device. */
  lemma OnlyRegisteredIsFed(s: Engine, l: Label, w: WorkerId)
    requires Enabled(s, l) && w in s.workers && w in Next(s, l).workers && s.spawned !in s.workers
    requires |Next(s, l).workers[w].queue| > |s.workers[w].queue|
    ensures exists id :: id in s.devices && s.devices[id].worker == w
  {
    hide HasSender;
    if l.Handle? && s.inbox[0].Dispatch? {
      var s1, id, op := s.(inbox := s.inbox[1..]), s.inbox[0].id, s.inbox[0].op;
      hide FateOf;
      match FateOf(s1, id, op)
      case Through => assert s.devices[id].worker == w;
      case _ =>
    }
  }

  /** A worker that nothing can reach any more stays out of reach, is given no
      command, and can only drain its queue. */
  lemma UnreachableOnlyDrains(s: Engine, l: Label, w: WorkerId)
    requires QueuesGood(s) && Enabled(s, l) && w in s.workers && !HasSender(s, w)
    ensures var s' := Next(s, l);
            && w in s'.workers && !HasSender(s', w)
            && (s'.workers[w].queue == s.workers[w].queue || s'.workers[w].queue == []
                || (s.workers[w].queue != [] && s'.workers[w].queue == s.workers[w].queue[1..]))
  {
    assert w < s.spawned && s.spawned !in s.workers;
    hide QueuesGood;
    if l.Handle? {
      UnreachableAfterHandling(s, l.a, w);
    } else {
      UnreachableElsewhere(s, l, w);
    }
  }

  lemma UnreachableElsewhere(s: Engine, l: Label, w: WorkerId)
    requires Enabled(s, l) && !l.Handle? && w in s.workers && w < s.spawned && !HasSender(s, w) && s.spawned !in s.workers
    ensures var s' := Next(s, l);
            && w in s'.workers && !HasSender(s', w)
            && (s'.workers[w].queue == s.workers[w].queue || s'.workers[w].queue == []
                || (s.workers[w].queue != [] && s'.workers[w].queue == s.workers[w].queue[1..]))
  {
    var s' := Next(s, l);
    QuietStep(s, l);
    assert forall t :: t in s'.tasks && s'.tasks[t].found.Some? && !(t in s.tasks && s'.tasks[t] == s.tasks[t]) ==>
      s'.tasks[t].found.value.worker == s.spawned;
    forall i | 0 <= i < |s'.inbox| && s'.inbox[i].DeviceReattached? ensures s'.inbox[i].handle.worker != w {
      if i < |s.inbox| {
        assert s'.inbox[i] == s.inbox[i];
      }
    }
  }

  lemma UnreachableAfterDispatch(s: Engine, id: DeviceId, op: WorkerOp, w: WorkerId)
    requires w in s.workers && !HasSender(s, w)
    ensures var s' := Dispatched(s, id, op);
            w in s'.workers && !HasSender(s', w) && s'.workers[w].queue == s.workers[w].queue
  {
    match FateOf(s, id, op)
    case Through =>
      assert s.devices[id].worker != w;
      SameHandles(s, Dispatched(s, id, op), w);
    case _ =>
      assert Dispatched(s, id, op).devices.Keys <= s.devices.Keys;
      SameHandles(s, Dispatched(s, id, op), w);
  }

  lemma SameHandles(s: Engine, s': Engine, w: WorkerId)
    requires !HasSender(s, w) && s'.inbox == s.inbox && s'.tasks == s.tasks
    requires forall id :: id in s'.devices ==> id in s.devices && s'.devices[id] == s.devices[id]
    ensures !HasSender(s', w)
  {
  }

  lemma UnreachableAfterConnect(s: Engine, id: DeviceId, vendor: u16, product: u16, a: Attach, w: WorkerId)
    requires w in s.workers && w < s.spawned && !HasSender(s, w)
    ensures var s' := ConnectHandled(s, id, vendor, product, a);
            w in s'.workers && !HasSender(s', w) && s'.workers[w].queue == s.workers[w].queue
  {
    var s' := ConnectHandled(s, id, vendor, product, a);
    assert forall d :: d in s'.devices ==> (d in s.devices && s'.devices[d] == s.devices[d]) || s'.devices[d].worker == s.spawned;
    assert forall t :: t in s'.tasks && s'.tasks[t].found.Some? ==> t in s.tasks && s'.tasks[t] == s.tasks[t];
  }

  lemma UnreachableAfterOther(s: Engine, c: Command, a: Attach, w: WorkerId)
    requires w in s.workers && !HasSender(s, w) && !c.Dispatch? && !c.DeviceConnected?
    requires c.DeviceReattached? ==> c.handle.worker != w
    ensures var s' := Handled(s, c, a);
            w in s'.workers && !HasSender(s', w) && s'.workers[w].queue == s.workers[w].queue
  {
    var s' := Handled(s, c, a);
    HandlingOnlyTakes(s, c, a);
    hide InboxReplies;
    assert forall d :: d in s'.devices ==>
      (d in s.devices && s'.devices[d] == s.devices[d]) || (c.DeviceReattached? && s'.devices[d] == c.handle);
    assert forall t :: t in s'.tasks && s'.tasks[t].found.Some? ==> t in s.tasks && s'.tasks[t] == s.tasks[t];
    assert s'.workers == s.workers;
    hide Handled;
    forall i | 0 <= i < |s'.inbox| && s'.inbox[i].DeviceReattached? ensures s'.inbox[i].handle.worker != w {
      assert s'.inbox[i] == s.inbox[i];
    }
  }

  lemma UnreachableAfterHandling(s: Engine, a: Attach, w: WorkerId)
    requires s.up && s.inbox != [] && w in s.workers && w < s.spawned && !HasSender(s, w)
    ensures var s' := Handled(s.(inbox := s.inbox[1..]), s.inbox[0], a);
            w in s'.workers && !HasSender(s', w) && s'.workers[w].queue == s.workers[w].queue
  {
    var s1, c := s.(inbox := s.inbox[1..]), s.inbox[0];
    forall i | 0 <= i < |s1.inbox| && s1.inbox[i].DeviceReattached? ensures s1.inbox[i].handle.worker != w {
      assert s1.inbox[i] == s.inbox[i + 1];
    }
    assert !HasSender(s1, w);
    assert c.DeviceReattached? ==> c.handle.worker != w;
    hide HasSender;
    match c
    case Dispatch(id, op) => UnreachableAfterDispatch(s1, id, op, w);
    case DeviceConnected(id, vendor, product) => UnreachableAfterConnect(s1, id, vendor, product, a, w);
    case _ => UnreachableAfterOther(s1, c, a, w);
  }

  // ── Runs that go wrong ─────────────────────────────────────────────────

  const SMALL := Topology(1, 1, 1)

  function Idle(id: DeviceId): Worker {
    Worker(id, SMALL, [], None, Running)
  }

  /** Nothing is under way, and the device is in with this idle worker. */
  predicate Settled(s: Engine, id: DeviceId, w: WorkerId) {
    && s.up && s.inbox == [] && s.reconnecting == map[] && id in s.devices
    && s.devices[id].topology == SMALL && s.devices[id].worker == w && w in s.workers && s.workers[w] == Idle(id)
    && w < s.spawned
  }

  lemma AttachSteps(s: Engine, id: DeviceId) returns (labels: seq<Label>, t: Engine)
    requires s.up && s.inbox == [] && s.reconnecting == map[] && id !in s.devices
    ensures Steps(s, labels, t) && Settled(t, id, s.spawned) && t.spawned == s.spawned + 1
    ensures t.hist == s.hist + [SawConnect(id), Added(id, s.spawned)] && t.issued == s.issued
    ensures t.devices.Keys == s.devices.Keys + {id} && t.workers == s.workers[s.spawned := Idle(id)]
  {
    hide Steps;
    var connected := DeviceConnected(id, 1, 2);
    var s1 := Next(s, Send(connected));
    OneStep(s, Send(connected));
    assert s1.inbox == [connected] && s1.inbox[1..] == [];
    t := Next(s1, Label.Handle(Attached(SMALL)));
    StepsGrow(s, [Send(connected)], s1, Label.Handle(Attached(SMALL)));
    labels := [Send(connected)] + [Label.Handle(Attached(SMALL))];
    assert t.hist == s.hist + [SawConnect(id)] + [Added(id, s.spawned)];
  }

  lemma DetachSteps(s: Engine, id: DeviceId, w: WorkerId) returns (labels: seq<Label>, t: Engine)
    requires Settled(s, id, w)
    ensures Steps(s, labels, t) && t == s.(devices := s.devices - {id}, hist := s.hist + [SawDisconnect(id)] + [Removed(id)])
  {
    hide Steps;
    var gone := DeviceDisconnected(id);
    var s1 := Next(s, Send(gone));
    OneStep(s, Send(gone));
    assert s1.inbox == [gone] && s1.inbox[1..] == [];
    t := Next(s1, Label.Handle(NoDriver));
    StepsGrow(s, [Send(gone)], s1, Label.Handle(NoDriver));
    labels := [Send(gone)] + [Label.Handle(NoDriver)];
    assert s.reconnecting - {id} == s.reconnecting;
  }

  /** The worker's debounced commit fails and it reports itself, behind what is
      waiting already. */
  lemma FailureSteps(s: Engine, id: DeviceId, w: WorkerId) returns (labels: seq<Label>, t: Engine)
    requires s.up && |s.inbox| < 2 && w in s.workers && s.workers[w] == Idle(id)
    ensures Steps(s, labels, t)
    ensures t == s.(inbox := s.inbox + [DeviceError(id, DriverError.Disconnected, w)],
                    workers := s.workers[w := Idle(id).(phase := Exited)])
  {
    hide Steps;
    var s1 := Next(s, CommitFailed(w));
    OneStep(s, CommitFailed(w));
    t := Next(s1, Notify(w));
    StepsGrow(s, [CommitFailed(w)], s1, Notify(w));
    labels := [CommitFailed(w)] + [Notify(w)];
    assert OpReplies([]) == [];
    assert t.workers == s.workers[w := Idle(id).(phase := Exited)];
  }

  /** Replaced while still alive: unplugged and plugged in again, a device has
      two running workers. */
  lemma ReplaceSteps(id: DeviceId) returns (labels: seq<Label>, t: Engine)
    ensures Steps(Initial(), labels, t) && Settled(t, id, 1) && t.workers == map[0 := Idle(id), 1 := Idle(id)]
    ensures t.devices.Keys == {id}
    ensures t.hist == [SawConnect(id), Added(id, 0), SawDisconnect(id), Removed(id), SawConnect(id), Added(id, 1)]
  {
    hide Steps;
    hide Enabled;
    hide Next;
    var a, first := AttachSteps(Initial(), id);
    var b, out := DetachSteps(first, id, 0);
    var c, second := AttachSteps(out, id);
    StepsCompose(Initial(), a, first, b, out);
    StepsCompose(Initial(), a + b, out, c, second);
    labels, t := a + b + c, second;
    assert out.devices.Keys == {};
  }

  /** A run by way of a given state. */
  lemma TwoLegs(front: seq<Label>, s: Engine, back: seq<Label>, t: Engine) returns (states: seq<Engine>)
    requires Steps(Initial(), front, s) && Steps(s, back, t)
    ensures IsRun(states, front + back) && states[|front|] == s && states[|front| + |back|] == t
  {
    hide Steps;
    hide Enabled;
    hide Next;
    var first := RunExtends([Initial()], [], front, s);
    assert [] + front == front;
    states := RunExtends(first, front, back, t);
  }

  /** A run by way of two given states, one label apart. */
  lemma ThreeLegs(front: seq<Label>, s: Engine, l: Label, t: Engine, back: seq<Label>, u: Engine)
    returns (states: seq<Engine>)
    requires Steps(Initial(), front, s) && Enabled(s, l) && t == Next(s, l) && Steps(t, back, u)
    ensures IsRun(states, front + [l] + back)
    ensures states[|front|] == s && states[|front| + 1] == t && states[|front| + 1 + |back|] == u
  {
    OneStep(s, l);
    var first := TwoLegs(front, s, [l], t);
    hide Steps;
    hide Enabled;
    hide Next;
    states := RunExtends(first, front + [l], back, u);
  }

  /** A device can have two running workers, and the report of the one replaced
      then evicts its healthy successor and starts a reconnect. */
  lemma ReplacedWorkerEvictsSuccessor(id: DeviceId) returns (states: seq<Engine>, labels: seq<Label>, m: nat, n: nat)
    ensures IsRun(states, labels) && m < n < |labels|
    ensures states[m].workers == map[0 := Idle(id), 1 := Idle(id)] && id in states[m].devices
    ensures labels[n].Handle? && states[n].inbox == [DeviceError(id, DriverError.Disconnected, 0)]
    ensures id in states[n].devices && states[n].devices[id].worker == 1
    ensures 1 in states[n].workers && states[n].workers[1] == Idle(id)
    ensures id !in states[n + 1].devices && id in states[n + 1].reconnecting
  {
    var front, both := ReplaceSteps(id);
    var back, failed := FailureSteps(both, id, 0);
    var evicted := EvictSteps(failed, id);
    states, labels, m, n := TwoMarks(front, both, back, failed, Label.Handle(NoDriver), evicted);
  }

  lemma EvictSteps(s: Engine, id: DeviceId) returns (t: Engine)
    requires s.up && s.inbox == [DeviceError(id, DriverError.Disconnected, 0)] && id in s.devices
    ensures Enabled(s, Label.Handle(NoDriver)) && t == Next(s, Label.Handle(NoDriver))
    ensures id !in t.devices && id in t.reconnecting
  {
    t := Next(s, Label.Handle(NoDriver));
  }

  lemma TwoMarks(front: seq<Label>, s: Engine, back: seq<Label>, t: Engine, l: Label, u: Engine)
    returns (states: seq<Engine>, labels: seq<Label>, m: nat, n: nat)
    requires Steps(Initial(), front, s) && Steps(s, back, t) && back != [] && Enabled(t, l) && u == Next(t, l)
    ensures IsRun(states, labels) && m < n < |labels| && labels[n] == l
    ensures states[m] == s && states[n] == t && states[n + 1] == u
  {
    OneStep(t, l);
    var first := TwoLegs(front, s, back, t);
    hide Steps;
    hide Enabled;
    hide Next;
    states := RunExtends(first, front + back, [l], u);
    labels, m, n := front + back + [l], |front|, |front| + |back|;
  }

  lemma DispatchEvicts(s: Engine, id: DeviceId, op: WorkerOp, rest: seq<Command>) returns (t: Engine)
    requires s.up && s.inbox == [Dispatch(id, op)] + rest && id in s.devices && op.ask.Commit?
    requires s.devices[id].worker in s.workers && s.workers[s.devices[id].worker].phase.Exited?
    ensures Enabled(s, Label.Handle(NoDriver)) && t == Next(s, Label.Handle(NoDriver))
    ensures t.up && t.inbox == rest && t.devices == s.devices - {id} && t.reconnecting == s.reconnecting
    ensures t.hist == s.hist + [ClosedEviction(id)] && t.spawned == s.spawned
  {
    t := Next(s, Label.Handle(NoDriver));
    assert s.inbox[1..] == rest;
    assert FateOf(s.(inbox := rest), id, op).ChannelClosed?;
  }

  /** A dispatch is waiting when the worker fails; it is handled first. */
  lemma EvictedSteps(id: DeviceId) returns (labels: seq<Label>, t: Engine)
    ensures Steps(Initial(), labels, t) && t.up && t.devices == map[] && t.reconnecting == map[] && t.spawned == 1
    ensures t.inbox == [DeviceError(id, DriverError.Disconnected, 0)]
    ensures t.hist == [SawConnect(id), Added(id, 0), ClosedEviction(id)]
  {
    hide Steps;
    var a, attached := AttachSteps(Initial(), id);
    var dispatch := Dispatch(id, WorkerOp(Commit, 0));
    var waiting := Next(attached, Send(dispatch));
    StepsGrow(Initial(), a, attached, Send(dispatch));
    var b, failed := FailureSteps(waiting, id, 0);
    StepsCompose(Initial(), a + [Send(dispatch)], waiting, b, failed);
    hide Enabled;
    hide Next;
    t := DispatchEvicts(failed, id, WorkerOp(Commit, 0), [DeviceError(id, DriverError.Disconnected, 0)]);
    StepsGrow(Initial(), a + [Send(dispatch)] + b, failed, Label.Handle(NoDriver));
    labels := a + [Send(dispatch)] + b + [Label.Handle(NoDriver)];
    assert t.devices.Keys == {};
  }

  /** Two additions in a row do occur, and so does a report that starts nothing:
      after the eviction the device is neither attached nor being reconnected
      to, until it is plugged in again. */
  lemma EvictionGoesUnannounced(id: DeviceId) returns (states: seq<Engine>, labels: seq<Label>, n: nat)
    ensures IsRun(states, labels) && n < |labels|
    ensures labels[n] == Label.Handle(NoDriver) && states[n].inbox == [DeviceError(id, DriverError.Disconnected, 0)]
    ensures states[n + 1].devices == map[] && states[n + 1].reconnecting == map[]
    ensures states[|labels|].hist == [SawConnect(id), Added(id, 0), ClosedEviction(id), SawConnect(id), Added(id, 1)]
  {
    var front, evicted := EvictedSteps(id);
    var ignored := ReportIgnored(evicted, id);
    var back, again := AttachSteps(ignored, id);
    hide Steps;
    hide Enabled;
    hide Next;
    states := ThreeLegs(front, evicted, Label.Handle(NoDriver), ignored, back, again);
    n, labels := |front|, front + [Label.Handle(NoDriver)] + back;
  }

  lemma ReportIgnored(s: Engine, id: DeviceId) returns (t: Engine)
    requires s.up && s.inbox == [DeviceError(id, DriverError.Disconnected, 0)] && id !in s.devices
    ensures Enabled(s, Label.Handle(NoDriver)) && t == Next(s, Label.Handle(NoDriver)) && t == s.(inbox := [])
  {
    t := Next(s, Label.Handle(NoDriver));
    assert s.inbox[1..] == [];
  }
}
