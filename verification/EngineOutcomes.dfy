/** What the handling of each command leaves behind, in every run. */
module EngineOutcomes {
  import opened Basics
  import opened Registry
  import opened EngineRuns

  /** Event `n` of the run is the handling of `c`. */
  ghost predicate Handles(states: seq<Engine>, labels: seq<Label>, n: nat, c: Command) {
    && IsRun(states, labels) && n < |labels| && labels[n].Handle?
    && states[n].inbox != [] && states[n].inbox[0] == c
  }

  /** Nothing is started, let go or answered. */
  predicate Idle(s: Engine, s': Engine) {
    && s'.devices == s.devices && s'.workers == s.workers && s'.tasks == s.tasks
    && s'.nextToken == s.nextToken && s'.answered == s.answered
  }

  /** The next token is registered for the device, and a new task carries it with
      the device's identity. */
  ghost predicate Retries(s: Engine, s': Engine, id: DeviceId, vendor: u16, product: u16) {
    && s'.reconnecting == s.reconnecting[id := s.nextToken]
    && s'.nextToken == (s.nextToken + 1) % 0x1_0000_0000_0000_0000
    && exists t: TaskId :: t !in s.tasks && s'.tasks == s.tasks[t := Task(id, s.nextToken, vendor, product, None)]
  }

  lemma HandlingStep(states: seq<Engine>, labels: seq<Label>, n: nat, c: Command)
    requires Handles(states, labels, n, c)
    ensures states[n + 1] == Handled(states[n].(inbox := states[n].inbox[1..]), c, labels[n].a)
    ensures QueuesGood(states[n]) && states[n].devices.Keys !! states[n].reconnecting.Keys
    ensures states[n].spawned !in states[n].workers && states[n].spawned !in states[n].tasks
  {
    EngineOverRuns(states, labels, n);
    RegistryDisjoint(states[n]);
    hide RegistryGood;
    hide Conserved;
    hide Handled;
  }

  // ── Connecting and disconnecting ───────────────────────────────────────

  /** In every run a connected device that is not registered comes in with the
      topology probed and a fresh running worker, if it could be attached; is
      retried under the next token, if it went away or may not be opened yet; and
      is neither in nor retried otherwise. A registered one stays as it is. */
  lemma ConnectOutcome(states: seq<Engine>, labels: seq<Label>, n: nat, id: DeviceId, vendor: u16, product: u16)
    requires Handles(states, labels, n, DeviceConnected(id, vendor, product))
    ensures var s, s', a := states[n], states[n + 1], labels[n].a;
            && (id in s.devices ==> Idle(s, s') && s'.reconnecting == s.reconnecting)
            && (id !in s.devices && a.Attached? ==>
                  && s'.devices == s.devices[id := Registry.Handle(s.spawned, a.topology, vendor, product)]
                  && s.spawned !in s.workers
                  && s'.workers == s.workers[s.spawned := Worker(id, a.topology, [], None, Running)]
                  && s'.reconnecting == s.reconnecting - {id} && s'.tasks == s.tasks)
            && (id !in s.devices && (a == AttachFailed(Disconnected) || a == AttachFailed(PermissionDenied)) ==>
                  s'.devices == s.devices && s'.workers == s.workers && Retries(s, s', id, vendor, product))
            && (id !in s.devices && !a.Attached?
                && a != AttachFailed(Disconnected) && a != AttachFailed(PermissionDenied) ==>
                  Idle(s, s') && s'.reconnecting == s.reconnecting - {id})
  {
    HandlingStep(states, labels, n, DeviceConnected(id, vendor, product));
    hide QueuesGood;
    hide IsRun;
    var s := states[n];
    if id in s.devices {
      assert s.reconnecting - {id} == s.reconnecting;
    } else if labels[n].a == AttachFailed(Disconnected) || labels[n].a == AttachFailed(PermissionDenied) {
      assert (s.reconnecting - {id})[id := s.nextToken] == s.reconnecting[id := s.nextToken];
    }
  }

  /** A disconnected device is neither in nor retried; no other is touched. */
  lemma DisconnectOutcome(states: seq<Engine>, labels: seq<Label>, n: nat, id: DeviceId)
    requires Handles(states, labels, n, DeviceDisconnected(id))
    ensures var s, s' := states[n], states[n + 1];
            && s'.devices == s.devices - {id} && s'.reconnecting == s.reconnecting - {id}
            && s'.workers == s.workers && s'.tasks == s.tasks && s'.answered == s.answered
  {
    HandlingStep(states, labels, n, DeviceDisconnected(id));
    hide QueuesGood;
    hide IsRun;
    if id !in states[n].devices {
      assert states[n].devices - {id} == states[n].devices;
    }
  }

  /** A failed worker's report evicts the registered device; one that is gone is
      retried under its own identity. Without one registered it does nothing. */
  lemma ErrorOutcome(states: seq<Engine>, labels: seq<Label>, n: nat, id: DeviceId, e: DriverError, w: WorkerId)
    requires Handles(states, labels, n, DeviceError(id, e, w))
    ensures var s, s' := states[n], states[n + 1];
            && s'.devices == s.devices - {id} && s'.workers == s.workers && s'.answered == s.answered
            && (id in s.devices && e == Disconnected ==>
                  Retries(s, s', id, s.devices[id].vendor, s.devices[id].product))
            && (id in s.devices && e != Disconnected ==> s'.reconnecting == s.reconnecting && s'.tasks == s.tasks)
            && (id !in s.devices ==> Idle(s, s') && s'.reconnecting == s.reconnecting)
  {
    HandlingStep(states, labels, n, DeviceError(id, e, w));
    hide QueuesGood;
    hide IsRun;
    if id !in states[n].devices {
      assert states[n].devices - {id} == states[n].devices;
    }
  }

  /** A reattachment under the registered token brings its handle in; under any
      other it does nothing. */
  lemma ReattachOutcome(states: seq<Engine>, labels: seq<Label>, n: nat, id: DeviceId, h: Registry.Handle, token: nat)
    requires Handles(states, labels, n, DeviceReattached(id, h, token))
    ensures var s, s' := states[n], states[n + 1];
            && s'.workers == s.workers && s'.tasks == s.tasks && s'.answered == s.answered
            && s'.nextToken == s.nextToken
            && if id in s.reconnecting && s.reconnecting[id] == token then
                 s'.devices == s.devices[id := h] && s'.reconnecting == s.reconnecting - {id} && id !in s.devices
               else s'.devices == s.devices && s'.reconnecting == s.reconnecting
  {
    HandlingStep(states, labels, n, DeviceReattached(id, h, token));
    hide QueuesGood;
    hide IsRun;
  }

  // ── Commands that are answered ─────────────────────────────────────────

  /** A question is answered at once, from the registry, and changes nothing. */
  lemma QuestionOutcome(states: seq<Engine>, labels: seq<Label>, n: nat, c: Command)
    requires Handles(states, labels, n, c) && (c.ListDevices? || c.GetDeviceInfo? || c.GetDeviceIdentity?)
    ensures var s, s' := states[n], states[n + 1];
            && s' == s.(inbox := s.inbox[1..], answered := s'.answered)
            && |s'.answered| == |s.answered| + 1 && s'.answered[..|s.answered|] == s.answered
            && var got := s'.answered[|s.answered|];
               && got.reply == c.reply
               && (c.ListDevices? ==> got.verdict == Ids(s.devices.Keys))
               && (c.GetDeviceInfo? && c.id in s.devices ==> got.verdict == Info(s.devices[c.id].topology))
               && (c.GetDeviceIdentity? && c.id in s.devices ==>
                     got.verdict == Identity(s.devices[c.id].vendor, s.devices[c.id].product))
               && (!c.ListDevices? && c.id !in s.devices ==> got.verdict == NotFound)
  {
    HandlingStep(states, labels, n, c);
    hide QueuesGood;
    hide IsRun;
  }

  /** A command for a device is refused as unknown, off the matrix or busy, with
      nothing else changed; or it finds the worker gone, which evicts the device;
      or it goes to the back of the queue of the registered worker, unanswered. */
  lemma DispatchOutcome(states: seq<Engine>, labels: seq<Label>, n: nat, id: DeviceId, op: WorkerOp)
    requires Handles(states, labels, n, Dispatch(id, op))
    ensures var s, s' := states[n], states[n + 1];
            && s'.reconnecting == s.reconnecting && s'.tasks == s.tasks && s'.nextToken == s.nextToken
            && if id !in s.devices then
                 s'.devices == s.devices && s'.workers == s.workers
                 && s'.answered == s.answered + [Answer(op.reply, NotFound)]
               else
                 var h := s.devices[id];
                 h.worker in s.workers && h.topology == s.workers[h.worker].topology
                 && var worker := s.workers[h.worker];
                    if (op.ask.GetKeycode? || op.ask.SetKeycode?)
                       && (worker.topology.layers <= op.ask.key.layer || worker.topology.rows <= op.ask.key.row
                           || worker.topology.cols <= op.ask.key.col)
                    then
                      s'.devices == s.devices && s'.workers == s.workers
                      && s'.answered == s.answered + [Answer(op.reply, OutOfBounds)]
                    else if worker.phase.Exited? then
                      s'.devices == s.devices - {id} && s'.workers == s.workers
                      && s'.answered == s.answered + [Answer(op.reply, NotFound)]
                    else if |worker.queue| == 16 then
                      s'.devices == s.devices && s'.workers == s.workers
                      && s'.answered == s.answered + [Answer(op.reply, Busy)]
                    else
                      s'.devices == s.devices && s'.answered == s.answered
                      && s'.workers == s.workers[h.worker := worker.(queue := worker.queue + [op])]
  {
    var s := states[n];
    HandlingStep(states, labels, n, Dispatch(id, op));
    assert id in s.devices ==> HandleGood(s, s.devices[id]) && WorkerGood(s.workers[s.devices[id].worker]);
    hide QueuesGood;
    hide IsRun;
  }

  /** After shutdown nothing is registered or under way. */
  lemma ShutdownOutcome(states: seq<Engine>, labels: seq<Label>, n: nat)
    requires Handles(states, labels, n, Shutdown)
    ensures var s, s' := states[n], states[n + 1];
            && s'.devices == map[] && s'.reconnecting == map[] && s'.inbox == [] && !s'.up
            && s'.workers == s.workers && s'.tasks == s.tasks && s'.answered == s.answered
  {
    HandlingStep(states, labels, n, Shutdown);
    hide QueuesGood;
    hide IsRun;
  }

  // ── What waits ─────────────────────────────────────────────────────────

  /** In every reachable state at most 32 commands wait for the engine and at most
      16 for a worker, and every keymap access among these is within the matrix
      and the layers of that worker's device. */
  lemma WaitingIsBounded(states: seq<Engine>, labels: seq<Label>, n: nat, w: WorkerId)
    requires IsRun(states, labels) && n <= |labels| && w in states[n].workers
    ensures |states[n].inbox| <= 32 && |states[n].workers[w].queue| <= 16
    ensures var worker := states[n].workers[w];
            forall i :: 0 <= i < |worker.queue| && (worker.queue[i].ask.GetKeycode? || worker.queue[i].ask.SetKeycode?) ==>
              var k := worker.queue[i].ask.key;
              k.layer < worker.topology.layers && k.row < worker.topology.rows && k.col < worker.topology.cols
  {
    EngineOverRuns(states, labels, n);
    assert WorkerGood(states[n].workers[w]);
    hide IsRun;
    hide RegistryGood;
    hide Conserved;
    forall i | 0 <= i < |states[n].workers[w].queue| ensures InBounds(states[n].workers[w].topology, states[n].workers[w].queue[i].ask) {
    }
  }
}
