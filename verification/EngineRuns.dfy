/** Every run of the engine: the supervisor, its workers and its reconnect
    tasks, interleaved in any way. */
module EngineRuns {
  import opened Basics
  import opened Registry

  datatype Label =
    | Send(c: Command)
    | Handle(a: Attach)
    | Take(w: WorkerId)
    | Finish(w: WorkerId, fatal: bool)
    | CommitFailed(w: WorkerId)
    | Notify(w: WorkerId)
    | HangUp(w: WorkerId)
    | Found(t: TaskId, topology: Topology)
    | Post(t: TaskId)
    | GiveUp(t: TaskId)

  function Initial(): Engine {
    Engine(map[], map[], 0, true, [], map[], map[], 0, [], [], {}, [])
  }

  /** A task is cancelled once its sender has been dropped or used. */
  predicate Cancelled(s: Engine, t: TaskId)
    requires t in s.tasks
  {
    !(s.tasks[t].id in s.reconnecting && s.reconnecting[s.tasks[t].id] == s.tasks[t].token)
  }

  /** Some handle to the worker is still held somewhere. */
  ghost predicate HasSender(s: Engine, w: WorkerId) {
    || (exists id :: id in s.devices && s.devices[id].worker == w)
    || (exists i :: 0 <= i < |s.inbox| && s.inbox[i].DeviceReattached? && s.inbox[i].handle.worker == w)
    || (exists t :: t in s.tasks && s.tasks[t].found.Some? && s.tasks[t].found.value.worker == w)
  }

  ghost predicate Enabled(s: Engine, l: Label) {
    match l
    case Send(c) =>
      && s.up && |s.inbox| < ENGINE_CHANNEL_CAPACITY && !c.DeviceError? && !c.DeviceReattached?
      && (CommandReply(c).Some? ==> CommandReply(c).value !in s.issued)
    case Handle(_) => s.up && s.inbox != []
    case Take(w) => w in s.workers && s.workers[w].phase.Running? && s.workers[w].serving.None? && s.workers[w].queue != []
    case Finish(w, _) => w in s.workers && s.workers[w].phase.Running? && s.workers[w].serving.Some?
    case CommitFailed(w) =>
      w in s.workers && s.workers[w].phase.Running? && s.workers[w].serving.None? && s.workers[w].queue == []
    case Notify(w) =>
      w in s.workers && s.workers[w].phase.Notifying? && (s.up ==> |s.inbox| < ENGINE_CHANNEL_CAPACITY)
    case HangUp(w) =>
      && w in s.workers && s.workers[w].phase.Running? && s.workers[w].serving.None? && s.workers[w].queue == []
      && !HasSender(s, w)
    case Found(t, _) => t in s.tasks && s.tasks[t].found.None?
    case Post(t) => t in s.tasks && s.tasks[t].found.Some? && (s.up ==> |s.inbox| < ENGINE_CHANNEL_CAPACITY)
    case GiveUp(t) => t in s.tasks && s.tasks[t].found.None?
  }

  function WithWorker(s: Engine, w: WorkerId, worker: Worker): Engine {
    s.(workers := s.workers[w := worker])
  }

  function OpReplies(q: seq<WorkerOp>): seq<ReplyId> {
    seq(|q|, i requires 0 <= i < |q| => q[i].reply)
  }

  /** A failed worker reports itself, if the engine is still there, and exits. */
  function Notified(s: Engine, w: WorkerId): Engine
    requires w in s.workers
  {
    WithWorker(s, w, s.workers[w].(phase := Exited, queue := []))
      .(inbox := if s.up then s.inbox + [DeviceError(s.workers[w].id, DriverError.Disconnected, w)] else s.inbox,
        dropped := s.dropped + OpReplies(s.workers[w].queue))
  }

  ghost function Next(s: Engine, l: Label): Engine
    requires Enabled(s, l)
  {
    match l
    case Send(c) =>
      s.(inbox := s.inbox + [c],
         issued := if CommandReply(c).Some? then s.issued + {CommandReply(c).value} else s.issued)
    case Handle(a) => Handled(s.(inbox := s.inbox[1..]), s.inbox[0], a)
    case Take(w) =>
      WithWorker(s, w, s.workers[w].(serving := Some(s.workers[w].queue[0].reply), queue := s.workers[w].queue[1..]))
    case Finish(w, fatal) =>
      Answered(WithWorker(s, w, s.workers[w].(serving := None, phase := if fatal then Notifying else Running)),
               s.workers[w].serving.value, Served)
    case CommitFailed(w) => WithWorker(s, w, s.workers[w].(phase := Notifying))
    case Notify(w) => Notified(s, w)
    case HangUp(w) => WithWorker(s, w, s.workers[w].(phase := Exited))
    case Found(t, topology) =>
      var task := s.tasks[t];
      WorkerSpawned(s, task.id, topology).(tasks :=
        if Cancelled(s, t) then s.tasks - {t}
        else s.tasks[t := task.(found := Some(Registry.Handle(s.spawned, topology, task.vendor, task.product)))])
    case Post(t) =>
      var task := s.tasks[t];
      s.(tasks := s.tasks - {t},
         inbox := if s.up then s.inbox + [DeviceReattached(task.id, task.found.value, task.token)] else s.inbox)
    case GiveUp(t) => s.(tasks := s.tasks - {t})
  }

  ghost predicate IsRun(states: seq<Engine>, labels: seq<Label>) {
    && |states| == |labels| + 1 && states[0] == Initial()
    && forall i :: 0 <= i < |labels| ==> Enabled(states[i], labels[i]) && states[i + 1] == Next(states[i], labels[i])
  }

  // ── Reconnection tokens ────────────────────────────────────────────────

  /** `hist[i]` started `token` for `id`, and since then nothing that should
      have cancelled it was handled. */
  predicate StillGood(hist: seq<Happening>, i: nat, id: DeviceId, token: nat) {
    && i < |hist| && hist[i] == Started(id, token)
    && forall k :: i < k < |hist| ==> hist[k] != SawConnect(id) && hist[k] != SawDisconnect(id)
  }

  function Starts(hist: seq<Happening>): nat {
    if hist == [] then 0 else Starts(hist[..|hist| - 1]) + if hist[|hist| - 1].Started? then 1 else 0
  }

  predicate NeverAccepted(hist: seq<Happening>, token: nat) {
    forall k :: 0 <= k < |hist| && hist[k].Accepted? ==> hist[k].token != token
  }

  /** A token whose reattachment may still be accepted. */
  ghost predicate Pending(hist: seq<Happening>, id: DeviceId, token: nat) {
    (exists i :: StillGood(hist, i, id, token)) && NeverAccepted(hist, token)
  }

  /** Every token in the history is older than `next`. */
  predicate Below(hist: seq<Happening>, next: nat) {
    forall k :: 0 <= k < |hist| && (hist[k].Started? || hist[k].Accepted?) ==> hist[k].token < next
  }

  /** The registry's tokens, while fewer than 2^64 have been handed out: each
      pending one is still good, unaccepted and held for one device only, and
      the next one is new. */
  ghost predicate TokensGood(s: Engine) {
    && s.nextToken == Starts(s.hist)
    && Below(s.hist, s.nextToken)
    && (forall id :: id in s.reconnecting ==>
          Pending(s.hist, id, s.reconnecting[id]) && s.reconnecting[id] < s.nextToken)
    && (forall id, id' :: id in s.reconnecting && id' in s.reconnecting && s.reconnecting[id] == s.reconnecting[id'] ==>
          id == id')
  }

  /** Every acceptance in the history is of a token started once, for that
      device, with no connect or disconnect of it handled in between, and
      accepted once. */
  ghost predicate AcceptancesGood(hist: seq<Happening>) {
    forall j :: 0 <= j < |hist| && hist[j].Accepted? ==> AcceptanceGood(hist, j)
  }

  ghost predicate AcceptanceGood(hist: seq<Happening>, j: nat)
    requires j < |hist| && hist[j].Accepted?
  {
    Pending(hist[..j], hist[j].id, hist[j].token)
  }

  lemma StartsGrow(hist: seq<Happening>, h: Happening)
    ensures Starts(hist + [h]) == Starts(hist) + if h.Started? then 1 else 0
  {
    assert (hist + [h])[..|hist|] == hist;
  }

  lemma PendingGrows(hist: seq<Happening>, h: Happening, id: DeviceId, token: nat)
    requires Pending(hist, id, token)
    requires h != SawConnect(id) && h != SawDisconnect(id) && (h.Accepted? ==> h.token != token)
    ensures Pending(hist + [h], id, token)
  {
    var i :| StillGood(hist, i, id, token);
    assert StillGood(hist + [h], i, id, token);
  }

  lemma FreshPending(hist: seq<Happening>, id: DeviceId, token: nat)
    requires Below(hist, token)
    ensures Pending(hist + [Started(id, token)], id, token)
  {
    assert StillGood(hist + [Started(id, token)], |hist|, id, token);
  }

  lemma BelowGrows(hist: seq<Happening>, h: Happening, next: nat, next': nat)
    requires Below(hist, next) && next <= next' && (h.Started? || h.Accepted? ==> h.token < next')
    ensures Below(hist + [h], next')
  {
  }

  lemma AcceptancesGrow(hist: seq<Happening>, h: Happening)
    requires AcceptancesGood(hist)
    requires h.Accepted? ==> Pending(hist, h.id, h.token)
    ensures AcceptancesGood(hist + [h])
  {
    hide Pending;
    var hist' := hist + [h];
    forall j | 0 <= j < |hist'| && hist'[j].Accepted? ensures AcceptanceGood(hist', j) {
      if j < |hist| {
        assert hist'[..j] == hist[..j];
        assert AcceptanceGood(hist, j);
      } else {
        assert hist'[..j] == hist;
      }
    }
  }

  /** Appending a happening that is neither a start nor an acceptance, after
      dropping the devices it cancels. */
  lemma TokensAfter(s: Engine, s': Engine, h: Happening)
    requires TokensGood(s) && AcceptancesGood(s.hist)
    requires !h.Started? && !h.Accepted?
    requires s'.hist == s.hist + [h] && s'.nextToken == s.nextToken
    requires s'.reconnecting.Keys <= s.reconnecting.Keys
    requires forall id :: id in s'.reconnecting ==>
               s'.reconnecting[id] == s.reconnecting[id] && h != SawConnect(id) && h != SawDisconnect(id)
    ensures TokensGood(s') && AcceptancesGood(s'.hist)
  {
    hide Pending;
    hide Below;
    hide AcceptancesGood;
    StartsGrow(s.hist, h);
    AcceptancesGrow(s.hist, h);
    BelowGrows(s.hist, h, s.nextToken, s.nextToken);
    forall id | id in s'.reconnecting ensures Pending(s'.hist, id, s'.reconnecting[id]) {
      PendingGrows(s.hist, h, id, s.reconnecting[id]);
    }
  }

  lemma TokensAfterStart(s: Engine, s': Engine, id: DeviceId)
    requires TokensGood(s) && AcceptancesGood(s.hist) && id !in s.reconnecting
    requires s'.hist == s.hist + [Started(id, s.nextToken)] && s'.nextToken == s.nextToken + 1
    requires s'.reconnecting == s.reconnecting[id := s.nextToken]
    ensures TokensGood(s') && AcceptancesGood(s'.hist)
  {
    hide Pending;
    hide Below;
    hide AcceptancesGood;
    var h := Started(id, s.nextToken);
    StartsGrow(s.hist, h);
    AcceptancesGrow(s.hist, h);
    BelowGrows(s.hist, h, s.nextToken, s'.nextToken);
    FreshPending(s.hist, id, s.nextToken);
    forall d | d in s.reconnecting ensures Pending(s'.hist, d, s.reconnecting[d]) {
      PendingGrows(s.hist, h, d, s.reconnecting[d]);
    }
  }

  lemma TokensAfterAccept(s: Engine, s': Engine, id: DeviceId)
    requires TokensGood(s) && AcceptancesGood(s.hist) && id in s.reconnecting
    requires s'.hist == s.hist + [Accepted(id, s.reconnecting[id])] && s'.nextToken == s.nextToken
    requires s'.reconnecting == s.reconnecting - {id}
    ensures TokensGood(s') && AcceptancesGood(s'.hist)
  {
    hide Pending;
    hide Below;
    hide AcceptancesGood;
    var h := Accepted(id, s.reconnecting[id]);
    StartsGrow(s.hist, h);
    AcceptancesGrow(s.hist, h);
    BelowGrows(s.hist, h, s.nextToken, s.nextToken);
    forall d | d in s'.reconnecting ensures Pending(s'.hist, d, s'.reconnecting[d]) {
      PendingGrows(s.hist, h, d, s.reconnecting[d]);
    }
  }

  lemma TokensAfterConnect(s: Engine, id: DeviceId, vendor: u16, product: u16, a: Attach)
    requires TokensGood(s) && AcceptancesGood(s.hist)
    requires Starts(ConnectHandled(s, id, vendor, product, a).hist) < TOKENS
    ensures TokensGood(ConnectHandled(s, id, vendor, product, a))
    ensures AcceptancesGood(ConnectHandled(s, id, vendor, product, a).hist)
  {
    hide TokensGood;
    hide AcceptancesGood;
    var s' := ConnectHandled(s, id, vendor, product, a);
    var s1 := s.(reconnecting := s.reconnecting - {id}, hist := s.hist + [SawConnect(id)]);
    TokensAfter(s, s1, SawConnect(id));
    if id !in s1.devices {
      match a {
        case NoDriver =>
        case Attached(t) => TokensAfter(s1, s', Added(id, s1.spawned));
        case AttachFailed(e) =>
          if IsTransient(e) {
            StartsGrow(s1.hist, Started(id, s1.nextToken));
            NextIsStarts(s1);
            TokensAfterStart(s1, s', id);
          }
      }
    }
  }

  lemma NextIsStarts(s: Engine)
    requires TokensGood(s)
    ensures s.nextToken == Starts(s.hist)
  {
  }

  lemma TokensAfterError(s: Engine, id: DeviceId, e: DriverError)
    requires TokensGood(s) && AcceptancesGood(s.hist)
    requires id !in s.reconnecting || id !in s.devices
    requires Starts(ErrorHandled(s, id, e).hist) < TOKENS
    ensures TokensGood(ErrorHandled(s, id, e)) && AcceptancesGood(ErrorHandled(s, id, e).hist)
  {
    hide TokensGood;
    hide AcceptancesGood;
    var s' := ErrorHandled(s, id, e);
    if id in s.devices {
      var s1 := s.(devices := s.devices - {id}, hist := s.hist + [Removed(id)]);
      TokensAfter(s, s1, Removed(id));
      if e == DriverError.Disconnected {
        StartsGrow(s1.hist, Started(id, s1.nextToken));
        NextIsStarts(s1);
        TokensAfterStart(s1, s', id);
      }
    }
  }

  lemma TokensAfterDisconnect(s: Engine, id: DeviceId)
    requires TokensGood(s) && AcceptancesGood(s.hist)
    ensures TokensGood(DisconnectHandled(s, id)) && AcceptancesGood(DisconnectHandled(s, id).hist)
  {
    hide TokensGood;
    hide AcceptancesGood;
    var s1 := s.(reconnecting := s.reconnecting - {id}, hist := s.hist + [SawDisconnect(id)]);
    TokensAfter(s, s1, SawDisconnect(id));
    if id in s1.devices {
      TokensAfter(s1, DisconnectHandled(s, id), Removed(id));
    }
  }

  lemma TokensAfterReattach(s: Engine, id: DeviceId, h: Registry.Handle, token: nat)
    requires TokensGood(s) && AcceptancesGood(s.hist)
    ensures TokensGood(ReattachHandled(s, id, h, token)) && AcceptancesGood(ReattachHandled(s, id, h, token).hist)
  {
    hide TokensGood;
    hide AcceptancesGood;
    if id in s.reconnecting && s.reconnecting[id] == token {
      var s1 := s.(reconnecting := s.reconnecting - {id}, hist := s.hist + [Accepted(id, token)]);
      TokensAfterAccept(s, s1, id);
      var s' := ReattachHandled(s, id, h, token);
      assert s'.hist == s1.hist + [Added(id, h.worker)];
      TokensAfter(s1, s', Added(id, h.worker));
    }
  }

  lemma TokensAfterDispatch(s: Engine, id: DeviceId, op: WorkerOp)
    requires TokensGood(s) && AcceptancesGood(s.hist)
    ensures TokensGood(Dispatched(s, id, op)) && AcceptancesGood(Dispatched(s, id, op).hist)
  {
    hide TokensGood;
    hide AcceptancesGood;
    hide Dispatched;
    var s' := Dispatched(s, id, op);
    DispatchFrame(s, id, op);
    if FateOf(s, id, op).ChannelClosed? {
      TokensAfter(s, s', ClosedEviction(id));
    } else {
      TokensSame(s, s');
    }
  }

  lemma DispatchFrame(s: Engine, id: DeviceId, op: WorkerOp)
    ensures Dispatched(s, id, op).reconnecting == s.reconnecting
    ensures Dispatched(s, id, op).nextToken == s.nextToken
    ensures Dispatched(s, id, op).up == s.up
    ensures !FateOf(s, id, op).ChannelClosed? ==>
              Dispatched(s, id, op).devices == s.devices && Dispatched(s, id, op).hist == s.hist
    ensures FateOf(s, id, op).ChannelClosed? ==>
              && id in s.devices && Dispatched(s, id, op).devices == s.devices - {id}
              && Dispatched(s, id, op).hist == s.hist + [ClosedEviction(id)]
  {
    hide FateOf;
    match FateOf(s, id, op)
    case Unknown =>
    case OffMatrix =>
    case ChannelClosed =>
    case ChannelFull =>
    case Through =>
  }

  lemma TokensAfterHandling(s: Engine, c: Command, a: Attach)
    requires TokensGood(s) && AcceptancesGood(s.hist) && s.devices.Keys !! s.reconnecting.Keys
    requires Starts(Handled(s, c, a).hist) < TOKENS
    ensures TokensGood(Handled(s, c, a)) && AcceptancesGood(Handled(s, c, a).hist)
  {
    hide TokensGood;
    hide AcceptancesGood;
    hide ConnectHandled;
    hide ErrorHandled;
    hide DisconnectHandled;
    hide ReattachHandled;
    hide Dispatched;
    match c
    case Dispatch(id, op) => TokensAfterDispatch(s, id, op);
    case DeviceConnected(id, vendor, product) => TokensAfterConnect(s, id, vendor, product, a);
    case DeviceDisconnected(id) => TokensAfterDisconnect(s, id);
    case DeviceError(id, e, _) => TokensAfterError(s, id, e);
    case DeviceReattached(id, h, token) => TokensAfterReattach(s, id, h, token);
    case Shutdown => TokensDown(s, Handled(s, c, a));
    case _ => TokensSame(s, Handled(s, c, a));
  }

  lemma TokensSame(s: Engine, s': Engine)
    requires TokensGood(s)
    requires s'.hist == s.hist && s'.nextToken == s.nextToken && s'.reconnecting == s.reconnecting
    ensures TokensGood(s')
  {
  }

  lemma TokensDown(s: Engine, s': Engine)
    requires TokensGood(s)
    requires s'.hist == s.hist && s'.nextToken == s.nextToken && s'.reconnecting == map[]
    ensures TokensGood(s')
  {
  }

  // ── The registry and its events ────────────────────────────────────────

  /** The last of the device's add, remove and closed-channel eviction. */
  function Last(hist: seq<Happening>, id: DeviceId): Option<Happening> {
    if hist == [] then None
    else
      var h := hist[|hist| - 1];
      if (h.Added? || h.Removed? || h.ClosedEviction?) && h.id == id then Some(h) else Last(hist[..|hist| - 1], id)
  }

  predicate IsAdded(h: Option<Happening>) {
    h.Some? && h.value.Added?
  }

  /** A device is added only when it is out, and removed or evicted only when
      it is in. */
  ghost predicate Alternates(hist: seq<Happening>) {
    forall j :: 0 <= j < |hist| ==>
      match hist[j]
      case Added(id, _) => !IsAdded(Last(hist[..j], id))
      case Removed(id) => IsAdded(Last(hist[..j], id))
      case ClosedEviction(id) => IsAdded(Last(hist[..j], id))
      case _ => true
  }

  /** Attached and reconnecting are disjoint, and a device is attached exactly
      when its last event says so, with the worker that event registered. */
  ghost predicate RegistryGood(s: Engine) {
    && s.devices.Keys !! s.reconnecting.Keys
    && (s.up ==> forall id :: id in s.devices <==> IsAdded(Last(s.hist, id)))
    && (forall id :: id in s.devices ==> Last(s.hist, id) == Some(Added(id, s.devices[id].worker)))
    && Alternates(s.hist)
  }

  lemma LastGrows(hist: seq<Happening>, h: Happening, id: DeviceId)
    ensures Last(hist + [h], id) ==
            if (h.Added? || h.Removed? || h.ClosedEviction?) && h.id == id then Some(h) else Last(hist, id)
  {
    assert (hist + [h])[..|hist|] == hist;
  }

  lemma AlternatesGrow(hist: seq<Happening>, h: Happening)
    requires Alternates(hist)
    requires h.Added? ==> !IsAdded(Last(hist, h.id))
    requires h.Removed? || h.ClosedEviction? ==> IsAdded(Last(hist, h.id))
    ensures Alternates(hist + [h])
  {
    var hist' := hist + [h];
    forall j | 0 <= j < |hist'| ensures hist'[..j] == if j < |hist| then hist[..j] else hist {}
  }

  /** What the change of the registry means for one device. */
  lemma RegistryAt(s: Engine, s': Engine, h: Happening, id: DeviceId)
    requires h.Added? ==> h.id !in s.devices && h.id in s'.devices && s'.devices - {h.id} == s.devices
    requires h.Removed? || h.ClosedEviction? ==> s'.devices == s.devices - {h.id}
    requires !h.Added? && !h.Removed? && !h.ClosedEviction? ==> s'.devices == s.devices
    ensures (h.Added? || h.Removed? || h.ClosedEviction?) && h.id == id ==> (id in s'.devices <==> h.Added?)
    ensures !((h.Added? || h.Removed? || h.ClosedEviction?) && h.id == id) ==>
              (id in s'.devices <==> id in s.devices) && (id in s'.devices ==> s'.devices[id] == s.devices[id])
  {
    if h.Added? && h.id != id {
      assert id in s'.devices - {h.id} <==> id in s'.devices;
      assert id in s'.devices ==> (s'.devices - {h.id})[id] == s'.devices[id];
    }
  }

  /** One happening, with the registry change that goes with it. */
  lemma RegistryAfter(s: Engine, s': Engine, h: Happening)
    requires RegistryGood(s) && s.up && s'.up
    requires s'.hist == s.hist + [h] && s'.devices.Keys !! s'.reconnecting.Keys
    requires match h
             case Added(id, w) => id !in s.devices && id in s'.devices && s'.devices[id].worker == w
                                  && s'.devices - {id} == s.devices
             case Removed(id) => id in s.devices && s'.devices == s.devices - {id}
             case ClosedEviction(id) => id in s.devices && s'.devices == s.devices - {id}
             case _ => s'.devices == s.devices
    ensures RegistryGood(s')
  {
    AlternatesGrow(s.hist, h);
    forall id
      ensures id in s'.devices <==> IsAdded(Last(s'.hist, id))
      ensures id in s'.devices ==> Last(s'.hist, id) == Some(Added(id, s'.devices[id].worker))
    {
      LastGrows(s.hist, h, id);
      RegistryAt(s, s', h, id);
    }
  }

  lemma RegistryAfterHandling(s: Engine, c: Command, a: Attach)
    requires RegistryGood(s) && s.up
    ensures RegistryGood(Handled(s, c, a))
  {
    hide RegistryGood;
    RegistryDisjoint(s);
    var s' := Handled(s, c, a);
    match c
    case Dispatch(id, op) =>
      DispatchFrame(s, id, op);
      if FateOf(s, id, op).ChannelClosed? {
        RegistryAfter(s, s', ClosedEviction(id));
      } else {
        RegistrySame(s, s');
      }
    case DeviceConnected(id, vendor, product) =>
      var s1 := s.(reconnecting := s.reconnecting - {id}, hist := s.hist + [SawConnect(id)]);
      RegistryAfter(s, s1, SawConnect(id));
      if s' != s1 {
        if a.Attached? {
          assert s'.devices - {id} == s1.devices;
          RegistryAfter(s1, s', Added(id, s1.spawned));
        } else {
          RegistryAfter(s1, s', Started(id, s1.nextToken));
        }
      }
    case DeviceDisconnected(id) =>
      var s1 := s.(reconnecting := s.reconnecting - {id}, hist := s.hist + [SawDisconnect(id)]);
      RegistryAfter(s, s1, SawDisconnect(id));
      if id in s1.devices {
        RegistryAfter(s1, s', Removed(id));
      }
    case DeviceError(id, e, _) =>
      if id in s.devices {
        var s1 := s.(devices := s.devices - {id}, hist := s.hist + [Removed(id)]);
        RegistryAfter(s, s1, Removed(id));
        if e == DriverError.Disconnected {
          RegistryAfter(s1, s', Started(id, s1.nextToken));
        }
      }
    case DeviceReattached(id, h, token) =>
      if id in s.reconnecting && s.reconnecting[id] == token {
        var s1 := s.(reconnecting := s.reconnecting - {id}, hist := s.hist + [Accepted(id, token)]);
        RegistryAfter(s, s1, Accepted(id, token));
        assert s'.hist == s1.hist + [Added(id, h.worker)];
        assert s'.devices - {id} == s1.devices;
        RegistryAfter(s1, s', Added(id, h.worker));
      }
    case Shutdown => RegistryDown(s, s');
    case _ => RegistrySame(s, s');
  }

  lemma RegistryDisjoint(s: Engine)
    requires RegistryGood(s)
    ensures s.devices.Keys !! s.reconnecting.Keys
  {
  }

  lemma RegistrySame(s: Engine, s': Engine)
    requires RegistryGood(s) && s'.up == s.up
    requires s'.hist == s.hist && s'.devices == s.devices && s'.reconnecting == s.reconnecting
    ensures RegistryGood(s')
  {
  }

  lemma RegistryDown(s: Engine, s': Engine)
    requires RegistryGood(s) && s'.hist == s.hist && s'.devices == map[] && !s'.up
    ensures RegistryGood(s')
  {
  }

  // ── Every reply sender is in exactly one place ─────────────────────────

  datatype Place = Inbox | AnsweredOnce | Queued(w: WorkerId) | BeingServed(w: WorkerId) | DroppedByExit

  function AnswerReplies(a: seq<Answer>): seq<ReplyId> {
    seq(|a|, i requires 0 <= i < |a| => a[i].reply)
  }

  function Held(s: Engine, p: Place): multiset<ReplyId> {
    match p
    case Inbox => multiset(InboxReplies(s.inbox))
    case AnsweredOnce => multiset(AnswerReplies(s.answered))
    case Queued(w) => if w in s.workers then multiset(OpReplies(s.workers[w].queue)) else multiset{}
    case BeingServed(w) =>
      if w in s.workers && s.workers[w].serving.Some? then multiset{s.workers[w].serving.value} else multiset{}
    case DroppedByExit => multiset(s.dropped)
  }

  /** Exactly the issued senders are held; each in one place only, once. */
  ghost predicate Conserved(s: Engine) {
    && (forall r :: r in s.issued <==> exists p :: r in Held(s, p))
    && (forall p, r :: Held(s, p)[r] <= 1)
    && (forall p, q, r :: r in Held(s, p) && r in Held(s, q) ==> p == q)
  }

  ghost predicate SameElsewhere(s: Engine, s': Engine, p: Place, q: Place) {
    forall o :: o != p && o != q ==> Held(s', o) == Held(s, o)
  }

  /** How often `o` holds `r` once the senders of `m` have all come to `q`. */
  ghost predicate Recounted(s: Engine, s': Engine, m: multiset<ReplyId>, q: Place, o: Place, r: ReplyId) {
    Held(s', o)[r] == if r in m then (if o == q then 1 else 0) else Held(s, o)[r]
  }

  lemma HeldOnce(s: Engine, p: Place, o: Place, r: ReplyId)
    requires Conserved(s)
    ensures Held(s, p)[r] <= 1 && Held(s, o)[r] <= 1
    ensures Held(s, p)[r] > 0 && Held(s, o)[r] > 0 ==> p == o
  {
    hide Held;
    assert r in Held(s, p) && r in Held(s, o) ==> p == o;
  }

  lemma CountMoved(a: multiset<ReplyId>, b: multiset<ReplyId>, m: multiset<ReplyId>, r: ReplyId)
    requires m <= a
    ensures m[r] <= a[r] && (a - m)[r] == a[r] - m[r] && (b + m)[r] == b[r] + m[r]
  {
  }

  lemma MovedAt(s: Engine, s': Engine, m: multiset<ReplyId>, p: Place, q: Place, o: Place, r: ReplyId)
    requires Conserved(s) && p != q && m <= Held(s, p)
    requires Held(s', p) == Held(s, p) - m && Held(s', q) == Held(s, q) + m && SameElsewhere(s, s', p, q)
    ensures Recounted(s, s', m, q, o, r)
  {
    hide Held;
    hide Conserved;
    CountMoved(Held(s, p), Held(s, q), m, r);
    HeldOnce(s, p, q, r);
    HeldOnce(s, p, o, r);
  }

  lemma RecountIssued(s: Engine, s': Engine, m: multiset<ReplyId>, q: Place, r: ReplyId)
    requires Conserved(s) && (forall o :: Recounted(s, s', m, q, o, r)) && (r in m ==> r in s.issued)
    ensures r in s.issued <==> exists o :: r in Held(s', o)
  {
    hide Held;
    if r in m {
      assert Recounted(s, s', m, q, q, r);
      assert r in Held(s', q);
    } else {
      forall o ensures r in Held(s', o) <==> r in Held(s, o) { assert Recounted(s, s', m, q, o, r); }
    }
  }

  lemma RecountOnce(s: Engine, s': Engine, m: multiset<ReplyId>, q: Place, o: Place, o': Place, r: ReplyId)
    requires Conserved(s) && Recounted(s, s', m, q, o, r) && Recounted(s, s', m, q, o', r)
    ensures Held(s', o)[r] <= 1
    ensures r in Held(s', o) && r in Held(s', o') ==> o == o'
  {
    hide Held;
    HeldOnce(s, o, o', r);
  }

  lemma RecountConserves(s: Engine, s': Engine, m: multiset<ReplyId>, q: Place)
    requires Conserved(s) && forall o, r :: Recounted(s, s', m, q, o, r)
    requires forall r :: r in m ==> r in s.issued
    requires forall r :: r in s'.issued <==> r in s.issued
    ensures Conserved(s')
  {
    hide Held;
    forall r ensures r in s'.issued <==> exists o :: r in Held(s', o) { RecountIssued(s, s', m, q, r); }
    forall o, r ensures Held(s', o)[r] <= 1 { RecountOnce(s, s', m, q, o, o, r); }
    forall o, o', r | r in Held(s', o) && r in Held(s', o') ensures o == o' { RecountOnce(s, s', m, q, o, o', r); }
  }

  /** Senders that change place together are conserved. */
  lemma Moved(s: Engine, s': Engine, m: multiset<ReplyId>, p: Place, q: Place)
    requires Conserved(s) && p != q && m <= Held(s, p) && s'.issued == s.issued
    requires Held(s', p) == Held(s, p) - m && Held(s', q) == Held(s, q) + m && SameElsewhere(s, s', p, q)
    ensures Conserved(s')
  {
    hide Held;
    hide Recounted;
    hide SameElsewhere;
    forall o, r ensures Recounted(s, s', m, q, o, r) { MovedAt(s, s', m, p, q, o, r); }
    forall r | r in m ensures r in s.issued { assert r in Held(s, p); }
    hide Conserved;
    RecountConserves(s, s', m, q);
  }

  lemma Unmoved(s: Engine, s': Engine)
    requires Conserved(s) && s'.issued == s.issued && forall p :: Held(s', p) == Held(s, p)
    ensures Conserved(s')
  {
    hide Held;
    forall r ensures r in s'.issued <==> exists p :: r in Held(s', p) {
      assert forall p :: r in Held(s', p) <==> r in Held(s, p);
    }
  }

  /** How often `p` holds `x` once the fresh sender `r` has come to the inbox. */
  ghost predicate Entered(s: Engine, s': Engine, r: ReplyId, p: Place, x: ReplyId) {
    Held(s', p)[x] == if x == r then (if p == Inbox then 1 else 0) else Held(s, p)[x]
  }

  /** A fresh sender enters through the engine channel. */
  lemma Issued(s: Engine, s': Engine, r: ReplyId)
    requires Conserved(s) && r !in s.issued && s'.issued == s.issued + {r}
    requires Held(s', Inbox) == Held(s, Inbox) + multiset{r}
    requires forall p :: p != Inbox ==> Held(s', p) == Held(s, p)
    ensures Conserved(s')
  {
    hide Held;
    assert forall p :: r !in Held(s, p);
    forall p, x ensures Entered(s, s', r, p, x) {
      CountMoved(multiset{r}, Held(s, Inbox), multiset{r}, x);
    }
    EnteredConserves(s, s', r);
  }

  lemma EnteredConserves(s: Engine, s': Engine, r: ReplyId)
    requires Conserved(s) && s'.issued == s.issued + {r} && forall p, x :: Entered(s, s', r, p, x)
    ensures Conserved(s')
  {
    hide Held;
    forall x ensures x in s'.issued <==> exists p :: x in Held(s', p) {
      if x == r {
        assert Entered(s, s', r, Inbox, x);
        assert x in Held(s', Inbox);
      } else {
        forall p ensures x in Held(s', p) <==> x in Held(s, p) { assert Entered(s, s', r, p, x); }
      }
    }
    forall p, x ensures Held(s', p)[x] <= 1 {
      assert Entered(s, s', r, p, x);
      assert Held(s, p)[x] <= 1;
    }
    forall p, q, x | x in Held(s', p) && x in Held(s', q) ensures p == q {
      assert Entered(s, s', r, p, x) && Entered(s, s', r, q, x);
      if x != r {
        assert x in Held(s, p) && x in Held(s, q);
      }
    }
  }

  function ReplyOf(c: Command): multiset<ReplyId> {
    if CommandReply(c).Some? then multiset{CommandReply(c).value} else multiset{}
  }

  lemma {:induction false} InboxGrows(q: seq<Command>, c: Command)
    ensures multiset(InboxReplies(q + [c])) == multiset(InboxReplies(q)) + ReplyOf(c)
  {
    if q == [] {
      assert (q + [c])[1..] == [];
    } else {
      assert (q + [c])[1..] == q[1..] + [c];
      InboxGrows(q[1..], c);
    }
  }

  lemma InboxShrinks(q: seq<Command>)
    requires q != []
    ensures multiset(InboxReplies(q)) == ReplyOf(q[0]) + multiset(InboxReplies(q[1..]))
  {
  }

  lemma QueueGrows(q: seq<WorkerOp>, op: WorkerOp)
    ensures multiset(OpReplies(q + [op])) == multiset(OpReplies(q)) + multiset{op.reply}
  {
    assert OpReplies(q + [op]) == OpReplies(q) + [op.reply];
  }

  lemma QueueShrinks(q: seq<WorkerOp>)
    requires q != []
    ensures multiset(OpReplies(q)) == multiset{q[0].reply} + multiset(OpReplies(q[1..]))
  {
    assert OpReplies(q) == [q[0].reply] + OpReplies(q[1..]);
  }

  lemma AnswersGrow(a: seq<Answer>, x: Answer)
    ensures multiset(AnswerReplies(a + [x])) == multiset(AnswerReplies(a)) + multiset{x.reply}
  {
    assert AnswerReplies(a + [x]) == AnswerReplies(a) + [x.reply];
  }

  // ── Queues and handles ─────────────────────────────────────────────────

  ghost predicate WorkerGood(w: Worker) {
    && |w.queue| <= WORKER_CHANNEL_CAPACITY
    && (forall i :: 0 <= i < |w.queue| ==> InBounds(w.topology, w.queue[i].ask))
    && (w.phase.Exited? ==> w.queue == [])
    && (!w.phase.Running? ==> w.serving.None?)
  }

  /** A handle leads to a worker with the topology it advertises. */
  ghost predicate HandleGood(s: Engine, h: Registry.Handle) {
    h.worker in s.workers && s.workers[h.worker].topology == h.topology
  }

  ghost predicate QueuesGood(s: Engine) {
    && |s.inbox| <= ENGINE_CHANNEL_CAPACITY
    && (forall w :: w in s.workers ==> w < s.spawned && WorkerGood(s.workers[w]))
    && (forall id :: id in s.devices ==> HandleGood(s, s.devices[id]))
    && (forall i :: 0 <= i < |s.inbox| && s.inbox[i].DeviceReattached? ==> HandleGood(s, s.inbox[i].handle))
    && (forall t :: t in s.tasks ==> t < s.spawned && (s.tasks[t].found.Some? ==> HandleGood(s, s.tasks[t].found.value)))
  }

  // ── Steps keep the queues and the senders ──────────────────────────────

  /** Workers may be added and gain nothing else; handles stay good. */
  lemma HandlesSurvive(s: Engine, s': Engine)
    requires forall w :: w in s.workers ==> w in s'.workers && s'.workers[w].topology == s.workers[w].topology
    ensures forall h :: HandleGood(s, h) ==> HandleGood(s', h)
  {
  }

  /** Changing one worker's queue, without its topology. */
  lemma QueuesWithWorker(s: Engine, w: WorkerId, worker: Worker)
    requires QueuesGood(s) && w in s.workers && WorkerGood(worker) && worker.topology == s.workers[w].topology
    ensures QueuesGood(WithWorker(s, w, worker))
  {
    HandlesSurvive(s, WithWorker(s, w, worker));
  }

  lemma QueuesAfterDispatch(s: Engine, id: DeviceId, op: WorkerOp)
    requires QueuesGood(s)
    ensures QueuesGood(Dispatched(s, id, op))
  {
    match FateOf(s, id, op)
    case Through =>
      var w := s.devices[id].worker;
      assert HandleGood(s, s.devices[id]);
      QueuesWithWorker(s, w, s.workers[w].(queue := s.workers[w].queue + [op]));
    case _ => HandlesSurvive(s, Dispatched(s, id, op));
  }

  lemma QueuesAfterSpawn(s: Engine, id: DeviceId, t: Topology)
    requires QueuesGood(s)
    ensures QueuesGood(WorkerSpawned(s, id, t)) && s.spawned !in s.workers
  {
    HandlesSurvive(s, WorkerSpawned(s, id, t));
  }

  lemma QueuesAfterReconnect(s: Engine, id: DeviceId, vendor: u16, product: u16)
    requires QueuesGood(s)
    ensures QueuesGood(ReconnectStarted(s, id, vendor, product))
  {
    HandlesSurvive(s, ReconnectStarted(s, id, vendor, product));
  }

  /** Changes that leave the workers alone and lose or keep handles. */
  lemma QueuesFewerHandles(s: Engine, s': Engine)
    requires QueuesGood(s) && s'.workers == s.workers && s'.spawned == s.spawned && s'.tasks == s.tasks
    requires s'.inbox == s.inbox || s'.inbox == [] || (s.inbox != [] && s'.inbox == s.inbox[1..])
    requires forall id :: id in s'.devices ==> (id in s.devices && s'.devices[id] == s.devices[id]) || HandleGood(s, s'.devices[id])
    ensures QueuesGood(s')
  {
    HandlesSurvive(s, s');
    forall id | id in s'.devices ensures HandleGood(s', s'.devices[id]) {
      assert HandleGood(s, s'.devices[id]);
    }
    forall i | 0 <= i < |s'.inbox| && s'.inbox[i].DeviceReattached? ensures HandleGood(s', s'.inbox[i].handle) {
      if s'.inbox != s.inbox {
        assert s'.inbox[i] == s.inbox[i + 1];
      }
    }
  }

  lemma QueuesAfterConnect(s: Engine, id: DeviceId, vendor: u16, product: u16, a: Attach)
    requires QueuesGood(s)
    ensures QueuesGood(ConnectHandled(s, id, vendor, product, a))
  {
    hide QueuesGood;
    var s1 := s.(reconnecting := s.reconnecting - {id}, hist := s.hist + [SawConnect(id)]);
    QueuesFewerHandles(s, s1);
    if id !in s1.devices {
      match a {
        case NoDriver =>
        case Attached(t) =>
          QueuesAfterSpawn(s1, id, t);
          QueuesFewerHandles(WorkerSpawned(s1, id, t), ConnectHandled(s, id, vendor, product, a));
        case AttachFailed(e) =>
          if IsTransient(e) {
            QueuesAfterReconnect(s1, id, vendor, product);
          }
      }
    }
  }

  lemma QueuesAfterError(s: Engine, id: DeviceId, e: DriverError)
    requires QueuesGood(s)
    ensures QueuesGood(ErrorHandled(s, id, e))
  {
    hide QueuesGood;
    if id in s.devices {
      var s1 := s.(devices := s.devices - {id}, hist := s.hist + [Removed(id)]);
      QueuesFewerHandles(s, s1);
      if e == DriverError.Disconnected {
        QueuesAfterReconnect(s1, id, s.devices[id].vendor, s.devices[id].product);
      }
    }
  }

  lemma QueuesAfterHandling(s: Engine, a: Attach)
    requires QueuesGood(s) && s.inbox != []
    ensures QueuesGood(Handled(s.(inbox := s.inbox[1..]), s.inbox[0], a))
  {
    var s1 := s.(inbox := s.inbox[1..]);
    var s' := Handled(s1, s.inbox[0], a);
    QueuesFewerHandles(s, s1);
    assert s.inbox[0].DeviceReattached? ==> HandleGood(s1, s.inbox[0].handle) by {
      HandlesSurvive(s, s1);
    }
    hide QueuesGood;
    hide ConnectHandled;
    hide ErrorHandled;
    hide Dispatched;
    match s.inbox[0]
    case Dispatch(id, op) => QueuesAfterDispatch(s1, id, op);
    case DeviceConnected(id, vendor, product) => QueuesAfterConnect(s1, id, vendor, product, a);
    case DeviceError(id, e, _) => QueuesAfterError(s1, id, e);
    case _ => QueuesFewerHandles(s1, s');
  }

  lemma QueuesStep(s: Engine, l: Label)
    requires QueuesGood(s) && Enabled(s, l)
    ensures QueuesGood(Next(s, l))
  {
    var s' := Next(s, l);
    match l
    case Handle(a) => QueuesAfterHandling(s, a);
    case Take(w) => QueuesWithWorker(s, w, s'.workers[w]);
    case Finish(w, _) => QueuesAfterFinish(s, l, w);
    case CommitFailed(w) => QueuesWithWorker(s, w, s'.workers[w]);
    case Notify(w) => QueuesAfterNotify(s, w);
    case HangUp(w) => QueuesWithWorker(s, w, s'.workers[w]);
    case Found(t, topology) => QueuesAfterFound(s, t, topology);
    case Send(_) => HandlesSurvive(s, s');
    case Post(t) => QueuesAfterPost(s, t);
    case GiveUp(_) => HandlesSurvive(s, s');
  }

  lemma QueuesAfterFinish(s: Engine, l: Label, w: WorkerId)
    requires QueuesGood(s) && Enabled(s, l) && l.Finish? && l.w == w
    ensures QueuesGood(Next(s, l))
  {
    var worker := s.workers[w].(serving := None, phase := if l.fatal then Notifying else Running);
    QueuesWithWorker(s, w, worker);
    QueuesFewerHandles(WithWorker(s, w, worker), Next(s, l));
  }

  lemma QueuesAfterNotify(s: Engine, w: WorkerId)
    requires QueuesGood(s) && Enabled(s, Notify(w))
    ensures QueuesGood(Next(s, Notify(w)))
  {
    var worker := s.workers[w].(phase := Exited, queue := []);
    QueuesWithWorker(s, w, worker);
    HandlesSurvive(WithWorker(s, w, worker), Next(s, Notify(w)));
  }

  lemma QueuesAfterFound(s: Engine, t: TaskId, topology: Topology)
    requires QueuesGood(s) && Enabled(s, Found(t, topology))
    ensures QueuesGood(Next(s, Found(t, topology)))
  {
    var s1 := WorkerSpawned(s, s.tasks[t].id, topology);
    QueuesAfterSpawn(s, s.tasks[t].id, topology);
    HandlesSurvive(s1, Next(s, Found(t, topology)));
  }

  lemma QueuesAfterPost(s: Engine, t: TaskId)
    requires QueuesGood(s) && Enabled(s, Post(t))
    ensures QueuesGood(Next(s, Post(t)))
  {
    assert HandleGood(s, s.tasks[t].found.value);
    HandlesSurvive(s, Next(s, Post(t)));
  }

  // ── Senders ────────────────────────────────────────────────────────────

  lemma HeldFrame(s: Engine, s': Engine)
    requires s'.workers == s.workers && s'.answered == s.answered && s'.dropped == s.dropped
    requires multiset(InboxReplies(s'.inbox)) == multiset(InboxReplies(s.inbox))
    ensures forall p :: Held(s', p) == Held(s, p)
  {
  }

  /** A new worker holds nothing. */
  lemma HeldSpawn(s: Engine, s': Engine, w: WorkerId, worker: Worker)
    requires w !in s.workers && s'.workers == s.workers[w := worker] && worker.queue == [] && worker.serving.None?
    requires s'.answered == s.answered && s'.dropped == s.dropped
    requires multiset(InboxReplies(s'.inbox)) == multiset(InboxReplies(s.inbox))
    ensures forall p :: Held(s', p) == Held(s, p)
  {
    hide Held;
    forall p ensures Held(s', p) == Held(s, p) {
      HeldSpawnAt(s, s', w, worker, p);
    }
  }

  lemma HeldSpawnAt(s: Engine, s': Engine, w: WorkerId, worker: Worker, p: Place)
    requires w !in s.workers && s'.workers == s.workers[w := worker] && worker.queue == [] && worker.serving.None?
    requires s'.answered == s.answered && s'.dropped == s.dropped
    requires multiset(InboxReplies(s'.inbox)) == multiset(InboxReplies(s.inbox))
    ensures Held(s', p) == Held(s, p)
  {
    match p
    case Queued(v) =>
      assert OpReplies([]) == [];
      assert v != w ==> (v in s'.workers <==> v in s.workers);
    case BeingServed(v) => assert v != w ==> (v in s'.workers <==> v in s.workers);
    case _ =>
  }

  /** The supervisor answers the command it took. */
  lemma HeldAnswered(s: Engine, s': Engine, c: Command, verdict: Verdict)
    requires Conserved(s) && s.inbox != [] && s.inbox[0] == c && CommandReply(c).Some?
    requires s'.inbox == s.inbox[1..] && s'.workers == s.workers && s'.dropped == s.dropped && s'.issued == s.issued
    requires s'.answered == s.answered + [Answer(CommandReply(c).value, verdict)]
    ensures Conserved(s')
  {
    hide Conserved;
    InboxShrinks(s.inbox);
    AnswersGrow(s.answered, Answer(CommandReply(c).value, verdict));
    assert SameElsewhere(s, s', Inbox, AnsweredOnce);
    hide Held;
    hide SameElsewhere;
    HeldByFields(s);
    HeldByFields(s');
    Moved(s, s', ReplyOf(c), Inbox, AnsweredOnce);
  }

  /** A change to one worker is felt only in the two places named. */
  lemma Elsewhere(s: Engine, s': Engine, w: WorkerId, worker: Worker, p: Place, q: Place)
    requires w in s.workers && s'.workers == s.workers[w := worker]
    requires worker.queue == s.workers[w].queue || p == Queued(w) || q == Queued(w)
    requires worker.serving == s.workers[w].serving || p == BeingServed(w) || q == BeingServed(w)
    requires s'.answered == s.answered || q == AnsweredOnce
    requires s'.dropped == s.dropped || q == DroppedByExit
    requires p == Inbox || multiset(InboxReplies(s'.inbox)) == multiset(InboxReplies(s.inbox))
    ensures SameElsewhere(s, s', p, q)
  {
    forall o | o != p && o != q ensures Held(s', o) == Held(s, o) {
      match o
      case Inbox =>
      case AnsweredOnce =>
      case DroppedByExit =>
      case Queued(v) => assert v != w ==> (v in s'.workers <==> v in s.workers);
      case BeingServed(v) => assert v != w ==> (v in s'.workers <==> v in s.workers);
    }
  }

  lemma HeldByQueue(s: Engine, w: WorkerId)
    requires w in s.workers
    ensures Held(s, Queued(w)) == multiset(OpReplies(s.workers[w].queue))
  {
  }

  lemma HeldByService(s: Engine, w: WorkerId)
    requires w in s.workers
    ensures s.workers[w].serving.Some? ==> Held(s, BeingServed(w)) == multiset{s.workers[w].serving.value}
    ensures s.workers[w].serving.None? ==> Held(s, BeingServed(w)) == multiset{}
  {
  }

  lemma HeldByFields(s: Engine)
    ensures Held(s, Inbox) == multiset(InboxReplies(s.inbox))
    ensures Held(s, AnsweredOnce) == multiset(AnswerReplies(s.answered))
    ensures Held(s, DroppedByExit) == multiset(s.dropped)
  {
  }

  lemma HeldQueued(s: Engine, s': Engine, w: WorkerId, op: WorkerOp)
    requires Conserved(s) && s.inbox != [] && CommandReply(s.inbox[0]) == Some(op.reply) && w in s.workers
    requires s' == Sent(s.(inbox := s.inbox[1..]), w, op)
    ensures Conserved(s')
  {
    hide Conserved;
    hide SameElsewhere;
    hide Held;
    InboxShrinks(s.inbox);
    QueueGrows(s.workers[w].queue, op);
    HeldByFields(s);
    HeldByFields(s');
    HeldByQueue(s, w);
    HeldByQueue(s', w);
    Elsewhere(s, s', w, s'.workers[w], Inbox, Queued(w));
    Moved(s, s', multiset{op.reply}, Inbox, Queued(w));
  }

  lemma SendersAfterDispatch(s: Engine, id: DeviceId, op: WorkerOp)
    requires Conserved(s) && s.inbox != [] && s.inbox[0] == Dispatch(id, op)
    ensures Conserved(Dispatched(s.(inbox := s.inbox[1..]), id, op))
  {
    hide Conserved;
    var s1 := s.(inbox := s.inbox[1..]);
    var s' := Dispatched(s1, id, op);
    match FateOf(s1, id, op)
    case Unknown => HeldAnswered(s, s', s.inbox[0], NotFound);
    case OffMatrix => HeldAnswered(s, s', s.inbox[0], OutOfBounds);
    case ChannelClosed => HeldAnswered(s, s', s.inbox[0], NotFound);
    case ChannelFull => HeldAnswered(s, s', s.inbox[0], Busy);
    case Through => HeldQueued(s, s', s1.devices[id].worker, op);
  }

  lemma SendersAfterConnect(s: Engine, id: DeviceId, vendor: u16, product: u16, a: Attach)
    requires Conserved(s) && s.spawned !in s.workers
    ensures Conserved(ConnectHandled(s, id, vendor, product, a))
  {
    hide Conserved;
    var s' := ConnectHandled(s, id, vendor, product, a);
    if id !in s.devices && a.Attached? {
      HeldSpawn(s, s', s.spawned, Worker(id, a.topology, [], None, Running));
    } else {
      HeldFrame(s, s');
    }
    Unmoved(s, s');
  }

  lemma SendersAfterShutdown(s: Engine)
    requires Conserved(s) && s.inbox != [] && CommandReply(s.inbox[0]).None?
    ensures Conserved(ShutDown(s.(inbox := s.inbox[1..])))
  {
    hide Conserved;
    var s' := ShutDown(s.(inbox := s.inbox[1..]));
    var m := multiset(InboxReplies(s.inbox));
    InboxShrinks(s.inbox);
    assert InboxReplies(s'.inbox) == [];
    assert s'.dropped == s.dropped + InboxReplies(s.inbox[1..]);
    forall p | p != Inbox && p != DroppedByExit ensures Held(s', p) == Held(s, p) {}
    hide Held;
    hide InboxReplies;
    HeldByFields(s);
    HeldByFields(s');
    AllMoved(m);
    Moved(s, s', m, Inbox, DroppedByExit);
  }

  lemma SendersAfterOther(s: Engine, c: Command, a: Attach)
    requires Conserved(s) && (c.DeviceDisconnected? || c.DeviceError? || c.DeviceReattached?)
    ensures Conserved(Handled(s, c, a))
  {
    hide Conserved;
    HeldFrame(s, Handled(s, c, a));
    Unmoved(s, Handled(s, c, a));
  }

  lemma SendersAfterHandling(s: Engine, a: Attach)
    requires Conserved(s) && QueuesGood(s) && s.inbox != []
    ensures Conserved(Handled(s.(inbox := s.inbox[1..]), s.inbox[0], a))
  {
    var s1 := s.(inbox := s.inbox[1..]);
    var c := s.inbox[0];
    assert s.spawned !in s.workers;
    hide Conserved;
    hide QueuesGood;
    hide Dispatched;
    hide ConnectHandled;
    hide DisconnectHandled;
    hide ErrorHandled;
    hide ReattachHandled;
    hide ShutDown;
    if CommandReply(c).None? {
      InboxShrinks(s.inbox);
      HeldFrame(s, s1);
      Unmoved(s, s1);
    }
    match c
    case Dispatch(id, op) => SendersAfterDispatch(s, id, op);
    case DeviceConnected(id, vendor, product) => SendersAfterConnect(s1, id, vendor, product, a);
    case Shutdown => SendersAfterShutdown(s);
    case ListDevices(reply) => HeldAnswered(s, Handled(s1, c, a), c, Ids(s.devices.Keys));
    case GetDeviceInfo(id, reply) =>
      HeldAnswered(s, Handled(s1, c, a), c, if id in s.devices then Info(s.devices[id].topology) else NotFound);
    case GetDeviceIdentity(id, reply) =>
      HeldAnswered(s, Handled(s1, c, a), c,
                   if id in s.devices then Identity(s.devices[id].vendor, s.devices[id].product) else NotFound);
    case _ => SendersAfterOther(s1, c, a);
  }

  lemma SendersAfterSend(s: Engine, c: Command)
    requires Conserved(s) && Enabled(s, Send(c))
    ensures Conserved(Next(s, Send(c)))
  {
    hide Conserved;
    var s' := Next(s, Send(c));
    InboxGrows(s.inbox, c);
    HeldBut(s, s');
    hide Held;
    HeldByFields(s);
    HeldByFields(s');
    if CommandReply(c).Some? {
      Issued(s, s', CommandReply(c).value);
    } else {
      assert forall p :: Held(s', p) == Held(s, p);
      Unmoved(s, s');
    }
  }

  lemma HeldBut(s: Engine, s': Engine)
    requires s'.workers == s.workers && s'.answered == s.answered && s'.dropped == s.dropped
    ensures forall p :: p != Inbox ==> Held(s', p) == Held(s, p)
  {
  }

  lemma SendersAfterTake(s: Engine, w: WorkerId)
    requires Conserved(s) && Enabled(s, Take(w))
    ensures Conserved(Next(s, Take(w)))
  {
    hide Conserved;
    hide SameElsewhere;
    hide Held;
    var s' := Next(s, Take(w));
    QueueShrinks(s.workers[w].queue);
    HeldByQueue(s, w);
    HeldByQueue(s', w);
    HeldByService(s, w);
    HeldByService(s', w);
    Elsewhere(s, s', w, s'.workers[w], Queued(w), BeingServed(w));
    Moved(s, s', multiset{s.workers[w].queue[0].reply}, Queued(w), BeingServed(w));
  }

  lemma SendersAfterFinish(s: Engine, w: WorkerId, fatal: bool)
    requires Conserved(s) && Enabled(s, Finish(w, fatal))
    ensures Conserved(Next(s, Finish(w, fatal)))
  {
    hide Conserved;
    hide SameElsewhere;
    hide Held;
    var s' := Next(s, Finish(w, fatal));
    var r := s.workers[w].serving.value;
    AnswersGrow(s.answered, Answer(r, Served));
    HeldByFields(s);
    HeldByFields(s');
    HeldByService(s, w);
    HeldByService(s', w);
    Elsewhere(s, s', w, s'.workers[w], BeingServed(w), AnsweredOnce);
    Moved(s, s', multiset{r}, BeingServed(w), AnsweredOnce);
  }

  /** A worker's whole queue goes unanswered at once. */
  lemma QueueDropped(s: Engine, s': Engine, w: WorkerId, worker: Worker)
    requires Conserved(s) && w in s.workers && s'.workers == s.workers[w := worker] && s'.issued == s.issued
    requires worker.queue == [] && worker.serving == s.workers[w].serving && s'.answered == s.answered
    requires s'.dropped == s.dropped + OpReplies(s.workers[w].queue)
    requires multiset(InboxReplies(s'.inbox)) == multiset(InboxReplies(s.inbox))
    ensures Conserved(s')
  {
    hide Conserved;
    hide SameElsewhere;
    hide Held;
    hide InboxReplies;
    var m := multiset(OpReplies(s.workers[w].queue));
    assert OpReplies([]) == [];
    hide OpReplies;
    HeldByFields(s);
    HeldByFields(s');
    HeldByQueue(s, w);
    HeldByQueue(s', w);
    Elsewhere(s, s', w, worker, Queued(w), DroppedByExit);
    AllMoved(m);
    assert multiset(s'.dropped) == multiset(s.dropped) + m;
    assert Held(s', Queued(w)) == Held(s, Queued(w)) - m;
    Moved(s, s', m, Queued(w), DroppedByExit);
  }

  lemma SendersAfterNotify(s: Engine, w: WorkerId)
    requires Conserved(s) && w in s.workers
    ensures Conserved(Notified(s, w))
  {
    hide Conserved;
    InboxGrows(s.inbox, DeviceError(s.workers[w].id, DriverError.Disconnected, w));
    hide InboxReplies;
    hide OpReplies;
    QueueDropped(s, Notified(s, w), w, s.workers[w].(phase := Exited, queue := []));
  }

  lemma AllMoved(m: multiset<ReplyId>)
    ensures m - m == multiset{}
  {
  }

  lemma SendersAfterPhase(s: Engine, s': Engine, w: WorkerId)
    requires Conserved(s) && w in s.workers && w in s'.workers
    requires s' == WithWorker(s, w, s.workers[w].(phase := s'.workers[w].phase))
    ensures Conserved(s')
  {
    hide Conserved;
    forall p ensures Held(s', p) == Held(s, p) {}
    Unmoved(s, s');
  }

  lemma SendersAfterTask(s: Engine, l: Label)
    requires Conserved(s) && s.spawned !in s.workers && Enabled(s, l) && (l.Found? || l.Post? || l.GiveUp?)
    ensures Conserved(Next(s, l))
  {
    hide Conserved;
    var s' := Next(s, l);
    match l {
      case Found(t, topology) =>
        HeldSpawn(s, s', s.spawned, Worker(s.tasks[t].id, topology, [], None, Running));
      case Post(t) =>
        InboxGrows(s.inbox, DeviceReattached(s.tasks[t].id, s.tasks[t].found.value, s.tasks[t].token));
        HeldFrame(s, s');
      case GiveUp(_) => HeldFrame(s, s');
    }
    Unmoved(s, s');
  }

  lemma SendersStep(s: Engine, l: Label)
    requires Conserved(s) && QueuesGood(s) && Enabled(s, l)
    ensures Conserved(Next(s, l))
  {
    assert s.spawned !in s.workers;
    hide Conserved;
    hide QueuesGood;
    match l
    case Send(c) => SendersAfterSend(s, c);
    case Handle(a) => SendersAfterHandling(s, a);
    case Take(w) => SendersAfterTake(s, w);
    case Finish(w, fatal) => SendersAfterFinish(s, w, fatal);
    case CommitFailed(w) => SendersAfterPhase(s, Next(s, l), w);
    case Notify(w) => SendersAfterNotify(s, w);
    case HangUp(w) => SendersAfterPhase(s, Next(s, l), w);
    case _ => SendersAfterTask(s, l);
  }

  // ── Over every run ─────────────────────────────────────────────────────

  /** Only handling a command touches the registry or its history. */
  lemma QuietStep(s: Engine, l: Label)
    requires Enabled(s, l) && !l.Handle?
    ensures var s' := Next(s, l);
            && s'.devices == s.devices && s'.reconnecting == s.reconnecting && s'.nextToken == s.nextToken
            && s'.hist == s.hist && s'.up == s.up
  {
    hide HasSender;
  }

  /** Registry safety, bounded queues and reply conservation, in every reachable
      state: no device is both attached and being reconnected to; a device is
      attached exactly when its last event is an addition, and it is added only
      when out and removed only when in; no queue outgrows its channel and
      every queued keymap access fits the worker's topology; and every reply
      sender is in exactly one place. */
  lemma {:induction false} EngineOverRuns(states: seq<Engine>, labels: seq<Label>, n: nat)
    requires IsRun(states, labels) && n <= |labels|
    ensures RegistryGood(states[n]) && QueuesGood(states[n]) && Conserved(states[n])
  {
    if n == 0 {
      InitialIsGood();
    } else {
      EngineOverRuns(states, labels, n - 1);
      EngineStep(states[n - 1], labels[n - 1]);
    }
  }

  lemma InitialIsGood()
    ensures RegistryGood(Initial()) && QueuesGood(Initial()) && Conserved(Initial())
    ensures TokensGood(Initial()) && AcceptancesGood(Initial().hist)
  {
    assert AnswerReplies([]) == [];
    assert forall p :: Held(Initial(), p) == multiset{};
  }

  lemma EngineStep(s: Engine, l: Label)
    requires RegistryGood(s) && QueuesGood(s) && Conserved(s) && Enabled(s, l)
    ensures RegistryGood(Next(s, l)) && QueuesGood(Next(s, l)) && Conserved(Next(s, l))
  {
    hide RegistryGood;
    hide QueuesGood;
    hide Conserved;
    QueuesStep(s, l);
    SendersStep(s, l);
    if l.Handle? {
      var s1 := s.(inbox := s.inbox[1..]);
      RegistrySame(s, s1);
      RegistryAfterHandling(s1, s.inbox[0], l.a);
    } else {
      QuietStep(s, l);
      RegistrySame(s, Next(s, l));
    }
  }

  /** What conservation says of one sender. */
  lemma OnePlaceOnly(s: Engine, r: ReplyId)
    requires Conserved(s) && r in s.issued
    ensures exists p :: Held(s, p)[r] == 1 && forall q :: q != p ==> Held(s, q)[r] == 0
  {
    hide Held;
    var p :| r in Held(s, p);
    assert Held(s, p)[r] <= 1;
    forall q | q != p ensures Held(s, q)[r] == 0 {
      assert r in Held(s, q) ==> p == q;
    }
  }

  /** A worker that has hung up because nothing can reach it any more left no
      sender behind. */
  lemma HangUpDropsNothing(s: Engine, w: WorkerId)
    requires Enabled(s, HangUp(w))
    ensures Held(s, Queued(w)) == multiset{} && Held(s, BeingServed(w)) == multiset{}
    ensures Next(s, HangUp(w)).dropped == s.dropped
  {
    assert OpReplies([]) == [];
  }

  lemma {:induction false} StartsMonotone(a: seq<Happening>, b: seq<Happening>)
    requires a <= b
    ensures Starts(a) <= Starts(b)
  {
    if |a| < |b| {
      StartsMonotone(a, b[..|b| - 1]);
    } else {
      assert a == b;
    }
  }

  lemma HistoryGrows(s: Engine, c: Command, a: Attach)
    ensures s.hist <= Handled(s, c, a).hist
  {
    hide FateOf;
    match c
    case Dispatch(id, op) => DispatchFrame(s, id, op);
    case DeviceConnected(id, vendor, product) =>
    case _ =>
  }

  lemma TokensStep(s: Engine, l: Label)
    requires TokensGood(s) && AcceptancesGood(s.hist) && s.devices.Keys !! s.reconnecting.Keys
    requires Enabled(s, l) && Starts(Next(s, l).hist) < TOKENS
    ensures TokensGood(Next(s, l)) && AcceptancesGood(Next(s, l).hist)
  {
    hide TokensGood;
    hide AcceptancesGood;
    hide Starts;
    hide Handled;
    if l.Handle? {
      var s1 := s.(inbox := s.inbox[1..]);
      TokensSame(s, s1);
      TokensAfterHandling(s1, s.inbox[0], l.a);
    } else {
      QuietStep(s, l);
      TokensSame(s, Next(s, l));
    }
  }

  lemma StepGrowsHistory(s: Engine, l: Label)
    requires Enabled(s, l)
    ensures Starts(s.hist) <= Starts(Next(s, l).hist)
  {
    hide Handled;
    if l.Handle? {
      HistoryGrows(s.(inbox := s.inbox[1..]), s.inbox[0], l.a);
    } else {
      QuietStep(s, l);
    }
    StartsMonotone(s.hist, Next(s, l).hist);
  }

  lemma {:induction false} TokensOverRuns(states: seq<Engine>, labels: seq<Label>, n: nat)
    requires IsRun(states, labels) && n <= |labels| && Starts(states[n].hist) < TOKENS
    ensures TokensGood(states[n]) && AcceptancesGood(states[n].hist)
  {
    hide TokensGood;
    hide AcceptancesGood;
    hide Next;
    hide Enabled;
    if n == 0 {
      InitialIsGood();
    } else {
      StepGrowsHistory(states[n - 1], labels[n - 1]);
      TokensOverRuns(states, labels, n - 1);
      EngineOverRuns(states, labels, n - 1);
      RegistryDisjoint(states[n - 1]);
      TokensStep(states[n - 1], labels[n - 1]);
    }
  }

  /** Reconnect tokens are ABA-free: in every run that starts fewer than 2^64
      reconnects, an accepted reattachment is of a token handed out for that
      device, with no connect or disconnect of it handled since; and no token
      is accepted twice. */
  lemma ReattachIsABAFree(states: seq<Engine>, labels: seq<Label>, n: nat, j: nat)
    requires IsRun(states, labels) && n <= |labels| && Starts(states[n].hist) < TOKENS
    requires j < |states[n].hist| && states[n].hist[j].Accepted?
    ensures var h := states[n].hist;
            exists i :: 0 <= i < j && h[i] == Started(h[j].id, h[j].token)
              && forall m :: i < m < j ==> h[m] != SawConnect(h[j].id) && h[m] != SawDisconnect(h[j].id)
    ensures forall k :: 0 <= k < j && states[n].hist[k].Accepted? ==> states[n].hist[k].token != states[n].hist[j].token
  {
    hide TokensGood;
    hide Starts;
    hide Next;
    hide Enabled;
    TokensOverRuns(states, labels, n);
    var h := states[n].hist;
    assert AcceptanceGood(h, j);
    forall k | 0 <= k < j && h[k].Accepted? ensures h[k].token != h[j].token {
      assert h[..j][k] == h[k];
    }
    var i: nat :| StillGood(h[..j], i, h[j].id, h[j].token);
    assert h[i] == h[..j][i];
    forall m | i < m < j ensures h[m] != SawConnect(h[j].id) && h[m] != SawDisconnect(h[j].id) {
      assert h[m] == h[..j][m];
    }
  }

  // ── Paths of labels ────────────────────────────────────────────────────

  /** Taking the labels one after the other leads from `s` to `t`. */
  ghost predicate Steps(s: Engine, labels: seq<Label>, t: Engine)
    decreases |labels|
  {
    if labels == [] then t == s else Enabled(s, labels[0]) && Steps(Next(s, labels[0]), labels[1..], t)
  }

  lemma OneStep(s: Engine, l: Label)
    requires Enabled(s, l)
    ensures Steps(s, [l], Next(s, l))
  {
    hide Enabled;
    hide Next;
    assert [l][1..] == [];
  }

  lemma {:induction false} StepsCompose(s: Engine, a: seq<Label>, m: Engine, b: seq<Label>, t: Engine)
    requires Steps(s, a, m) && Steps(m, b, t)
    ensures Steps(s, a + b, t)
    decreases |a|
  {
    hide Enabled;
    hide Next;
    if a == [] {
      assert a + b == b;
    } else {
      assert (a + b)[1..] == a[1..] + b;
      StepsCompose(Next(s, a[0]), a[1..], m, b, t);
    }
  }

  lemma StepsGrow(s: Engine, a: seq<Label>, m: Engine, l: Label)
    requires Steps(s, a, m) && Enabled(m, l)
    ensures Steps(s, a + [l], Next(m, l))
  {
    OneStep(m, l);
    StepsCompose(s, a, m, [l], Next(m, l));
  }

  lemma {:induction false} RunExtends(states: seq<Engine>, labels: seq<Label>, more: seq<Label>, t: Engine)
    returns (states': seq<Engine>)
    requires IsRun(states, labels) && Steps(states[|labels|], more, t)
    ensures IsRun(states', labels + more) && states <= states' && states'[|labels| + |more|] == t
    decreases |more|
  {
    hide Enabled;
    hide Next;
    if more == [] {
      states' := states;
      assert labels + more == labels;
    } else {
      var next := Next(states[|labels|], more[0]);
      assert labels + more == (labels + [more[0]]) + more[1..];
      states' := RunExtends(states + [next], labels + [more[0]], more[1..], t);
    }
  }
}
