/** The supervisor: its device registry, the commands it handles, and the
    channels through which it talks to workers and reconnect tasks. */
module Registry {
  import opened Basics

  type DeviceId = string
  /** Identifies the one-shot reply sender that travels with a request. */
  type ReplyId = nat
  type WorkerId = nat
  type TaskId = nat

  const ENGINE_CHANNEL_CAPACITY := 32
  const WORKER_CHANNEL_CAPACITY := 16
  const TOKENS := 0x1_0000_0000_0000_0000

  datatype Topology = Topology(rows: u8, cols: u8, layers: u8)

  predicate Contains(t: Topology, k: Key) {
    k.layer < t.layers && k.row < t.rows && k.col < t.cols
  }

  datatype Ask =
    | GetKeycode(key: Key)
    | SetKeycode(key: Key, code: u16)
    | Commit
    | GetMacro(offset: u16, length: u8)
    | SetMacro(offset: u16, data: seq<u8>)
    | GetLighting(channel: u8, value: u8)
    | SetLighting(channel: u8, value: u8, data: seq<u8>)

  datatype WorkerOp = WorkerOp(ask: Ask, reply: ReplyId)

  datatype Handle = Handle(worker: WorkerId, topology: Topology, vendor: u16, product: u16)

  datatype Command =
    | Dispatch(id: DeviceId, op: WorkerOp)
    | DeviceConnected(id: DeviceId, vendor: u16, product: u16)
    | DeviceDisconnected(id: DeviceId)
    /** `reporter` is history: the command itself does not say which worker it
        comes from, and its handling does not depend on it. */
    | DeviceError(id: DeviceId, error: DriverError, reporter: WorkerId)
    | DeviceReattached(id: DeviceId, handle: Handle, token: nat)
    | ListDevices(reply: ReplyId)
    | GetDeviceInfo(id: DeviceId, reply: ReplyId)
    | GetDeviceIdentity(id: DeviceId, reply: ReplyId)
    | Shutdown

  /** What trying to build and probe a driver came to. */
  datatype Attach = NoDriver | Attached(topology: Topology) | AttachFailed(error: DriverError)

  datatype Verdict =
    | NotFound
    | OutOfBounds
    | Busy
    | Ids(ids: set<DeviceId>)
    | Info(topology: Topology)
    | Identity(vendor: u16, product: u16)
    | Served

  datatype Answer = Answer(reply: ReplyId, verdict: Verdict)

  /** Running; out of its loop and waiting to report; or gone, its receiver
      dropped. */
  datatype Phase = Running | Notifying | Exited

  datatype Worker = Worker(
    id: DeviceId,
    topology: Topology,
    queue: seq<WorkerOp>,
    serving: Option<ReplyId>,
    phase: Phase)

  /** A reconnect task sleeps and retries until it has a handle to send. */
  datatype Task = Task(id: DeviceId, token: nat, vendor: u16, product: u16, found: Option<Handle>)

  /** What happened, in order: lifecycle events as broadcast, an addition with
      the worker registered by it, and the handling that bears on reconnection. */
  datatype Happening =
    | Added(id: DeviceId, worker: WorkerId)
    | Removed(id: DeviceId)
    | ClosedEviction(id: DeviceId)
    | SawConnect(id: DeviceId)
    | SawDisconnect(id: DeviceId)
    | Started(id: DeviceId, token: nat)
    | Accepted(id: DeviceId, token: nat)

  /** The engine and everything it talks to. `spawned` numbers workers and
      tasks; `issued`, `dropped` and `hist` are history. */
  datatype Engine = Engine(
    devices: map<DeviceId, Handle>,
    reconnecting: map<DeviceId, nat>,
    nextToken: nat,
    up: bool,
    inbox: seq<Command>,
    workers: map<WorkerId, Worker>,
    tasks: map<TaskId, Task>,
    spawned: nat,
    answered: seq<Answer>,
    dropped: seq<ReplyId>,
    issued: set<ReplyId>,
    hist: seq<Happening>)

  predicate IsTransient(e: DriverError) {
    e.Disconnected? || e.PermissionDenied?
  }

  predicate InBounds(t: Topology, a: Ask) {
    a.GetKeycode? || a.SetKeycode? ==> Contains(t, a.key)
  }

  // ── Handling, as functions ─────────────────────────────────────────────

  function Answered(s: Engine, reply: ReplyId, verdict: Verdict): Engine {
    s.(answered := s.answered + [Answer(reply, verdict)])
  }

  /** `try_send` on a worker's bounded channel. */
  function Sent(s: Engine, w: WorkerId, op: WorkerOp): Engine
    requires w in s.workers
  {
    s.(workers := s.workers[w := s.workers[w].(queue := s.workers[w].queue + [op])])
  }

  /** How a keymap, lighting, macro or commit command fares at the supervisor. */
  datatype Fate = Unknown | OffMatrix | ChannelClosed | ChannelFull | Through

  function FateOf(s: Engine, id: DeviceId, op: WorkerOp): (f: Fate)
    ensures f.Unknown? <==> id !in s.devices
    ensures id in s.devices ==>
              var h := s.devices[id];
              var off := (op.ask.GetKeycode? || op.ask.SetKeycode?)
                         && !(op.ask.key.layer < h.topology.layers && op.ask.key.row < h.topology.rows
                              && op.ask.key.col < h.topology.cols);
              var gone := h.worker !in s.workers || s.workers[h.worker].phase.Exited?;
              && (f.OffMatrix? <==> off)
              && (f.ChannelClosed? <==> !off && gone)
              && (f.ChannelFull? <==> !off && !gone && 16 <= |s.workers[h.worker].queue|)
              && (f.Through? <==> !off && !gone && |s.workers[h.worker].queue| < 16)
  {
    if id !in s.devices then Unknown
    else
      var h := s.devices[id];
      if !InBounds(h.topology, op.ask) then OffMatrix
      else if h.worker !in s.workers || s.workers[h.worker].phase.Exited? then ChannelClosed
      else if |s.workers[h.worker].queue| >= WORKER_CHANNEL_CAPACITY then ChannelFull
      else Through
  }

  function Dispatched(s: Engine, id: DeviceId, op: WorkerOp): Engine {
    match FateOf(s, id, op)
    case Unknown => Answered(s, op.reply, NotFound)
    case OffMatrix => Answered(s, op.reply, OutOfBounds)
    case ChannelClosed =>
      Answered(s.(devices := s.devices - {id}, hist := s.hist + [ClosedEviction(id)]), op.reply, NotFound)
    case ChannelFull => Answered(s, op.reply, Busy)
    case Through => Sent(s, s.devices[id].worker, op)
  }

  /** A fresh token, its cancel sender registered, and the task that carries it. */
  function ReconnectStarted(s: Engine, id: DeviceId, vendor: u16, product: u16): Engine {
    s.(reconnecting := s.reconnecting[id := s.nextToken],
       nextToken := (s.nextToken + 1) % TOKENS,
       tasks := s.tasks[s.spawned := Task(id, s.nextToken, vendor, product, None)],
       spawned := s.spawned + 1,
       hist := s.hist + [Started(id, s.nextToken)])
  }

  function WorkerSpawned(s: Engine, id: DeviceId, t: Topology): Engine {
    s.(workers := s.workers[s.spawned := Worker(id, t, [], None, Running)], spawned := s.spawned + 1)
  }

  function ConnectHandled(s: Engine, id: DeviceId, vendor: u16, product: u16, a: Attach): Engine {
    var s1 := s.(reconnecting := s.reconnecting - {id}, hist := s.hist + [SawConnect(id)]);
    if id in s1.devices then s1
    else match a
      case NoDriver => s1
      case Attached(t) =>
        WorkerSpawned(s1, id, t).(devices := s1.devices[id := Handle(s1.spawned, t, vendor, product)],
                                  hist := s1.hist + [Added(id, s1.spawned)])
      case AttachFailed(e) => if IsTransient(e) then ReconnectStarted(s1, id, vendor, product) else s1
  }

  function DisconnectHandled(s: Engine, id: DeviceId): Engine {
    var s1 := s.(reconnecting := s.reconnecting - {id}, hist := s.hist + [SawDisconnect(id)]);
    if id in s1.devices then s1.(devices := s1.devices - {id}, hist := s1.hist + [Removed(id)]) else s1
  }

  function ErrorHandled(s: Engine, id: DeviceId, e: DriverError): Engine {
    if id !in s.devices then s
    else
      var h := s.devices[id];
      var s1 := s.(devices := s.devices - {id}, hist := s.hist + [Removed(id)]);
      if e == DriverError.Disconnected then ReconnectStarted(s1, id, h.vendor, h.product) else s1
  }

  function ReattachHandled(s: Engine, id: DeviceId, h: Handle, token: nat): Engine {
    if id in s.reconnecting && s.reconnecting[id] == token then
      s.(reconnecting := s.reconnecting - {id}, devices := s.devices[id := h],
         hist := s.hist + [Accepted(id, token), Added(id, h.worker)])
    else s
  }

  function CommandReply(c: Command): Option<ReplyId> {
    match c
    case Dispatch(_, op) => Some(op.reply)
    case ListDevices(reply) => Some(reply)
    case GetDeviceInfo(_, reply) => Some(reply)
    case GetDeviceIdentity(_, reply) => Some(reply)
    case _ => None
  }

  function InboxReplies(q: seq<Command>): seq<ReplyId> {
    if q == [] then []
    else (if CommandReply(q[0]).Some? then [CommandReply(q[0]).value] else []) + InboxReplies(q[1..])
  }

  /** Every device worker is let go, and whatever is queued goes unanswered. */
  function ShutDown(s: Engine): Engine {
    s.(devices := map[], reconnecting := map[], up := false, inbox := [], dropped := s.dropped + InboxReplies(s.inbox))
  }

  function Handled(s: Engine, c: Command, a: Attach): Engine {
    match c
    case Dispatch(id, op) => Dispatched(s, id, op)
    case DeviceConnected(id, vendor, product) => ConnectHandled(s, id, vendor, product, a)
    case DeviceDisconnected(id) => DisconnectHandled(s, id)
    case DeviceError(id, e, _) => ErrorHandled(s, id, e)
    case DeviceReattached(id, h, token) => ReattachHandled(s, id, h, token)
    case ListDevices(reply) => Answered(s, reply, Ids(s.devices.Keys))
    case GetDeviceInfo(id, reply) =>
      Answered(s, reply, if id in s.devices then Info(s.devices[id].topology) else NotFound)
    case GetDeviceIdentity(id, reply) =>
      Answered(s, reply, if id in s.devices then Identity(s.devices[id].vendor, s.devices[id].product) else NotFound)
    case Shutdown => ShutDown(s)
  }

  // ── The supervisor ─────────────────────────────────────────────────────

  class Supervisor {
    var devices: map<DeviceId, Handle>
    var reconnecting: map<DeviceId, nat>
    var nextToken: nat
    var up: bool
    /** The channels and tasks at the supervisor's other end. */
    var world: Engine

    ghost function State(): Engine
      reads this
    {
      world.(devices := devices, reconnecting := reconnecting, nextToken := nextToken, up := up)
    }

    /** A device is attached or being reconnected to, never both. */
    ghost predicate Valid()
      reads this
    {
      devices.Keys !! reconnecting.Keys && nextToken < TOKENS
    }

    constructor ()
      ensures Valid()
      ensures State() == Engine(map[], map[], 0, true, [], map[], map[], 0, [], [], {}, [])
    {
      devices, reconnecting, nextToken, up := map[], map[], 0, true;
      world := Engine(map[], map[], 0, true, [], map[], map[], 0, [], [], {}, []);
    }

    method Reply(reply: ReplyId, verdict: Verdict)
      modifies this`world
      ensures State() == Answered(old(State()), reply, verdict)
    {
      world := Answered(world, reply, verdict);
    }

    method Happen(h: Happening)
      modifies this`world
      ensures State() == old(State()).(hist := old(State()).hist + [h])
    {
      world := world.(hist := world.hist + [h]);
    }

    /** No live handle is overwritten. */
    method Register(id: DeviceId, h: Handle)
      requires Valid() && id !in devices && id !in reconnecting
      modifies this`devices
      ensures Valid() && State() == old(State()).(devices := old(State()).devices[id := h])
    {
      devices := devices[id := h];
    }

    /** No live cancel sender is overwritten. */
    method StartReconnectBackoff(id: DeviceId, vendor: u16, product: u16)
      requires Valid() && id !in devices && id !in reconnecting
      modifies this
      ensures Valid() && State() == ReconnectStarted(old(State()), id, vendor, product)
    {
      var token := nextToken;
      nextToken := (nextToken + 1) % TOKENS;
      reconnecting := reconnecting[id := token];
      world := world.(tasks := world.tasks[world.spawned := Task(id, token, vendor, product, None)],
                      spawned := world.spawned + 1, hist := world.hist + [Started(id, token)]);
    }

    method DispatchOp(id: DeviceId, op: WorkerOp)
      requires Valid()
      modifies this
      ensures Valid() && State() == Dispatched(old(State()), id, op)
    {
      if id !in devices {
        Reply(op.reply, NotFound);
        return;
      }
      var h := devices[id];
      if !InBounds(h.topology, op.ask) {
        Reply(op.reply, OutOfBounds);
        return;
      }
      if h.worker !in world.workers || world.workers[h.worker].phase.Exited? {
        devices := devices - {id};
        Happen(ClosedEviction(id));
        Reply(op.reply, NotFound);
      } else if |world.workers[h.worker].queue| >= WORKER_CHANNEL_CAPACITY {
        Reply(op.reply, Busy);
      } else {
        world := Sent(world, h.worker, op);
      }
    }

    method OnConnected(id: DeviceId, vendor: u16, product: u16, a: Attach)
      requires Valid()
      modifies this
      ensures Valid() && State() == ConnectHandled(old(State()), id, vendor, product, a)
      ensures id in old(devices) ==> devices == old(devices)
      ensures id !in old(devices) ==>
                var retry := a == AttachFailed(Disconnected) || a == AttachFailed(PermissionDenied);
                && (id in devices <==> a.Attached?) && (id in reconnecting <==> retry)
                && (a.Attached? ==>
                      && devices[id] == Handle(old(world.spawned), a.topology, vendor, product)
                      && devices[id].worker in world.workers
                      && world.workers[devices[id].worker] == Worker(id, a.topology, [], None, Running))
                && (retry ==>
                      && reconnecting[id] == old(nextToken)
                      && world.tasks == old(world.tasks)[old(world.spawned) := Task(id, old(nextToken), vendor, product, None)])
    {
      reconnecting := reconnecting - {id};
      Happen(SawConnect(id));
      if id in devices {
        return;
      }
      match a {
        case NoDriver =>
        case Attached(t) =>
          var h := Handle(world.spawned, t, vendor, product);
          world := WorkerSpawned(world, id, t);
          Register(id, h);
          Happen(Added(id, h.worker));
        case AttachFailed(e) =>
          if IsTransient(e) {
            StartReconnectBackoff(id, vendor, product);
          }
      }
    }

    method OnDisconnected(id: DeviceId)
      requires Valid()
      modifies this
      ensures Valid() && State() == DisconnectHandled(old(State()), id)
    {
      reconnecting := reconnecting - {id};
      Happen(SawDisconnect(id));
      if id in devices {
        devices := devices - {id};
        Happen(Removed(id));
      }
    }

    method OnError(id: DeviceId, e: DriverError)
      requires Valid()
      modifies this
      ensures Valid() && State() == ErrorHandled(old(State()), id, e)
    {
      if id in devices {
        var h := devices[id];
        devices := devices - {id};
        Happen(Removed(id));
        if e == DriverError.Disconnected {
          StartReconnectBackoff(id, h.vendor, h.product);
        }
      }
    }

    method OnReattached(id: DeviceId, h: Handle, token: nat)
      requires Valid()
      modifies this
      ensures Valid() && State() == ReattachHandled(old(State()), id, h, token)
    {
      if id in reconnecting && reconnecting[id] == token {
        reconnecting := reconnecting - {id};
        Happen(Accepted(id, token));
        Register(id, h);
        Happen(Added(id, h.worker));
      }
    }

    /** One command off the engine channel; `a` is what attaching comes to if
        the command calls for it. */
    method HandleCommand(c: Command, a: Attach)
      requires Valid()
      modifies this
      ensures Valid() && State() == Handled(old(State()), c, a)
    {
      match c {
        case Dispatch(id, op) => DispatchOp(id, op);
        case DeviceConnected(id, vendor, product) => OnConnected(id, vendor, product, a);
        case DeviceDisconnected(id) => OnDisconnected(id);
        case DeviceError(id, e, _) => OnError(id, e);
        case DeviceReattached(id, h, token) => OnReattached(id, h, token);
        case ListDevices(reply) => Reply(reply, Ids(devices.Keys));
        case GetDeviceInfo(id, reply) =>
          Reply(reply, if id in devices then Info(devices[id].topology) else NotFound);
        case GetDeviceIdentity(id, reply) =>
          Reply(reply, if id in devices then Identity(devices[id].vendor, devices[id].product) else NotFound);
        case Shutdown =>
          devices := map[];
          reconnecting := map[];
          up := false;
          world := world.(dropped := world.dropped + InboxReplies(world.inbox), inbox := []);
      }
    }
  }
}
