/** Whose vendor and product a registered device goes by, through any number of
    failures and reconnects. */
module EngineIdentity {
  import opened Basics
  import opened Registry
  import opened EngineRuns

  /** Vendor and product each device was last connected with while it was out. */
  type Identities = map<DeviceId, (u16, u16)>

  function KnownAfter(known: Identities, s: Engine, l: Label): Identities {
    if l.Handle? && s.inbox != [] && s.inbox[0].DeviceConnected? && s.inbox[0].id !in s.devices then
      known[s.inbox[0].id := (s.inbox[0].vendor, s.inbox[0].product)]
    else known
  }

  function Known(states: seq<Engine>, labels: seq<Label>, n: nat): Identities
    requires |states| == |labels| + 1 && n <= |labels|
  {
    if n == 0 then map[] else KnownAfter(Known(states, labels, n - 1), states[n - 1], labels[n - 1])
  }

  predicate Is(known: Identities, id: DeviceId, vendor: u16, product: u16) {
    id in known && known[id] == (vendor, product)
  }

  /** The token may still bring the device back. */
  predicate Live(s: Engine, id: DeviceId, token: nat) {
    id in s.reconnecting && s.reconnecting[id] == token
  }

  predicate TaskGood(s: Engine, known: Identities, task: Task) {
    && task.token < s.nextToken
    && (task.found.Some? ==> task.found.value.vendor == task.vendor && task.found.value.product == task.product)
    && (Live(s, task.id, task.token) ==> Is(known, task.id, task.vendor, task.product))
  }

  predicate PostGood(s: Engine, known: Identities, c: Command)
    requires c.DeviceReattached?
  {
    && c.token < s.nextToken
    && (Live(s, c.id, c.token) ==> Is(known, c.id, c.handle.vendor, c.handle.product))
  }

  ghost predicate IdentityGood(s: Engine, known: Identities) {
    && (forall id :: id in s.devices ==> Is(known, id, s.devices[id].vendor, s.devices[id].product))
    && (forall t :: t in s.tasks ==> TaskGood(s, known, s.tasks[t]))
    && (forall i :: 0 <= i < |s.inbox| && s.inbox[i].DeviceReattached? ==> PostGood(s, known, s.inbox[i]))
  }

  /** No old token comes alive, and a device with one keeps its identity. */
  ghost predicate TokensAge(s: Engine, known: Identities, s': Engine, known': Identities) {
    && s.nextToken <= s'.nextToken
    && forall id, token: nat :: token < s.nextToken && Live(s', id, token) ==>
         Live(s, id, token) && (id in known ==> id in known' && known'[id] == known[id])
  }

  lemma TasksSurvive(s: Engine, known: Identities, s': Engine, known': Identities)
    requires TokensAge(s, known, s', known')
    ensures forall task :: TaskGood(s, known, task) ==> TaskGood(s', known', task)
    ensures forall c: Command :: c.DeviceReattached? && PostGood(s, known, c) ==> PostGood(s', known', c)
  {
  }

  /** Commands are taken off the inbox, tasks stay or one comes in. */
  lemma IdentityAfter(s: Engine, known: Identities, s': Engine, known': Identities)
    requires IdentityGood(s, known) && TokensAge(s, known, s', known')
    requires forall c :: c in s'.inbox ==> c in s.inbox
    requires forall t :: t in s'.tasks ==> (t in s.tasks && s'.tasks[t] == s.tasks[t]) || TaskGood(s', known', s'.tasks[t])
    requires forall id :: id in s'.devices ==> Is(known', id, s'.devices[id].vendor, s'.devices[id].product)
    ensures IdentityGood(s', known')
  {
    TasksSurvive(s, known, s', known');
    hide TaskGood;
    hide PostGood;
    forall i | 0 <= i < |s'.inbox| && s'.inbox[i].DeviceReattached? ensures PostGood(s', known', s'.inbox[i]) {
      assert s'.inbox[i] in s.inbox;
    }
  }

  lemma IdentityAfterConnect(s: Engine, known: Identities, id: DeviceId, vendor: u16, product: u16, a: Attach)
    requires IdentityGood(s, known) && s.devices.Keys !! s.reconnecting.Keys && s.nextToken < TOKENS
    requires s.nextToken <= ConnectHandled(s, id, vendor, product, a).nextToken
    ensures var known' := if id !in s.devices then known[id := (vendor, product)] else known;
            IdentityGood(ConnectHandled(s, id, vendor, product, a), known')
  {
    var known' := if id !in s.devices then known[id := (vendor, product)] else known;
    IdentityAfter(s, known, ConnectHandled(s, id, vendor, product, a), known');
  }

  lemma IdentityAfterError(s: Engine, known: Identities, id: DeviceId, e: DriverError)
    requires IdentityGood(s, known) && s.nextToken < TOKENS
    requires s.nextToken <= ErrorHandled(s, id, e).nextToken
    ensures IdentityGood(ErrorHandled(s, id, e), known)
  {
    IdentityAfter(s, known, ErrorHandled(s, id, e), known);
  }

  lemma IdentityAfterReattach(s: Engine, known: Identities, c: Command)
    requires IdentityGood(s, known) && c.DeviceReattached? && PostGood(s, known, c)
    ensures IdentityGood(ReattachHandled(s, c.id, c.handle, c.token), known)
  {
    IdentityAfter(s, known, ReattachHandled(s, c.id, c.handle, c.token), known);
  }

  lemma TakingKeepsIdentity(s: Engine, known: Identities)
    requires IdentityGood(s, known) && s.inbox != []
    ensures IdentityGood(s.(inbox := s.inbox[1..]), known)
    ensures s.inbox[0].DeviceReattached? ==> PostGood(s.(inbox := s.inbox[1..]), known, s.inbox[0])
  {
    IdentityAfter(s, known, s.(inbox := s.inbox[1..]), known);
  }

  lemma IdentityAfterHandling(s: Engine, known: Identities, c: Command, a: Attach)
    requires IdentityGood(s, known) && s.devices.Keys !! s.reconnecting.Keys && s.nextToken < TOKENS
    requires s.nextToken <= Handled(s, c, a).nextToken && (c.DeviceReattached? ==> PostGood(s, known, c))
    ensures var out := c.DeviceConnected? && c.id !in s.devices;
            IdentityGood(Handled(s, c, a), if out then known[c.id := (c.vendor, c.product)] else known)
  {
    hide IdentityGood;
    hide PostGood;
    hide ConnectHandled;
    hide ErrorHandled;
    hide ReattachHandled;
    hide Dispatched;
    hide InboxReplies;
    match c
    case Dispatch(id, op) => IdentityAfterDispatch(s, known, id, op);
    case DeviceConnected(id, vendor, product) => IdentityAfterConnect(s, known, id, vendor, product, a);
    case DeviceError(id, e, _) => IdentityAfterError(s, known, id, e);
    case DeviceReattached(_, _, _) => IdentityAfterReattach(s, known, c);
    case _ => IdentityFewer(s, known, Handled(s, c, a));
  }

  lemma IdentityFewer(s: Engine, known: Identities, s': Engine)
    requires IdentityGood(s, known) && s'.tasks == s.tasks && s'.nextToken == s.nextToken
    requires s'.inbox == s.inbox || s'.inbox == []
    requires forall id :: id in s'.devices ==> id in s.devices && s'.devices[id] == s.devices[id]
    requires forall id :: id in s'.reconnecting ==> id in s.reconnecting && s'.reconnecting[id] == s.reconnecting[id]
    ensures IdentityGood(s', known)
  {
    IdentityAfter(s, known, s', known);
  }

  lemma IdentityAfterDispatch(s: Engine, known: Identities, id: DeviceId, op: WorkerOp)
    requires IdentityGood(s, known)
    ensures IdentityGood(Dispatched(s, id, op), known)
  {
    DispatchFrame(s, id, op);
    hide FateOf;
    hide IdentityGood;
    match FateOf(s, id, op) { case _ => IdentityFewer(s, known, Dispatched(s, id, op)); }
  }

  lemma IdentityStep(s: Engine, known: Identities, l: Label)
    requires IdentityGood(s, known) && s.devices.Keys !! s.reconnecting.Keys && s.nextToken < TOKENS
    requires Enabled(s, l) && s.nextToken <= Next(s, l).nextToken
    ensures IdentityGood(Next(s, l), KnownAfter(known, s, l))
  {
    if l.Handle? {
      TakingKeepsIdentity(s, known);
      hide IdentityGood;
      hide Handled;
      IdentityAfterHandling(s.(inbox := s.inbox[1..]), known, s.inbox[0], l.a);
    } else {
      QuietStep(s, l);
      var s' := Next(s, l);
      TasksSurvive(s, known, s', known);
      hide HasSender;
      match l
      case Found(t, _) => assert TaskGood(s, known, s.tasks[t]);
      case Post(t) => assert TaskGood(s, known, s.tasks[t]);
      case _ =>
    }
  }

  lemma NextTokenIs(s: Engine)
    requires TokensGood(s)
    ensures s.nextToken == Starts(s.hist)
  {
  }

  lemma {:induction false} IdentityOverRuns(states: seq<Engine>, labels: seq<Label>, n: nat)
    requires IsRun(states, labels) && n <= |labels| && Starts(states[n].hist) < TOKENS
    ensures IdentityGood(states[n], Known(states, labels, n))
  {
    hide TokensGood;
    hide Enabled;
    hide Next;
    hide QueuesGood;
    hide RegistryGood;
    hide Conserved;
    if n > 0 {
      hide IdentityGood;
      hide KnownAfter;
      StepGrowsHistory(states[n - 1], labels[n - 1]);
      IdentityOverRuns(states, labels, n - 1);
      EngineOverRuns(states, labels, n - 1);
      RegistryDisjoint(states[n - 1]);
      TokensOverRuns(states, labels, n - 1);
      TokensOverRuns(states, labels, n);
      NextTokenIs(states[n - 1]);
      NextTokenIs(states[n]);
      IdentityStep(states[n - 1], Known(states, labels, n - 1), labels[n - 1]);
    }
  }

  /** Event `i` is the handling of a connect of the device while it is out. */
  ghost predicate ConnectsOut(states: seq<Engine>, labels: seq<Label>, i: nat, id: DeviceId)
    requires |states| == |labels| + 1 && i < |labels|
  {
    && labels[i].Handle? && states[i].inbox != [] && id !in states[i].devices
    && states[i].inbox[0].DeviceConnected? && states[i].inbox[0].id == id
  }

  lemma {:induction false} KnownIsLastConnect(states: seq<Engine>, labels: seq<Label>, n: nat, id: DeviceId) returns (i: nat)
    requires |states| == |labels| + 1 && n <= |labels| && id in Known(states, labels, n)
    ensures i < n && ConnectsOut(states, labels, i, id)
    ensures Known(states, labels, n)[id] == (states[i].inbox[0].vendor, states[i].inbox[0].product)
    ensures forall j :: i < j < n ==> !ConnectsOut(states, labels, j, id)
  {
    if ConnectsOut(states, labels, n - 1, id) {
      i := n - 1;
    } else {
      i := KnownIsLastConnect(states, labels, n - 1, id);
    }
  }

  /** In every run that starts fewer than 2^64 reconnects, through any failures
      and reattachments, a registered device goes by the vendor and product of the
      last connect of it that was handled while it was out. */
  lemma IdentityIsLastConnect(states: seq<Engine>, labels: seq<Label>, n: nat, id: DeviceId) returns (i: nat)
    requires IsRun(states, labels) && n <= |labels| && Starts(states[n].hist) < TOKENS && id in states[n].devices
    ensures i < n && ConnectsOut(states, labels, i, id)
    ensures var h, c := states[n].devices[id], states[i].inbox[0]; h.vendor == c.vendor && h.product == c.product
    ensures forall j :: i < j < n ==> !ConnectsOut(states, labels, j, id)
  {
    hide Starts;
    hide Enabled;
    hide Next;
    IdentityOverRuns(states, labels, n);
    i := KnownIsLastConnect(states, labels, n, id);
  }
}
