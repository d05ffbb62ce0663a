/** The GMK67 driver: a shadow keymap committed layer by layer through
    multi-frame device transactions, with rollback, abort and read-back. */
module Gmk67Driver {
  import opened Basics
  import opened KeyMatrix
  import opened KeydefCodec
  import opened ShadowState
  import opened Gmk67Device

  const MODE_STATIC: u8 := 0x01
  const MODE_EFFECT_MAX: u8 := 0x13
  const MODE_LIGHTS_OFF: u8 := 0x80

  predicate IsRenderableMode(mode: u8) {
    MODE_STATIC <= mode <= MODE_EFFECT_MAX || mode == MODE_LIGHTS_OFF
  }

  function KeydefCommand(layer: u8): Option<u8> {
    if layer == 0 then Some(WRITE_BASE) else if layer == 1 then Some(WRITE_FN) else None
  }

  function KeydefReadCommand(layer: u8): Option<u8> {
    if layer == 0 then Some(READ_BASE) else if layer == 1 then Some(READ_FN) else None
  }

  function Capped(x: u8): u8 {
    if x < 0x0F then x else 0x0F
  }

  function ModeFrame(l: Lighting): (f: Frame)
    ensures IsModeFrame(f)
  {
    [l.mode, l.r, l.g, l.b, 0, 0, 0, 0, if l.random then 1 else 0, Capped(l.brightness), Capped(l.speed), l.direction,
     0, 0] + FOOTER + seq(FRAME_LEN - 16, _ => 0)
  }

  /** What the board can be asked to show: brightness and speed go up to 15. */
  function Dimmed(l: Lighting): Lighting {
    l.(brightness := if l.brightness > 15 then 15 else l.brightness, speed := if l.speed > 15 then 15 else l.speed)
  }

  /** The board reads out of a mode frame the settings that were put into it. */
  lemma ModeFrameReads(l: Lighting)
    ensures SettingsIn(ModeFrame(l)) == Dimmed(l)
  {
  }

  // ── Transactions ───────────────────────────────────────────────────────

  const ON_FRAME: Frame := CommandFrame(CUSTOMIZATION_ON)
  const SHOW_FRAME: Frame := CommandFrame(EFFECT_START)

  function PagesOf(a: Area): (r: seq<Frame>)
    ensures |r| == PAGES
  {
    seq(PAGES, p requires 0 <= p < PAGES => Page(a, p))
  }

  function KeydefScript(command: u8, a: Area): (r: seq<Frame>) {
    [ON_FRAME, StartPageFrame(command, PAGES)] + PagesOf(a) + [END_FRAME, SHOW_FRAME]
  }

  function RenderScript(l: Lighting): seq<Frame> {
    [ON_FRAME, StartPageFrame(EFFECT_PAGE, EFFECT_PAGES), ModeFrame(l), END_FRAME, SHOW_FRAME]
  }

  function ReadScript(command: u8): seq<Frame> {
    [ON_FRAME, StartPageFrame(command, PAGES), END_FRAME]
  }

  datatype Job = Write(command: u8, area: Area) | Render(lighting: Lighting) | ReadOut(command: u8)

  function ScriptOf(j: Job): (r: seq<Frame>) {
    match j
    case Write(command, area) => KeydefScript(command, area)
    case Render(l) => RenderScript(l)
    case ReadOut(command) => ReadScript(command)
  }

  /** A transaction as it went out: whole, or cut after some frames and closed
      by one END attempt. */
  datatype Transaction = Transaction(job: Job, cut: Option<nat>)

  predicate IsTransaction(t: Transaction) {
    t.cut.Some? ==> t.cut.value <= |ScriptOf(t.job)|
  }

  function FramesOf(t: Transaction): seq<Frame>
    requires IsTransaction(t)
  {
    if t.cut.None? then ScriptOf(t.job) else ScriptOf(t.job)[..t.cut.value] + [END_FRAME]
  }

  function AllFrames(log: seq<Transaction>): seq<Frame>
    requires forall i :: 0 <= i < |log| ==> IsTransaction(log[i])
  {
    if log == [] then [] else AllFrames(log[..|log| - 1]) + FramesOf(log[|log| - 1])
  }

  ghost predicate Logged(log: seq<Transaction>, sent: seq<Frame>) {
    (forall i :: 0 <= i < |log| ==> IsTransaction(log[i])) && sent == AllFrames(log)
  }

  /** One more transaction for this job, whole exactly if it succeeded. */
  ghost predicate OneMore(log: seq<Transaction>, log': seq<Transaction>, job: Job, ok: bool) {
    && |log'| == |log| + 1 && log'[..|log|] == log
    && log'[|log|].job == job && (log'[|log|].cut.None? <==> ok)
  }

  ghost predicate IsWriteOf(t: Transaction, m: Keymap, layer: u8) {
    && t.job.Write? && KeydefCommand(layer) == Some(t.job.command)
    && exists entries :: Lists(entries, m, layer) && t.job.area == KeydefBuffer(entries)
  }

  /** One write of `m` for each layer of `order`, in that order, and nothing
      else; all whole, but for the last if it failed. */
  ghost predicate Wrote(log: seq<Transaction>, log': seq<Transaction>, m: Keymap, order: seq<u8>, ok: bool) {
    && log <= log' && |log'[|log|..]| == |order|
    && (!ok ==> order != [])
    && (forall i, j :: 0 <= i < j < |order| ==> order[i] < order[j])
    && var more := log'[|log|..];
       forall i :: 0 <= i < |order| ==> IsWriteOf(more[i], m, order[i]) && (more[i].cut.None? <==> ok || i < |order| - 1)
  }

  /** One read of each of the first `n` areas, in order, and nothing else; all
      whole, but for the last if it failed. */
  ghost predicate ReadOutOf(log: seq<Transaction>, log': seq<Transaction>, n: nat, ok: bool) {
    && log <= log' && |log'[|log|..]| == n <= 2
    && (!ok ==> n > 0)
    && var more := log'[|log|..];
       forall i :: 0 <= i < n ==>
         more[i].job == ReadOut(if i == 0 then READ_BASE else READ_FN) && (more[i].cut.None? <==> ok || i < n - 1)
  }

  function Min2(layers: u8): nat {
    if layers < 2 then layers else 2
  }

  lemma NothingRead(log: seq<Transaction>)
    ensures ReadOutOf(log, log, 0, true)
  {
  }

  function SetOf(order: seq<u8>): set<u8> {
    set l | l in order
  }

  lemma WroteOneMore(log0: seq<Transaction>, log: seq<Transaction>, log': seq<Transaction>, m: Keymap, order: seq<u8>,
                     layer: u8, entries: seq<Remap>, command: u8, ok: bool)
    requires Wrote(log0, log, m, order, true) && forall l :: l in order ==> l < layer
    requires KeydefCommand(layer) == Some(command) && Lists(entries, m, layer)
    requires OneMore(log, log', Write(command, KeydefBuffer(entries)), ok)
    ensures Wrote(log0, log', m, order + [layer], ok)
  {
    assert log' == log + [log'[|log|]];
    assert log'[|log0|..] == log[|log0|..] + [log'[|log|]];
    assert IsWriteOf(log'[|log|], m, layer);
    forall i | 0 <= i < |order| ensures order[i] < layer { assert order[i] in order; }
  }

  lemma ReadOneMore(log0: seq<Transaction>, log: seq<Transaction>, log': seq<Transaction>, n: nat, ok: bool)
    requires ReadOutOf(log0, log, n, true) && n < 2
    requires OneMore(log, log', ReadOut(if n == 0 then READ_BASE else READ_FN), ok)
    ensures ReadOutOf(log0, log', n + 1, ok)
  {
    assert log' == log + [log'[|log|]];
    assert log'[|log0|..] == log[|log0|..] + [log'[|log|]];
  }

  lemma LogGrows(log: seq<Transaction>, t: Transaction, sent: seq<Frame>, sent': seq<Frame>)
    requires Logged(log, sent) && IsTransaction(t) && sent' == sent + FramesOf(t)
    ensures Logged(log + [t], sent')
  {
    assert (log + [t])[..|log|] == log;
  }

  ghost predicate Emitted(before: seq<Frame>, after: seq<Frame>, script: seq<Frame>, n: nat) {
    n <= |script| && after == before + script[..n]
  }

  lemma EmittedGrows(before: seq<Frame>, after: seq<Frame>, script: seq<Frame>, n: nat)
    requires Emitted(before, after, script, n) && n < |script|
    ensures Emitted(before, after + [script[n]], script, n + 1)
  {
    assert script[..n + 1] == script[..n] + [script[n]];
  }

  lemma CommandReceived(d: Device, command: u8, count: u8)
    ensures Received(d, StartPageFrame(command, count)) == Commanded(d, command, count)
    ensures CommandFrame(command) == StartPageFrame(command, 0)
    ensures Received(d, CommandFrame(command)) == Commanded(d, command, 0)
  {
    assert StartPageFrame(command, count)[14..16][0] == 0;
    assert CommandFrame(command)[14..16][0] == 0;
  }

  // ── What an operation does to the board ────────────────────────────────

  /** One layer pushed: on success the area is the new one; on failure it has
      some leading pages of the new one over the old. Nothing else changes. */
  ghost predicate Pushed(d: Device, layer: u8, a: Area, d': Device, ok: bool)
    requires layer <= 1
  {
    && SameBut(d, layer, d')
    && (ok ==> AreaOf(d', layer) == a)
    && (!ok ==> !d.reliable && exists n :: 0 <= n <= PAGES && AreaOf(d', layer) == Mixed(AreaOf(d, layer), a, n))
  }

  ghost predicate SameBut(d: Device, layer: u8, d': Device)
    requires layer <= 1
  {
    AreaOf(d', 1 - layer) == AreaOf(d, 1 - layer) && SameEffect(d, d') && d'.reliable == d.reliable
  }

  ghost predicate SameAreas(d: Device, d': Device) {
    d'.baseArea == d.baseArea && d'.fnArea == d.fnArea && d'.reliable == d.reliable
  }

  /** A layer whose push stopped half way: a page-wise mix of old and new. */
  ghost predicate Torn(a: Area, a': Area, m: Keymap, layer: u8) {
    exists entries, n :: Lists(entries, m, layer) && 0 <= n <= PAGES && a' == Mixed(a, KeydefBuffer(entries), n)
  }

  /** The dirty layers pushed in order. On success exactly those with remaps
      were attempted and decode to `m`; on failure one attempted layer is torn
      and the others attempted before it already decode to `m`. */
  ghost predicate PushedAll(d: Device, m: Keymap, dirty: seq<u8>, d': Device, ok: bool, attempted: set<u8>) {
    && attempted <= {0, 1}
    && (forall l :: l in attempted ==> l in dirty)
    && (forall l: u8 :: l <= 1 && l !in attempted ==> AreaOf(d', l) == AreaOf(d, l))
    && SameEffect(d, d') && d'.reliable == d.reliable
    && (ok ==> forall l: u8 :: l <= 1 && l in dirty && LayerOf(m, l) != map[] ==> l in attempted)
    && (ok ==> forall l :: l in attempted ==> Decoded(AreaOf(d', l), l) == LayerOf(m, l))
    && (!ok ==> !d.reliable && exists f :: StoppedAt(d, m, d', attempted, f))
  }

  ghost predicate StoppedAt(d: Device, m: Keymap, d': Device, attempted: set<u8>, f: u8) {
    && f in attempted && Torn(AreaOf(d, f), AreaOf(d', f), m, f)
    && forall l :: l in attempted && l != f ==> Decoded(AreaOf(d', l), l) == LayerOf(m, l)
  }

  /** What reading back the first `n` layers yields. */
  function ReadBack(d: Device, n: int): Keymap {
    (if n > 0 then Decoded(d.baseArea, 0) else map[]) + if n > 1 then Decoded(d.fnArea, 1) else map[]
  }

  /** The layers a read-back of `layers` layers does not reach. */
  function Unread(layers: u8): set<u8> {
    if layers == 0 then {0, 1} else if layers == 1 then {1} else {}
  }

  // ── The driver's state, and one operation ──────────────────────────────

  /** `suspect` is history: the layers touched by a failed commit, or not read
      by the last read-back, and not pushed or read successfully since. */
  datatype Sys = Sys(
    device: Device,
    closed: bool,
    shadow: Shadow,
    lighting: Lighting,
    synced: bool,
    layers: u8,
    suspect: set<u8>)

  /** The board is out of customization mode unless the last frame, an END
      attempt, failed. */
  predicate AtRest(s: Sys) {
    s.closed ==> !s.device.customizing
  }

  /** The shadow after a commit attempt on a dirty shadow. */
  function Settled(s: Shadow, ok: bool): Shadow {
    if ok then Committed(s) else RolledBack(s)
  }

  ghost predicate Attempt(s: Sys, dirty: seq<u8>, attempted: set<u8>, s': Sys, ok: bool) {
    && LayersOf(s.shadow.dirty, dirty)
    && PushedAll(s.device, s.shadow.keymap, dirty, s'.device, ok, attempted)
    && AtRest(s')
    && s' == s.(device := s'.device, closed := s'.closed, shadow := Settled(s.shadow, ok),
                suspect := if ok then s.suspect - attempted else s.suspect + attempted)
  }

  ghost predicate CommitStep(s: Sys, s': Sys, ok: bool) {
    if s.shadow.dirty == map[] then ok && s' == s
    else exists dirty, attempted :: Attempt(s, dirty, attempted, s', ok)
  }

  /** A read-back replaces the shadow, or leaves all of it alone. */
  ghost predicate SyncStep(s: Sys, s': Sys, ok: bool) {
    && SameAreas(s.device, s'.device) && SameEffect(s.device, s'.device)
    && (!ok ==> !s.device.reliable)
    && AtRest(s')
    && s' == if ok then s.(device := s'.device, closed := s'.closed,
                           shadow := Adopted(s.shadow, ReadBack(s.device, s.layers as int)),
                           suspect := Unread(s.layers))
             else s.(device := s'.device, closed := s'.closed)
  }

  ghost predicate SetStep(s: Sys, k: Key, v: u16, s': Sys, r: Result<()>) {
    if k.layer <= 1 && HasKey(k) then r.Ok? && s' == s.(shadow := Edited(s.shadow, k, v))
    else r == Err(Unsupported) && s' == s
  }

  ghost predicate LightStep(s: Sys, l: Lighting, s': Sys, r: Result<()>) {
    && SameAreas(s.device, s'.device)
    && (IsRenderableMode(l.mode) ==> AtRest(s'))
    && if !IsRenderableMode(l.mode) then r == Err(ProtocolViolation) && s' == s
       else if r.Ok? then
         && s' == s.(device := s'.device, closed := s'.closed, lighting := l, shadow := s.shadow.(lighting := l))
         && s'.device.effect == s'.device.shown == ModeFrame(l)
       else s' == s.(device := s'.device, closed := s'.closed) && !s.device.reliable
  }

  /** What every operation keeps: the shadow is an overlay, edits are only where
      the board has keys, and the board is idle. */
  ghost predicate Sound(s: Sys) {
    && Overlaid(s.shadow)
    && (forall k :: k in s.shadow.dirty ==> k.layer <= 1 && HasKey(k))
    && AtRest(s)
  }

  class Driver {
    const io: FeatureIo
    const shadow: ShadowCache
    const layers: u8
    const syncOnAttach: bool
    var lighting: Lighting
    var synced: bool
    ghost var suspect: set<u8>
    ghost var log: seq<Transaction>

    ghost function State(): Sys
      reads this, io, shadow
    {
      Sys(io.device, io.lastSent, shadow.State(), lighting, synced, layers, suspect)
    }

    ghost predicate Valid()
      reads this, io, shadow
    {
      Sound(State()) && Logged(log, io.sent)
    }

    constructor (fio: FeatureIo, cache: ShadowCache, layerCount: u8, sync: bool)
      requires fio.sent == [] && !fio.device.customizing
      requires Overlaid(cache.State()) && cache.dirty == map[]
      ensures Valid() && io == fio && shadow == cache && layers == layerCount && syncOnAttach == sync
      ensures !synced && suspect == {}
    {
      io, shadow, layers, syncOnAttach := fio, cache, layerCount, sync;
      lighting := cache.lighting;
      synced := false;
      suspect := {};
      log := [];
    }

    /** One frame of a script, paced by a read. */
    method Send(f: Frame, ghost before: seq<Frame>, ghost script: seq<Frame>, ghost n: nat) returns (r: Result<()>)
      requires Emitted(before, io.sent, script, n) && n < |script| && script[n] == f
      modifies io
      ensures Emitted(before, io.sent, script, n + 1) && (io.lastSent <==> r.Ok?)
      ensures r.Ok? ==> io.device == Received(old(io.device), f)
      ensures r.Err? ==> io.device == old(io.device) || io.device == Received(old(io.device), f)
      ensures r.Err? ==> !io.device.reliable
      ensures io.device.reliable == old(io.device).reliable
    {
      EmittedGrows(before, io.sent, script, n);
      r := io.SetFeature(f);
      if r.Ok? {
        io.ReadAck();
      }
    }

    /** One framing command of a script. */
    method Command(command: u8, count: u8, ghost before: seq<Frame>, ghost script: seq<Frame>, ghost n: nat)
      returns (r: Result<()>)
      requires Emitted(before, io.sent, script, n) && n < |script| && script[n] == StartPageFrame(command, count)
      modifies io
      ensures Emitted(before, io.sent, script, n + 1) && (io.lastSent <==> r.Ok?)
      ensures r.Ok? ==> io.device == Commanded(old(io.device), command, count)
      ensures SameAreas(old(io.device), io.device) && SameEffect(old(io.device), io.device)
      ensures r.Err? ==> !io.device.reliable
    {
      CommandReceived(io.device, command, count);
      r := Send(StartPageFrame(command, count), before, script, n);
    }

    /** Best-effort END after a failure. */
    method AbortTransaction()
      modifies io
      ensures io.sent == old(io.sent) + [END_FRAME]
      ensures io.lastSent ==> !io.device.customizing
      ensures SameAreas(old(io.device), io.device) && SameEffect(old(io.device), io.device)
    {
      CommandReceived(io.device, COMMUNICATION_END, 0);
      var r := io.SetFeature(END_FRAME);
    }

    /** Customization on, and the pages of a layer announced. */
    method OpenKeydef(layer: u8, command: u8, ghost before: seq<Frame>, ghost script: seq<Frame>)
      returns (r: Result<()>, ghost n: nat)
      requires KeydefCommand(layer) == Some(command)
      requires Emitted(before, io.sent, script, 0) && |script| > 2
      requires script[0] == ON_FRAME && script[1] == StartPageFrame(command, PAGES)
      modifies io
      ensures n <= 2 && Emitted(before, io.sent, script, n)
      ensures SameAreas(old(io.device), io.device) && SameEffect(old(io.device), io.device)
      ensures r.Ok? ==> n == 2 && io.device.customizing && io.device.stage == Writing(layer, 0)
      ensures r.Err? ==> !io.device.reliable
    {
      CommandReceived(io.device, CUSTOMIZATION_ON, 0);
      n := 1;
      r := Command(CUSTOMIZATION_ON, 0, before, script, 0);
      if r.Err? { return; }
      n := 2;
      r := Command(command, PAGES, before, script, 1);
    }

    /** End of communication, and the board told to render. */
    method CloseScript(ghost before: seq<Frame>, ghost script: seq<Frame>, ghost k: nat) returns (r: Result<()>, ghost n: nat)
      requires |script| == k + 2 && script[k] == END_FRAME && script[k + 1] == SHOW_FRAME
      requires Emitted(before, io.sent, script, k)
      modifies io
      ensures Emitted(before, io.sent, script, n)
      ensures SameAreas(old(io.device), io.device) && SameEffect(old(io.device), io.device)
      ensures r.Ok? ==> n == k + 2 && !io.device.customizing && io.device.shown == io.device.effect
      ensures r.Err? ==> !io.device.reliable
    {
      CommandReceived(io.device, COMMUNICATION_END, 0);
      CommandReceived(io.device, EFFECT_START, 0);
      n := k + 1;
      r := Command(COMMUNICATION_END, 0, before, script, k);
      if r.Err? { return; }
      n := k + 2;
      r := Command(EFFECT_START, 0, before, script, k + 1);
    }

    method RenderEffectFrames(l: Lighting) returns (r: Result<()>, ghost n: nat)
      modifies io
      ensures Emitted(old(io.sent), io.sent, RenderScript(l), n)
      ensures SameAreas(old(io.device), io.device)
      ensures r.Ok? ==> n == 5 && !io.device.customizing && io.device.effect == io.device.shown == ModeFrame(l)
      ensures r.Err? ==> !io.device.reliable
    {
      ghost var before, script := io.sent, RenderScript(l);
      CommandReceived(io.device, CUSTOMIZATION_ON, 0);
      n := 1;
      r := Command(CUSTOMIZATION_ON, 0, before, script, 0);
      if r.Err? { return; }
      n := 2;
      r := Command(EFFECT_PAGE, EFFECT_PAGES, before, script, 1);
      if r.Err? { return; }
      n := 3;
      r := Send(ModeFrame(l), before, script, 2);
      if r.Err? { return; }
      r, n := CloseScript(before, script, 3);
    }

    method RenderEffect(l: Lighting) returns (r: Result<()>)
      requires Logged(log, io.sent)
      modifies io, this`log
      ensures Logged(log, io.sent)
      ensures SameAreas(old(io.device), io.device)
      ensures r.Ok? ==> io.device.effect == io.device.shown == ModeFrame(l)
      ensures r.Err? ==> !io.device.reliable
      ensures io.lastSent ==> !io.device.customizing
      ensures OneMore(old(log), log, Render(l), r.Ok?)
    {
      ghost var before, n := io.sent, 0;
      r, n := RenderEffectFrames(l);
      ghost var t := Transaction(Render(l), if r.Ok? then None else Some(n));
      if r.Err? {
        AbortTransaction();
      }
      LogGrows(log, t, before, io.sent);
      log := log + [t];
    }

    /** The nine data pages of an announced write. */
    method SendPages(layer: u8, command: u8, entries: seq<Remap>, buf: array<u8>, ghost old0: Area, ghost before: seq<Frame>)
      returns (r: Result<()>, ghost n: nat)
      requires layer <= 1 && buf.Length == AREA_LEN && buf[..] == KeydefBuffer(entries)
      requires Emitted(before, io.sent, KeydefScript(command, KeydefBuffer(entries)), 2)
      requires io.device.customizing && io.device.stage == Writing(layer, 0) && AreaOf(io.device, layer) == old0
      modifies io
      ensures Emitted(before, io.sent, KeydefScript(command, KeydefBuffer(entries)), n)
      ensures SameBut(old(io.device), layer, io.device)
      ensures exists k :: 0 <= k <= PAGES && AreaOf(io.device, layer) == Mixed(old0, KeydefBuffer(entries), k)
      ensures r.Ok? ==> n == 11 && io.device.customizing && AreaOf(io.device, layer) == KeydefBuffer(entries)
      ensures r.Err? ==> !io.device.reliable
    {
      ghost var a := KeydefBuffer(entries);
      ghost var script := KeydefScript(command, a);
      ghost var d0 := io.device;
      MixedEnds(old0, a);
      n := 2;
      r := Ok(());
      var p := 0;
      while p < PAGES
        invariant 0 <= p <= PAGES && n == p + 2 && r.Ok?
        invariant Emitted(before, io.sent, script, n)
        invariant SameBut(d0, layer, io.device)
        invariant AreaOf(io.device, layer) == Mixed(old0, a, p)
        invariant io.device.customizing
        invariant p < PAGES ==> io.device.stage == Writing(layer, p)
      {
        var page: Frame := buf[p * FRAME_LEN..(p + 1) * FRAME_LEN];
        assert page == Page(a, p);
        PagesAreNotCommands(entries, p);
        MixedGrows(old0, a, p);
        assert script[p + 2] == page;
        n := n + 1;
        r := Send(page, before, script, p + 2);
        if r.Err? { return; }
        p := p + 1;
      }
    }

    method CommitKeymapFrames(layer: u8, command: u8, entries: seq<Remap>) returns (r: Result<()>, ghost n: nat)
      requires KeydefCommand(layer) == Some(command)
      modifies io
      ensures Emitted(old(io.sent), io.sent, KeydefScript(command, KeydefBuffer(entries)), n)
      ensures Pushed(old(io.device), layer, KeydefBuffer(entries), io.device, r.Ok?)
      ensures r.Ok? ==> n == 13 && !io.device.customizing
    {
      var buf := EncodeKeydefBuffer(entries);
      ghost var old0 := AreaOf(io.device, layer);
      ghost var before, script := io.sent, KeydefScript(command, KeydefBuffer(entries));
      MixedEnds(old0, KeydefBuffer(entries));
      hide Mixed;
      hide KeydefBuffer;
      r, n := OpenKeydef(layer, command, before, script);
      if r.Err? { return; }
      r, n := SendPages(layer, command, entries, buf, old0, before);
      if r.Err? { return; }
      r, n := CloseScript(before, script, 11);
    }

    method CommitKeymap(layer: u8, command: u8, entries: seq<Remap>) returns (r: Result<()>)
      requires KeydefCommand(layer) == Some(command)
      requires Logged(log, io.sent)
      modifies io, this`log
      ensures Logged(log, io.sent)
      ensures Pushed(old(io.device), layer, KeydefBuffer(entries), io.device, r.Ok?)
      ensures io.lastSent ==> !io.device.customizing
      ensures OneMore(old(log), log, Write(command, KeydefBuffer(entries)), r.Ok?)
    {
      ghost var before, n := io.sent, 0;
      r, n := CommitKeymapFrames(layer, command, entries);
      ghost var t := Transaction(Write(command, KeydefBuffer(entries)), if r.Ok? then None else Some(n));
      if r.Err? {
        AbortTransaction();
      }
      LogGrows(log, t, before, io.sent);
      log := log + [t];
    }

    /** The transaction of one dirty layer, carrying that layer's whole keymap;
        a layer without an area, or without remaps on keys, is passed over. */
    method PushLayer(layer: u8, ghost d0: Device, ghost log0: seq<Transaction>, ghost pushed: seq<u8>,
                     ghost order: seq<u8>)
      returns (r: Result<()>, ghost order': seq<u8>)
      requires Logged(log, io.sent) && (io.lastSent ==> !io.device.customizing)
      requires (forall l :: l in pushed ==> l < layer)
      requires PushedAll(d0, shadow.keymap, pushed, io.device, true, SetOf(order))
      requires Wrote(log0, log, shadow.keymap, order, true)
      modifies io, this`log
      ensures Logged(log, io.sent) && (io.lastSent ==> !io.device.customizing)
      ensures PushedAll(d0, shadow.keymap, pushed + [layer], io.device, r.Ok?, SetOf(order'))
      ensures Wrote(log0, log, shadow.keymap, order', r.Ok?)
    {
      hide Logged;
      hide Wrote;
      ghost var d, before := io.device, log;
      order' := order;
      r := Ok(());
      var command := KeydefCommand(layer);
      if command.None? {
        return;
      }
      var entries := LayerEntries(shadow.keymap, layer);
      if entries != [] {
        r := CommitKeymap(layer, command.value, entries);
        order' := order + [layer];
        assert SetOf(order') == SetOf(order) + {layer};
        DecodeInvertsEncode(entries, shadow.keymap, layer);
        PushOneMore(d0, shadow.keymap, pushed, d, SetOf(order), layer, entries, io.device, r.Ok?);
        assert forall l :: l in order ==> l in SetOf(order);
        WroteOneMore(log0, before, log, shadow.keymap, order, layer, entries, command.value, r.Ok?);
      }
    }

    /** Stops at the first layer that fails. */
    method PushDirtyLayers(dirtyLayers: seq<u8>) returns (r: Result<()>, ghost order: seq<u8>)
      requires Logged(log, io.sent) && (io.lastSent ==> !io.device.customizing)
      requires forall i, j :: 0 <= i < j < |dirtyLayers| ==> dirtyLayers[i] < dirtyLayers[j]
      modifies io, this`log
      ensures Logged(log, io.sent) && (io.lastSent ==> !io.device.customizing)
      ensures PushedAll(old(io.device), shadow.keymap, dirtyLayers, io.device, r.Ok?, SetOf(order))
      ensures Wrote(old(log), log, shadow.keymap, order, r.Ok?)
    {
      hide IsWriteOf;
      order := [];
      r := Ok(());
      var i := 0;
      while i < |dirtyLayers|
        invariant 0 <= i <= |dirtyLayers| && r.Ok?
        invariant Logged(log, io.sent) && (io.lastSent ==> !io.device.customizing)
        invariant PushedAll(old(io.device), shadow.keymap, dirtyLayers[..i], io.device, true, SetOf(order))
        invariant Wrote(old(log), log, shadow.keymap, order, true)
      {
        assert dirtyLayers[..i + 1] == dirtyLayers[..i] + [dirtyLayers[i]];
        r, order := PushLayer(dirtyLayers[i], old(io.device), old(log), dirtyLayers[..i], order);
        i := i + 1;
        if r.Err? {
          PushedLonger(old(io.device), shadow.keymap, dirtyLayers[..i], dirtyLayers, io.device, SetOf(order));
          return;
        }
      }
      assert dirtyLayers[..i] == dirtyLayers;
    }

    /** Nothing is sent for a clean shadow. Otherwise exactly the attempted
        layers are written, once each. */
    method CommitToNvram() returns (r: Result<()>)
      requires Valid()
      modifies this, io, shadow
      ensures Valid() && CommitStep(old(State()), State(), r.Ok?)
      ensures old(shadow.dirty) == map[] ==> log == old(log) && io.sent == old(io.sent)
      ensures old(shadow.dirty) != map[] ==>
                exists dirty, order :: Attempt(old(State()), dirty, SetOf(order), State(), r.Ok?)
                                       && Wrote(old(log), log, old(shadow.keymap), order, r.Ok?)
    {
      hide Wrote;
      if shadow.dirty == map[] {
        return Ok(());
      }
      shadow.PrepareCommit();
      var dirtyLayers := shadow.DirtyLayers();
      ghost var order;
      r, order := PushDirtyLayers(dirtyLayers);
      if r.Ok? {
        shadow.ConfirmCommit();
        suspect := suspect - SetOf(order);
      } else {
        shadow.Rollback();
        suspect := suspect + SetOf(order);
      }
      assert Attempt(old(State()), dirtyLayers, SetOf(order), State(), r.Ok?);
    }

    method GetKeycode(k: Key) returns (code: u16)
      requires Valid()
      ensures code == KeyAt(shadow.keymap, k)
      ensures code == if k in shadow.dirty then shadow.dirty[k] else KeyAt(shadow.confirmed, k)
    {
      code := shadow.GetKeycode(k);
    }

    method SetKeycode(k: Key, code: u16) returns (r: Result<()>)
      requires Valid()
      modifies shadow
      ensures Valid() && SetStep(old(State()), k, code, State(), r)
    {
      if KeydefCommand(k.layer).None? {
        return Err(Unsupported);
      }
      if KeyIndexFor(k.row, k.col).None? {
        return Err(Unsupported);
      }
      shadow.SetKeycode(k, code);
      r := Ok(());
    }

    method SetLighting(l: Lighting) returns (r: Result<()>)
      requires Valid()
      modifies this, io, shadow
      ensures Valid() && LightStep(old(State()), l, State(), r)
      ensures if IsRenderableMode(l.mode) then OneMore(old(log), log, Render(l), r.Ok?) else log == old(log)
      ensures r.Ok? ==> SettingsIn(io.device.shown) == Dimmed(l) && lighting == l
      ensures old(io.device).reliable ==> (r.Ok? <==> 0x01 <= l.mode <= 0x13 || l.mode == 0x80)
    {
      ModeFrameReads(l);
      hide ModeFrame;
      hide SettingsIn;
      hide Logged;
      if !IsRenderableMode(l.mode) {
        return Err(ProtocolViolation);
      }
      r := RenderEffect(l);
      if r.Ok? {
        lighting := l;
        shadow.SetLighting(l);
      }
    }

    /** The nine pages of an announced read, scanned into `entries`. */
    method ReadPages(layer: u8, entries: Keymap) returns (r: Result<()>, entries': Keymap)
      requires layer <= 1 && io.device.stage == Reading(layer, 0)
      modifies io`device
      ensures SameAreas(old(io.device), io.device) && SameEffect(old(io.device), io.device)
      ensures r.Ok? ==> entries' == entries + Decoded(AreaOf(io.device, layer), layer)
      ensures r.Err? ==> !io.device.reliable
    {
      hide DecodedBelow;
      ghost var area := AreaOf(io.device, layer);
      entries' := entries;
      NothingDecoded(area, layer, entries);
      var p := 0;
      while p < PAGES
        invariant 0 <= p <= PAGES
        invariant SameAreas(old(io.device), io.device) && SameEffect(old(io.device), io.device)
        invariant io.device.stage == Reading(layer, p)
        invariant entries' == entries + DecodedBelow(area, layer, p * SLOTS_PER_PAGE)
      {
        var page := io.GetPage();
        if page.Err? {
          return Err(page.error), entries';
        }
        entries' := ScanPage(page.value, p, layer, entries', area, entries);
        p := p + 1;
      }
      r := Ok(());
    }

    /** Reads one layer's nine pages into `entries`. */
    method ReadKeydefLayer(command: u8, layer: u8, entries: Keymap)
      returns (r: Result<()>, entries': Keymap, ghost n: nat)
      requires KeydefReadCommand(layer) == Some(command)
      modifies io
      ensures Emitted(old(io.sent), io.sent, ReadScript(command), n)
      ensures SameAreas(old(io.device), io.device) && SameEffect(old(io.device), io.device)
      ensures r.Ok? ==> n == 3 && !io.device.customizing
      ensures r.Ok? ==> entries' == entries + Decoded(AreaOf(io.device, layer), layer)
      ensures r.Err? ==> !io.device.reliable
    {
      hide Decoded;
      hide CommandFrame;
      ghost var before, script := io.sent, ReadScript(command);
      entries' := entries;
      n := 1;
      CommandReceived(io.device, CUSTOMIZATION_ON, 0);
      r := Command(CUSTOMIZATION_ON, 0, before, script, 0);
      if r.Err? { return; }
      n := 2;
      r := Command(command, PAGES, before, script, 1);
      if r.Err? { return; }
      r, entries' := ReadPages(layer, entries);
      if r.Err? { return; }
      n := 3;
      CommandReceived(io.device, COMMUNICATION_END, 0);
      r := Command(COMMUNICATION_END, 0, before, script, 2);
    }

    /** One layer's read transaction, closed by an END attempt if it fails. */
    method SyncLayer(command: u8, layer: u8, entries: Keymap) returns (r: Result<()>, entries': Keymap)
      requires KeydefReadCommand(layer) == Some(command)
      requires Logged(log, io.sent)
      modifies io, this`log
      ensures Logged(log, io.sent) && OneMore(old(log), log, ReadOut(command), r.Ok?)
      ensures SameAreas(old(io.device), io.device) && SameEffect(old(io.device), io.device)
      ensures io.lastSent ==> !io.device.customizing
      ensures r.Ok? ==> entries' == entries + Decoded(AreaOf(io.device, layer), layer)
      ensures r.Err? ==> !io.device.reliable
    {
      ghost var before, n := io.sent, 0;
      r, entries', n := ReadKeydefLayer(command, layer, entries);
      ghost var t := Transaction(ReadOut(command), if r.Ok? then None else Some(n));
      if r.Err? {
        AbortTransaction();
      }
      LogGrows(log, t, before, io.sent);
      log := log + [t];
    }

    /** Adopts the device's keymap if every layer reads cleanly. */
    method SyncEeprom() returns (r: Result<()>)
      requires Valid()
      modifies this, io, shadow
      ensures Valid() && SyncStep(old(State()), State(), r.Ok?)
      ensures exists n: nat :: n <= layers as nat && ReadOutOf(old(log), log, n, r.Ok?) && (r.Ok? ==> n == Min2(layers))
    {
      hide Decoded;
      hide Logged;
      hide ReadOutOf;
      var entries: Keymap := map[];
      ghost var d0, log0, n: nat := io.device, log, 0;
      NothingRead(log);
      var layer: nat := 0;
      while layer < layers as nat
        invariant 0 <= layer <= layers as nat
        invariant Logged(log, io.sent) && (io.lastSent ==> !io.device.customizing)
        invariant shadow.State() == old(shadow.State())
        invariant suspect == old(suspect) && lighting == old(lighting) && synced == old(synced)
        invariant SameAreas(d0, io.device) && SameEffect(d0, io.device)
        invariant entries == ReadBack(d0, layer)
        invariant n == (if layer < 2 then layer else 2) && ReadOutOf(log0, log, n, true)
      {
        ghost var before := log;
        var command := KeydefReadCommand(layer);
        if command.None? {
          layer := layer + 1;
          continue;
        }
        ReadBackGrows(d0, layer);
        r, entries := SyncLayer(command.value, layer, entries);
        ReadOneMore(log0, before, log, n, r.Ok?);
        n := n + 1;
        if r.Err? {
          return;
        }
        layer := layer + 1;
      }
      shadow.AdoptConfirmed(entries);
      suspect := Unread(layers);
      r := Ok(());
    }

    /** The attach-time read-back: opt-in, at most once, failure tolerated. */
    method MaybeSyncOnAttach()
      requires Valid()
      modifies this, io, shadow
      ensures Valid()
      ensures if !syncOnAttach || old(synced) then State() == old(State())
              else exists ok :: SyncStep(old(State()).(synced := true), State(), ok)
    {
      if !syncOnAttach || synced {
        return;
      }
      synced := true;
      ghost var s := State();
      var r := SyncEeprom();
      assert SyncStep(s, State(), r.Ok?);
    }
  }

  lemma NothingDecoded(a: Area, layer: u8, base: Keymap)
    ensures base == base + DecodedBelow(a, layer, 0)
  {
  }

  lemma ReadBackGrows(d: Device, layer: nat)
    ensures layer <= 1 ==> ReadBack(d, layer + 1) == ReadBack(d, layer) + Decoded(AreaOf(d, layer as u8), layer as u8)
    ensures layer > 1 ==> ReadBack(d, layer + 1) == ReadBack(d, layer)
  {
  }

  /** Pushing one more layer after the ones already pushed. */
  lemma PushOneMore(d0: Device, m: Keymap, dirty: seq<u8>, d: Device, attempted: set<u8>, layer: u8,
                    entries: seq<Remap>, d': Device, ok: bool)
    requires PushedAll(d0, m, dirty, d, true, attempted)
    requires layer <= 1 && layer !in dirty && Lists(entries, m, layer)
    requires Decoded(KeydefBuffer(entries), layer) == LayerOf(m, layer)
    requires Pushed(d, layer, KeydefBuffer(entries), d', ok)
    ensures PushedAll(d0, m, dirty + [layer], d', ok, attempted + {layer})
  {
    forall l: u8 | l <= 1 && l != layer ensures AreaOf(d', l) == AreaOf(d, l) {
      assert l == 1 - layer;
    }
    if !ok {
      assert Torn(AreaOf(d0, layer), AreaOf(d', layer), m, layer);
      assert StoppedAt(d0, m, d', attempted + {layer}, layer);
    }
  }

  lemma PushedLonger(d0: Device, m: Keymap, dirty: seq<u8>, longer: seq<u8>, d: Device, attempted: set<u8>)
    requires PushedAll(d0, m, dirty, d, false, attempted) && dirty <= longer
    ensures PushedAll(d0, m, longer, d, false, attempted)
  {
  }
}
