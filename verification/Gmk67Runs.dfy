/** What holds of every run of the GMK67 driver, whichever frames fail. */
module Gmk67Runs {
  import opened Basics
  import opened KeyMatrix
  import opened KeydefCodec
  import opened ShadowState
  import opened Gmk67Device
  import opened Gmk67Driver

  datatype Op = Set(key: Key, code: u16) | Commit | Light(lighting: Lighting) | Sync

  ghost predicate Step(s: Sys, op: Op, ok: bool, s': Sys) {
    match op
    case Set(k, v) => exists r :: SetStep(s, k, v, s', r) && (r.Ok? <==> ok)
    case Commit => CommitStep(s, s', ok)
    case Light(l) => exists r :: LightStep(s, l, s', r) && (r.Ok? <==> ok)
    case Sync => SyncStep(s, s', ok)
  }

  ghost predicate IsRun(states: seq<Sys>, ops: seq<Op>, oks: seq<bool>) {
    && |states| == |ops| + 1 && |oks| == |ops|
    && forall i :: 0 <= i < |ops| ==> Step(states[i], ops[i], oks[i], states[i + 1])
  }

  // ── The device agrees with the confirmed shadow ────────────────────────

  ghost predicate AgreesOn(s: Sys, layer: u8) {
    Decoded(AreaOf(s.device, layer), layer) == LayerOf(s.shadow.confirmed, layer)
  }

  /** Every layer out of suspicion decodes to its confirmed remaps. */
  ghost predicate Agreement(s: Sys) {
    forall l: u8 :: l <= 1 && l !in s.suspect ==> AgreesOn(s, l)
  }

  /** A layer without edits reads the same before and after a commit. */
  lemma CleanLayer(s: Shadow, layer: u8)
    requires Overlaid(s) && forall k :: k in s.dirty ==> k.layer != layer
    ensures LayerOf(s.keymap, layer) == LayerOf(s.confirmed, layer)
  {
    forall k ensures SameAt(LayerOf(s.keymap, layer), LayerOf(s.confirmed, layer), k) {}
    SameEverywhere(LayerOf(s.keymap, layer), LayerOf(s.confirmed, layer));
  }

  lemma DirtyLayerHasRemaps(s: Sys, layer: u8)
    requires Sound(s) && exists k :: k in s.shadow.dirty && k.layer == layer
    ensures LayerOf(s.shadow.keymap, layer) != map[]
  {
    var k :| k in s.shadow.dirty && k.layer == layer;
    assert k in LayerOf(s.shadow.keymap, layer);
  }

  lemma CommitKeepsLayer(s: Sys, s': Sys, ok: bool, dirty: seq<u8>, attempted: set<u8>, l: u8)
    requires Sound(s) && Agreement(s) && Attempt(s, dirty, attempted, s', ok)
    requires l <= 1 && l !in s'.suspect
    ensures AgreesOn(s', l)
  {
    hide Decoded;
    hide LayerOf;
    if l !in attempted {
      assert AgreesOn(s, l);
      if ok {
        if l in dirty {
          DirtyLayerHasRemaps(s, l);
        }
        assert forall k :: k in s.shadow.dirty ==> k.layer != l;
        CleanLayer(s.shadow, l);
      }
    }
  }

  lemma CommitKeepsAgreement(s: Sys, s': Sys, ok: bool)
    requires Sound(s) && Agreement(s) && CommitStep(s, s', ok)
    ensures Agreement(s') && Overlaid(s'.shadow) && s'.shadow.dirty == map[]
  {
    hide AgreesOn;
    hide PushedAll;
    hide LayersOf;
    hide LayerOf;
    if s.shadow.dirty != map[] {
      var dirty, attempted :| Attempt(s, dirty, attempted, s', ok);
      assert Overlaid(s'.shadow) && s'.shadow.dirty == map[];
      forall l: u8 | l <= 1 && l !in s'.suspect ensures AgreesOn(s', l) {
        CommitKeepsLayer(s, s', ok, dirty, attempted, l);
      }
    }
  }

  lemma SyncKeepsAgreement(s: Sys, s': Sys, ok: bool)
    requires Agreement(s) && SyncStep(s, s', ok)
    ensures Agreement(s') && (ok ==> Overlaid(s'.shadow))
  {
    forall l: u8 | l <= 1 && l !in s'.suspect ensures AgreesOn(s', l) {
      if ok {
        ReadBackOfLayer(s.device, s.layers as int, l);
      } else {
        assert AgreesOn(s, l);
      }
    }
  }

  lemma ReadBackOfLayer(d: Device, n: int, layer: u8)
    requires layer as int < n && layer <= 1
    ensures LayerOf(ReadBack(d, n), layer) == Decoded(AreaOf(d, layer), layer)
  {
    var want := Decoded(AreaOf(d, layer), layer);
    forall k ensures SameAt(LayerOf(ReadBack(d, n), layer), want, k) {
      if k in want {
        assert k in LayerKeys(layer);
      }
    }
    SameEverywhere(LayerOf(ReadBack(d, n), layer), want);
  }

  lemma StepKeepsAgreement(s: Sys, op: Op, ok: bool, s': Sys)
    requires Sound(s) && Agreement(s) && Step(s, op, ok, s')
    ensures Sound(s') && Agreement(s')
  {
    match op
    case Set(k, v) =>
      SetKeepsAgreement(s, k, v, s');
    case Commit =>
      CommitKeepsAgreement(s, s', ok);
    case Light(_) =>
      forall l: u8 | l <= 1 && l !in s'.suspect ensures AgreesOn(s', l) {
        assert AgreesOn(s, l);
      }
    case Sync =>
      SyncKeepsAgreement(s, s', ok);
  }

  lemma SetKeepsAgreement(s: Sys, k: Key, v: u16, s': Sys)
    requires Sound(s) && Agreement(s) && exists r :: SetStep(s, k, v, s', r)
    ensures Sound(s') && Agreement(s')
  {
    forall l: u8 | l <= 1 && l !in s'.suspect ensures AgreesOn(s', l) {
      assert AgreesOn(s, l);
    }
    assert (s.shadow.confirmed + s.shadow.dirty)[k := v] == s.shadow.confirmed + s.shadow.dirty[k := v];
  }

  /** Device agreement over all runs: given agreement at attach, every layer
      not touched by a failed commit since its last successful push or read
      decodes to exactly its confirmed remaps, whatever was set, committed,
      rolled back, rendered or read back in between, and whatever failed; and
      an idle board is out of customization mode unless the last END failed. */
  lemma {:induction false} AgreementOverRuns(states: seq<Sys>, ops: seq<Op>, oks: seq<bool>, n: nat)
    requires IsRun(states, ops, oks) && n <= |ops|
    requires Sound(states[0]) && Agreement(states[0])
    ensures Sound(states[n]) && Agreement(states[n])
  {
    hide Step;
    hide Sound;
    hide Agreement;
    if n > 0 {
      AgreementOverRuns(states, ops, oks, n - 1);
      StepKeepsAgreement(states[n - 1], ops[n - 1], oks[n - 1], states[n]);
    }
  }

  // ── A layer under suspicion ────────────────────────────────────────────

  function Shown(m: Keymap, k: Key): Option<u16> {
    if k in m then Some(m[k]) else None
  }

  /** The first `n` pages of the layer's area hold `m`, the others what they did. */
  ghost predicate FrontReplaced(d: Device, d': Device, m: Keymap, layer: u8, n: nat) {
    forall k :: k in LayerKeys(layer) ==>
      SlotRead(AreaOf(d', layer), IndexOf(k) as int) ==
        if IndexOf(k) as int < n * SLOTS_PER_PAGE then Shown(m, k) else SlotRead(AreaOf(d, layer), IndexOf(k) as int)
  }

  lemma MixedSlot(a: Area, entries: seq<Remap>, n: nat, ki: int)
    requires n <= PAGES && 0 <= ki < SLOTS - 1
    ensures SlotRead(Mixed(a, KeydefBuffer(entries), n), ki) ==
            if ki < n * SLOTS_PER_PAGE then CodeFor(entries, ki) else SlotRead(a, ki)
  {
    hide KeydefBuffer;
    EncodedSlot(entries, ki);
  }

  lemma TornFront(d: Device, d': Device, m: Keymap, layer: u8, entries: seq<Remap>, n: nat)
    requires layer <= 1 && n <= PAGES && Lists(entries, m, layer)
    requires AreaOf(d', layer) == Mixed(AreaOf(d, layer), KeydefBuffer(entries), n)
    ensures FrontReplaced(d, d', m, layer, n)
  {
    hide SlotRead;
    forall k | k in LayerKeys(layer)
      ensures SlotRead(AreaOf(d', layer), IndexOf(k) as int) ==
              if IndexOf(k) as int < n * SLOTS_PER_PAGE then Shown(m, k) else SlotRead(AreaOf(d, layer), IndexOf(k) as int)
    {
      MixedSlot(AreaOf(d, layer), entries, n, IndexOf(k) as int);
    }
  }

  lemma WholeFront(d: Device, d': Device, m: Keymap, layer: u8)
    requires Decoded(AreaOf(d', layer), layer) == LayerOf(m, layer)
    ensures FrontReplaced(d, d', m, layer, PAGES)
  {
    forall k | k in LayerKeys(layer) ensures SlotRead(AreaOf(d', layer), IndexOf(k) as int) == Shown(m, k) {
      assert k in Decoded(AreaOf(d', layer), layer) <==> k in LayerOf(m, layer);
      assert k in Decoded(AreaOf(d', layer), layer) ==>
        Decoded(AreaOf(d', layer), layer)[k] == LayerOf(m, layer)[k];
    }
  }

  /** However a commit fails, each layer has some leading pages of the new
      keymap over what it held: none if it was not reached, all if it went out
      whole before the failure. */
  lemma FailedCommitReplacesFront(s: Sys, s': Sys, layer: u8) returns (n: nat)
    requires CommitStep(s, s', false) && layer <= 1
    ensures n <= PAGES && FrontReplaced(s.device, s'.device, s.shadow.keymap, layer, n)
    ensures s'.shadow == RolledBack(s.shadow)
  {
    hide Decoded;
    hide SlotRead;
    hide LayerOf;
    var dirty, attempted :| Attempt(s, dirty, attempted, s', false);
    n := 0;
    if layer in attempted {
      var f :| StoppedAt(s.device, s.shadow.keymap, s'.device, attempted, f);
      if layer == f {
        var entries, pages :| Lists(entries, s.shadow.keymap, f) && 0 <= pages <= PAGES
          && AreaOf(s'.device, f) == Mixed(AreaOf(s.device, f), KeydefBuffer(entries), pages);
        n := pages;
        TornFront(s.device, s'.device, s.shadow.keymap, layer, entries, n);
      } else {
        n := PAGES;
        WholeFront(s.device, s'.device, s.shadow.keymap, layer);
      }
    }
  }

  /** Decoding an area is reading its slots. */
  lemma AgreesSlotwise(s: Sys, layer: u8)
    ensures AgreesOn(s, layer) <==>
            forall k :: k in LayerKeys(layer) ==>
              SlotRead(AreaOf(s.device, layer), IndexOf(k) as int) == Shown(s.shadow.confirmed, k)
  {
    var got, want := Decoded(AreaOf(s.device, layer), layer), LayerOf(s.shadow.confirmed, layer);
    if got == want {
      forall k | k in LayerKeys(layer)
        ensures SlotRead(AreaOf(s.device, layer), IndexOf(k) as int) == Shown(s.shadow.confirmed, k) {
        assert k in got <==> k in want;
        assert k in got ==> got[k] == want[k];
      }
    } else if forall k :: k in LayerKeys(layer) ==>
         SlotRead(AreaOf(s.device, layer), IndexOf(k) as int) == Shown(s.shadow.confirmed, k) {
      forall k ensures SameAt(got, want, k) {
        assert k in want ==> k in LayerKeys(layer);
      }
      SameEverywhere(got, want);
    }
  }

  /** The edits of the layer on its first `n` pages all restate the confirmed
      value. */
  ghost predicate RestatedBelow(s: Shadow, layer: u8, n: nat) {
    forall k :: k in s.dirty && k.layer == layer && HasKey(k) && IndexOf(k) as int < n * SLOTS_PER_PAGE ==>
      k in s.confirmed && s.confirmed[k] == s.dirty[k]
  }

  lemma RestatedSlots(s: Shadow, layer: u8, n: nat)
    requires Overlaid(s)
    ensures RestatedBelow(s, layer, n) <==>
            forall k :: k in LayerKeys(layer) && IndexOf(k) as int < n * SLOTS_PER_PAGE ==>
              Shown(s.keymap, k) == Shown(s.confirmed, k)
  {
    if !RestatedBelow(s, layer, n) {
      var k :| k in s.dirty && k.layer == layer && HasKey(k) && IndexOf(k) as int < n * SLOTS_PER_PAGE
        && !(k in s.confirmed && s.confirmed[k] == s.dirty[k]);
      assert k in LayerKeys(layer) && Shown(s.keymap, k) == Some(s.dirty[k]);
    }
  }

  lemma FrontDecides(s: Sys, s': Sys, layer: u8, n: nat)
    requires Sound(s) && AgreesOn(s, layer) && s'.shadow == RolledBack(s.shadow)
    requires FrontReplaced(s.device, s'.device, s.shadow.keymap, layer, n)
    ensures AgreesOn(s', layer) <==> RestatedBelow(s.shadow, layer, n)
  {
    AgreesSlotwise(s, layer);
    AgreesSlotwise(s', layer);
    RestatedSlots(s.shadow, layer, n);
    hide AgreesOn;
    hide RestatedBelow;
    hide SlotRead;
    hide Shown;
  }

  /** After any failed commit, a layer that agreed before still does exactly if
      each rolled-back edit on the pages that reached the board restated the
      confirmed value. */
  lemma RolledBackLayer(s: Sys, s': Sys, layer: u8) returns (n: nat)
    requires Sound(s) && AgreesOn(s, layer) && CommitStep(s, s', false) && layer <= 1
    ensures n <= PAGES && FrontReplaced(s.device, s'.device, s.shadow.keymap, layer, n)
    ensures AgreesOn(s', layer) <==> RestatedBelow(s.shadow, layer, n)
  {
    n := FailedCommitReplacesFront(s, s', layer);
    hide CommitStep;
    hide FrontReplaced;
    hide AgreesOn;
    hide RestatedBelow;
    FrontDecides(s, s', layer, n);
  }

  /** The same of every failed commit in every run, for each layer that was not
      under suspicion. */
  lemma FailedCommitOverRuns(states: seq<Sys>, ops: seq<Op>, oks: seq<bool>, i: nat, layer: u8) returns (n: nat)
    requires IsRun(states, ops, oks) && i < |ops| && ops[i] == Commit && !oks[i]
    requires Sound(states[0]) && Agreement(states[0])
    requires layer <= 1 && layer !in states[i].suspect
    ensures n <= PAGES && FrontReplaced(states[i].device, states[i + 1].device, states[i].shadow.keymap, layer, n)
    ensures AgreesOn(states[i + 1], layer) <==> RestatedBelow(states[i].shadow, layer, n)
  {
    hide CommitStep;
    hide AgreesOn;
    hide FrontReplaced;
    hide RestatedBelow;
    AgreementOverRuns(states, ops, oks, i);
    assert Step(states[i], ops[i], oks[i], states[i + 1]);
    n := RolledBackLayer(states[i], states[i + 1], layer);
  }

  /** A layer does come to disagree: one new remap, every page sent, and the
      closing frames lost. */
  lemma FailedCommitDisagrees() returns (s: Sys, s': Sys)
    ensures Sound(s) && Agreement(s) && s.suspect == {} && CommitStep(s, s', false)
    ensures !AgreesOn(s', 0)
  {
    var k := Key(0, 0, 0);
    var blank: Area := seq(AREA_LEN, _ => 0);
    var dark: Frame := seq(FRAME_LEN, _ => 0);
    var edits: Keymap := map[k := 5];
    var lights := Lighting(1, 0, 0, 0, 0, 0, 0, false);
    s := Sys(Device(false, Idle, blank, blank, dark, dark, false), true,
             Shadow(edits, map[], edits, lights, Pending), lights, false, 2, {});
    var entries := [Remap(1, 5)];
    var whole := KeydefBuffer(entries);
    s' := s.(device := s.device.(baseArea := whole), shadow := RolledBack(s.shadow), suspect := {0});
    OnlyEntry(k, entries);
    BlankAgrees(s);
    FailsWhole(s, s', entries, k);
    WholeDisagrees(s', entries, k);
  }

  lemma OnlyEntry(k: Key, entries: seq<Remap>)
    requires k == Key(0, 0, 0) && entries == [Remap(1, 5)]
    ensures HasKey(k) && IndexOf(k) == 1 && CodeFor(entries, 1) == Some(5)
    ensures Lists(entries, map[k := 5], 0)
  {
    assert entries[..0] == [];
    forall j | j in LayerKeys(0)
      ensures CodeFor(entries, IndexOf(j) as int) == if j in map[k := 5 as u16] then Some(5) else None {
      if IndexOf(j) == 1 {
        IndexIsInjective(j, k);
      }
    }
  }

  lemma BlankAgrees(s: Sys)
    requires s.device.baseArea == s.device.fnArea == seq(AREA_LEN, _ => 0) && s.shadow.confirmed == map[]
    ensures Agreement(s)
  {
    forall l: u8 ensures AgreesOn(s, l) {
      AgreesSlotwise(s, l);
    }
  }

  lemma FailsWhole(s: Sys, s': Sys, entries: seq<Remap>, k: Key)
    requires !s.device.reliable && s.closed && !s.device.customizing && s.suspect == {}
    requires k.layer == 0 && s.shadow.dirty.Keys == {k} && Lists(entries, s.shadow.keymap, 0)
    requires s' == s.(device := s.device.(baseArea := KeydefBuffer(entries)), shadow := RolledBack(s.shadow),
                      suspect := {0})
    ensures CommitStep(s, s', false)
  {
    MixedEnds(s.device.baseArea, KeydefBuffer(entries));
    assert Torn(s.device.baseArea, s'.device.baseArea, s.shadow.keymap, 0);
    assert StoppedAt(s.device, s.shadow.keymap, s'.device, {0}, 0);
    assert k in s.shadow.dirty;
    assert LayersOf(s.shadow.dirty, [0]);
    assert PushedAll(s.device, s.shadow.keymap, [0], s'.device, false, {0});
    assert Attempt(s, [0], {0}, s', false);
  }

  lemma WholeDisagrees(s: Sys, entries: seq<Remap>, k: Key)
    requires s.device.baseArea == KeydefBuffer(entries) && k !in s.shadow.confirmed
    requires k.layer == 0 && HasKey(k) && CodeFor(entries, IndexOf(k) as int).Some?
    ensures !AgreesOn(s, 0)
  {
    EncodedSlot(entries, IndexOf(k) as int);
    assert k in LayerKeys(0);
    AgreesSlotwise(s, 0);
  }

  // ── Commit, then read back ─────────────────────────────────────────────

  /** Every remap sits on a key of a layer that a read-back reaches. */
  predicate Readable(m: Keymap, layers: u8) {
    forall k :: k in m ==> k.layer <= 1 && k.layer < layers && HasKey(k)
  }

  /** Committing and reading back is the identity on the keymap: if the device
      agreed with the shadow, a fault-free commit and a read-back leave the
      keymap as it was; and the read-back adopts exactly the keymap if and only
      if every remap of it was readable. */
  lemma CommitThenReadBack(s: Sys, s1: Sys, s2: Sys, committed: bool, synced: bool)
    requires Sound(s) && Agreement(s) && s.suspect == {} && s.device.reliable
    requires CommitStep(s, s1, committed) && SyncStep(s1, s2, synced)
    ensures committed && synced && s1.shadow.keymap == s.shadow.keymap
    ensures s2.shadow.keymap == s.shadow.keymap <==> Readable(s.shadow.keymap, s.layers)
    ensures s2.shadow.keymap == s2.shadow.confirmed && s2.shadow.dirty == map[]
  {
    CommitKeepsAgreement(s, s1, committed);
    assert committed;
    assert s1.shadow.keymap == s.shadow.keymap == s1.shadow.confirmed;
    assert s1.suspect == {} && s1.layers == s.layers;
    forall l: u8 | l <= 1 ensures Decoded(AreaOf(s1.device, l), l) == LayerOf(s.shadow.keymap, l) {
      assert AgreesOn(s1, l);
    }
    ReadBackIsRestriction(s1.device, s.shadow.keymap, s.layers);
  }

  lemma ReadBackIsRestriction(d: Device, m: Keymap, layers: u8)
    requires forall l: u8 :: l <= 1 ==> Decoded(AreaOf(d, l), l) == LayerOf(m, l)
    ensures ReadBack(d, layers as int) == m <==> Readable(m, layers)
  {
    var back := ReadBack(d, layers as int);
    assert Decoded(d.baseArea, 0) == LayerOf(m, 0) by { assert AreaOf(d, 0) == d.baseArea; }
    assert Decoded(d.fnArea, 1) == LayerOf(m, 1) by { assert AreaOf(d, 1) == d.fnArea; }
    assert forall k :: k in back ==> k.layer <= 1 && k.layer < layers && HasKey(k);
    if Readable(m, layers) {
      forall k ensures SameAt(back, m, k) {}
      SameEverywhere(back, m);
    } else {
      var k :| k in m && !(k.layer <= 1 && k.layer < layers && HasKey(k));
      assert k !in back;
    }
  }

  // ── What reads return ──────────────────────────────────────────────────

  /** The edits accepted since the last commit attempt or read-back. */
  function EditsSince(ops: seq<Op>, oks: seq<bool>): Keymap
    requires |oks| == |ops|
  {
    if ops == [] then map[]
    else
      var n := |ops| - 1;
      var before := EditsSince(ops[..n], oks[..n]);
      match ops[n]
      case Set(k, v) => if oks[n] then before[k := v] else before
      case Commit => map[]
      case Light(_) => before
      case Sync => if oks[n] then map[] else before
  }

  /** A commit moves the whole keymap across or none of it. */
  lemma CommitIsAtomic(s: Sys, s': Sys, ok: bool)
    requires Sound(s) && CommitStep(s, s', ok)
    ensures s'.shadow.confirmed == if ok then s.shadow.keymap else s.shadow.confirmed
    ensures s'.shadow.keymap == s'.shadow.confirmed && s'.shadow.dirty == map[] && AtRest(s')
    ensures ok ==> forall k: Key :: k.layer <= 1 && HasKey(k) && (exists j :: j in s.shadow.dirty && j.layer == k.layer) ==>
              SameAt(Decoded(AreaOf(s'.device, k.layer), k.layer), s.shadow.keymap, k)
  {
    if s.shadow.dirty != map[] && ok {
      var dirty, attempted :| Attempt(s, dirty, attempted, s', ok);
      forall k: Key | k.layer <= 1 && HasKey(k) && exists j :: j in s.shadow.dirty && j.layer == k.layer
        ensures SameAt(Decoded(AreaOf(s'.device, k.layer), k.layer), s.shadow.keymap, k)
      {
        DirtyLayerHasRemaps(s, k.layer);
        assert k.layer in attempted;
        assert SameAt(LayerOf(s.shadow.keymap, k.layer), s.shadow.keymap, k);
      }
    }
  }

  /** Over every run from a clean shadow, reads see the latest edit accepted
      since the last commit attempt or read-back, and otherwise the confirmed
      value; nothing else is ever pending. */
  lemma {:induction false} ReadsOverRuns(states: seq<Sys>, ops: seq<Op>, oks: seq<bool>, n: nat)
    requires IsRun(states, ops, oks) && n <= |ops|
    requires Sound(states[0]) && states[0].shadow.dirty == map[]
    ensures Sound(states[n]) && states[n].shadow.dirty == EditsSince(ops[..n], oks[..n])
    ensures states[n].shadow.keymap == states[n].shadow.confirmed + EditsSince(ops[..n], oks[..n])
  {
    if n > 0 {
      ReadsOverRuns(states, ops, oks, n - 1);
      assert Step(states[n - 1], ops[n - 1], oks[n - 1], states[n]);
      StepIsSound(states[n - 1], ops[n - 1], oks[n - 1], states[n]);
      StepEdits(states[n - 1], ops[n - 1], oks[n - 1], states[n]);
      assert ops[..n][..n - 1] == ops[..n - 1] && oks[..n][..n - 1] == oks[..n - 1];
    }
  }

  lemma SetIsSound(s: Sys, k: Key, v: u16, s': Sys, r: Result<()>)
    requires Sound(s) && SetStep(s, k, v, s', r)
    ensures Sound(s')
  {
    assert (s.shadow.confirmed + s.shadow.dirty)[k := v] == s.shadow.confirmed + s.shadow.dirty[k := v];
  }

  lemma LightIsSound(s: Sys, l: Lighting, s': Sys, r: Result<()>)
    requires Sound(s) && LightStep(s, l, s', r)
    ensures Sound(s')
  {
    hide ModeFrame;
    hide HasKey;
    hide SameAreas;
  }

  lemma SyncIsSound(s: Sys, s': Sys, ok: bool)
    requires Sound(s) && SyncStep(s, s', ok)
    ensures Sound(s')
  {
    hide ReadBack;
    hide HasKey;
    hide SameAreas;
    assert s'.shadow.dirty.Keys <= s.shadow.dirty.Keys;
  }

  lemma StepIsSound(s: Sys, op: Op, ok: bool, s': Sys)
    requires Sound(s) && Step(s, op, ok, s')
    ensures Sound(s')
  {
    hide CommitStep;
    hide SyncStep;
    hide SetStep;
    hide LightStep;
    match op
    case Set(k, v) =>
      var r :| SetStep(s, k, v, s', r);
      SetIsSound(s, k, v, s', r);
    case Commit => CommitIsAtomic(s, s', ok);
    case Light(l) =>
      var r :| LightStep(s, l, s', r);
      LightIsSound(s, l, s', r);
    case Sync => SyncIsSound(s, s', ok);
  }

  lemma StepEdits(s: Sys, op: Op, ok: bool, s': Sys)
    requires Sound(s) && Step(s, op, ok, s')
    ensures s'.shadow.dirty == match op
                               case Set(k, v) => if ok then s.shadow.dirty[k := v] else s.shadow.dirty
                               case Commit => map[]
                               case Light(_) => s.shadow.dirty
                               case Sync => if ok then map[] else s.shadow.dirty
  {
    hide CommitStep;
    hide ReadBack;
    if op.Commit? {
      CommitIsAtomic(s, s', ok);
    }
  }

  // ── Which sets are accepted, and the status ────────────────────────────

  /** A set is accepted exactly at the positions that have a key, on the two
      layers that have an area. */
  lemma SetsAreAcceptedIff(s: Sys, k: Key, v: u16, ok: bool, s': Sys)
    requires Step(s, Set(k, v), ok, s')
    ensures ok <==> k.layer <= 1 && k.row < 5 && k.col < 15 && KEY_INDEX[k.row][k.col] != 0xFF
  {
  }

  /** The status after a run from a clean shadow: pending from an accepted edit to
      the next commit attempt, then confirmed or failed as that went; a commit
      without edits leaves it, and a read-back confirms. */
  function StatusAfter(start: CacheStatus, ops: seq<Op>, oks: seq<bool>): CacheStatus
    requires |oks| == |ops|
  {
    if ops == [] then start
    else
      var n := |ops| - 1;
      var before := StatusAfter(start, ops[..n], oks[..n]);
      match ops[n]
      case Set(_, _) => if oks[n] then Pending else before
      case Commit =>
        if EditsSince(ops[..n], oks[..n]) == map[] then before else if oks[n] then Confirmed else CacheStatus.Failed
      case Light(_) => before
      case Sync => if oks[n] then Confirmed else before
  }

  lemma StepStatus(s: Sys, op: Op, ok: bool, s': Sys)
    requires Step(s, op, ok, s')
    ensures s'.shadow.status == match op
                                case Set(_, _) => if ok then Pending else s.shadow.status
                                case Commit =>
                                  if s.shadow.dirty == map[] then s.shadow.status
                                  else if ok then Confirmed else CacheStatus.Failed
                                case Light(_) => s.shadow.status
                                case Sync => if ok then Confirmed else s.shadow.status
  {
    hide PushedAll;
    hide ReadBack;
    hide LayersOf;
  }

  lemma {:induction false} StatusOverRuns(states: seq<Sys>, ops: seq<Op>, oks: seq<bool>, n: nat)
    requires IsRun(states, ops, oks) && n <= |ops|
    requires Sound(states[0]) && states[0].shadow.dirty == map[]
    ensures states[n].shadow.status == StatusAfter(states[0].shadow.status, ops[..n], oks[..n])
  {
    hide Step;
    hide Sound;
    if n > 0 {
      StatusOverRuns(states, ops, oks, n - 1);
      ReadsOverRuns(states, ops, oks, n - 1);
      StepStatus(states[n - 1], ops[n - 1], oks[n - 1], states[n]);
      assert ops[..n][..n - 1] == ops[..n - 1] && oks[..n][..n - 1] == oks[..n - 1];
    }
  }

  // ── What the board shows ───────────────────────────────────────────────

  /** The settings last asked for and accepted. */
  function LastAccepted(start: Lighting, ops: seq<Op>, oks: seq<bool>): Lighting
    requires |oks| == |ops|
  {
    if ops == [] then start
    else
      var n := |ops| - 1;
      if ops[n].Light? && oks[n] then ops[n].lighting else LastAccepted(start, ops[..n], oks[..n])
  }

  /** Whether a rendering failed half way since, or none was accepted yet. */
  predicate Unsure(ops: seq<Op>, oks: seq<bool>)
    requires |oks| == |ops|
  {
    if ops == [] then true
    else
      var n := |ops| - 1;
      if ops[n].Light? && oks[n] then false
      else if ops[n].Light? && (1 <= ops[n].lighting.mode <= 0x13 || ops[n].lighting.mode == 0x80) then true
      else Unsure(ops[..n], oks[..n])
  }

  lemma StepLights(s: Sys, op: Op, ok: bool, s': Sys)
    requires Step(s, op, ok, s')
    ensures s'.lighting == if op.Light? && ok then op.lighting else s.lighting
    ensures s'.shadow.lighting == if op.Light? && ok then op.lighting else s.shadow.lighting
    ensures op.Light? && ok ==> s'.device.effect == s'.device.shown == ModeFrame(op.lighting)
    ensures op.Light? && ok ==> 1 <= op.lighting.mode <= 0x13 || op.lighting.mode == 0x80
    ensures !op.Light? || (!ok && !(1 <= op.lighting.mode <= 0x13 || op.lighting.mode == 0x80)) ==>
              SameEffect(s.device, s'.device)
  {
    hide ModeFrame;
    hide ReadBack;
    hide LayersOf;
    hide Torn;
  }

  /** Over every run: a reader of the lighting sees the settings last accepted,
      the shadow keeps them, and the board shows them, brightness and speed capped,
      if no rendering has failed half way since. */
  lemma {:induction false} LightingOverRuns(states: seq<Sys>, ops: seq<Op>, oks: seq<bool>, n: nat)
    requires IsRun(states, ops, oks) && n <= |ops|
    ensures states[n].lighting == LastAccepted(states[0].lighting, ops[..n], oks[..n])
    ensures states[n].shadow.lighting == LastAccepted(states[0].shadow.lighting, ops[..n], oks[..n])
    ensures !Unsure(ops[..n], oks[..n]) ==>
              && SettingsIn(states[n].device.shown) == Dimmed(states[n].lighting)
              && states[n].device.shown == states[n].device.effect
  {
    hide Step;
    if n > 0 {
      LightingOverRuns(states, ops, oks, n - 1);
      StepLights(states[n - 1], ops[n - 1], oks[n - 1], states[n]);
      assert ops[..n][..n - 1] == ops[..n - 1] && oks[..n][..n - 1] == oks[..n - 1];
      if ops[n - 1].Light? {
        ModeFrameReads(ops[n - 1].lighting);
      }
      hide ModeFrame;
      hide SettingsIn;
    }
  }
}
