/** The 9-page key-definition area: encoding remaps into it, cutting it into
    feature-report frames, and reading the remaps back out of the pages. */
module KeydefCodec {
  import opened Basics
  import opened KeyMatrix

  const FRAME_LEN := 64
  const PAGES := 9
  const AREA_LEN := 576
  const SLOTS := 144
  const SLOTS_PER_PAGE := 16
  const MARKER: u8 := 0x02
  const FOOTER: seq<u8> := [0xAA, 0x55]
  /** The footer read as a keycode. */
  const FOOTER_CODE: u16 := 0x55AA

  type Frame = f: seq<u8> | |f| == FRAME_LEN witness seq(FRAME_LEN, _ => 0)
  type Area = a: seq<u8> | |a| == AREA_LEN witness seq(AREA_LEN, _ => 0)

  /** A remap of one key index. */
  datatype Remap = Remap(ki: u8, code: u16)

  /** The code the entries give `ki`; a later entry overrides an earlier one. */
  function CodeFor(entries: seq<Remap>, ki: int): Option<u16> {
    if entries == [] then None
    else
      var last := entries[|entries| - 1];
      if last.ki as int == ki then Some(last.code) else CodeFor(entries[..|entries| - 1], ki)
  }

  /** Byte `j % 4` of a slot: marker, zero, code low, code high. */
  function SlotByte(code: Option<u16>, off: int): u8 {
    match code
    case None => 0
    case Some(c) => if off == 0 then MARKER else if off == 2 then c % 0x100 else if off == 3 then c / 0x100 else 0
  }

  function KeydefBuffer(entries: seq<Remap>): Area {
    seq(AREA_LEN, j requires 0 <= j < AREA_LEN =>
      if j >= AREA_LEN - 2 then FOOTER[j - (AREA_LEN - 2)] else SlotByte(CodeFor(entries, j / 4), j % 4))
  }

  /** Fills the area slot by slot; an index whose slot would run past the end is
      skipped, and the footer overwrites whatever lies under it. */
  method EncodeKeydefBuffer(entries: seq<Remap>) returns (buf: array<u8>)
    ensures fresh(buf) && buf.Length == AREA_LEN && buf[..] == KeydefBuffer(entries)
  {
    buf := new u8[AREA_LEN](_ => 0);
    var n := 0;
    while n < |entries|
      invariant 0 <= n <= |entries|
      invariant forall j :: 0 <= j < AREA_LEN ==> buf[j] == SlotByte(CodeFor(entries[..n], j / 4), j % 4)
    {
      var ki, code := entries[n].ki as int, entries[n].code;
      var o := ki * 4;
      ghost var before := buf[..];
      if o + 3 < AREA_LEN {
        buf[o] := MARKER;
        buf[o + 2] := code % 0x100;
        buf[o + 3] := code / 0x100;
      }
      assert entries[..n + 1][..n] == entries[..n];
      forall j | 0 <= j < AREA_LEN
        ensures buf[j] == SlotByte(CodeFor(entries[..n + 1], j / 4), j % 4)
      {
        assert before[j] == SlotByte(CodeFor(entries[..n], j / 4), j % 4);
        if j / 4 == ki {
          assert j == o || j == o + 1 || j == o + 2 || j == o + 3;
        }
      }
      n := n + 1;
    }
    assert entries[..n] == entries;
    buf[AREA_LEN - 2], buf[AREA_LEN - 1] := FOOTER[0], FOOTER[1];
  }

  // ── Reading slots ──────────────────────────────────────────────────────

  function SlotRead(a: Area, ki: int): Option<u16>
    requires 0 <= ki < SLOTS
  {
    if a[4 * ki] == MARKER then Some(Le16(a[4 * ki + 2], a[4 * ki + 3])) else None
  }

  function Page(a: Area, p: nat): Frame
    requires p < PAGES
  {
    a[p * FRAME_LEN..(p + 1) * FRAME_LEN]
  }

  /** An area is its pages: entry `e` of page `p` is slot `16 p + e`. */
  lemma PageHoldsSlots(a: Area, p: nat, e: nat)
    requires p < PAGES && e < SLOTS_PER_PAGE
    ensures Page(a, p)[4 * e] == a[4 * (p * SLOTS_PER_PAGE + e)]
    ensures Page(a, p)[4 * e + 2] == a[4 * (p * SLOTS_PER_PAGE + e) + 2]
    ensures Page(a, p)[4 * e + 3] == a[4 * (p * SLOTS_PER_PAGE + e) + 3]
  {
  }

  /** All that a scan of the 144 slots finds. */
  function Scanned(a: Area): map<int, u16> {
    map ki: int | 0 <= ki < SLOTS && SlotRead(a, ki).Some? :: SlotRead(a, ki).value
  }

  /** All that the entries ask for. */
  function Wanted(entries: seq<Remap>): map<int, u16> {
    map ki: int | 0 <= ki < 0x100 && CodeFor(entries, ki).Some? :: CodeFor(entries, ki).value
  }

  lemma EncodedSlot(entries: seq<Remap>, ki: int)
    requires 0 <= ki < SLOTS
    ensures SlotRead(KeydefBuffer(entries), ki) ==
            if ki == SLOTS - 1 && CodeFor(entries, ki).Some? then Some(FOOTER_CODE) else CodeFor(entries, ki)
  {
    var a := KeydefBuffer(entries);
    assert (4 * ki) / 4 == ki && (4 * ki) % 4 == 0;
    assert (4 * ki + 2) / 4 == ki && (4 * ki + 2) % 4 == 2;
    assert (4 * ki + 3) / 4 == ki && (4 * ki + 3) % 4 == 3;
    if ki < SLOTS - 1 && CodeFor(entries, ki).Some? {
      var c := CodeFor(entries, ki).value;
      assert Le16(c % 0x100, c / 0x100) == c;
    }
  }

  /** Byte-level round trip: encoding and scanning recovers exactly the entries,
      any keycode including zero, exactly if every index has a slot clear of
      the footer (or asks, in the last slot, for the code the footer spells). */
  lemma ScanInvertsEncode(entries: seq<Remap>)
    ensures Scanned(KeydefBuffer(entries)) == Wanted(entries) <==>
            forall ki :: ki in Wanted(entries) ==>
              ki <= 142 || (ki == 143 && Wanted(entries)[ki] == FOOTER_CODE)
  {
    var got, want := Scanned(KeydefBuffer(entries)), Wanted(entries);
    forall ki | 0 <= ki < SLOTS
      ensures ki in got <==> ki in want
      ensures ki in got ==> got[ki] == if ki == 143 then FOOTER_CODE else want[ki]
    {
      EncodedSlot(entries, ki);
    }
    if forall ki :: ki in want ==> ki <= 142 || (ki == 143 && want[ki] == FOOTER_CODE) {
      forall ki ensures SameAt(got, want, ki) {}
      SameEverywhere(got, want);
    } else {
      var ki :| ki in want && !(ki <= 142 || (ki == 143 && want[ki] == FOOTER_CODE));
      assert ki >= SLOTS ==> ki !in got;
    }
  }

  /** The footer is not an entry of its own. */
  lemma FooterIsNoEntry(entries: seq<Remap>)
    requires CodeFor(entries, 143).None?
    ensures SlotRead(KeydefBuffer(entries), 143).None?
    ensures Page(KeydefBuffer(entries), 8)[62..] == FOOTER
  {
    EncodedSlot(entries, 143);
  }

  /** No page of an encoded area opens with the command header. */
  lemma PagesAreNotCommands(entries: seq<Remap>, p: nat)
    requires p < PAGES
    ensures Page(KeydefBuffer(entries), p)[0] in {0x00, MARKER}
  {
    assert (p * FRAME_LEN) % 4 == 0;
  }

  // ── Keymap layers ──────────────────────────────────────────────────────

  predicate HasKey(k: Key) {
    KeyIndexFor(k.row, k.col).Some?
  }

  function IndexOf(k: Key): (ki: u8)
    requires HasKey(k)
    ensures ki <= 121
  {
    KeyIndexFor(k.row, k.col).value
  }

  function LayerKeys(layer: u8): (r: set<Key>)
    ensures forall k :: k in r <==> k.layer == layer && HasKey(k)
  {
    var r := set row: u8, col: u8 | row < ROWS && col < COLS && HasKey(Key(layer, row, col)) :: Key(layer, row, col);
    assert forall k: Key :: k.layer == layer && HasKey(k) ==> k == Key(layer, k.row, k.col) && k.row < ROWS && k.col < COLS;
    r
  }

  /** The remaps of one layer that sit on physical keys. */
  function LayerOf(m: Keymap, layer: u8): Keymap {
    map k | k in m && k.layer == layer && HasKey(k) :: m[k]
  }

  /** The remaps an area holds for `layer`, slots below `n` only. */
  function DecodedBelow(a: Area, layer: u8, n: int): Keymap {
    map k | k in LayerKeys(layer) && IndexOf(k) as int < n && SlotRead(a, IndexOf(k) as int).Some?
      :: SlotRead(a, IndexOf(k) as int).value
  }

  function Decoded(a: Area, layer: u8): Keymap {
    DecodedBelow(a, layer, SLOTS)
  }

  /** `entries` lists the remaps of `layer` that sit on physical keys, by index. */
  ghost predicate Lists(entries: seq<Remap>, m: Keymap, layer: u8) {
    && (forall i :: 0 <= i < |entries| ==> entries[i].ki <= 121)
    && (forall k :: k in LayerKeys(layer) ==>
          CodeFor(entries, IndexOf(k) as int) == if k in m then Some(m[k]) else None)
  }

  /** Keymap-level round trip: what a layer's area decodes to is the layer. */
  lemma DecodeInvertsEncode(entries: seq<Remap>, m: Keymap, layer: u8)
    requires Lists(entries, m, layer)
    ensures Decoded(KeydefBuffer(entries), layer) == LayerOf(m, layer)
  {
    var got := Decoded(KeydefBuffer(entries), layer);
    forall k ensures SameAt(got, LayerOf(m, layer), k) {
      if k in LayerKeys(layer) {
        EncodedSlot(entries, IndexOf(k) as int);
      }
    }
    SameEverywhere(got, LayerOf(m, layer));
  }

  /** Two keys of one layer never share an index. */
  lemma IndexIsInjective(k: Key, j: Key)
    requires HasKey(k) && HasKey(j) && k.layer == j.layer && IndexOf(k) == IndexOf(j)
    ensures k == j
  {
    MapsAreInverse(k.row, k.col, IndexOf(k));
    MapsAreInverse(j.row, j.col, IndexOf(k));
  }

  lemma CodeForGrows(entries: seq<Remap>, e: Remap, ki: int)
    ensures CodeFor(entries + [e], ki) == if e.ki as int == ki then Some(e.code) else CodeFor(entries, ki)
  {
    assert (entries + [e])[..|entries|] == entries;
  }

  /** Collects the entries of one layer, skipping positions without a key, in
      whatever order the map yields them. */
  method LayerEntries(m: Keymap, layer: u8) returns (entries: seq<Remap>)
    ensures Lists(entries, m, layer)
    ensures entries == [] <==> LayerOf(m, layer) == map[]
  {
    entries := [];
    var keys := m.Keys;
    while keys != {}
      invariant keys <= m.Keys
      invariant forall i :: 0 <= i < |entries| ==> entries[i].ki <= 121
      invariant forall k :: k in LayerKeys(layer) ==>
                  CodeFor(entries, IndexOf(k) as int) == if k in m && k !in keys then Some(m[k]) else None
      invariant entries == [] <==> forall k :: k in LayerOf(m, layer) ==> k in keys
      decreases keys
    {
      var key :| key in keys;
      ghost var rest := keys;
      keys := keys - {key};
      if key.layer == layer {
        var ki := KeyIndexFor(key.row, key.col);
        if ki.Some? {
          forall k | k in LayerKeys(layer)
            ensures CodeFor(entries + [Remap(ki.value, m[key])], IndexOf(k) as int)
                    == if k in m && k !in keys then Some(m[k]) else None
          {
            CodeForGrows(entries, Remap(ki.value, m[key]), IndexOf(k) as int);
            if IndexOf(k) == ki.value {
              IndexIsInjective(k, key);
            }
          }
          assert key in LayerOf(m, layer);
          entries := entries + [Remap(ki.value, m[key])];
        }
      }
    }
    assert LayerOf(m, layer) == map[] <==> forall k :: k in LayerOf(m, layer) ==> false;
  }

  /** Scans one page into `entries`, which already hold the slots of the pages
      before it; a marked slot of no known key is passed over. */
  method ScanPage(page: Frame, p: nat, layer: u8, entries: Keymap, ghost area: Area, ghost base: Keymap)
    returns (entries': Keymap)
    requires p < PAGES && page == Page(area, p)
    requires entries == base + DecodedBelow(area, layer, p * SLOTS_PER_PAGE)
    ensures entries' == base + DecodedBelow(area, layer, (p + 1) * SLOTS_PER_PAGE)
  {
    hide MatrixPosFor;
    hide DecodedBelow;
    hide Page;
    entries' := entries;
    var e := 0;
    while e < SLOTS_PER_PAGE
      invariant 0 <= e <= SLOTS_PER_PAGE
      invariant entries' == base + DecodedBelow(area, layer, p * SLOTS_PER_PAGE + e)
    {
      PageHoldsSlots(area, p, e);
      var ki: u8 := p * SLOTS_PER_PAGE + e;
      DecodedGrowsOver(area, layer, ki, base);
      if page[4 * e] == MARKER {
        var code := Le16(page[4 * e + 2], page[4 * e + 3]);
        var pos := MatrixPosFor(ki);
        if pos.Some? {
          entries' := entries'[Key(layer, pos.value.row, pos.value.col) := code];
        }
      }
      e := e + 1;
    }
  }

  /** Scanning slot `n` of the area on top of `m`. */
  function SlotTaken(m: Keymap, a: Area, layer: u8, n: u8): Keymap
    requires n as int < SLOTS
  {
    var pos := MatrixPosFor(n);
    if SlotRead(a, n as int).Some? && pos.Some? then
      m[Key(layer, pos.value.row, pos.value.col) := SlotRead(a, n as int).value]
    else m
  }

  lemma KeyOfSlot(layer: u8, n: u8, k: Key)
    ensures k in LayerKeys(layer) && IndexOf(k) == n <==>
            MatrixPosFor(n).Some? && k == Key(layer, MatrixPosFor(n).value.row, MatrixPosFor(n).value.col)
  {
    MapsAreInverse(k.row, k.col, n);
    if MatrixPosFor(n).Some? {
      MapsAreInverse(MatrixPosFor(n).value.row, MatrixPosFor(n).value.col, n);
    }
  }

  lemma DecodedGrows(a: Area, layer: u8, n: u8)
    requires n as int < SLOTS
    ensures DecodedBelow(a, layer, n as int + 1) == SlotTaken(DecodedBelow(a, layer, n as int), a, layer, n)
  {
    hide MatrixPosFor;
    hide KeyIndexFor;
    hide SlotRead;
    var before, after := DecodedBelow(a, layer, n as int), DecodedBelow(a, layer, n as int + 1);
    forall k ensures SameAt(after, SlotTaken(before, a, layer, n), k) {
      KeyOfSlot(layer, n, k);
    }
    SameEverywhere(after, SlotTaken(before, a, layer, n));
  }

  lemma DecodedGrowsOver(a: Area, layer: u8, n: u8, base: Keymap)
    requires n as int < SLOTS
    ensures base + DecodedBelow(a, layer, n as int + 1)
            == SlotTaken(base + DecodedBelow(a, layer, n as int), a, layer, n)
  {
    hide MatrixPosFor;
    hide SlotRead;
    hide DecodedBelow;
    DecodedGrows(a, layer, n);
  }
}
