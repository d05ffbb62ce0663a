/** The host-side shadow keymap of a board that cannot be queried on demand. */
module ShadowState {
  import opened Basics

  datatype CacheStatus = Confirmed | Pending | Failed

  /** Whole-keyboard lighting settings, as driven and as persisted. */
  datatype Lighting = Lighting(mode: u8, r: u8, g: u8, b: u8, brightness: u8, speed: u8, direction: u8, random: bool)

  datatype Shadow = Shadow(
    keymap: Keymap,
    confirmed: Keymap,
    dirty: Keymap,
    lighting: Lighting,
    status: CacheStatus)

  /** The keymap is the last confirmed one overlaid by the uncommitted edits. */
  predicate Overlaid(s: Shadow) {
    s.keymap == s.confirmed + s.dirty
  }

  function Edited(s: Shadow, k: Key, v: u16): Shadow {
    s.(keymap := s.keymap[k := v], dirty := s.dirty[k := v], status := Pending)
  }

  function Committed(s: Shadow): Shadow {
    s.(confirmed := s.keymap, dirty := map[], status := Confirmed)
  }

  function RolledBack(s: Shadow): Shadow {
    s.(keymap := s.confirmed, dirty := map[], status := Failed)
  }

  function Adopted(s: Shadow, m: Keymap): Shadow {
    s.(keymap := m, confirmed := m, dirty := map[], status := Confirmed)
  }

  ghost predicate LayersOf(m: Keymap, layers: seq<u8>) {
    && (forall i, j :: 0 <= i < j < |layers| ==> layers[i] < layers[j])
    && (forall l :: l in layers <==> exists k :: k in m && k.layer == l)
  }

  class ShadowCache {
    var keymap: Keymap
    var confirmed: Keymap
    var dirty: Keymap
    var lighting: Lighting
    var status: CacheStatus

    ghost function State(): Shadow
      reads this
    {
      Shadow(keymap, confirmed, dirty, lighting, status)
    }

    /** Starts from whatever was persisted, with nothing dirty. */
    constructor Load(m: Keymap, l: Lighting)
      ensures State() == Shadow(m, m, map[], l, Confirmed) && Overlaid(State())
    {
      keymap, confirmed, dirty := m, m, map[];
      lighting, status := l, Confirmed;
    }

    method GetKeycode(k: Key) returns (code: u16)
      ensures code == KeyAt(keymap, k)
      ensures Overlaid(State()) ==>
                code == if k in dirty then dirty[k] else KeyAt(confirmed, k)
    {
      code := KeyAt(keymap, k);
    }

    method SetKeycode(k: Key, code: u16)
      modifies this
      ensures State() == Edited(old(State()), k, code)
      ensures old(Overlaid(State())) ==> Overlaid(State())
    {
      keymap := keymap[k := code];
      dirty := dirty[k := code];
      status := Pending;
    }

    /** The layers with pending edits, ascending and without repeats. */
    method DirtyLayers() returns (layers: seq<u8>)
      ensures LayersOf(dirty, layers)
    {
      layers := [];
      var l: nat := 0;
      while l < 0x100
        invariant 0 <= l <= 0x100
        invariant forall i :: 0 <= i < |layers| ==> layers[i] as int < l
        invariant forall i, j :: 0 <= i < j < |layers| ==> layers[i] < layers[j]
        invariant forall i: u8 :: i as int < l ==> (i in layers <==> exists k :: k in dirty && k.layer == i)
      {
        if exists k :: k in dirty && k.layer as int == l {
          layers := layers + [l];
        }
        l := l + 1;
      }
    }

    method SetLighting(l: Lighting)
      modifies this
      ensures State() == old(State()).(lighting := l)
    {
      lighting := l;
    }

    method PrepareCommit()
      modifies this
      ensures State() == old(State()).(status := Pending)
    {
      status := Pending;
    }

    method ConfirmCommit()
      modifies this
      ensures State() == Committed(old(State())) && Overlaid(State())
    {
      confirmed := keymap;
      dirty := map[];
      status := Confirmed;
    }

    method Rollback()
      modifies this
      ensures State() == RolledBack(old(State())) && Overlaid(State())
    {
      keymap := confirmed;
      dirty := map[];
      status := Failed;
    }

    /** The device's own keymap becomes the baseline; pending edits are dropped. */
    method AdoptConfirmed(m: Keymap)
      modifies this
      ensures State() == Adopted(old(State()), m) && Overlaid(State())
    {
      keymap := m;
      confirmed := keymap;
      dirty := map[];
      status := Confirmed;
    }
  }
}
