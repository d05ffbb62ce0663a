/** HID report descriptors as item lists (USB HID 1.11, section 6.2.2), and the
    two walkers that look through one without building the list. */
module HidDescriptor {
  import opened Basics

  /** A short item keeps its tag and type as the prefix byte with the size bits
      cleared. */
  datatype Item = Short(kind: u8, data: seq<u8>) | Long(tag: u8, data: seq<u8>)

  const LONG_PREFIX: u8 := 0xFE
  const USAGE_PAGE: u8 := 0x04
  const REPORT_COUNT: u8 := 0x94
  const FEATURE: u8 := 0xB0
  const PUSH: u8 := 0xA4
  const POP: u8 := 0xB4

  predicate IsItem(it: Item) {
    match it
    case Short(kind, data) =>
      kind % 4 == 0 && |data| in {0, 1, 2, 4} && !(kind == 0xFC && |data| == 2)
    case Long(_, data) => |data| < 0x100
  }

  predicate AreItems(items: seq<Item>) {
    forall i :: 0 <= i < |items| ==> IsItem(items[i])
  }

  function DataLength(prefix: u8): nat {
    if prefix % 4 == 3 then 4 else prefix % 4
  }

  function SizeCode(len: nat): u8
    requires len in {0, 1, 2, 4}
  {
    if len == 4 then 3 else len
  }

  function Encoded(it: Item): seq<u8>
    requires IsItem(it)
  {
    match it
    case Short(kind, data) => [kind + SizeCode(|data|)] + data
    case Long(tag, data) => [LONG_PREFIX, |data|, tag] + data
  }

  function Serialized(items: seq<Item>): seq<u8>
    requires AreItems(items)
  {
    if items == [] then [] else Encoded(items[0]) + Serialized(items[1..])
  }

  /** The complete item at the front of `d`, if there is one. */
  function Head(d: seq<u8>): (r: Option<Item>)
    ensures r.Some? ==> IsItem(r.value) && Encoded(r.value) <= d && |Encoded(r.value)| > 0
  {
    if d == [] then None
    else if d[0] == LONG_PREFIX then
      if |d| < 3 || |d| < 3 + d[1] as int then None else Some(Long(d[2], d[3..3 + d[1] as int]))
    else
      var n := DataLength(d[0]);
      if |d| < 1 + n then None else Some(Short(d[0] - d[0] % 4, d[1..1 + n]))
  }

  datatype Parsed = Parsed(items: seq<Item>, rest: seq<u8>)

  /** The complete items of `d` in order, and the truncated item after them. */
  function Parse(d: seq<u8>): (r: Parsed)
    ensures AreItems(r.items)
    decreases |d|
  {
    match Head(d)
    case None => Parsed([], d)
    case Some(it) =>
      var tail := Parse(d[|Encoded(it)|..]);
      Parsed([it] + tail.items, tail.rest)
  }

  lemma ParseStep(d: seq<u8>)
    ensures Head(d).None? ==> Parse(d) == Parsed([], d)
    ensures Head(d).Some? ==>
              var tail := Parse(d[|Encoded(Head(d).value)|..]);
              Parse(d) == Join([Head(d).value], tail)
  {
    hide Head;
    hide Encoded;
  }

  lemma SerializedCons(it: Item, items: seq<Item>)
    requires IsItem(it) && AreItems(items)
    ensures AreItems([it] + items) && Serialized([it] + items) == Encoded(it) + Serialized(items)
  {
    hide Encoded;
    assert ([it] + items)[1..] == items;
  }

  /** Parsing loses nothing and stops only at a truncated item. */
  lemma {:induction false} ParseIsFaithful(d: seq<u8>)
    ensures Serialized(Parse(d).items) + Parse(d).rest == d
    ensures Head(Parse(d).rest).None?
    decreases |d|
  {
    hide Head;
    hide Encoded;
    hide Parse;
    hide Serialized;
    ParseStep(d);
    if Head(d).Some? {
      var e := Encoded(Head(d).value);
      ParseIsFaithful(d[|e|..]);
      var tail := Parse(d[|e|..]);
      SerializedCons(Head(d).value, tail.items);
      assert d == e + d[|e|..];
      assert (e + Serialized(tail.items)) + tail.rest == e + (Serialized(tail.items) + tail.rest);
    } else {
      SerializedNone();
    }
  }

  lemma SerializedNone()
    ensures Serialized([]) == []
  {
  }

  lemma HeadOfEncoded(it: Item, tail: seq<u8>)
    requires IsItem(it)
    ensures Head(Encoded(it) + tail) == Some(it)
  {
    var d := Encoded(it) + tail;
    match it
    case Short(kind, data) =>
      assert d[0] == kind + SizeCode(|data|);
      assert d[1..1 + |data|] == data;
    case Long(tag, data) =>
      assert d[3..3 + |data|] == data;
  }

  lemma HeadOfNothing()
    ensures Head([]).None?
  {
  }

  /** Every item list is the parse of its own bytes. */
  lemma {:induction false} ParseInvertsSerialized(items: seq<Item>)
    requires AreItems(items)
    ensures Parse(Serialized(items)) == Parsed(items, [])
  {
    hide Head;
    hide Encoded;
    hide Parse;
    ParseStep(Serialized(items));
    if items == [] {
      HeadOfNothing();
    } else {
      var tail := Serialized(items[1..]);
      HeadOfEncoded(items[0], tail);
      assert Serialized(items)[|Encoded(items[0])|..] == tail;
      ParseInvertsSerialized(items[1..]);
      assert [items[0]] + items[1..] == items;
    }
  }

  // ── What the items mean ────────────────────────────────────────────────

  /** Item data is little-endian and unsigned. */
  function Value(data: seq<u8>): nat {
    if |data| == 1 then data[0]
    else if |data| == 2 then Le16(data[0], data[1])
    else if |data| == 4 then Le32(data[0], data[1], data[2], data[3])
    else 0
  }

  predicate NamesPage(it: Item, target: u16) {
    it.Short? && it.kind == USAGE_PAGE && it.data != [] && Value(it.data) % 0x1_0000 == target
  }

  predicate IsKind(it: Item, kind: u8) {
    it.Short? && it.kind == kind
  }

  /** The Report Count written last, zero if none was. */
  function LatestCount(items: seq<Item>): nat {
    if items == [] then 0
    else
      var last := items[|items| - 1];
      if IsKind(last, REPORT_COUNT) then Value(last.data) else LatestCount(items[..|items| - 1])
  }

  predicate FeatureAt(items: seq<Item>, j: nat, min: nat) {
    j < |items| && IsKind(items[j], FEATURE) && LatestCount(items[..j]) >= min
  }

  // ── The walkers ────────────────────────────────────────────────────────

  function Join(seen: seq<Item>, p: Parsed): Parsed {
    Parsed(seen + p.items, p.rest)
  }

  lemma JoinMoves(seen: seq<Item>, it: Item, p: Parsed)
    ensures Join(seen, Join([it], p)) == Join(seen + [it], p)
    ensures seen + [it] <= Join(seen + [it], p).items
  {
    assert seen + ([it] + p.items) == (seen + [it]) + p.items;
  }

  /** Where a walk stands: the items of `seen` lie before offset `i`, the rest
      of the list after it; past the end, nothing complete is left. */
  ghost predicate Standing(d: seq<u8>, i: nat, seen: seq<Item>) {
    if i <= |d| then Parse(d) == Join(seen, Parse(d[i..])) else Parse(d).items == seen
  }

  function Skip(d: seq<u8>, i: nat): nat
    requires i < |d| && (d[i] == LONG_PREFIX ==> i + 1 < |d|)
  {
    if d[i] == LONG_PREFIX then 3 + d[i + 1] as int else 1 + DataLength(d[i])
  }

  function ItemAt(d: seq<u8>, i: nat): Item
    requires i < |d| && (d[i] == LONG_PREFIX ==> i + 1 < |d|) && i + Skip(d, i) <= |d|
  {
    if d[i] == LONG_PREFIX then Long(d[i + 2], d[i + 3..i + Skip(d, i)])
    else Short(d[i] - d[i] % 4, d[i + 1..i + Skip(d, i)])
  }

  lemma HeadAt(d: seq<u8>, i: nat)
    requires i < |d| && (d[i] == LONG_PREFIX ==> i + 1 < |d|)
    ensures i + Skip(d, i) > |d| ==> Head(d[i..]).None?
    ensures i + Skip(d, i) <= |d| ==>
              Head(d[i..]) == Some(ItemAt(d, i)) && |Encoded(Head(d[i..]).value)| == Skip(d, i)
  {
    var t := d[i..];
    if i + Skip(d, i) <= |d| {
      assert t[1..Skip(d, i)] == d[i + 1..i + Skip(d, i)];
      if d[i] == LONG_PREFIX {
        assert t[3..Skip(d, i)] == d[i + 3..i + Skip(d, i)];
      }
    }
  }

  lemma StandingStep(d: seq<u8>, i: nat, seen: seq<Item>, it: Item)
    requires i < |d| && Standing(d, i, seen) && Head(d[i..]) == Some(it)
    ensures i + |Encoded(it)| <= |d|
    ensures Standing(d, i + |Encoded(it)|, seen + [it]) && seen + [it] <= Parse(d).items
  {
    hide Head;
    hide Encoded;
    hide Parse;
    hide Join;
    ParseStep(d[i..]);
    var n := |Encoded(it)|;
    assert d[i..][n..] == d[i + n..];
    JoinMoves(seen, it, Parse(d[i + n..]));
  }

  /** Where no complete item starts, every item has been seen. */
  lemma NothingComplete(d: seq<u8>, i: nat, seen: seq<Item>)
    requires i <= |d| && Standing(d, i, seen) && Head(d[i..]).None?
    ensures Parse(d) == Parsed(seen, d[i..])
  {
    hide Head;
    hide Parse;
    ParseStep(d[i..]);
    assert seen + [] == seen;
  }

  lemma PastEnd(d: seq<u8>, i: nat, seen: seq<Item>)
    requires i > |d| && Parse(d).items == seen
    ensures Standing(d, i, seen)
  {
  }

  /** Stepping over the item at `i` by the length its first bytes announce. */
  lemma StepOver(d: seq<u8>, i: nat, seen: seq<Item>)
    requires i < |d| && (d[i] == LONG_PREFIX ==> i + 1 < |d|) && Standing(d, i, seen)
    requires i + Skip(d, i) <= |d|
    ensures Standing(d, i + Skip(d, i), seen + [ItemAt(d, i)])
    ensures seen + [ItemAt(d, i)] <= Parse(d).items
  {
    hide *;
    HeadAt(d, i);
    StandingStep(d, i, seen, ItemAt(d, i));
  }

  /** Stepping past the end over a truncated item. */
  lemma StepPast(d: seq<u8>, i: nat, seen: seq<Item>)
    requires i < |d| && (d[i] == LONG_PREFIX ==> i + 1 < |d|) && Standing(d, i, seen)
    requires i + Skip(d, i) > |d|
    ensures Standing(d, i + Skip(d, i), seen) && Parse(d).rest == d[i..]
  {
    hide *;
    HeadAt(d, i);
    NothingComplete(d, i, seen);
    PastEnd(d, i + Skip(d, i), seen);
  }

  /** Either, as the length decides. */
  lemma Stepped(d: seq<u8>, i: nat, seen: seq<Item>)
    requires i < |d| && (d[i] == LONG_PREFIX ==> i + 1 < |d|) && Standing(d, i, seen)
    ensures i + Skip(d, i) > |d| ==> Standing(d, i + Skip(d, i), seen) && Parse(d).rest == d[i..]
    ensures i + Skip(d, i) <= |d| ==> Standing(d, i + Skip(d, i), seen + [ItemAt(d, i)])
    ensures i + Skip(d, i) <= |d| ==> seen + [ItemAt(d, i)] <= Parse(d).items
  {
    hide *;
    if i + Skip(d, i) <= |d| {
      StepOver(d, i, seen);
    } else {
      StepPast(d, i, seen);
    }
  }

  /** The walker's test on a complete short item. */
  lemma PageTest(d: seq<u8>, i: nat, target: u16)
    requires i < |d| && d[i] != LONG_PREFIX && i + Skip(d, i) <= |d|
    ensures var len := DataLength(d[i]);
            NamesPage(ItemAt(d, i), target) <==>
              && d[i] - d[i] % 4 == USAGE_PAGE && len != 0
              && (if len == 1 then d[i + 1] as u16 else Le16(d[i + 1], d[i + 2])) == target
  {
    var data := ItemAt(d, i).data;
    assert |data| == DataLength(d[i]) && forall j :: 0 <= j < |data| ==> data[j] == d[i + 1 + j];
  }

  /** True iff a complete Usage Page item has `target` as its low 16 bits. */
  method HasUsagePage(d: seq<u8>, target: u16) returns (found: bool)
    ensures found <==> exists j :: 0 <= j < |Parse(d).items| && NamesPage(Parse(d).items[j], target)
  {
    hide Parse;
    hide NamesPage;
    var i := 0;
    ghost var seen: seq<Item> := [];
    StandingAtStart(d);
    while i < |d|
      invariant Standing(d, i, seen)
      invariant forall j :: 0 <= j < |seen| ==> !NamesPage(seen[j], target)
      decreases |d| - i
    {
      var prefix := d[i];
      ghost var at := i;
      if prefix == LONG_PREFIX {
        if i + 1 >= |d| {
          NothingComplete(d, i, seen);
          break;
        }
        Stepped(d, i, seen);
        i := i + 3 + d[i + 1] as int;
        if i <= |d| {
          NoPageInLong(d, at, target);
          seen := seen + [ItemAt(d, at)];
        }
        continue;
      }
      var dataLen := DataLength(prefix);
      Stepped(d, i, seen);
      if prefix - prefix % 4 == USAGE_PAGE && dataLen != 0 && i + dataLen < |d| {
        var page := if dataLen == 1 then d[i + 1] as u16 else Le16(d[i + 1], d[i + 2]);
        if page == target {
          PageTest(d, i, target);
          assert Parse(d).items[|seen|] == ItemAt(d, i);
          return true;
        }
      }
      i := i + 1 + dataLen;
      if i <= |d| {
        PageTest(d, at, target);
        seen := seen + [ItemAt(d, at)];
      }
    }
    found := false;
    if i == |d| {
      NothingComplete(d, i, seen);
    }
  }

  lemma NoPageInLong(d: seq<u8>, i: nat, target: u16)
    requires i + 1 < |d| && d[i] == LONG_PREFIX && i + Skip(d, i) <= |d|
    ensures !NamesPage(ItemAt(d, i), target)
  {
  }

  lemma StandingAtStart(d: seq<u8>)
    ensures Standing(d, 0, [])
  {
    assert d[0..] == d;
    assert [] + Parse(d).items == Parse(d).items;
  }

  /** The descriptor ends inside a Feature item. */
  predicate EndsInFeature(rest: seq<u8>) {
    rest != [] && rest[0] - rest[0] % 4 == FEATURE
  }

  /** True iff some Feature item follows a latest Report Count of at least
      `minCount`, or the descriptor ends inside such a Feature item: the walker
      looks only at that item's prefix. */
  method HasFeatureReport(d: seq<u8>, minCount: nat) returns (found: bool)
    ensures found <==>
              || (exists j :: FeatureAt(Parse(d).items, j, minCount))
              || (EndsInFeature(Parse(d).rest) && LatestCount(Parse(d).items) >= minCount)
  {
    hide Parse;
    hide LatestCount;
    hide FeatureAt;
    var i := 0;
    var reportCount := 0;
    ghost var seen: seq<Item> := [];
    StandingAtStart(d);
    NoneSeen(minCount);
    while i < |d|
      invariant Standing(d, i, seen)
      invariant i <= |d| ==> reportCount == LatestCount(seen)
      invariant forall j :: !FeatureAt(seen, j, minCount)
      invariant i > |d| ==> EndsInFeature(Parse(d).rest) ==> LatestCount(seen) < minCount
      decreases |d| - i
    {
      var prefix := d[i];
      ghost var at := i;
      if prefix == LONG_PREFIX {
        if i + 1 >= |d| {
          break;
        }
        Stepped(d, i, seen);
        i := i + 3 + d[i + 1] as int;
        if i <= |d| {
          Unseen(seen, ItemAt(d, at), minCount);
          seen := seen + [ItemAt(d, at)];
        }
        continue;
      }
      var dataLen := DataLength(prefix);
      Stepped(d, i, seen);
      if prefix - prefix % 4 == FEATURE && reportCount >= minCount {
        if i + dataLen < |d| {
          Seen(Parse(d).items, seen, ItemAt(d, i), minCount);
        }
        return true;
      }
      if prefix - prefix % 4 == REPORT_COUNT {
        reportCount :=
          if i + dataLen >= |d| || dataLen == 0 then 0
          else if dataLen == 1 then d[i + 1] as int
          else if dataLen == 2 then Le16(d[i + 1], d[i + 2]) as int
          else Le32(d[i + 1], d[i + 2], d[i + 3], d[i + 4]);
      }
      i := i + 1 + dataLen;
      if i <= |d| {
        Unseen(seen, ItemAt(d, at), minCount);
        seen := seen + [ItemAt(d, at)];
      }
    }
    found := false;
    if i <= |d| {
      NothingComplete(d, i, seen);
    }
  }

  lemma NoneSeen(min: nat)
    ensures LatestCount([]) == 0 && forall j :: !FeatureAt([], j, min)
  {
  }

  lemma Seen(items: seq<Item>, seen: seq<Item>, it: Item, min: nat)
    requires seen + [it] <= items && IsKind(it, FEATURE) && LatestCount(seen) >= min
    ensures FeatureAt(items, |seen|, min)
  {
    assert items[..|seen|] == seen;
  }

  /** Appending an item that is no wide enough Feature adds none. */
  lemma Unseen(seen: seq<Item>, it: Item, min: nat)
    requires forall j :: !FeatureAt(seen, j, min)
    requires IsKind(it, FEATURE) ==> LatestCount(seen) < min
    ensures forall j :: !FeatureAt(seen + [it], j, min)
    ensures LatestCount(seen + [it]) == if IsKind(it, REPORT_COUNT) then Value(it.data) else LatestCount(seen)
  {
    forall j: nat ensures !FeatureAt(seen + [it], j, min) {
      if j < |seen| {
        assert (seen + [it])[..j] == seen[..j];
        assert !FeatureAt(seen, j, min);
      } else if j == |seen| {
        assert (seen + [it])[..j] == seen;
      }
    }
    assert (seen + [it])[..|seen|] == seen;
  }

  // ── Push and Pop ───────────────────────────────────────────────────────

  /** Report Count is a global item: Push saves it and Pop restores it (section
      6.2.2.7). The value in force after `items`, and the saved ones. */
  function GlobalCounts(items: seq<Item>): (r: seq<nat>)
    ensures |r| > 0
  {
    if items == [] then [0]
    else
      var last, before := items[|items| - 1], GlobalCounts(items[..|items| - 1]);
      if IsKind(last, REPORT_COUNT) then [Value(last.data)] + before[1..]
      else if IsKind(last, PUSH) then [before[0]] + before
      else if IsKind(last, POP) && |before| > 1 then before[1..]
      else before
  }

  /** A Pop that leaves the count as it was. */
  predicate PopsNothing(items: seq<Item>, j: nat)
    requires j < |items|
  {
    IsKind(items[j], POP) ==> GlobalCounts(items[..j + 1])[0] == GlobalCounts(items[..j])[0]
  }

  /** The walker knows no Push or Pop. Its count is the standard's at every
      place in the list exactly if no Pop in it changes the count. */
  lemma {:induction false} CountIsGlobalUnlessPopped(items: seq<Item>)
    ensures (forall j :: 0 <= j <= |items| ==> LatestCount(items[..j]) == GlobalCounts(items[..j])[0])
            <==> (forall j :: 0 <= j < |items| ==> PopsNothing(items, j))
  {
    if forall j :: 0 <= j < |items| ==> PopsNothing(items, j) {
      forall j | 0 <= j <= |items| ensures LatestCount(items[..j]) == GlobalCounts(items[..j])[0] {
        UnpoppedCount(items, j);
      }
    } else {
      var j :| 0 <= j < |items| && !PopsNothing(items, j);
      assert items[..j + 1][..j] == items[..j];
      assert LatestCount(items[..j + 1]) == LatestCount(items[..j]);
    }
  }

  lemma {:induction false} UnpoppedCount(items: seq<Item>, j: nat)
    requires j <= |items| && forall i :: 0 <= i < |items| ==> PopsNothing(items, i)
    ensures LatestCount(items[..j]) == GlobalCounts(items[..j])[0]
  {
    if j > 0 {
      UnpoppedCount(items, j - 1);
      assert items[..j][..j - 1] == items[..j - 1];
      assert PopsNothing(items, j - 1);
    }
  }

  /** A descriptor that sets a count of 64, pushes it, sets 1, pops and declares
      a Feature: 64 values wide by the standard, one by the walker. */
  lemma PoppedCountIsMissed()
    ensures var items := [Short(REPORT_COUNT, [64]), Short(PUSH, []), Short(REPORT_COUNT, [1]),
                          Short(POP, []), Short(FEATURE, [2])];
            && GlobalCounts(items[..4])[0] == 64
            && forall j :: !FeatureAt(items, j, 64)
  {
    var items := [Short(REPORT_COUNT, [64]), Short(PUSH, []), Short(REPORT_COUNT, [1]),
                  Short(POP, []), Short(FEATURE, [2])];
    assert items[..1] == [items[0]] && items[..2] == items[..1] + [items[1]];
    assert items[..3] == items[..2] + [items[2]] && items[..4] == items[..3] + [items[3]];
    assert items[..4][..3] == items[..3];
    assert items[..3][..2] == items[..2];
    assert items[..2][..1] == items[..1];
    assert GlobalCounts(items[..1]) == [64];
    assert GlobalCounts(items[..2]) == [64, 64];
    assert GlobalCounts(items[..3]) == [1, 64];
    assert LatestCount(items[..4]) == 1;
  }
}
