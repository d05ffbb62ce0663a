/** Report descriptor items byte by byte, as section 6.2.2 of USB HID 1.11 lays
    them down. */
module HidWire {
  import opened Basics
  import opened HidDescriptor

  /** A prefix whose two low bits give the data length, or FE and a length byte,
      and then the data. */
  lemma ItemsOnTheWire(it: Item)
    requires IsItem(it)
    ensures it.Short? ==>
              && |Encoded(it)| == 1 + |it.data| && Encoded(it)[1..] == it.data
              && Encoded(it)[0] % 4 == (if |it.data| == 4 then 3 else |it.data|)
    ensures it.Long? ==> Encoded(it) == [0xFE, |it.data|, it.tag] + it.data
    ensures IsKind(it, USAGE_PAGE) <==> Encoded(it)[0] in {0x04, 0x05, 0x06, 0x07}
    ensures IsKind(it, REPORT_COUNT) <==> Encoded(it)[0] in {0x94, 0x95, 0x96, 0x97}
    ensures IsKind(it, FEATURE) <==> Encoded(it)[0] in {0xB0, 0xB1, 0xB2, 0xB3}
  {
  }

  /** The bytes as one number, each counting 256 times the one before. */
  function Sum(data: seq<u8>): nat {
    if data == [] then 0 else data[0] + 0x100 * Sum(data[1..])
  }

  lemma {:induction false} ValueIsLittleEndian(data: seq<u8>)
    requires |data| in {0, 1, 2, 4}
    ensures Value(data) == Sum(data)
  {
    SumOf(data);
    if |data| >= 2 {
      SumOf(data[1..]);
    }
    if |data| == 4 {
      assert data[1..][1..] == data[2..];
      SumOf(data[2..]);
      assert data[2..][1..] == data[3..];
      SumOf(data[3..]);
      assert data[3..][1..] == [];
    }
  }

  lemma SumOf(data: seq<u8>)
    ensures Sum(data) == if data == [] then 0 else data[0] + 0x100 * Sum(data[1..])
  {
  }

  /** The count in force is that of the last Report Count item, and zero before
      the first. */
  lemma {:induction false} CountIsLast(items: seq<Item>, min: nat)
    ensures LatestCount(items) >= min <==>
            min == 0 || exists i :: 0 <= i < |items| && CountsFrom(items, i) && Value(items[i].data) >= min
  {
    if items != [] {
      var n := |items| - 1;
      if IsKind(items[n], REPORT_COUNT) {
        assert CountsFrom(items, n);
      } else {
        CountIsLast(items[..n], min);
        assert forall i :: 0 <= i < n ==> (CountsFrom(items, i) <==> CountsFrom(items[..n], i));
      }
    }
  }

  /** Item `i` is the last Report Count item. */
  predicate CountsFrom(items: seq<Item>, i: nat)
    requires i < |items|
  {
    IsKind(items[i], REPORT_COUNT) && forall j :: i < j < |items| ==> !IsKind(items[j], REPORT_COUNT)
  }
}
