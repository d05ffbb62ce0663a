/** The GMK67 transactions byte by byte, as the protocol lays them down. */
module Gmk67Wire {
  import opened Basics
  import opened ShadowState
  import opened KeydefCodec
  import opened Gmk67Device
  import opened Gmk67Driver

  /** A framing command: header 04, the command, and at byte 8 how many packets
      follow. */
  predicate Frames(f: Frame, command: u8, packets: u8) {
    f[0] == 0x04 && f[1] == command && f[8] == packets && forall i :: 2 <= i < 64 && i != 8 ==> f[i] == 0
  }

  lemma FramingBytes(command: u8, packets: u8)
    ensures Frames(StartPageFrame(command, packets), command, packets)
    ensures Frames(CommandFrame(command), command, 0)
  {
  }

  /** A lighting transaction: on, one effect page, the mode frame, end, start. */
  lemma RenderOnTheWire(l: Lighting)
    ensures var s := RenderScript(l);
            && |s| == 5 && Frames(s[0], 0x18, 0) && Frames(s[1], 0x13, 1)
            && s[2][..4] == [l.mode, l.r, l.g, l.b] && s[2][8] == (if l.random then 1 else 0)
            && s[2][9] == (if l.brightness > 15 then 15 else l.brightness)
            && s[2][10] == (if l.speed > 15 then 15 else l.speed) && s[2][11] == l.direction
            && s[2][14..16] == [0xAA, 0x55]
            && Frames(s[3], 0x02, 0) && Frames(s[4], 0xF0, 0)
  {
    FramingBytes(CUSTOMIZATION_ON, 0);
    FramingBytes(EFFECT_PAGE, EFFECT_PAGES);
    FramingBytes(COMMUNICATION_END, 0);
    FramingBytes(EFFECT_START, 0);
  }

  /** A remap transaction: on, nine pages announced for the layer's area, the
      pages, end, start. */
  lemma KeydefOnTheWire(layer: u8, entries: seq<Remap>)
    requires layer <= 1
    ensures KeydefCommand(layer).Some?
    ensures var s := KeydefScript(KeydefCommand(layer).value, KeydefBuffer(entries));
            && |s| == 13 && Frames(s[0], 0x18, 0) && Frames(s[1], if layer == 0 then 0x11 else 0x27, 9)
            && (forall p :: 0 <= p < 9 ==> s[2 + p] == Page(KeydefBuffer(entries), p))
            && s[10][62..] == [0xAA, 0x55]
            && Frames(s[11], 0x02, 0) && Frames(s[12], 0xF0, 0)
  {
    var a := KeydefBuffer(entries);
    FramingBytes(CUSTOMIZATION_ON, 0);
    FramingBytes(KeydefCommand(layer).value, PAGES);
    FramingBytes(COMMUNICATION_END, 0);
    FramingBytes(EFFECT_START, 0);
    assert PagesOf(a)[8] == Page(a, 8);
    assert a[574..] == [0xAA, 0x55];
  }

  /** A remapped key sits at four times its index: marker, zero, code low, code
      high; an unmapped one is all zero. */
  lemma EntryOnTheWire(entries: seq<Remap>, ki: u8)
    requires ki <= 142
    ensures var page, at := Page(KeydefBuffer(entries), ki as nat / 16), 4 * (ki as int % 16);
            match CodeFor(entries, ki as int)
            case Some(c) => page[at..at + 4] == [0x02, 0x00, c % 256, c / 256]
            case None => page[at..at + 4] == [0, 0, 0, 0]
  {
    var page, at := Page(KeydefBuffer(entries), ki as nat / 16), 4 * (ki as int % 16);
    ByteOnTheWire(entries, ki, 0);
    ByteOnTheWire(entries, ki, 1);
    ByteOnTheWire(entries, ki, 2);
    ByteOnTheWire(entries, ki, 3);
    assert page[at..at + 4] == [page[at], page[at + 1], page[at + 2], page[at + 3]];
    hide KeydefBuffer;
    hide CodeFor;
  }

  lemma ByteOnTheWire(entries: seq<Remap>, ki: u8, j: nat)
    requires ki <= 142 && j < 4
    ensures Page(KeydefBuffer(entries), ki as nat / 16)[4 * (ki as int % 16) + j] == SlotByte(CodeFor(entries, ki as int), j)
  {
    var o := 4 * ki as int + j;
    assert o / 4 == ki as int && o % 4 == j;
    assert ki as int / 16 * 64 + (4 * (ki as int % 16) + j) == o;
    assert KeydefBuffer(entries)[o] == SlotByte(CodeFor(entries, ki as int), j);
  }

  /** A read transaction of one layer: on, nine pages asked for, end. */
  lemma ReadOnTheWire(layer: u8)
    requires layer <= 1
    ensures KeydefReadCommand(layer).Some?
    ensures var s := ReadScript(KeydefReadCommand(layer).value);
            |s| == 3 && Frames(s[0], 0x18, 0) && Frames(s[1], if layer == 0 then 0x10 else 0x26, 9) && Frames(s[2], 0x02, 0)
  {
    FramingBytes(CUSTOMIZATION_ON, 0);
    FramingBytes(KeydefReadCommand(layer).value, PAGES);
    FramingBytes(COMMUNICATION_END, 0);
  }
}
