/** The GMK67 board as the other party of a transaction: 64-byte feature
    reports in, pages out. */
module Gmk67Device {
  import opened Basics
  import opened KeydefCodec
  import opened ShadowState

  const HEADER: u8 := 0x04
  const COMMUNICATION_END: u8 := 0x02
  const EFFECT_PAGE: u8 := 0x13
  const CUSTOMIZATION_ON: u8 := 0x18
  const CUSTOMIZATION_OFF: u8 := 0x19
  const EFFECT_START: u8 := 0xF0
  const WRITE_BASE: u8 := 0x11
  const WRITE_FN: u8 := 0x27
  const READ_BASE: u8 := 0x10
  const READ_FN: u8 := 0x26
  /** Effect pages announced by a lighting transaction. */
  const EFFECT_PAGES: u8 := 1

  /** What the next data frame is taken for. */
  datatype Stage =
    | Idle
    | Effect
    | Writing(layer: u8, page: nat)
    | Reading(layer: u8, page: nat)

  /** `effect` is the mode frame last taken in, `shown` the one the board renders:
      it starts rendering what it has taken in when told to. */
  datatype Device = Device(
    customizing: bool,
    stage: Stage,
    baseArea: Area,
    fnArea: Area,
    effect: Frame,
    shown: Frame,
    reliable: bool)

  /** The board reads a mode frame by byte position: mode, red, green and blue in
      front, then the random flag, brightness, speed and direction from byte 8. */
  function SettingsIn(f: Frame): Lighting {
    Lighting(f[0], f[1], f[2], f[3], f[9], f[10], f[11], f[8] == 1)
  }

  /** No mode frame was taken in; what there is may have been rendered anew. */
  predicate SameEffect(d: Device, d': Device) {
    d'.effect == d.effect && (d'.shown == d.shown || d'.shown == d.effect)
  }

  function AreaOf(d: Device, layer: u8): Area {
    if layer == 0 then d.baseArea else d.fnArea
  }

  function WithArea(d: Device, layer: u8, a: Area): Device {
    if layer == 0 then d.(baseArea := a) else d.(fnArea := a)
  }

  function PagePut(a: Area, p: nat, f: Frame): Area
    requires p < PAGES
  {
    a[..p * FRAME_LEN] + f + a[(p + 1) * FRAME_LEN..]
  }

  /** A mode frame closes with the page-check code at bytes 14 and 15; framing
      commands are zero there. */
  predicate IsModeFrame(f: Frame) {
    f[14..16] == FOOTER
  }

  function Commanded(d: Device, command: u8, count: u8): Device {
    if command == CUSTOMIZATION_ON then d.(customizing := true, stage := Idle)
    else if command == CUSTOMIZATION_OFF || command == COMMUNICATION_END then d.(customizing := false, stage := Idle)
    else if command == EFFECT_START then d.(shown := d.effect)
    else if !d.customizing then d
    else if command == WRITE_BASE && count as int == PAGES then d.(stage := Writing(0, 0))
    else if command == WRITE_FN && count as int == PAGES then d.(stage := Writing(1, 0))
    else if command == READ_BASE && count as int == PAGES then d.(stage := Reading(0, 0))
    else if command == READ_FN && count as int == PAGES then d.(stage := Reading(1, 0))
    else if command == EFFECT_PAGE && count == EFFECT_PAGES then d.(stage := Effect)
    else d
  }

  /** One feature report. A data frame outside its transaction has no effect;
      pages are written through as they arrive. */
  function Received(d: Device, f: Frame): Device {
    if d.stage.Effect? && IsModeFrame(f) then d.(effect := f, stage := Idle)
    else if f[0] == HEADER then Commanded(d, f[1], f[8])
    else if d.stage.Writing? && d.stage.page < PAGES then
      WithArea(d, d.stage.layer, PagePut(AreaOf(d, d.stage.layer), d.stage.page, f))
        .(stage := if d.stage.page + 1 == PAGES then Idle else Writing(d.stage.layer, d.stage.page + 1))
    else d
  }

  function CommandFrame(command: u8): Frame {
    [HEADER, command] + seq(FRAME_LEN - 2, _ => 0)
  }

  function StartPageFrame(command: u8, pages: u8): Frame {
    CommandFrame(command)[8 := pages]
  }

  const END_FRAME: Frame := CommandFrame(COMMUNICATION_END)

  /** `area` with its first `n` pages replaced by those of `newer`. */
  function Mixed(area: Area, newer: Area, n: nat): Area
    requires n <= PAGES
  {
    newer[..n * FRAME_LEN] + area[n * FRAME_LEN..]
  }

  lemma MixedGrows(area: Area, newer: Area, n: nat)
    requires n < PAGES
    ensures PagePut(Mixed(area, newer, n), n, Page(newer, n)) == Mixed(area, newer, n + 1)
  {
  }

  lemma MixedEnds(area: Area, newer: Area)
    ensures Mixed(area, newer, 0) == area && Mixed(area, newer, PAGES) == newer
  {
  }

  /** Feature reports over the control pipe. Any call may fault unless the
      device is reliable, and a faulted report may have been received. */
  class FeatureIo {
    var device: Device
    /** Every report sent, whether or not it went through, and whether the last
        one did. */
    ghost var sent: seq<Frame>
    ghost var lastSent: bool

    constructor (d: Device)
      ensures device == d && sent == []
    {
      device := d;
      sent := [];
      lastSent := true;
    }

    method SetFeature(f: Frame) returns (r: Result<()>)
      modifies this
      ensures sent == old(sent) + [f] && (lastSent <==> r.Ok?)
      ensures r.Ok? ==> device == Received(old(device), f)
      ensures r.Err? ==> !device.reliable && (device == old(device) || device == Received(old(device), f))
      ensures device.reliable == old(device).reliable
    {
      var fault: bool := *;
      var e: DriverError := *;
      r := if fault && !device.reliable then Err(e) else Ok(());
      if r.Ok? {
        device := Received(device, f);
      } else if * {
        device := Received(device, f);
      }
      sent := sent + [f];
      lastSent := r.Ok?;
    }

    /** The paced read after a write: its contents and its failure are ignored,
        and it does not move the page cursor. */
    method ReadAck()
    {
    }

    /** The next page of the area being read out. */
    method GetPage() returns (r: Result<Frame>)
      modifies this`device
      ensures device == old(device) || (old(device).stage.Reading? &&
                device == old(device).(stage := Reading(old(device).stage.layer, old(device).stage.page + 1)))
      ensures r.Err? ==> !device.reliable
      ensures r.Ok? && old(device).stage.Reading? && old(device).stage.page < PAGES ==>
                && r.value == Page(AreaOf(old(device), old(device).stage.layer), old(device).stage.page)
                && device.stage == Reading(old(device).stage.layer, old(device).stage.page + 1)
    {
      var fault: bool := *;
      var e: DriverError := *;
      assert |END_FRAME| == FRAME_LEN;
      var noise: Frame :| |noise| == FRAME_LEN;
      if fault && !device.reliable {
        return Err(e);
      }
      match device.stage {
        case Reading(layer, page) =>
          var page64: Frame := if page < PAGES then Page(AreaOf(device, layer), page) else noise;
          r := Ok(page64);
          device := device.(stage := Reading(layer, page + 1));
        case _ =>
          r := Ok(noise);
      }
    }
  }
}
