/** The RTC6705 video-transmitter backend: the persisted settings record,
    the runtime mirror `rtc6705Dev`, the apply-once `Process` tick and the
    nine operations of the common VTX interface.

    The chip itself is write-only over SPI. Each call into its driver
    (`rtc6705Enable`, `rtc6705Disable`, `rtc6705SetRFPower`,
    `rtc6705SetChannel`) and the blocking `delay(RTC6705_BOOT_DELAY)` is
    recorded as one `Event` appended to a ghost trace. `Replay` folds a
    trace into the last command sent for each chip setting; it does not
    model the chip's registers. */
module VtxRtc6705 {
  import opened CTypes

  /** `vtxRTC6705Config_t`: band 1..5, channel 1..8, power level and the
      enabled flag, each a `uint8_t`. */
  datatype Config = Config(band: uint8, channel: uint8, rfPower: uint8, enabled: uint8)

  /** The parameter group's reset template: band 4 (Fatshark/Airwaves),
      channel 1, the lowest power level, enabled. */
  const ResetConfig: Config := Config(4, 1, 0, 1)

  /** The common VTX layer's device type tags. */
  datatype DeviceType = Unsupported | Rtc6705 | SmartAudio | Tramp | Unknown

  /** The device descriptor handed to the common VTX layer. */
  datatype Descriptor = Descriptor(numBand: nat, numChan: nat, numPower: nat, powerNames: seq<string>)

  const PowerNames: seq<string> := ["---", "25 ", "200"]
  const Rtc6705Descriptor: Descriptor := Descriptor(5, 8, 3, PowerNames)

  /** The runtime mirror `rtc6705Dev`: what the backend last applied. */
  datatype DevState = DevState(band: uint8, channel: uint8, rfPower: uint8, enabled: bool)

  /** The mirror as `memset` to zero by `vtxRTC6705Init`. */
  const Cleared: DevState := DevState(0, 0, 0, false)

  /** One call into the chip driver, or the boot-settle wait. */
  datatype Event =
    | ChipEnable
    | ChipDisable
    | BootDelay
    | SetRFPower(level: uint8)
    | SetChannel(band: uint8, channel: uint8)

  /** Readings returned through the getters' out-pointers, with the
      getter's own boolean result in `ok`. */
  datatype BandChanReport = BandChanReport(ok: bool, band: uint8, chan: uint8)
  datatype PowerReport = PowerReport(ok: bool, index: uint8)
  datatype PitmodeReport = PitmodeReport(ok: bool, onOff: uint8)

  /** The mirror as the first `Process` tick fills it from the settings. */
  function Applied(cfg: Config): DevState
  {
    DevState(cfg.band, cfg.channel, cfg.rfPower, Truth(cfg.enabled))
  }

  /** What `vtxRTC6705Enable` sends to the chip for mirror `d`: enable,
      wait, then power, then the 0-based band and channel. */
  function EnableCommands(d: DevState): seq<Event>
  {
    [ChipEnable, BootDelay, SetRFPower(d.rfPower), SetChannel(Dec8(d.band), Dec8(d.channel))]
  }

  /** What the first `Process` tick sends to the chip for settings `cfg`. */
  function ApplyCommands(cfg: Config): seq<Event>
  {
    if Truth(cfg.enabled) then EnableCommands(Applied(cfg)) else [ChipDisable]
  }

  /** What `vtxRTC6705SetBandChan(band, chan)` sends: nothing when either
      argument is the sentinel 0, else one channel command, re-based to 0. */
  function BandChanCommands(band: uint8, chan: uint8): (r: seq<Event>)
    ensures r == [] <==> band == 0 || chan == 0
    ensures r != [] ==> r == [SetChannel(band - 1, chan - 1)]
  {
    if band != 0 && chan != 0 then [SetChannel(Dec8(band), Dec8(chan))] else []
  }

  /** What `vtxRTC6705SetPowerByIndex(index)` sends. Index 0 switches the
      transmitter off only when the board has the power pin, and does
      nothing otherwise; index k >= 1 selects power level k - 1. */
  function PowerCommands(hasPowerPin: bool, index: uint8): (r: seq<Event>)
    ensures |r| <= 1
    ensures index == 0 ==> (r == [ChipDisable] <==> hasPowerPin) && (r == [] <==> !hasPowerPin)
    ensures index != 0 ==> r == [SetRFPower(index - 1)]
  {
    if index == 0 then
      if hasPowerPin then [ChipDisable] else []
    else
      [SetRFPower(index - 1)]
  }

  /** The last command sent for each chip setting: RF stage on or off, the
      power level and the 0-based band and channel. What enable and disable
      do to the chip's stored power and tuning is not modelled. */
  datatype Commanded = Commanded(on: bool, level: uint8, band: uint8, channel: uint8)

  function Step(c: Commanded, e: Event): Commanded
  {
    match e
    case ChipEnable => c.(on := true)
    case ChipDisable => c.(on := false)
    case BootDelay => c
    case SetRFPower(level) => c.(level := level)
    case SetChannel(band, channel) => c.(band := band, channel := channel)
  }

  /** The commanded state after the events of `t`, in order, starting from `c`. */
  function Replay(c: Commanded, t: seq<Event>): Commanded
    decreases |t|
  {
    if t == [] then c else Replay(Step(c, t[0]), t[1..])
  }

  /** Replaying a trace in two pieces is replaying it whole. */
  lemma {:induction false} ReplayAppend(c: Commanded, a: seq<Event>, b: seq<Event>)
    ensures Replay(c, a + b) == Replay(Replay(c, a), b)
    decreases |a|
  {
    if a == [] {
      assert a + b == b;
    } else {
      assert (a + b)[0] == a[0];
      assert (a + b)[1..] == a[1..] + b;
      ReplayAppend(Step(c, a[0]), a[1..], b);
    }
  }

  /** The first tick leaves an enabled chip on, at the configured power,
      tuned to the configured band and channel re-based to 0; a disabled
      one off, with power and tuning as they were. */
  lemma ApplyOutcome(c: Commanded, cfg: Config)
    ensures Truth(cfg.enabled) ==>
      Replay(c, ApplyCommands(cfg)) == Commanded(true, cfg.rfPower, Dec8(cfg.band), Dec8(cfg.channel))
    ensures !Truth(cfg.enabled) ==> Replay(c, ApplyCommands(cfg)) == c.(on := false)
  {
    var t := ApplyCommands(cfg);
    if Truth(cfg.enabled) {
      var c1 := Step(c, t[0]);
      var c2 := Step(c1, t[1]);
      var c3 := Step(c2, t[2]);
      assert t[1..][1..][1..][1..] == [];
      assert Replay(c3, t[3..]) == Step(c3, t[3]);
      assert Replay(c2, t[2..]) == Replay(c3, t[3..]);
      assert Replay(c1, t[1..]) == Replay(c2, t[2..]);
    } else {
      assert t[1..] == [];
    }
  }

  /** With the reset defaults the first tick switches the chip on at the
      lowest power, tuned to band index 3 (Fatshark), channel index 0. */
  lemma ResetConfigApplies(c: Commanded)
    ensures Truth(ResetConfig.enabled)
    ensures ApplyCommands(ResetConfig) == [ChipEnable, BootDelay, SetRFPower(0), SetChannel(3, 0)]
    ensures Replay(c, ApplyCommands(ResetConfig)) == Commanded(true, 0, 3, 0)
  {
  }

  /** Setting a power index twice in a row, after any earlier commands,
      leaves the chip in the same commanded state as setting it once. */
  lemma SetPowerIdempotent(c: Commanded, before: seq<Event>, hasPowerPin: bool, index: uint8)
    ensures Replay(c, before + PowerCommands(hasPowerPin, index) + PowerCommands(hasPowerPin, index))
         == Replay(c, before + PowerCommands(hasPowerPin, index))
  {
    var t := PowerCommands(hasPowerPin, index);
    ReplayAppend(c, before + t, t);
    ReplayAppend(c, before, t);
  }

  /** Setting a band and channel twice in a row, after any earlier
      commands, leaves the chip in the same commanded state as setting
      them once. */
  lemma SetBandChanIdempotent(c: Commanded, before: seq<Event>, band: uint8, chan: uint8)
    ensures Replay(c, before + BandChanCommands(band, chan) + BandChanCommands(band, chan))
         == Replay(c, before + BandChanCommands(band, chan))
  {
    var t := BandChanCommands(band, chan);
    ReplayAppend(c, before + t, t);
    ReplayAppend(c, before, t);
  }

  /** The descriptor's power count matches the power-name table, and its
      band and channel counts are those of the 5 x 8 frequency table. */
  lemma DescriptorMatchesTables()
    ensures Rtc6705Descriptor.numPower == |Rtc6705Descriptor.powerNames|
    ensures Rtc6705Descriptor.numBand == 5 && Rtc6705Descriptor.numChan == 8
  {
  }

  /** The backend's module-level state. `hasPowerPin` is the build option
      `RTC6705_POWER_PIN`; `configured` is the static latch inside
      `vtxRTC6705Process`; `registered` records the one-shot registration
      with the common VTX layer. */
  class Rtc6705Device {
    const hasPowerPin: bool
    var dev: DevState
    var configured: bool
    var registered: bool
    ghost var trace: seq<Event>

    /** Power-on state: C zero-initialises the globals and statics. */
    constructor (hasPowerPin: bool)
      ensures this.hasPowerPin == hasPowerPin
      ensures dev == Cleared && !configured && !registered && trace == []
    {
      this.hasPowerPin := hasPowerPin;
      dev := Cleared;
      configured := false;
      registered := false;
      trace := [];
    }

    /** `vtxRTC6705Init`: clears the mirror, registers the device, succeeds.
        It does not touch the `configured` latch or the chip. */
    method Init() returns (ok: bool)
      modifies this`dev, this`registered
      ensures ok
      ensures dev == Cleared && registered
    {
      dev := Cleared;
      registered := true;
      ok := true;
    }

    /** `vtxRTC6705Disable`: one disable command; only `enabled` changes. */
    method Disable()
      modifies this`dev, this`trace
      ensures dev == old(dev).(enabled := false)
      ensures trace == old(trace) + [ChipDisable]
    {
      trace := trace + [ChipDisable];
      dev := dev.(enabled := false);
    }

    /** `vtxRTC6705Enable`: enable, boot delay, power, channel, in that
        order, from the mirror; then marks the mirror enabled. */
    method Enable()
      modifies this`dev, this`trace
      ensures dev == old(dev).(enabled := true)
      ensures trace == old(trace) + EnableCommands(old(dev))
    {
      trace := trace + [ChipEnable];
      trace := trace + [BootDelay];
      trace := trace + [SetRFPower(dev.rfPower)];
      trace := trace + [SetChannel(Dec8(dev.band), Dec8(dev.channel))];
      dev := dev.(enabled := true);
    }

    /** `vtxRTC6705Process`: on the first tick copies band, channel and
        power from the settings into the mirror and enables or disables the
        chip; every later tick does nothing. `now` is unused. */
    method Process(cfg: Config, now: uint32)
      modifies this`dev, this`configured, this`trace
      ensures configured
      ensures old(configured) ==> dev == old(dev) && trace == old(trace)
      ensures !old(configured) ==> dev == Applied(cfg) && trace == old(trace) + ApplyCommands(cfg)
    {
      if !configured {
        dev := dev.(band := cfg.band, channel := cfg.channel, rfPower := cfg.rfPower);
        if Truth(cfg.enabled) {
          Enable();
        } else {
          Disable();
        }
        configured := true;
      }
    }

    function GetDeviceType(): (t: DeviceType)
      ensures t == Rtc6705
    {
      Rtc6705
    }

    function IsReady(): (r: bool)
      ensures r
    {
      true
    }

    /** `vtxRTC6705SetBandChan`: commands the chip; the mirror is left as it was. */
    method SetBandChan(band: uint8, chan: uint8)
      modifies this`trace
      ensures trace == old(trace) + BandChanCommands(band, chan)
    {
      if band != 0 && chan != 0 {
        trace := trace + [SetChannel(Dec8(band), Dec8(chan))];
      }
    }

    /** `vtxRTC6705SetPowerByIndex`: commands the chip; the mirror, its
        `enabled` flag included, is left as it was. */
    method SetPowerByIndex(index: uint8)
      modifies this`trace
      ensures trace == old(trace) + PowerCommands(hasPowerPin, index)
    {
      if hasPowerPin {
        if index == 0 {
          trace := trace + [ChipDisable];
          return;
        }
      } else {
        if index == 0 {
          return;
        }
      }
      trace := trace + [SetRFPower(index - 1)];
    }

    /** `vtxRTC6705SetPitmode`: the hardware has no pit mode; nothing changes. */
    method SetPitmode(onOff: uint8)
      ensures unchanged(this)
    {
    }

    /** `vtxRTC6705GetBandChan` as written: the mirror's band and channel,
        which are already 1-based, each incremented once more. */
    function GetBandChan(): (r: BandChanReport)
      reads this
      ensures r.ok
      ensures dev.band < 0xFF ==> r.band == dev.band + 1
      ensures dev.channel < 0xFF ==> r.chan == dev.channel + 1
      ensures dev.band == 0xFF ==> r.band == 0
      ensures dev.channel == 0xFF ==> r.chan == 0
    {
      BandChanReport(true, Inc8(dev.band), Inc8(dev.channel))
    }

    /** The read-back that `GetBandChan` evidently intends: the mirror's
        1-based band and channel, unchanged. */
    function GetBandChanIntended(): (r: BandChanReport)
      reads this
      ensures r.ok
      ensures dev.band != 0 && dev.channel != 0 ==>
        BandChanCommands(r.band, r.chan) == [EnableCommands(dev)[3]]
    {
      BandChanReport(true, dev.band, dev.channel)
    }

    /** `vtxRTC6705GetPowerIndex`: 0 while disabled, else the power level
        shifted up by one into the index space of `SetPowerByIndex`. */
    function GetPowerIndex(): (r: PowerReport)
      reads this
      ensures r.ok
      ensures !dev.enabled ==> r.index == 0
      ensures dev.enabled && dev.rfPower < 0xFF ==>
        PowerCommands(hasPowerPin, r.index) == [SetRFPower(dev.rfPower)]
      ensures dev.enabled && dev.rfPower == 0xFF ==> r.index == 0
    {
      PowerReport(true, if dev.enabled then Inc8(dev.rfPower) else 0)
    }

    /** `vtxRTC6705GetPitmode`: fails and leaves its out-parameter, whose
        prior value is `onOff`, unwritten. */
    function GetPitmode(onOff: uint8): (r: PitmodeReport)
      ensures !r.ok && r.onOff == onOff
    {
      PitmodeReport(false, onOff)
    }
  }

  /** Reading the band and channel back and setting them again does not
      retune the chip to where the first tick put it: for every valid
      setting the as-written read-back lands one band and one channel
      higher. */
  lemma ReadbackRetunesChip(d: Rtc6705Device, cfg: Config)
    requires 1 <= cfg.band <= 5 && 1 <= cfg.channel <= 8 && Truth(cfg.enabled)
    requires d.dev == Applied(cfg)
    ensures BandChanCommands(d.GetBandChan().band, d.GetBandChan().chan) == [SetChannel(cfg.band, cfg.channel)]
    ensures ApplyCommands(cfg)[3] == SetChannel(cfg.band - 1, cfg.channel - 1)
    ensures BandChanCommands(d.GetBandChan().band, d.GetBandChan().chan) != [ApplyCommands(cfg)[3]]
  {
  }

  /** Any number of ticks, from power-on: the chip is programmed exactly
      once, from the settings in force at the first tick, whatever settings
      each later tick is given. */
  method TicksApplyOnce(cfg: Config, later: seq<Config>, hasPowerPin: bool)
    returns (mirror: DevState, ghost trace: seq<Event>)
    ensures mirror == Applied(cfg)
    ensures trace == ApplyCommands(cfg)
  {
    var d := new Rtc6705Device(hasPowerPin);
    var ok := d.Init();
    d.Process(cfg, 0);
    var i := 0;
    while i < |later|
      invariant i <= |later|
      invariant d.configured && d.dev == Applied(cfg) && d.trace == ApplyCommands(cfg)
    {
      d.Process(later[i], 0);
      i := i + 1;
    }
    mirror, trace := d.dev, d.trace;
  }
}
