/** The VTX page of the on-screen configuration menu: shadow variables the
    menu edits, snapshotted from the RTC6705 settings record on entry and
    written back on exit, and the `FEATURE_VTX` flag, sampled once per boot
    and written back on global exit.

    The shadow band is 0-based (an index into the five band names) while
    the stored band is 1-based; the conversions are `uint8_t` arithmetic,
    so they wrap. */
module CmsMenuVtx {
  import opened CTypes
  import opened VtxRtc6705

  /** Bounds of the menu entries: the band tab has five names (0..4),
      channel 1..8 and power 0..1. */
  const BandTabMax: uint8 := 4
  const ChannelMin: uint8 := 1
  const ChannelMax: uint8 := 8
  const RfPowerMin: uint8 := 0
  const RfPowerMax: uint8 := 1

  /** The four settings shadows `cmsx_vtxEnabled`, `cmsx_vtxBand`,
      `cmsx_vtxChannel` and `cmsx_vtxRfPower`, as one value. */
  datatype Shadow = Shadow(enabled: bool, band: uint8, channel: uint8, rfPower: uint8)

  /** What `cmsx_Vtx_ConfigRead` loads from the settings record. */
  function Snapshot(cfg: Config): Shadow
  {
    Shadow(Truth(cfg.enabled), Dec8(cfg.band), cfg.channel, cfg.rfPower)
  }

  /** What `cmsx_Vtx_ConfigWriteback` stores into the settings record. */
  function Writeback(s: Shadow): Config
  {
    Config(Inc8(s.band), s.channel, s.rfPower, FromBool(s.enabled))
  }

  /** A settings record whose `enabled` byte is a proper boolean. */
  predicate BooleanEnabled(cfg: Config)
  {
    cfg.enabled <= 1
  }

  /** A settings record inside the ranges the menu offers. */
  predicate InMenuRange(cfg: Config)
  {
    1 <= cfg.band <= BandTabMax + 1 && ChannelMin <= cfg.channel <= ChannelMax &&
    RfPowerMin <= cfg.rfPower <= RfPowerMax
  }

  /** Shadows inside the bounds of the menu entries. */
  predicate ShadowInBounds(s: Shadow)
  {
    s.band <= BandTabMax && ChannelMin <= s.channel <= ChannelMax &&
    RfPowerMin <= s.rfPower <= RfPowerMax
  }

  /** Reading the record and writing it straight back leaves it unchanged,
      for every band byte including 0 and 255, whenever `enabled` holds a
      proper boolean. */
  lemma ReadWritebackRoundTrip(cfg: Config)
    requires BooleanEnabled(cfg)
    ensures Writeback(Snapshot(cfg)) == cfg
  {
  }

  /** The `enabled` byte passes through a `bool` shadow, so any nonzero
      value comes back as 1. */
  lemma WritebackNormalisesEnabled(cfg: Config)
    ensures Writeback(Snapshot(cfg)).enabled == if cfg.enabled == 0 then 0 else 1
    ensures Writeback(Snapshot(cfg)).(enabled := cfg.enabled) == cfg
  {
  }

  /** Editing only the channel shadow between read and writeback changes
      the stored channel and otherwise only normalises `enabled` to 0 or 1;
      when `enabled` already is 0 or 1, only the channel changes. */
  lemma ChannelEditChangesOnlyChannel(cfg: Config, channel: uint8)
    ensures Writeback(Snapshot(cfg).(channel := channel))
         == cfg.(channel := channel, enabled := FromBool(Truth(cfg.enabled)))
    ensures BooleanEnabled(cfg) ==> Writeback(Snapshot(cfg).(channel := channel)) == cfg.(channel := channel)
  {
  }

  /** Stored bands 1..5 map onto the band tab 0..4 and back without drift,
      and every in-range record gives in-bounds shadows; conversely
      in-bounds shadows write back an in-range record. */
  lemma BandTabRoundTrip(cfg: Config, s: Shadow)
    ensures InMenuRange(cfg) ==> ShadowInBounds(Snapshot(cfg)) && Inc8(Snapshot(cfg).band) == cfg.band
    ensures ShadowInBounds(s) ==> InMenuRange(Writeback(s)) && Snapshot(Writeback(s)).band == s.band
  {
  }

  /** The menu's bounds agree with the RTC6705 descriptor: one tab per
      band, channels up to the channel count, and one shadow value per
      power level that is not "off". */
  lemma MenuBoundsMatchDescriptor()
    ensures BandTabMax + 1 == Rtc6705Descriptor.numBand
    ensures ChannelMax == Rtc6705Descriptor.numChan
    ensures RfPowerMax - RfPowerMin + 1 == Rtc6705Descriptor.numPower - 1
  {
  }

  /** The menu's static state, the settings record it edits and the
      system's `FEATURE_VTX` flag. */
  class VtxMenu {
    var featureRead: bool
    var featureVtx: uint8
    var vtxEnabled: bool
    var vtxBand: uint8
    var vtxChannel: uint8
    var vtxRfPower: uint8
    var config: Config
    var featureFlag: bool

    /** Power-on state: the statics are zero; the record and the flag hold
        what was loaded from storage. */
    constructor (stored: Config, feature: bool)
      ensures !featureRead && featureVtx == 0
      ensures Shadows() == Shadow(false, 0, 0, 0)
      ensures config == stored && featureFlag == feature
    {
      featureRead := false;
      featureVtx := 0;
      vtxEnabled := false;
      vtxBand := 0;
      vtxChannel := 0;
      vtxRfPower := 0;
      config := stored;
      featureFlag := feature;
    }

    function Shadows(): Shadow
      reads this
    {
      Shadow(vtxEnabled, vtxBand, vtxChannel, vtxRfPower)
    }

    /** `cmsx_Vtx_FeatureRead`: samples the feature flag as 0 or 1, on the
        first call only. */
    method FeatureRead() returns (r: int)
      modifies this`featureRead, this`featureVtx
      ensures r == 0
      ensures featureRead
      ensures featureVtx == if old(featureRead) then old(featureVtx) else FromBool(featureFlag)
    {
      if !featureRead {
        featureVtx := if featureFlag then 1 else 0;
        featureRead := true;
      }
      r := 0;
    }

    /** `cmsx_Vtx_FeatureWriteback`: once the flag has been sampled, sets
        or clears it to match the shadow; before that, does nothing. The
        new flag does not depend on the old one, so a second call changes
        nothing. */
    method FeatureWriteback() returns (r: int)
      modifies this`featureFlag
      ensures r == 0
      ensures featureFlag == if featureRead then Truth(featureVtx) else old(featureFlag)
    {
      if featureRead {
        if featureVtx != 0 {
          featureFlag := true;
        } else {
          featureFlag := false;
        }
      }
      r := 0;
    }

    /** `cmsx_Vtx_ConfigRead`: loads the shadows from the record. */
    method ConfigRead()
      modifies this`vtxEnabled, this`vtxBand, this`vtxChannel, this`vtxRfPower
      ensures Shadows() == Snapshot(config)
    {
      vtxEnabled := Truth(config.enabled);
      vtxBand := Dec8(config.band);
      vtxChannel := config.channel;
      vtxRfPower := config.rfPower;
    }

    /** `cmsx_Vtx_ConfigWriteback`: stores the shadows into the record. */
    method ConfigWriteback()
      modifies this`config
      ensures config == Writeback(Shadows())
    {
      config := config.(enabled := FromBool(vtxEnabled));
      config := config.(band := Inc8(vtxBand));
      config := config.(channel := vtxChannel);
      config := config.(rfPower := vtxRfPower);
    }

    /** `cmsx_Vtx_onEnter`: samples the feature flag (first time only),
        then re-snapshots the record. */
    method OnEnter() returns (r: int)
      modifies this`featureRead, this`featureVtx, this`vtxEnabled, this`vtxBand, this`vtxChannel, this`vtxRfPower
      ensures r == 0
      ensures featureRead
      ensures featureVtx == if old(featureRead) then old(featureVtx) else FromBool(featureFlag)
      ensures Shadows() == Snapshot(config)
    {
      r := FeatureRead();
      ConfigRead();
      r := 0;
    }

    /** `cmsx_Vtx_onExit`: writes the shadows back; the feature flag is not
        touched. */
    method OnExit() returns (r: int)
      modifies this`config
      ensures r == 0
      ensures config == Writeback(Shadows())
      ensures featureFlag == old(featureFlag)
    {
      ConfigWriteback();
      r := 0;
    }

    /** `onGlobalExit`, which is `cmsx_Vtx_FeatureWriteback`. */
    method OnGlobalExit() returns (r: int)
      modifies this`featureFlag
      ensures r == 0
      ensures featureFlag == if featureRead then Truth(featureVtx) else old(featureFlag)
    {
      r := FeatureWriteback();
    }
  }

  /** Enter the menu, edit only the channel, exit: the record comes back
      with its channel changed and `enabled` normalised to 0 or 1; when
      `enabled` already is 0 or 1, only the channel changes. */
  method EditChannelSession(stored: Config, feature: bool, channel: uint8) returns (after: Config)
    ensures after == stored.(channel := channel, enabled := FromBool(Truth(stored.enabled)))
    ensures BooleanEnabled(stored) ==> after == stored.(channel := channel)
  {
    var m := new VtxMenu(stored, feature);
    var r := m.OnEnter();
    m.vtxChannel := channel;
    r := m.OnExit();
    after := m.config;
  }

  /** Enter the menu, set the feature shadow, then leave the whole menu
      system twice: both global exits leave the flag as the shadow says,
      and the second has no further effect. */
  method GlobalExitTwice(stored: Config, feature: bool, edited: uint8) returns (once: bool, twice: bool)
    ensures once == Truth(edited)
    ensures twice == once
  {
    var m := new VtxMenu(stored, feature);
    var r := m.OnEnter();
    m.featureVtx := edited;
    r := m.OnGlobalExit();
    once := m.featureFlag;
    r := m.OnGlobalExit();
    twice := m.featureFlag;
  }

  /** The feature flag is sampled once per boot: re-entering the menu after
      the flag changed elsewhere keeps the first sample. */
  method FeatureSampledOnce(stored: Config, feature: bool) returns (first: uint8, second: uint8)
    ensures first == FromBool(feature)
    ensures second == first
  {
    var m := new VtxMenu(stored, feature);
    var r := m.OnEnter();
    first := m.featureVtx;
    m.featureFlag := !feature;
    r := m.OnEnter();
    second := m.featureVtx;
  }
}
