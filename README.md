# VTX control layer (Cleanflight), modelled in Dafny

This project models three sequential pieces of Cleanflight's video-transmitter
(VTX) control layer and proves properties of them:

- **The RTC6705 backend** (`vtx_rtc6705.dfy`, module `VtxRtc6705`). It covers the
  persisted settings record `vtxRTC6705Config_t` and its reset defaults, and the
  runtime mirror `rtc6705Dev`. It covers the apply-once `Process` tick with its
  static `configured` latch, the enable and disable sequences, and the nine
  operations of the common VTX interface. The chip driver calls and the boot
  delay are recorded as events in a ghost trace. `Replay` folds a trace into the
  last command sent for each chip setting (on/off, power level, band, channel).
- **The channel-activation matcher with the arming lockout** (`vtx_control.dfy`,
  module `VtxControl`). It covers the one-way `locked` latch, the static
  `lastIndex` and its scan loop, and `setChannelSaveAndNotify` with its
  write-then-read of storage. It also covers the four increment/decrement stubs.
  `SearchFrom` specifies the scan, and `UpdateActivatedChannel` is proved to match it.
- **The CMS VTX menu page** (`cms_menu_vtx.dfy`, module `CmsMenuVtx`). It covers
  the shadow variables and the once-per-boot `featureRead` latch. It covers the
  snapshot with the band re-based from 1-based to 0-based, and the writeback.
  It also covers the `onEnter` / `onExit` / `onGlobalExit` callbacks and the
  numeric bounds of the menu entries.

`ctypes.dfy` (module `CTypes`) holds the `uint8_t` conversions the three share.
In C, `band - 1` and `band + 1` are stored into `uint8_t`, so they wrap at 0
and 255. `Dec8` and `Inc8` model that wrap. The same `Dec8` is used for the
`band - 1` and `channel - 1` passed to the chip driver's set-channel call,
which assumes that call takes `uint8_t` arguments (see "## Left out").

`Replay` tracks, for each chip setting (on/off, power level, band, channel),
the last command sent for it. It is not a model of the chip's registers:
what `rtc6705Disable` or `rtc6705Enable` does to the stored power level and
tuning is not part of this model, so "as before" in `ApplyOutcome` and the
idempotence lemmas speak of commands sent, not of register contents.

Inputs the code takes from elsewhere become parameters:
- `isRangeActive` of each activation condition becomes a `seq<bool>`.
- `ARMING_FLAG(ARMED)` becomes a `bool`.
- The settings record read by `Process` becomes a `Config` argument.
- The build option `RTC6705_POWER_PIN` becomes a constant field of the device.

Behaviours of the code that a reader might not expect; the model keeps each as written:
- One might expect the getters to report the last value set through the
  interface. They do not: the setters never update `rtc6705Dev`, so the
  getters report what the first tick applied.
- One might expect `GetBandChan` to report the stored 1-based band and
  channel. It adds one to each (see "## Findings").
- One might expect power index 0 always to switch the transmitter off.
  Without the power pin it does nothing.
- One might expect the lowest active condition to win and stay selected.
  With two conditions active at once, the matcher alternates between them on
  successive calls (`AlternatesUnderOverlap`).
- One might expect reading the settings into the menu and writing them back to
  restore them exactly. The `enabled` byte passes through a `bool` shadow, so
  only 0 and 1 come back unchanged (`WritebackNormalisesEnabled`).

## Model

| member | source | states |
|---|---|---|
| `CTypes.Inc8` | src/main/io/vtx_rtc6705.c:184-185 | `x + 1` stored into a `uint8_t` is `x + 1` below 255 and 0 at 255 |
| `CTypes.Dec8` | src/main/cms/cms_menu_vtx.c:88 | `x - 1` stored into a `uint8_t` is `x - 1` above 0 and 255 at 0 |
| `CTypes.FromBool` | src/main/cms/cms_menu_vtx.c:95 | a `bool` stored into a `uint8_t` is 0 or 1 and keeps its truth value |
| `CTypes.WrapInverse` | src/main/cms/cms_menu_vtx.c:88-96 | decrement and increment of a `uint8_t` undo each other for all 256 values |
| `VtxRtc6705.Rtc6705Device.constructor` | src/main/io/vtx_rtc6705.c:82-89 | at power-on the mirror is zero, the device is not configured or registered, and the chip has had no command |
| `VtxRtc6705.Rtc6705Device.Init` | src/main/io/vtx_rtc6705.c:92-100 | clears band, channel and power to 0 and `enabled` to false, registers the device and returns true; the `configured` latch and the chip are untouched |
| `VtxRtc6705.Rtc6705Device.Disable` | src/main/io/vtx_rtc6705.c:102-106 | appends exactly one disable command and clears `enabled`; band, channel and power are unchanged |
| `VtxRtc6705.Rtc6705Device.Enable` | src/main/io/vtx_rtc6705.c:108-118 | appends exactly enable, boot delay, set power to the mirror's level, and set channel to the mirror's band-1 and channel-1, in that order; then sets `enabled` |
| `VtxRtc6705.Rtc6705Device.Process` | src/main/io/vtx_rtc6705.c:120-137 | the first tick copies band, channel and power from the settings into the mirror and runs Enable if the settings' `enabled` byte is nonzero, Disable otherwise; every later tick changes nothing and commands nothing |
| `VtxRtc6705.ApplyOutcome` | src/main/io/vtx_rtc6705.c:108-137 | after the first tick an enabled chip is on at the configured power, tuned to band-1 and channel-1; a disabled one is off with power and tuning as before |
| `VtxRtc6705.ResetConfigApplies` | src/main/io/vtx_rtc6705.c:54-59 | the reset defaults are enabled, and the first tick on them commands enable, delay, power 0, channel (3, 0) |
| `VtxRtc6705.TicksApplyOnce` | src/main/io/vtx_rtc6705.c:120-137 | for any number of ticks after Init, the chip is programmed once, from the settings given at the first tick, whatever settings each later tick passes (a different record per tick allowed) |
| `VtxRtc6705.DescriptorMatchesTables` | src/main/io/vtx_rtc6705.c:64-79 | the descriptor declares 5 bands and 8 channels, and 3 power levels matching the 3-entry power-name table |
| `VtxRtc6705.Rtc6705Device.GetDeviceType` | src/main/io/vtx_rtc6705.c:142-145 | always the RTC6705 device type |
| `VtxRtc6705.Rtc6705Device.IsReady` | src/main/io/vtx_rtc6705.c:147-150 | always ready |
| `VtxRtc6705.BandChanCommands` | src/main/io/vtx_rtc6705.c:152-156 | no command exactly when band or channel is the sentinel 0, otherwise exactly one set-channel to (band-1, channel-1) |
| `VtxRtc6705.Rtc6705Device.SetBandChan` | src/main/io/vtx_rtc6705.c:152-156 | appends exactly those commands; the mirror is not modified |
| `VtxRtc6705.SetBandChanIdempotent` | src/main/io/vtx_rtc6705.c:152-156 | after any earlier commands, setting the same band and channel twice in a row leaves the chip in the same commanded state as once |
| `VtxRtc6705.PowerCommands` | src/main/io/vtx_rtc6705.c:158-174 | index 0 gives one disable with the power pin and nothing without it; index k >= 1 gives exactly one set-power to k-1 |
| `VtxRtc6705.Rtc6705Device.SetPowerByIndex` | src/main/io/vtx_rtc6705.c:158-174 | appends exactly those commands; the mirror, `enabled` included, is not modified |
| `VtxRtc6705.SetPowerIdempotent` | src/main/io/vtx_rtc6705.c:158-174 | after any earlier commands, setting the same power index twice in a row leaves the chip in the same commanded state as once |
| `VtxRtc6705.Rtc6705Device.SetPitmode` | src/main/io/vtx_rtc6705.c:176-180 | changes nothing |
| `VtxRtc6705.Rtc6705Device.GetBandChan` | src/main/io/vtx_rtc6705.c:182-187 | returns true and reports the mirror's band + 1 and channel + 1, wrapping to 0 when either is 255 |
| `VtxRtc6705.ReadbackRetunesChip` | src/main/io/vtx_rtc6705.c:182-187 | for every valid enabled setting, feeding the reported band and channel back to SetBandChan commands channel (band, channel), not the (band-1, channel-1) the first tick commanded |
| `VtxRtc6705.Rtc6705Device.GetBandChanIntended` | src/main/io/vtx_rtc6705.c:182-187 | corrected read-back: feeding it back to SetBandChan commands the same channel as Enable did |
| `VtxRtc6705.Rtc6705Device.GetPowerIndex` | src/main/io/vtx_rtc6705.c:189-193 | returns true; reports 0 while disabled; while enabled at a level below 255, feeding the report back to SetPowerByIndex commands the mirror's power level; while enabled at level 255 the index wraps to 0, which SetPowerByIndex reads as off |
| `VtxRtc6705.Rtc6705Device.GetPitmode` | src/main/io/vtx_rtc6705.c:195-199 | returns false and leaves its out-parameter unwritten |
| `VtxControl.Controller.constructor` | src/main/io/vtx_control.c:40 | at power-on `locked` is clear, `lastIndex` is 255 (the `uint8_t` -1 of line 89), and storage has not been touched |
| `VtxControl.Controller.SetChannelSaveAndNotify` | src/main/io/vtx_control.c:47-60 | `locked` becomes set if armed and is never cleared; a write then a read of storage happen only when not locked afterwards, so none once armed |
| `VtxControl.SearchFrom` | src/main/io/vtx_control.c:91-101 | the least index from `i` on whose condition is active and which differs from the last index, or none when no such index exists |
| `VtxControl.Controller.UpdateActivatedChannel` | src/main/io/vtx_control.c:82-104 | `locked` becomes set if armed and is never cleared; while locked, including on the call that sets it, `lastIndex` is unchanged; otherwise it becomes the scan's first match, or stays when nothing matches |
| `VtxControl.SelectedIsLeastOther` | src/main/io/vtx_control.c:89-101 | an unlocked scan leaves `lastIndex` unchanged or sets it below the condition count, to the least active index other than the old one; it is unchanged exactly when no other condition is active |
| `VtxControl.FirstSelectionIsLowest` | src/main/io/vtx_control.c:89-96 | from the initial 255, the first scan selects the lowest active condition, so of overlapping conditions the lower index wins |
| `VtxControl.StableWhenOnlyLastActive` | src/main/io/vtx_control.c:94-95 | if the only active condition is the recorded one, the scan changes nothing, and repeating it changes nothing |
| `VtxControl.AlternatesUnderOverlap` | src/main/io/vtx_control.c:91-101 | with exactly two conditions active, successive scans alternate between them |
| `VtxControl.OverlapThenArm` | src/main/io/vtx_control.c:47-104 | from power-on with two active conditions, three calls give the lower, higher, lower index; a save before arming writes then reads storage once; once armed, nothing moves, the lock stays set, and a later save makes no storage call |
| `VtxControl.Controller.IncrementBand` | src/main/io/vtx_control.c:62-65 | changes nothing |
| `VtxControl.Controller.DecrementBand` | src/main/io/vtx_control.c:67-70 | changes nothing |
| `VtxControl.Controller.IncrementChannel` | src/main/io/vtx_control.c:72-75 | changes nothing |
| `VtxControl.Controller.DecrementChannel` | src/main/io/vtx_control.c:77-80 | changes nothing |
| `CmsMenuVtx.VtxMenu.constructor` | src/main/cms/cms_menu_vtx.c:44-49 | at power-on the feature flag has not been sampled and all shadows are zero |
| `CmsMenuVtx.VtxMenu.FeatureRead` | src/main/cms/cms_menu_vtx.c:51-59 | the first call samples the feature flag as 1 or 0; later calls leave the shadow unchanged; always returns 0 |
| `CmsMenuVtx.FeatureSampledOnce` | src/main/cms/cms_menu_vtx.c:51-59 | re-entering the menu after the flag changed elsewhere keeps the first sample |
| `CmsMenuVtx.VtxMenu.FeatureWriteback` | src/main/cms/cms_menu_vtx.c:61-71 | does nothing before the flag was sampled; afterwards sets the flag exactly when the shadow is nonzero; returns 0 |
| `CmsMenuVtx.GlobalExitTwice` | src/main/cms/cms_menu_vtx.c:61-71 | after entering and editing the feature shadow, two global exits leave the flag as one does, matching the shadow |
| `CmsMenuVtx.VtxMenu.ConfigRead` | src/main/cms/cms_menu_vtx.c:85-91 | the shadows hold `enabled` as a truth value, `band - 1` (wrapping), and channel and power verbatim |
| `CmsMenuVtx.VtxMenu.ConfigWriteback` | src/main/cms/cms_menu_vtx.c:93-99 | the record holds the shadows back, with `band + 1` (wrapping) and `enabled` as 0 or 1 |
| `CmsMenuVtx.ReadWritebackRoundTrip` | src/main/cms/cms_menu_vtx.c:85-99 | read followed by writeback leaves the record unchanged for every band byte, whenever `enabled` is 0 or 1 |
| `CmsMenuVtx.WritebackNormalisesEnabled` | src/main/cms/cms_menu_vtx.c:85-99 | read followed by writeback turns any nonzero `enabled` into 1 and restores every other field |
| `CmsMenuVtx.ChannelEditChangesOnlyChannel` | src/main/cms/cms_menu_vtx.c:85-99 | changing only the channel shadow between read and writeback changes the stored channel and otherwise only turns a nonzero `enabled` into 1; whenever `enabled` is 0 or 1, only the channel changes |
| `CmsMenuVtx.BandTabRoundTrip` | src/main/cms/cms_menu_vtx.c:81-99 | stored bands 1..5 map to tab 0..4 and back without drift, and in-range records and in-bounds shadows map onto each other |
| `CmsMenuVtx.MenuBoundsMatchDescriptor` | src/main/cms/cms_menu_vtx.c:81-83 | the band tab has one entry per band of the device, channels run to its channel count, and power to its non-off levels |
| `CmsMenuVtx.VtxMenu.OnEnter` | src/main/cms/cms_menu_vtx.c:101-107 | runs FeatureRead then ConfigRead and returns 0 |
| `CmsMenuVtx.VtxMenu.OnExit` | src/main/cms/cms_menu_vtx.c:109-116 | runs only ConfigWriteback; the feature flag is unchanged |
| `CmsMenuVtx.VtxMenu.OnGlobalExit` | src/main/cms/cms_menu_vtx.c:131-138 | is FeatureWriteback |
| `CmsMenuVtx.EditChannelSession` | src/main/cms/cms_menu_vtx.c:101-116 | entering, editing only the channel and exiting gives back the record with its channel changed and a nonzero `enabled` turned into 1; whenever `enabled` is 0 or 1, only the channel changes |

## Findings

| source | as written | input that shows it | evidently intended | confidence | as-written member | corrected member |
|---|---|---|---|---|---|---|
| src/main/io/vtx_rtc6705.c:184-185 | `GetBandChan` reports `band + 1` and `channel + 1`, but the mirror already holds the 1-based values that `SetBandChan` expects | settings band 4, channel 1, enabled: the report is (5, 2), and `SetBandChan(5, 2)` commands channel (4, 1), where the first tick commanded (3, 0) | report the mirror's band and channel unchanged | medium, not executed | `VtxRtc6705.ReadbackRetunesChip` | `VtxRtc6705.Rtc6705Device.GetBandChanIntended` |

No other member of the model reads the band and channel back, so both getters
stand side by side: `GetBandChan` as written, and `GetBandChanIntended` with the
round trip proved in its contract.

## Left out

- `handleVTXControlButton` is compiled out by `#if 0`. It polls a clock, reads a button pin and toggles an LED.
- `vtxControlInit` has an empty body and is not modelled.
- Register programming behind the chip driver calls is not modelled. Each call is one trace event.
- The prototypes of `rtc6705SetChannel` and `rtc6705SetRFPower` are in a driver header that is not part of this model. Their arguments are taken to be `uint8_t`, so `band - 1` with band 0 reaches the driver as 255 (`Dec8`).
- `Replay` records the last command sent for each chip setting, not the chip's register contents; the effect of enable and disable on stored power and tuning is not modelled.
- The value of `RTC6705_BOOT_DELAY` is defined in a driver header that is not part of this model. The delay is one `BootDelay` event with no duration.
- `writeEEPROM` / `readEEPROM` are two trace events. Storage contents are not modelled.
- The parameter-group registration macros are not modelled. The settings record is a plain value, and its reset template is the constant `ResetConfig`.
- `isRangeActive` and the arming flag are inputs. Their implementations are not part of this model.
- The activation-condition table itself (aux channel, range, band, channel) is not modelled. Only whether each condition is active enters the matcher.
- `MAX_CHANNEL_ACTIVATION_CONDITION_COUNT` is defined in a header that is not part of this model. It is taken as 10, and the proofs use only that it is below 255.
- `locked` is a `uint8_t` in the source that only ever holds 0 or 1. It is modelled as a `bool`.
- The matched condition's band and channel are never applied to the device. That call is commented out in the source.
- `vtxCommonRegisterDevice` and the vtable dispatch are not modelled. Registration is a flag, and the nine operations are members of `Rtc6705Device`.
- The device type enum lives in a common VTX header that is not part of this model. `DeviceType` lists its tags by name only.
- The descriptor's band and channel name tables are external. Only the counts are kept.
- Menu rendering and navigation (the entry table, labels, widget types, name strings) are not modelled. Only the numeric bounds of the entries are kept. The menu engine's edits are field assignments in the session members.
- The settings record read by `Process` and the one edited by the menu are separate values in this model. In the firmware they are the same global parameter group.
- `Process`'s `now` argument is unused in the source and unused here.
