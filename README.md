# Front-panel control of the Xiegu X6100 GUI, in Dafny

This project models the front-panel logic of the X6100 transceiver's user
interface, `src/main_screen.c`, and proves properties of it. That logic covers:

- the keypad, hardware-key, keyboard and encoder callbacks;
- the three lock flags (`freq_lock`, `mode_lock`, `band_lock`);
- tuning with knob acceleration;
- band tracking after a tuning step or a direct frequency entry;
- the memory channels;
- the mode-cycling tables of the mode keys;
- the application pages and the press actions;
- the choice of the VFO the display shows.

The model has two layers.

- **Values.** `PanelState.Panel` holds the whole panel state:
  - the locks;
  - the current VFO's frequency and mode (`cur`);
  - the other VFO, split and TX;
  - `params.band` and `params.freq_band`;
  - the band label, the frequency step of each mode and the memory channels;
  - the widget sub-states the panel switches (MFK and volume knob modes, the running dialog, RTTY, the button bar, the recorder);
  - a `trace` of the effects emitted to collaborators, oldest first.

  Each C function is a pure transition `Panel -> Panel` (modules `Controller` and `EventDispatch`). Effects are appended to the trace in the order the C code performs them.
- **Object.** `MainScreenObject.MainScreen` is a class whose fields are the parts of the panel state. Its methods update those fields in place, as the C statics and `params` are updated. Each method is proved to end in the state that the transition of the same name computes from the old state. So every property proved about the transitions also holds of the object. `change_mode`'s search of the spoken-name table is a `while` loop (`Modes.FindModeText`), proved equal to the functional lookup.

Collaborators whose code is not part of this model are fields of `PanelState.Env`:

- the band catalogue searched by `params_bands_find`;
- the acceleration setting `params.freq_accel`;
- `MEM_FT8_ID`, `MEM_FT4_ID` and `MEM_NUM`;
- the press action bound to each key slot;
- the frequency `radio_change_freq` settles on;
- the step `params_current_mode_freq_step_change` selects;
- the parameters each band stores for each VFO, which `bands_activate` loads.

Calls that only produce output (radio commands, dialog events, messages, voice, spectrum and waterfall) are trace entries.

`EventDispatch.Keypad`, `EventDispatch.HKeyPressed` and `EventDispatch.KeyboardKey` are the three key callbacks. They carry no contract of their own. The `Properties` lemmas state what they do key by key, for example the lock and band-key lemmas and `VolToggle`, and the `MainScreen` methods of the same names are proved equal to them.

`EventDispatch.Dispatch` and `EventDispatch.Run` feed a sequence of events to the callbacks in arrival order. They exist only to state properties of whole runs, such as the lock state machine. The C program has no such loop: LVGL calls the callbacks directly.

## Model

| member | source | states |
|---|---|---|
| Modes.NextModeAmFm | src/main_screen.c:330-342 | the result is AM or NFM, and it is NFM exactly when the mode was AM; every other mode goes to AM |
| Modes.NextModeCw | src/main_screen.c:344-356 | the result is CW or CWR, and it is CWR exactly when the mode was CW |
| Modes.NextModeSsb | src/main_screen.c:358-394 | on SSB modes, a short press swaps the sideband and keeps the digital flag, and a long press swaps analog/digital and keeps the sideband; any non-SSB mode goes to LSB |
| Modes.SsbDeterminedBySidebandAndDigital | src/main_screen.c:358-394 | two SSB modes with the same sideband and digital flag are equal |
| Modes.SsbPressIsInvolution | src/main_screen.c:358-394 | doing the same press kind twice on an SSB mode returns to it |
| Modes.SsbShortCycleCloses | src/main_screen.c:358-394 | four short presses bring any SSB mode back to itself |
| Modes.LongPressIgnoredOutsideSsb | src/main_screen.c:330-356 | the AM/FM and CW tables give the same result for long and short presses |
| Modes.AmFmAndCwAreTwoCycles | src/main_screen.c:330-356 | AM/NFM and CW/CWR go back and forth in two steps |
| Modes.LookupTextSpec | src/main_screen.c:436-441 | the name lookup finds nothing exactly when no entry is for the mode; otherwise it returns the first entry for the mode |
| Modes.ModesTextNamesEveryMode | src/main_screen.c:411-420 | the table has an entry for every mode, so a selected mode is always announced, under its own name |
| Modes.FindModeText | src/main_screen.c:436-441 | the search loop returns what the lookup function returns |
| Tuning.FreqAccel | src/main_screen.c:867-882 | the multiplier is 1 for steps below 3 and always 1 under NONE; LITE gives 5 for steps 3-5 and 10 from 6 up; STRONG gives 10 and 30; it lies in 1..30 |
| Tuning.FreqAccelMonotone | src/main_screen.c:867-882 | a faster knob never gets a smaller multiplier |
| Tuning.FreqAccelOrderedBySetting | src/main_screen.c:867-882 | NONE ≤ LITE ≤ STRONG at every speed |
| Tuning.ToInt16 | src/main_screen.c:901-904 | the 32-bit encoder count is narrowed to freq_shift's int16_t: the result is in range, congruent to the count modulo 2^16, and equal to the count when the count is in range |
| Tuning.ShiftDelta | src/main_screen.c:891 | the requested delta has the knob's direction; it is zero exactly when the diff or the step is zero; its size lies between one and thirty times diff·step; it is exactly diff·step for slow knobs or under NONE |
| Bands.FindBandSpec | src/main_screen.c:167-168 | the catalogue lookup finds nothing exactly when no band contains the frequency; otherwise it returns the first band that does |
| Bands.FindBandInOrderedCatalogue | src/main_screen.c:167-168 | in an ordered catalogue the lookup returns the one band that contains the frequency |
| Bands.NextBandUpSpec | src/params/params.h:370 | the upward search finds nothing exactly when no real band starts above the frequency; otherwise it returns the first real band that does |
| Bands.NextBandDownSpec | src/params/params.h:370 | the downward search finds nothing exactly when no real band ends at or below the frequency; otherwise it returns the last real band that does |
| Bands.NextBandUpIsNearest | src/params/params.h:370 | in an ordered catalogue the band found upward starts no higher than any other real band above the frequency |
| Bands.NextBandDownIsNearest | src/params/params.h:370 | in an ordered catalogue the band found downward ends no lower than any other real band below the frequency |
| Bands.NextBandIsNeighbour | src/params/params.h:370 | inside band k of an ordered catalogue, up finds entry k+1 and down finds entry k-1 whenever those are real bands |
| PanelState.DisplayVfo | src/main_screen.c:126-131 | the VFO shown differs from the current one exactly when split is on and the radio transmits |
| PanelState.DisplayedFreqChoice | src/main_screen.c:124-133 | without split, or in split while receiving, the display shows the current VFO's frequency; in split while transmitting it shows the other VFO's |
| PanelState.FreqUpdate | src/main_screen.c:124-165 | refreshing the display shows the frequency of the VFO DisplayVfo picks, and nothing but the trace changes |
| Controller.Activate | src/main_screen.c:172 | bands_activate makes the band current and tunes to the frequency; the current VFO takes the mode the band stores for it, and the other VFO the parameters the band stores for that VFO |
| Controller.ToggleVfo | src/main_screen.c:674 | the other VFO becomes current, and neither VFO's parameters, split nor TX change |
| Controller.ToggleSplit | src/main_screen.c:515 | split is negated and nothing else changes |
| Controller.CloneVfo | src/main_screen.c:684-686 | both VFOs then hold the current VFO's frequency and mode |
| Controller.NextFreqStep | src/main_screen.c:184-188 | the current mode's step becomes the one the step table selects; every other mode keeps its step, and nothing else changes |
| Controller.BandChange | src/main_screen.c:481 | the real band adjacent to the current frequency becomes current, at the frequency and mode it stores for the current VFO, and the other VFO takes that band's parameters; with no adjacent real band nothing but the trace changes |
| Controller.BandStep | src/main_screen.c:478-496 | with the band lock, only the band key is forwarded to the dialog and nothing else changes; without it, bands_change moves to the adjacent real band, if there is one, with that band's stored frequency and mode; then the dialog gets a frequency update, then the band key |
| Controller.ToggleFreqLock | src/main_screen.c:702-706 | the frequency lock is negated and the display refreshed; nothing else changes |
| Controller.LockFreq | src/main_screen.c:1068-1071 | the frequency lock takes the given value and the display is refreshed |
| Controller.LockBand | src/main_screen.c:1073-1075 | the band lock takes the given value and nothing else changes |
| Controller.LockMode | src/main_screen.c:1077-1080 | the mode lock takes the given value and the lock indicator is updated |
| Controller.CrossInto | src/main_screen.c:169-175 | crossing into another real band stores the previous frequency, activates the band at the new frequency with the mode and other VFO the band stores, and refreshes the info and the panel, in that order |
| Controller.CheckCrossBand | src/main_screen.c:167-182 | afterwards the band cursor is the id of the real band containing the new frequency, or -1 in a gap or outside the catalogue; without a crossing into another real band, both VFOs and the trace are untouched; with one, the new frequency is kept and the mode is the one the new band stores |
| Controller.SetFreq | src/main_screen.c:1082-1098 | the radio is tuned to the entered frequency; the mode and the other VFO are kept unless another real band is entered, which loads that band's stored mode; the band cursor moves only into a found real band and is otherwise kept; the trace ends with the radio tuning and the screen update |
| Controller.FreqShift | src/main_screen.c:884-899 | under the frequency lock nothing changes; otherwise the radio is asked for diff·step·accel(\|diff\|) with the current mode's step, the frequency becomes what the radio settles on, and the band is re-derived from it; the mode and the other VFO are kept unless the new frequency lies in another real band, whose stored mode is loaded; the dialog gets a frequency update last |
| Controller.Rotary | src/main_screen.c:901-906 | an in-range count tunes by that count and is then passed to the dialog |
| Controller.MemoryLoad | src/main_screen.c:76 | a stored channel replaces the current frequency, mode and label; an empty slot changes nothing |
| Controller.LoadChannel | src/main_screen.c:75-90 | after loading, the FT8/FT4 ids are in USB-digital and other ids keep the channel's mode; the band cursor is derived from the loaded frequency |
| Controller.MemLoad | src/main_screen.c:75-112 | as LoadChannel, followed by the refresh effects in order, then the label, or "loaded" for ordinary ids, or no message |
| Controller.MemSave | src/main_screen.c:114-120 | the channel now holds the current frequency, mode and label, the other channels are kept, and ordinary ids are confirmed |
| Controller.ChangeMode | src/main_screen.c:396-453 | a press or a long release changes nothing; otherwise the mode becomes the table's next mode, the frequency is kept, and its name is announced before the mode is set and the filters, info and panel refreshed |
| Controller.AppsDisable | src/main_screen.c:190-195 | no dialog runs afterwards and RTTY is off; teardown effects in order |
| Controller.AppStart | src/main_screen.c:202-242 | what happens after the page is loaded never tears down again |
| Controller.App | src/main_screen.c:202-242 | the page is always preceded by the teardown; then the page's buttons, its dialog and RTTY state are set, and the effects come in order |
| Controller.DialogDeleted | src/main_screen.c:197-200 | no dialog runs any more, and the button bar returns to the first volume page |
| Controller.Action | src/main_screen.c:244-328 | an application action is exactly main_screen_app of its page; any action changes only the step, the application state and the trace |
| Controller.RadioNotified | src/main_screen.c:842-854 | the TX state is recorded; in split the display is refreshed; the event is then forwarded |
| Controller.ScreenUpdate | src/main_screen.c:856-861 | display and info refresh; nothing else changes |
| Controller.AtuUpdate | src/main_screen.c:863-865 | ATU info refresh; nothing else changes |
| EventDispatch.MsgDialog | src/main_screen.c:620-650 | the CW message dialog exactly in CW and CWR, the voice-message dialog exactly in LSB, USB, AM and NFM, and no dialog exactly in the digital modes |
| EventDispatch.OpenMsgDialog | src/main_screen.c:623-632 | the dialog and its buttons are shown; the teardown happens exactly when that dialog is not already running |
| EventDispatch.MsgKey | src/main_screen.c:618-650 | the message key opens the dialog of the current mode, or shows the "not used in this mode" note |
| EventDispatch.PttKey | src/main_screen.c:713-738 | pressing keys the transmitter, then the morse key in CW; releasing lifts the morse key first, then unkeys; a long press does nothing; only the trace changes |
| EventDispatch.MemoryKeyId | src/main_screen.c:749-763 | HKEY_1 .. HKEY_8 address channels 1..8 |
| EventDispatch.SpectrumPressed | src/main_screen.c:1038-1051 | the MFK mode flips and nothing else but the trace changes |
| EventDispatch.ToggleKnob | src/main_screen.c:985-995 | the knob mode always switches between editing and selecting, as it does for the volume knob on Escape and for the MFK at 1039-1049 |
| Properties.ModeKeysRespectModeLock | src/main_screen.c:498-503 | under the mode lock a mode key changes nothing |
| Properties.ModeKeyCallsChangeMode | src/main_screen.c:498-503 | without the mode lock a mode key is change_mode |
| Properties.RotaryWrapsCount | src/main_screen.c:901-906 | a count of 65537 tunes like a count of 1 |
| Properties.HKeyUpTunes | src/main_screen.c:793-797 | UP released without the frequency lock tunes up one step |
| Properties.HKeyDownTunes | src/main_screen.c:807-811 | DOWN released without the frequency lock tunes down one step |
| Properties.TuneWithinBandScenario | src/main_screen.c:884-899 | from 14 200 000 Hz with a 100 Hz step, one step up stays in the current band and keeps the mode, with the exact trace |
| Properties.CrossBandActivatesNewBand | src/main_screen.c:169-175 | entering another real band stores the previous frequency before activating the band, which brings the band's stored mode and other VFO |
| Properties.CrossBandSameBand | src/main_screen.c:170 | staying in the current band changes nothing but the looked-up band record |
| Properties.CrossBandGapClearsBand | src/main_screen.c:176-181 | a gap or an unknown frequency sets the band cursor to -1 and emits nothing |
| Properties.SetFreqActivatesNewBand | src/main_screen.c:1082-1098 | direct entry into another real band activates it as a tuning step does, with the band's stored mode, then tunes the radio |
| Properties.SetFreqIgnoresFreqLock | src/main_screen.c:1082-1098 | direct entry gives the same result whatever the frequency lock |
| Properties.MemoryRoundTrip | src/main_screen.c:75-120 | save then load restores the frequency, the mode (USB-digital on FT8/FT4 ids) and the label, and re-derives the band |
| Properties.MemoryKeys | src/main_screen.c:749-763 | on a memory key, a release loads the key's channel, a long press saves it, and a press does nothing |
| Properties.MemoryKeyIdInjective | src/main_screen.c:749-763 | different memory keys address different channels |
| Properties.KeypadModeKeysKeepLocks | src/main_screen.c:498-503 | the mode keys leave the locks alone |
| Properties.KeypadFunctionKeysKeepLocks | src/main_screen.c:548-586 | F1..F5 leave the locks alone |
| Properties.KeypadGroupKeysKeepLocks | src/main_screen.c:588-616 | GEN, APP, KEY and DFN leave the locks alone |
| Properties.KeypadMsgKeysKeepLocks | src/main_screen.c:618-670 | MSG and DFL leave the locks alone |
| Properties.KeypadRadioKeysKeepLocks | src/main_screen.c:460-546 | the remaining keys other than LOCK leave the locks alone |
| Properties.KeypadLocks | src/main_screen.c:455-744 | on the keypad, only the LOCK release changes a lock, and it negates the frequency lock |
| Properties.KeypadLockRelease | src/main_screen.c:702-706 | releasing LOCK is the frequency-lock toggle |
| Properties.HKeySpchRelease | src/main_screen.c:766-772 | releasing SPCH is the frequency-lock toggle |
| Properties.MemoryKeysKeepLocks | src/main_screen.c:749-763 | the memory keys leave the locks alone |
| Properties.UpKeyKeepsLocks | src/main_screen.c:793-805 | UP leaves the locks alone |
| Properties.DownKeyKeepsLocks | src/main_screen.c:807-819 | DOWN leaves the locks alone |
| Properties.HKeyFunctionKeysKeepLocks | src/main_screen.c:821-836 | F1 and F2 leave the locks alone |
| Properties.HKeyLocks | src/main_screen.c:746-840 | on the hardware keys, only the SPCH release changes a lock, and it negates the frequency lock |
| Properties.KeyboardLocks | src/main_screen.c:908-1036 | on the keyboard, only scroll lock changes a lock, and it negates the frequency lock |
| Properties.InputLocks | src/main_screen.c:455-1036 | every key event moves the locks as the lock state machine says |
| Properties.CallLocks | src/main_screen.c:1068-1080 | among the other events, only the three lock setters change a lock, each setting its own flag |
| Properties.DispatchLocks | src/main_screen.c:455-1098 | every event moves the locks as the lock state machine says |
| Properties.RunLocks | src/main_screen.c:455-1098 | a run of events moves the locks as the state machine runs over it |
| Properties.LocksStableWithoutLockEvents | src/main_screen.c:59-61 | if no event of a run is a lock event, the state machine stays put |
| Properties.LocksStableOverRun | src/main_screen.c:59-61 | if no event of a run is a lock event, all three locks keep their values |
| Properties.LockToggleNegates | src/main_screen.c:702-706 | the LOCK release, the SPCH release and scroll lock each only negate the frequency lock and refresh the display |
| Properties.LockToggleTwice | src/main_screen.c:1005-1008 | toggling twice restores the whole state except the trace |
| Properties.KeypadBandKeysUseBandStep | src/main_screen.c:478-496 | the keypad band keys go through the band-lock gate |
| Properties.HKeyUpLongUsesBandStep | src/main_screen.c:798-805 | a long UP press switches band up through the same gate |
| Properties.HKeyDownLongUsesBandStep | src/main_screen.c:812-819 | a long DOWN press switches band down through the same gate |
| Properties.KeyboardBandKeysUseBandStep | src/main_screen.c:1010-1024 | page up/down switch band through the same gate |
| Properties.BandKeyReachesNeighbour | src/main_screen.c:478-496 | without the band lock, a band key inside band k of an ordered catalogue lands on the neighbouring real band, with the parameters that band stores for the current VFO |
| Properties.ModeChangeSelectsStep | src/main_screen.c:891 | after a mode key selects a mode, tuning uses that mode's own step |
| Properties.StepChangeStaysWithMode | src/main_screen.c:184-188 | a step change in one mode does not carry over to the mode selected next |
| Properties.EscapeAfterDialogDeleted | src/main_screen.c:983-998 | once the running dialog has closed itself, Escape toggles the volume knob again |
| Properties.LockedTuningEvent | src/main_screen.c:884-887 | under the frequency lock, a tuning input (encoder, UP/DOWN, '-'/'=') changes nothing but the trace |
| Properties.LockedTuningRun | src/main_screen.c:884-887 | so does any run of tuning inputs |
| Properties.LockedModeKeysRun | src/main_screen.c:498-503 | under the mode lock, any run of mode-key events changes nothing at all |
| Properties.PttOrdering | src/main_screen.c:713-738 | the PTT key behaves as PttKey states |
| Properties.KeypadMsgRelease | src/main_screen.c:618-650 | releasing MSG runs the message-key routing |
| Properties.MsgKeyRoutesByMode | src/main_screen.c:618-650 | in CW and in LSB/USB/AM/NFM the message key shows the mode's dialog and buttons, tearing down exactly when that dialog is not running; in digital modes it only shows a note |
| Properties.MfkToggleTwice | src/main_screen.c:1038-1051 | pressing the knob twice restores the widget state |
| Properties.VolToggle | src/main_screen.c:983-998 | with no dialog running, Escape flips the volume knob mode, and twice restores it; with a dialog running it does nothing |
| Properties.QthAndCallsignSkipTeardown | src/main_screen.c:318-326 | the QTH and callsign actions only construct their dialog, with no teardown |
| Properties.KeyboardSettingsSkipsTeardown | src/main_screen.c:952-957 | keyboard F9 loads the settings page and dialog with no teardown |
| MainScreenObject.MainScreen.FreqShift | src/main_screen.c:884-899 | the in-place freq_shift ends in the state Controller.FreqShift computes |
| MainScreenObject.MainScreen.CheckCrossBand | src/main_screen.c:167-182 | the in-place check_cross_band ends in the state Controller.CheckCrossBand computes |
| MainScreenObject.MainScreen.SetFreq | src/main_screen.c:1082-1098 | the in-place main_screen_set_freq ends in the state Controller.SetFreq computes |
| MainScreenObject.MainScreen.MemLoad | src/main_screen.c:75-112 | the in-place mem_load ends in the state Controller.MemLoad computes |
| MainScreenObject.MainScreen.MemSave | src/main_screen.c:114-120 | the in-place mem_save ends in the state Controller.MemSave computes |
| MainScreenObject.MainScreen.ChangeMode | src/main_screen.c:396-453 | change_mode, whose name search is a loop, ends in the state Controller.ChangeMode computes |
| MainScreenObject.MainScreen.Keypad | src/main_screen.c:455-744 | the keypad callback ends in the state EventDispatch.Keypad computes |
| MainScreenObject.MainScreen.HKey | src/main_screen.c:746-840 | the hardware-key callback ends in the state EventDispatch.HKeyPressed computes |
| MainScreenObject.MainScreen.KeyboardKey | src/main_screen.c:908-1036 | the keyboard callback ends in the state EventDispatch.KeyboardKey computes |
| MainScreenObject.MainScreen.constructor | src/main_screen.c:59-61 | the object starts in the given panel state, with the given collaborators |
| MainScreenObject.MainScreen.FreqUpdate | src/main_screen.c:124-165 | freq_update in place, as PanelState.FreqUpdate computes |
| MainScreenObject.MainScreen.CrossInto | src/main_screen.c:169-175 | the band crossing in place, as Controller.CrossInto computes |
| MainScreenObject.MainScreen.Activate | src/main_screen.c:172 | bands_activate in place, as Controller.Activate computes |
| MainScreenObject.MainScreen.BandChange | src/main_screen.c:481 | bands_change in place, as Controller.BandChange computes |
| MainScreenObject.MainScreen.BandStep | src/main_screen.c:478-496 | the band-key handling in place, as Controller.BandStep computes |
| MainScreenObject.MainScreen.LoadChannel | src/main_screen.c:75-90 | the parameter part of mem_load in place, as Controller.LoadChannel computes |
| MainScreenObject.MainScreen.AnnounceMode | src/main_screen.c:411-447 | the search of the spoken-name table always finds the mode, and its name is appended to the trace |
| MainScreenObject.MainScreen.ScreenUpdate | src/main_screen.c:856-861 | main_screen_update_cb in place |
| MainScreenObject.MainScreen.AtuUpdate | src/main_screen.c:863-865 | main_screen_atu_update_cb in place |
| MainScreenObject.MainScreen.DialogDeleted | src/main_screen.c:197-200 | main_screen_dialog_deleted_cb in place |
| MainScreenObject.MainScreen.ToggleFreqLock | src/main_screen.c:702-706 | the lock toggle flips the field in place, as Controller.ToggleFreqLock states |
| MainScreenObject.MainScreen.LockFreq | src/main_screen.c:1068-1071 | main_screen_lock_freq in place |
| MainScreenObject.MainScreen.LockBand | src/main_screen.c:1073-1075 | main_screen_lock_band in place |
| MainScreenObject.MainScreen.LockMode | src/main_screen.c:1077-1080 | main_screen_lock_mode in place |
| MainScreenObject.MainScreen.Rotary | src/main_screen.c:901-906 | the encoder callback in place |
| MainScreenObject.MainScreen.SpectrumPressed | src/main_screen.c:1038-1051 | the MFK toggle in place |
| MainScreenObject.MainScreen.RadioNotified | src/main_screen.c:842-854 | the radio callback in place |
| MainScreenObject.MainScreen.App | src/main_screen.c:202-242 | main_screen_app in place |
| MainScreenObject.MainScreen.Action | src/main_screen.c:244-328 | main_screen_action in place |

## Left out

- Audio (`src/audio.c`): PulseAudio setup and stream callbacks, which are foreign-library I/O and concurrency.
- Widget construction and layout (`main_screen()`), the LVGL label texts, colours and digit formatting of `freq_update`, and `main_screen_keys_enable` with its timer: presentation only. Of `freq_update`, only the choice of the displayed VFO is modelled.
- The spectrum and waterfall calls, the zoom-factor message, the `mag_info`/`mag_freq` tiny messages and the voice announcements other than change_mode's mode name. These are fire-and-forget output and are either trace entries or not recorded.
- `radio_*`, `params_*`, `dialog_*`, `buttons_*`, `rtty_*` and `screenshot_take`: their code is not part of this model. They are trace entries, or the small state change their name implies (for example, the running dialog or the button bar).
- Controller.Activate: what a band stores is a fixed table, `Env.bandVfo`, giving the frequency and mode for each VFO. The previous frequency written back by `params_band_cur_freq_set` is a trace entry. A later activation of the old band does not read it back, and any per-band parameter other than the VFOs' frequency and mode is not modelled.
- Controller.BandChange: the code of `bands_change` and `params_bands_find_next` is not part of this model. The model takes the nearest real band wholly above (or wholly below) the current frequency, activates it at its stored frequency, and does nothing at the ends of the catalogue, with no wrap-around.
- EventDispatch.Run: the KEYPAD_LOCK long press ends the program (`exit(1)`), which the model records as the effect `Exited(1)`. `Run` goes on dispatching the events after it, so the run-level lemmas also cover events the program would never see.
- Controller.FreqShift: the multiplication `diff * step * accel` is on unbounded integers; the C code's 32-bit intermediate and int16_t diff are not modelled beyond Tuning.ToInt16 for the encoder. The radio's clamping of the frequency is the opaque `Env.changeFreq`.
- Controller.NextFreqStep: the steps each mode may take live in params. The model keeps one step per mode in `Stored.steps`, takes the new step from `Env.nextStep`, and leaves out the message texts.
- Controller.MemoryLoad: params_memory_load is modelled as a map of channels (frequency, mode, label); other per-channel parameters are not modelled.
- MainScreenObject.MainScreen.Keypad, MainScreenObject.MainScreen.HKey, MainScreenObject.MainScreen.KeyboardKey and MainScreenObject.MainScreen.Action: only the branches that change the lock, mode, frequency, band or memory fields are written as statements. The other branches write the transition's result back through `Store`, so their field-by-field update order is not followed.
- The state outside the front panel: the radio's own state and the enabling of keys.

## Behaviour worth noting

- The QTH and callsign actions (`src/main_screen.c:318-326`) and keyboard F9 (`src/main_screen.c:952-957`) construct their dialogs without the `apps_disable` teardown that `main_screen_app` always performs.
- The frequency lock blocks tuning, the frequency-input dialog and nothing else. Memory loads, `main_screen_set_freq` and the VFO toggle ignore it.
- The mode lock gates only the mode keys. The FT8/FT4 fix-up of `mem_load` changes the mode under it.
- `main_screen_set_freq` leaves the band cursor alone in a gap or outside the catalogue, where `check_cross_band` sets it to -1.
- The VFOs are modelled as "current" and "other" rather than A and B. `VfoOf` gives each VFO's parameters.
