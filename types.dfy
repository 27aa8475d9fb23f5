/** Value types shared by the front-panel model of the X6100 GUI: radio modes,
    VFOs, input events, band catalogue entries, memory channels and the effects
    the panel emits to its collaborators. */
module RadioTypes {

  datatype Option<+T> = None | Some(value: T)

  /** x6100_mode_t: the eight modulation modes the panel cycles through. */
  datatype Mode = LSB | LSBDig | USB | USBDig | CW | CWR | AM | NFM

  /** x6100_vfo_t */
  datatype Vfo = VfoA | VfoB

  function OtherVfo(v: Vfo): (r: Vfo)
    ensures r != v
  {
    if v == VfoA then VfoB else VfoA
  }

  /** The per-VFO part of the current band's parameters. */
  datatype VfoParams = VfoParams(freq: nat, mode: Mode)

  /** keypad_state_t / hkey state: the phase of a key event. */
  datatype Phase = Press | Release | Long | LongRelease

  /** band_t as far as the panel uses it: an id, a type tag (0 = no band)
      and the frequency range [start, stop). */
  datatype Band = Band(id: int, typ: int, start: nat, stop: nat)

  /** A stored memory channel: frequency, mode and label. */
  datatype Channel = Channel(freq: nat, mode: Mode, labelText: string)

  /** mfk_state_t and the volume knob mode (vol->mode). */
  datatype KnobState = Edit | Select

  /** Dialogs the panel constructs. */
  datatype Dialog =
    | DialogSettings | DialogSwrScan | DialogFt8 | DialogGps | DialogRecorder
    | DialogQth | DialogCallsign | DialogMsgCw | DialogMsgVoice | DialogFreq

  /** rtty_state_t as set by the panel. */
  datatype RttyState = RttyOff | RttyRx

  /** Button pages passed to buttons_load_page; any other page number is PageOther. */
  datatype Page =
    | PageVol1 | PageRtty | PageSettings | PageSwrScan | PageFt8 | PageGps | PageRecorder
    | PageOther(n: nat)

  /** Button page groups passed to buttons_load_page_group. */
  datatype Group = GroupGen | GroupApp | GroupKey | GroupMsgCw | GroupMsgVoice | GroupDfn

  /** What the button bar currently shows. */
  datatype Buttons = Unloaded | OnPage(page: Page) | OnGroup(group: Group)

  /** press_action_t (params.h lines 31-51). */
  datatype PressAction =
    | ActionNone | ActionScreenshot | ActionRecorder | ActionMute | ActionStepUp
    | ActionStepDown | ActionVoiceMode | ActionBatInfo | ActionNrToggle | ActionNbToggle
    | ActionAppRtty | ActionAppFt8 | ActionAppSwrScan | ActionAppGps | ActionAppSettings
    | ActionAppRecorder | ActionAppQth | ActionAppCallsign

  /** The configurable key slots holding a press action (params.long_gen ... params.long_f2). */
  datatype ActionSlot =
    | LongGen | LongApp | LongKey | LongMsg | LongDfn | LongDfl
    | PressF1 | PressF2 | LongF1 | LongF2

  /** keypad_key_t */
  datatype KeypadKey =
    | KeyPre | KeyBandUp | KeyBandDown | KeyModeAm | KeyModeCw | KeyModeSsb
    | KeyAgc | KeyFst | KeyAtu | KeyF1 | KeyF2 | KeyF3 | KeyF4 | KeyF5
    | KeyGen | KeyApp | KeyKey | KeyMsg | KeyDfn | KeyDfl | KeyAb | KeyPower
    | KeyLock | KeyPtt | KeyUnsupported

  /** Hardware keys (HKEY_*); HKey1 .. HKey8 are the memory keys. */
  datatype HKey =
    | HKey1 | HKey2 | HKey3 | HKey4 | HKey5 | HKey6 | HKey7 | HKey8
    | HKeySpch | HKeyTuner | HKeyXfc | HKeyUp | HKeyDown | HKeyF1 | HKeyF2
    | HKeyOther

  /** Key codes delivered to the spectrum widget by the keyboard: printable
      characters, plus the special codes the panel handles. */
  datatype KeyCode =
    | Char(c: char)
    | VolLeftEdit | VolRightEdit | VolLeftSelect | VolRightSelect
    | KeyboardF9 | ArrowLeft | ArrowRight | Escape | PrintKey | PrintScreen
    | ScrollLock | PageUpKey | PageDownKey | FreqInput

  /** Radio calls that carry no argument the model tracks. */
  datatype RadioOp =
    | ChangePre | ChangeAtt | ChangeAgc | SplitToggle | ChangeAtu | StartAtu
    | VfoToggle | VfoClone | VfoSet | FiltersSetup | LoadAtu | PowerOff | BbReset
    | ChangeMute | ChangeNr | ChangeNb

  /** Events forwarded to the active dialog with dialog_send. */
  datatype DialogEvent = EvFreqUpdate | EvBandUp | EvBandDown

  /** Messages shown with msg_set_text_fmt / msg_tiny_set_text_fmt that the model keeps. */
  datatype Message =
    | MsgLabel(labelText: string) | MsgLoaded(id: nat) | MsgSaved(id: nat) | MsgNotUsedInMode

  /** One effect emitted to a collaborator, in emission order. */
  datatype Effect =
    | FreqShown(f: nat)                  // freq_update: the frequency put on the display
    | FreqStored(f: nat)                 // params_band_cur_freq_set
    | RadioFreqSet(f: nat)               // radio_set_freq
    | RadioFreqChanged(delta: int)       // radio_change_freq with the requested delta
    | BandActivated(id: int, f: nat)     // bands_activate
    | BandChanged(up: bool)              // bands_change
    | ModeSet(vfo: Vfo, mode: Mode)      // radio_set_mode
    | Radio(op: RadioOp)                 // the other radio_* calls
    | Ptt(on: bool)                      // radio_set_ptt
    | MorseKey(on: bool)                 // radio_set_morse_key
    | DialogSent(ev: DialogEvent)        // dialog_send
    | DialogRotary(diff: int)            // dialog_rotary
    | DialogConstructed(d: Dialog)       // dialog_construct
    | DialogDestructed                   // dialog_destruct
    | RttySet(s: RttyState)              // rtty_set_state
    | PannelShown                        // pannel_visible
    | PannelHidden                       // pannel_hide
    | ButtonsUnloaded                    // buttons_unload_page
    | PageLoaded(page: Page)             // buttons_load_page
    | GroupLoaded(group: Group)          // buttons_load_page_group
    | ButtonPressed(index: nat, long: bool) // buttons_press
    | InfoUpdated                        // info_params_set
    | AtuInfoUpdated                     // info_atu_update
    | ModeLockShown(lock: bool)          // info_lock_mode
    | Shown(msg: Message)                // msg_set_text_fmt / msg_tiny_set_text_fmt
    | Announced(text: string)            // voice_say_text_fmt of the mode name
    | VolUpdated(diff: int)              // vol_update
    | VolModeChanged(diff: int)          // vol_change_mode
    | MfkUpdated(diff: int)              // mfk_update
    | MfkModeChanged(diff: int)          // mfk_change_mode
    | ScreenshotTaken                    // screenshot_take
    | RecorderSet(on: bool)              // recorder_set_on
    | VoiceModeChanged                   // voice_change_mode
    | BatteryInfoSaid                    // clock_say_bat_info
    | BacklightSwitched                  // backlight_switch
    | ScreenUpdateSent                   // event_send(EVENT_SCREEN_UPDATE)
    | RadioEventForwarded(tx: bool)      // meter, tx_info, spectrum and dialog notified
    | UnsupportedKeyLogged               // the unsupported-key warning in the log
    | Exited(code: int)                  // exit
}
