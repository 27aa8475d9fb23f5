/** Event dispatch of the front panel: what a keypad key, a hardware key, a
    keyboard key, the encoder or a radio notification does to the panel state,
    and the run of a sequence of events in arrival order. */
module EventDispatch {
  import opened RadioTypes
  import opened Modes
  import opened Tuning
  import opened PanelState
  import opened Controller

  /** The message dialog of a mode: CW messages in the CW modes, voice
      messages in LSB, USB, AM and NFM, none in the digital modes. */
  function MsgDialog(m: Mode): (r: Option<Dialog>)
    ensures IsCwFamily(m) <==> r == Some(DialogMsgCw)
    ensures (m == LSB || m == USB || m == AM || m == NFM) <==> r == Some(DialogMsgVoice)
    ensures IsDigital(m) <==> r.None?
  {
    match m
    case CW | CWR => Some(DialogMsgCw)
    case LSB | USB | AM | NFM => Some(DialogMsgVoice)
    case _ => None
  }

  /** Open the message dialog d with its button group g, closing other
      applications first unless d is already running. */
  function OpenMsgDialog(p: Panel, d: Dialog, g: Group): (r: Panel)
    ensures r.ui.dialog == Some(d) && r.ui.buttons == OnGroup(g)
    ensures r.trace == p.trace + (if p.ui.dialog != Some(d) then Teardown else [])
                       + [PannelHidden, DialogConstructed(d), GroupLoaded(g)]
    ensures r == p.(ui := r.ui, trace := r.trace)
  {
    var q := if p.ui.dialog != Some(d) then AppsDisable(p) else p;
    LoadGroup(DialogConstruct(Emit(q, PannelHidden), d), g)
  }

  /** The button group shown with a message dialog. */
  function MsgGroup(d: Dialog): Group {
    if d == DialogMsgCw then GroupMsgCw else GroupMsgVoice
  }

  /** The KEYPAD_MSG release: open the CW or the voice message dialog, chosen by
      the current mode; in the digital modes only show a note. */
  function MsgKey(p: Panel): (r: Panel)
    ensures MsgDialog(CurMode(p)).Some? ==> r == OpenMsgDialog(p, MsgDialog(CurMode(p)).value, MsgGroup(MsgDialog(CurMode(p)).value))
    ensures MsgDialog(CurMode(p)).None? ==> r == Emit(p, Shown(MsgNotUsedInMode))
  {
    match CurMode(p)
    case CW | CWR => OpenMsgDialog(p, DialogMsgCw, GroupMsgCw)
    case LSB | USB | AM | NFM => OpenMsgDialog(p, DialogMsgVoice, GroupMsgVoice)
    case _ => Emit(p, Shown(MsgNotUsedInMode))
  }

  /** KEYPAD_PTT: pressing keys the transmitter before the morse key (CW modes);
      releasing lifts the morse key before unkeying. */
  function PttKey(p: Panel, phase: Phase): (r: Panel)
    ensures phase == Press ==>
              r.trace == p.trace + [Ptt(true)] + (if IsCwFamily(CurMode(p)) then [MorseKey(true)] else [])
    ensures phase == Release || phase == LongRelease ==>
              r.trace == p.trace + (if IsCwFamily(CurMode(p)) then [MorseKey(false)] else []) + [Ptt(false)]
    ensures phase == Long ==> r == p
    ensures r == p.(trace := r.trace)
  {
    match phase
    case Press =>
      var q := Emit(p, Ptt(true));
      if IsCwFamily(CurMode(q)) then Emit(q, MorseKey(true)) else q
    case Release | LongRelease =>
      var q := if IsCwFamily(CurMode(p)) then Emit(p, MorseKey(false)) else p;
      Emit(q, Ptt(false))
    case Long => p
  }

  /** A key with one effect on release and another on long press. */
  function ReleaseOrLong(p: Panel, phase: Phase, onRelease: Panel, onLong: Panel): Panel {
    if phase == Release then onRelease else if phase == Long then onLong else p
  }

  /** The button index of the keypad's F1 .. F5 keys. */
  function FKeyIndex(key: KeypadKey): nat
    requires key in {KeyF1, KeyF2, KeyF3, KeyF4, KeyF5}
  {
    match key
    case KeyF1 => 0
    case KeyF2 => 1
    case KeyF3 => 2
    case KeyF4 => 3
    case KeyF5 => 4
  }

  /** The button page group behind the keypad's GEN, APP, KEY and DFN keys,
      with the slot of the action bound to their long press. */
  function GroupKeyOf(key: KeypadKey): (Group, ActionSlot)
    requires key in {KeyGen, KeyApp, KeyKey, KeyDfn}
  {
    match key
    case KeyGen => (GroupGen, LongGen)
    case KeyApp => (GroupApp, LongApp)
    case KeyKey => (GroupKey, LongKey)
    case KeyDfn => (GroupDfn, LongDfn)
  }

  /** main_screen_keypad_cb */
  function Keypad(p: Panel, env: Env, key: KeypadKey, phase: Phase): (r: Panel)
  {
    match key
    case KeyPre =>
      ReleaseOrLong(p, phase, InfoUpdate(Emit(p, Radio(ChangePre))), InfoUpdate(Emit(p, Radio(ChangeAtt))))
    case KeyBandUp => if phase == Release then BandStep(p, env, true) else p
    case KeyBandDown => if phase == Release then BandStep(p, env, false) else p
    case KeyModeAm | KeyModeCw | KeyModeSsb =>
      if !p.locks.mode then ChangeMode(p, key, phase) else p
    case KeyAgc =>
      ReleaseOrLong(p, phase, InfoUpdate(Emit(p, Radio(ChangeAgc))), FreqUpdate(InfoUpdate(ToggleSplit(p))))
    case KeyFst =>
      ReleaseOrLong(p, phase, NextFreqStep(p, env, true), NextFreqStep(p, env, false))
    case KeyAtu =>
      ReleaseOrLong(p, phase, InfoUpdate(Emit(p, Radio(ChangeAtu))), Emit(p, Radio(StartAtu)))
    case KeyF1 | KeyF2 | KeyF3 | KeyF4 | KeyF5 =>
      ReleaseOrLong(p, phase, Emit(p, ButtonPressed(FKeyIndex(key), false)), Emit(p, ButtonPressed(FKeyIndex(key), true)))
    case KeyGen | KeyApp | KeyKey | KeyDfn =>
      var (g, slot) := GroupKeyOf(key);
      ReleaseOrLong(p, phase, LoadGroup(AppsDisable(p), g), Action(p, env, env.binding(slot)))
    case KeyMsg =>
      ReleaseOrLong(p, phase, MsgKey(p), Action(p, env, env.binding(LongMsg)))
    case KeyDfl => if phase == Long then Action(p, env, env.binding(LongDfl)) else p
    case KeyAb =>
      ReleaseOrLong(p, phase, FreqUpdate(InfoUpdate(ToggleVfo(p))), Emit(CloneVfo(p), Radio(VfoSet)))
    case KeyPower =>
      ReleaseOrLong(p, phase, Emit(p, BacklightSwitched), Emit(p, Radio(PowerOff)))
    case KeyLock =>
      ReleaseOrLong(p, phase, ToggleFreqLock(p), Emit(Emit(p, Radio(BbReset)), Exited(1)))
    case KeyPtt => PttKey(p, phase)
    case KeyUnsupported => Emit(p, UnsupportedKeyLogged)
  }

  predicate IsMemoryKey(key: HKey) {
    key in {HKey1, HKey2, HKey3, HKey4, HKey5, HKey6, HKey7, HKey8}
  }

  /** The memory channel of HKEY_1 .. HKEY_8 (key - HKEY_1 + 1). */
  function MemoryKeyId(key: HKey): (id: nat)
    requires IsMemoryKey(key)
    ensures 1 <= id <= 8
  {
    match key
    case HKey1 => 1
    case HKey2 => 2
    case HKey3 => 3
    case HKey4 => 4
    case HKey5 => 5
    case HKey6 => 6
    case HKey7 => 7
    case HKey8 => 8
  }

  /** main_screen_hkey_cb */
  function HKeyPressed(p: Panel, env: Env, key: HKey, phase: Phase): (r: Panel)
    requires env.Valid()
  {
    match key
    case HKey1 | HKey2 | HKey3 | HKey4 | HKey5 | HKey6 | HKey7 | HKey8 =>
      ReleaseOrLong(p, phase, MemLoad(p, env, MemoryKeyId(key)), MemSave(p, env, MemoryKeyId(key)))
    case HKeySpch => if phase == Release then ToggleFreqLock(p) else p
    case HKeyTuner =>
      ReleaseOrLong(p, phase, InfoUpdate(Emit(p, Radio(ChangeAtu))), Emit(p, Radio(StartAtu)))
    case HKeyXfc => if phase == Release then FreqUpdate(InfoUpdate(ToggleVfo(p))) else p
    case HKeyUp =>
      ReleaseOrLong(p, phase, if !p.locks.freq then FreqShift(p, env, 1) else p, BandStep(p, env, true))
    case HKeyDown =>
      ReleaseOrLong(p, phase, if !p.locks.freq then FreqShift(p, env, -1) else p, BandStep(p, env, false))
    case HKeyF1 =>
      ReleaseOrLong(p, phase, Action(p, env, env.binding(PressF1)), Action(p, env, env.binding(LongF1)))
    case HKeyF2 =>
      ReleaseOrLong(p, phase, Action(p, env, env.binding(PressF2)), Action(p, env, env.binding(LongF2)))
    case HKeyOther => p
  }

  function ToggleKnob(s: KnobState): (r: KnobState)
    ensures r != s
  {
    if s == Edit then Select else Edit
  }

  /** spectrum_key_cb: keys from the keyboard. */
  function KeyboardKey(p: Panel, env: Env, code: KeyCode): (r: Panel)
    requires env.Valid()
  {
    match code
    case Char('-') => if !p.locks.freq then FreqShift(p, env, -1) else p
    case Char('=') => if !p.locks.freq then FreqShift(p, env, 1) else p
    case Char('_') => NextFreqStep(p, env, false)
    case Char('+') => NextFreqStep(p, env, true)
    case VolLeftEdit | Char('[') => Emit(p, VolUpdated(-1))
    case VolRightEdit | Char(']') => Emit(p, VolUpdated(1))
    case VolLeftSelect | Char('{') => Emit(p, VolModeChanged(-1))
    case VolRightSelect | Char('}') => Emit(p, VolModeChanged(1))
    case KeyboardF9 => DialogConstruct(LoadPage(UnloadPage(p), PageSettings), DialogSettings)
    case ArrowLeft => if p.ui.mfk == Edit then Emit(p, MfkUpdated(-1)) else Emit(p, MfkModeChanged(-1))
    case ArrowRight => if p.ui.mfk == Edit then Emit(p, MfkUpdated(1)) else Emit(p, MfkModeChanged(1))
    case Escape => if p.ui.dialog.None? then Emit(p.(ui := p.ui.(vol := ToggleKnob(p.ui.vol))), VolUpdated(0)) else p
    case PrintKey | PrintScreen => Emit(p, ScreenshotTaken)
    case ScrollLock => ToggleFreqLock(p)
    case PageUpKey => BandStep(p, env, true)
    case PageDownKey => BandStep(p, env, false)
    case FreqInput => if !p.locks.freq then DialogConstruct(p, DialogFreq) else p
    case _ => p
  }

  /** spectrum_pressed_cb: pressing the knob switches the MFK between editing
      and selecting. */
  function SpectrumPressed(p: Panel): (r: Panel)
    ensures r.ui.mfk != p.ui.mfk
    ensures r == p.(ui := p.ui.(mfk := r.ui.mfk), trace := p.trace + [MfkUpdated(0)])
  {
    Emit(p.(ui := p.ui.(mfk := ToggleKnob(p.ui.mfk))), MfkUpdated(0))
  }

  /** An input event or a call from outside, as it reaches the panel. */
  datatype Event =
    | KeypadEvent(key: KeypadKey, phase: Phase)
    | HKeyEvent(hkey: HKey, phase: Phase)
    | KeyboardEvent(code: KeyCode)
    | RotaryEvent(diff: int)
    | SpectrumPressedEvent
    | RadioEvent(tx: bool)
    | ScreenUpdateEvent
    | AtuUpdateEvent
    | LockFreqCall(lock: bool)
    | LockBandCall(lock: bool)
    | LockModeCall(lock: bool)
    | SetFreqCall(freq: nat)
    | AppCall(page: Page)
    | ActionCall(action: PressAction)
    | DialogDeletedCall
    | MemLoadCall(id: nat)
    | MemSaveCall(id: nat)

  /** The inputs that toggle the frequency lock: KEYPAD_LOCK and HKEY_SPCH
      releases and the scroll-lock key. */
  predicate TogglesFreqLock(ev: Event) {
    ev == KeypadEvent(KeyLock, Release) || ev == HKeyEvent(HKeySpch, Release) || ev == KeyboardEvent(ScrollLock)
  }

  /** The lock state machine: what an event does to the three locks. */
  function LocksAfter(l: Locks, ev: Event): Locks {
    if TogglesFreqLock(ev) then l.(freq := !l.freq)
    else match ev
      case LockFreqCall(b) => l.(freq := b)
      case LockBandCall(b) => l.(band := b)
      case LockModeCall(b) => l.(mode := b)
      case _ => l
  }

  /** Handle one event. */
  function Dispatch(p: Panel, env: Env, ev: Event): (r: Panel)
    requires env.Valid()
  {
    match ev
    case KeypadEvent(key, phase) => Keypad(p, env, key, phase)
    case HKeyEvent(key, phase) => HKeyPressed(p, env, key, phase)
    case KeyboardEvent(code) => KeyboardKey(p, env, code)
    case RotaryEvent(diff) => Rotary(p, env, diff)
    case SpectrumPressedEvent => SpectrumPressed(p)
    case RadioEvent(tx) => RadioNotified(p, tx)
    case ScreenUpdateEvent => ScreenUpdate(p)
    case AtuUpdateEvent => AtuUpdate(p)
    case LockFreqCall(lock) => LockFreq(p, lock)
    case LockBandCall(lock) => LockBand(p, lock)
    case LockModeCall(lock) => LockMode(p, lock)
    case SetFreqCall(freq) => SetFreq(p, env, freq)
    case AppCall(page) => App(p, page)
    case ActionCall(a) => Action(p, env, a)
    case DialogDeletedCall => DialogDeleted(p)
    case MemLoadCall(id) => MemLoad(p, env, id)
    case MemSaveCall(id) => MemSave(p, env, id)
  }

  /** The events are handled one at a time, in arrival order. */
  function Run(p: Panel, env: Env, evs: seq<Event>): Panel
    requires env.Valid()
    decreases |evs|
  {
    if |evs| == 0 then p else Run(Dispatch(p, env, evs[0]), env, evs[1..])
  }
}
