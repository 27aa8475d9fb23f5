/** The operations of the front panel as transitions of the panel state:
    frequency, band and mode control, memory channels, application pages and
    press actions. Each function follows one C function of main_screen.c, in
    the same order of effects; its contract says what it computes and, as an
    update expression, which parts of the state it leaves alone. */
module Controller {
  import opened RadioTypes
  import opened Modes
  import opened Tuning
  import opened Bands
  import opened PanelState

  /* ---- small collaborator calls ---- */

  /** dialog_construct */
  function DialogConstruct(p: Panel, d: Dialog): Panel {
    Emit(p.(ui := p.ui.(dialog := Some(d))), DialogConstructed(d))
  }

  /** rtty_set_state */
  function SetRtty(p: Panel, s: RttyState): Panel {
    Emit(p.(ui := p.ui.(rtty := s)), RttySet(s))
  }

  /** buttons_unload_page */
  function UnloadPage(p: Panel): Panel {
    Emit(p.(ui := p.ui.(buttons := Unloaded)), ButtonsUnloaded)
  }

  /** buttons_load_page */
  function LoadPage(p: Panel, page: Page): Panel {
    Emit(p.(ui := p.ui.(buttons := OnPage(page))), PageLoaded(page))
  }

  /** buttons_load_page_group */
  function LoadGroup(p: Panel, g: Group): Panel {
    Emit(p.(ui := p.ui.(buttons := OnGroup(g))), GroupLoaded(g))
  }

  /** info_params_set */
  function InfoUpdate(p: Panel): Panel {
    Emit(p, InfoUpdated)
  }

  /** params_band_cur_freq_set */
  function StoreCurFreq(p: Panel, f: nat): Panel {
    Emit(SetCurFreq(p, f), FreqStored(f))
  }

  /** bands_activate: make b the current band, tuned to f, and load the
      parameters the band stores: the current VFO takes the band's mode for
      it, the other VFO the band's parameters for that VFO. */
  function Activate(p: Panel, env: Env, b: Band, f: nat): (r: Panel)
    ensures CurFreq(r) == f && CurMode(r) == env.bandVfo(b.id, p.vfos.vfo).mode && r.band == b.id
    ensures VfoOf(r, OtherVfo(p.vfos.vfo)) == env.bandVfo(b.id, OtherVfo(p.vfos.vfo))
    ensures r.trace == p.trace + [BandActivated(b.id, f)]
    ensures r == p.(cur := r.cur, vfos := p.vfos.(other := r.vfos.other), band := r.band, trace := r.trace)
  {
    var v := p.vfos.vfo;
    Emit(p.(cur := VfoParams(f, env.bandVfo(b.id, v).mode),
            vfos := p.vfos.(other := env.bandVfo(b.id, OtherVfo(v))),
            band := b.id),
         BandActivated(b.id, f))
  }

  /** radio_toggle_vfo: the other VFO becomes the current one; neither VFO's
      parameters change. */
  function ToggleVfo(p: Panel): (r: Panel)
    ensures r.vfos.vfo != p.vfos.vfo
    ensures forall v :: VfoOf(r, v) == VfoOf(p, v)
    ensures r.trace == p.trace + [Radio(VfoToggle)]
    ensures r == p.(cur := r.cur, vfos := r.vfos, trace := r.trace)
    ensures r.vfos.split == p.vfos.split && r.vfos.tx == p.vfos.tx
  {
    Emit(p.(cur := p.vfos.other, vfos := p.vfos.(vfo := OtherVfo(p.vfos.vfo), other := p.cur)), Radio(VfoToggle))
  }

  /** radio_toggle_split */
  function ToggleSplit(p: Panel): (r: Panel)
    ensures r.vfos.split == !p.vfos.split
    ensures r == p.(vfos := p.vfos.(split := r.vfos.split), trace := p.trace + [Radio(SplitToggle)])
  {
    Emit(p.(vfos := p.vfos.(split := !p.vfos.split)), Radio(SplitToggle))
  }

  /** params_band_vfo_clone: copy the current VFO's parameters to the other
      VFO, which then holds the same frequency and mode. */
  function CloneVfo(p: Panel): (r: Panel)
    ensures VfoOf(r, OtherVfo(p.vfos.vfo)) == VfoOf(r, p.vfos.vfo) == VfoOf(p, p.vfos.vfo)
    ensures r == p.(vfos := p.vfos.(other := r.vfos.other), trace := p.trace + [Radio(VfoClone)])
  {
    Emit(p.(vfos := p.vfos.(other := p.cur)), Radio(VfoClone))
  }

  /** next_freq_step: switch the current mode's step to the next (up) or the
      previous entry of the step table; the other modes keep theirs. */
  function NextFreqStep(p: Panel, env: Env, up: bool): (r: Panel)
    ensures Step(r) == env.nextStep(Step(p), up)
    ensures forall m :: m != CurMode(p) ==> StepOf(r.stored.steps, m) == StepOf(p.stored.steps, m)
    ensures r == p.(stored := p.stored.(steps := r.stored.steps))
  {
    p.(stored := p.stored.(steps := p.stored.steps[CurMode(p) := env.nextStep(Step(p), up)]))
  }

  /** bands_change: activate the real band next to the current frequency in
      the direction of up (params_bands_find_next), at the frequency the band
      stores for the current VFO; without such a band nothing changes. */
  function BandChange(p: Panel, env: Env, up: bool): (r: Panel)
    ensures var next := NextBand(env.catalog, CurFreq(p), up);
            && (next.None? ==> r == p.(trace := p.trace + [BandChanged(up)]))
            && (next.Some? ==>
                  && r.band == next.value.id
                  && r.cur == env.bandVfo(next.value.id, p.vfos.vfo)
                  && VfoOf(r, OtherVfo(p.vfos.vfo)) == env.bandVfo(next.value.id, OtherVfo(p.vfos.vfo))
                  && r.trace == p.trace + [BandChanged(up), BandActivated(next.value.id, CurFreq(r))])
    ensures r == p.(cur := r.cur, vfos := p.vfos.(other := r.vfos.other), band := r.band, trace := r.trace)
  {
    var q := Emit(p, BandChanged(up));
    match NextBand(env.catalog, CurFreq(p), up)
    case None => q
    case Some(b) => Activate(q, env, b, env.bandVfo(b.id, p.vfos.vfo).freq)
  }

  /** The band up/down handling shared by the keypad, the hardware keys and the
      keyboard: unless the band is locked, switch band and tell the dialog the
      frequency changed; always forward the band key itself to the dialog. */
  function BandStep(p: Panel, env: Env, up: bool): (r: Panel)
    ensures p.locks.band ==> r == p.(trace := p.trace + [DialogSent(if up then EvBandUp else EvBandDown)])
    ensures !p.locks.band ==>
              var next := NextBand(env.catalog, CurFreq(p), up);
              && (next.Some? ==> r.band == next.value.id && r.cur == env.bandVfo(next.value.id, p.vfos.vfo))
              && (next.None? ==> r.band == p.band && r.cur == p.cur && r.vfos == p.vfos)
              && r.trace == BandChange(p, env, up).trace + [DialogSent(EvFreqUpdate), DialogSent(if up then EvBandUp else EvBandDown)]
    ensures r == p.(cur := r.cur, vfos := p.vfos.(other := r.vfos.other), band := r.band, trace := r.trace)
  {
    var q := if !p.locks.band then Emit(BandChange(p, env, up), DialogSent(EvFreqUpdate)) else p;
    Emit(q, DialogSent(if up then EvBandUp else EvBandDown))
  }

  /** The lock toggle of KEYPAD_LOCK, HKEY_SPCH and the scroll-lock key. */
  function ToggleFreqLock(p: Panel): (r: Panel)
    ensures r.locks.freq == !p.locks.freq
    ensures r == p.(locks := p.locks.(freq := !p.locks.freq), trace := p.trace + [FreqShown(DisplayedFreq(p))])
  {
    FreqUpdate(p.(locks := p.locks.(freq := !p.locks.freq)))
  }

  /** main_screen_lock_freq */
  function LockFreq(p: Panel, lock: bool): (r: Panel)
    ensures r.locks.freq == lock
    ensures r == p.(locks := p.locks.(freq := lock), trace := p.trace + [FreqShown(DisplayedFreq(p))])
  {
    FreqUpdate(p.(locks := p.locks.(freq := lock)))
  }

  /** main_screen_lock_band */
  function LockBand(p: Panel, lock: bool): (r: Panel)
    ensures r.locks.band == lock
    ensures r == p.(locks := p.locks.(band := lock))
  {
    p.(locks := p.locks.(band := lock))
  }

  /** main_screen_lock_mode */
  function LockMode(p: Panel, lock: bool): (r: Panel)
    ensures r.locks.mode == lock
    ensures r == p.(locks := p.locks.(mode := lock), trace := p.trace + [ModeLockShown(lock)])
  {
    Emit(p.(locks := p.locks.(mode := lock)), ModeLockShown(lock))
  }

  /* ---- band tracking ---- */

  /** The band cursor a frequency calls for: the id of the real band that
      contains it, or -1 in a gap (type 0) or outside the catalogue. */
  function DerivedBand(env: Env, f: nat): int {
    match FindBand(env.catalog, f)
    case Some(b) => if b.typ != 0 then b.id else -1
    case None => -1
  }

  /** freq lies in a real band other than the current one, which
      check_cross_band and main_screen_set_freq then activate. */
  predicate Crosses(p: Panel, env: Env, freq: nat) {
    var found := FindBand(env.catalog, freq);
    found.Some? && found.value.typ != 0 && found.value.id != p.band
  }

  /** The crossing into another real band, which check_cross_band and
      main_screen_set_freq handle alike: store prev as the old band's
      frequency, activate b at freq, refresh the info and the panel. */
  function CrossInto(p: Panel, env: Env, b: Band, freq: nat, prev: nat): (r: Panel)
    ensures CurFreq(r) == freq && CurMode(r) == env.bandVfo(b.id, p.vfos.vfo).mode && r.band == b.id
    ensures VfoOf(r, OtherVfo(p.vfos.vfo)) == env.bandVfo(b.id, OtherVfo(p.vfos.vfo))
    ensures r.trace == p.trace + [FreqStored(prev), BandActivated(b.id, freq), InfoUpdated, PannelShown]
    ensures r == p.(cur := r.cur, vfos := p.vfos.(other := r.vfos.other), band := r.band, trace := r.trace)
  {
    Emit(InfoUpdate(Activate(StoreCurFreq(p, prev), env, b, freq)), PannelShown)
  }

  /** check_cross_band: after a tuning step from prev to freq, look the new
      frequency up. A real band other than the current one is activated, after
      restoring prev as the current frequency; a gap or an unknown frequency
      clears the band cursor. */
  function CheckCrossBand(p: Panel, env: Env, freq: nat, prev: nat): (r: Panel)
    ensures r.band == DerivedBand(env, freq)
    ensures !Crosses(p, env, freq) ==> r.cur == p.cur && r.vfos == p.vfos && r.trace == p.trace
    ensures Crosses(p, env, freq) ==>
              var b := FindBand(env.catalog, freq).value;
              CurFreq(r) == freq && CurMode(r) == env.bandVfo(b.id, p.vfos.vfo).mode
    ensures r == p.(cur := r.cur, vfos := p.vfos.(other := r.vfos.other), band := r.band,
                    freqBand := r.freqBand, trace := r.trace)
  {
    match FindBand(env.catalog, freq)
    case None => p.(band := -1)
    case Some(b) =>
      var q := p.(freqBand := b);
      if b.typ != 0 then
        if b.id != q.band then CrossInto(q, env, b, freq, prev) else q
      else q.(band := -1)
  }

  /** main_screen_set_freq: direct frequency entry. A real band other than the
      current one is activated as in check_cross_band, but a gap leaves the band
      cursor alone and the frequency lock is not consulted; the radio is then
      tuned to freq. */
  function SetFreq(p: Panel, env: Env, freq: nat): (r: Panel)
    ensures CurFreq(r) == freq
    ensures !Crosses(p, env, freq) ==> CurMode(r) == CurMode(p) && r.vfos == p.vfos
    ensures Crosses(p, env, freq) ==>
              CurMode(r) == env.bandVfo(FindBand(env.catalog, freq).value.id, p.vfos.vfo).mode
    ensures var found := FindBand(env.catalog, freq);
            r.band == if found.Some? && found.value.typ != 0 then found.value.id else p.band
    ensures |r.trace| >= |p.trace| + 2
    ensures r.trace[|r.trace| - 2..] == [RadioFreqSet(freq), ScreenUpdateSent]
    ensures r == p.(cur := r.cur, vfos := p.vfos.(other := r.vfos.other), band := r.band,
                    freqBand := r.freqBand, trace := r.trace)
  {
    var prev := CurFreq(p);
    var q :=
      match FindBand(env.catalog, freq)
      case None => p
      case Some(b) =>
        var q0 := p.(freqBand := b);
        if b.typ != 0 && b.id != q0.band then CrossInto(q0, env, b, freq, prev) else q0;
    var r := Emit(Emit(SetCurFreq(q, freq), RadioFreqSet(freq)), ScreenUpdateSent);
    assert r.trace == q.trace + [RadioFreqSet(freq), ScreenUpdateSent];
    r
  }

  /* ---- tuning ---- */

  /** freq_shift: unless the frequency is locked, ask the radio to move by
      diff * step * acceleration, show the new frequency, check for a band
      crossing and tell the dialog. */
  function FreqShift(p: Panel, env: Env, diff: int): (r: Panel)
    requires env.Valid()
    ensures p.locks.freq ==> r == p
    ensures !p.locks.freq ==>
              var delta := diff * Step(p) * FreqAccel(env.freqAccel, Abs(diff));
              && CurFreq(r) == env.changeFreq(CurFreq(p), delta)
              && r.band == DerivedBand(env, CurFreq(r))
              && (!Crosses(p, env, CurFreq(r)) ==> CurMode(r) == CurMode(p) && r.vfos == p.vfos)
              && (Crosses(p, env, CurFreq(r)) ==>
                    CurMode(r) == env.bandVfo(FindBand(env.catalog, CurFreq(r)).value.id, p.vfos.vfo).mode)
              && |r.trace| >= |p.trace| + 3
              && r.trace[|p.trace|] == RadioFreqChanged(delta)
              && r.trace[|r.trace| - 1] == DialogSent(EvFreqUpdate)
    ensures r == p.(cur := r.cur, vfos := p.vfos.(other := r.vfos.other), band := r.band,
                    freqBand := r.freqBand, trace := r.trace)
  {
    if p.locks.freq then p
    else
      var delta := ShiftDelta(diff, Step(p), env.freqAccel);
      var prev := CurFreq(p);
      var freq := env.changeFreq(prev, delta);
      var q := Emit(SetCurFreq(p, freq), RadioFreqChanged(delta));
      Emit(CheckCrossBand(FreqUpdate(q), env, freq, prev), DialogSent(EvFreqUpdate))
  }

  /** main_screen_rotary_cb: the encoder count is narrowed to freq_shift's
      16-bit parameter; the dialog receives the full count. */
  function Rotary(p: Panel, env: Env, diff: int): (r: Panel)
    requires env.Valid()
    ensures -0x8000 <= diff < 0x8000 ==> r == Emit(FreqShift(p, env, diff), DialogRotary(diff))
    ensures r == p.(cur := r.cur, vfos := p.vfos.(other := r.vfos.other), band := r.band,
                    freqBand := r.freqBand, trace := r.trace)
  {
    Emit(FreqShift(p, env, ToInt16(diff)), DialogRotary(diff))
  }

  /* ---- memory channels ---- */

  /** The reserved FT8/FT4 channel ids, which always load in USB-digital. */
  predicate IsDigitalChannel(env: Env, id: nat) {
    env.memFt8Id <= id < env.memFt4Id + 100
  }

  /** params_memory_load: a stored channel replaces the current frequency, mode
      and label; an empty slot changes nothing. */
  function MemoryLoad(p: Panel, id: nat): (r: Panel)
    ensures id in p.stored.memory ==>
              r.cur == VfoParams(p.stored.memory[id].freq, p.stored.memory[id].mode)
              && r.stored.labelText == p.stored.memory[id].labelText
    ensures id !in p.stored.memory ==> r == p
    ensures r == p.(cur := r.cur, stored := p.stored.(labelText := r.stored.labelText))
  {
    if id in p.stored.memory then
      var c := p.stored.memory[id];
      p.(cur := VfoParams(c.freq, c.mode), stored := p.stored.(labelText := c.labelText))
    else p
  }

  /** The parameter part of mem_load: load channel id, force USB-digital on
      the FT8/FT4 ids, and re-derive the band from the loaded frequency. */
  function LoadChannel(p: Panel, env: Env, id: nat): (r: Panel)
    ensures var q := MemoryLoad(p, id);
            && CurFreq(r) == CurFreq(q)
            && CurMode(r) == (if IsDigitalChannel(env, id) then USBDig else CurMode(q))
            && r.stored == q.stored
    ensures r.band == DerivedBand(env, CurFreq(r))
    ensures r == p.(cur := r.cur, stored := r.stored, band := r.band, freqBand := r.freqBand)
  {
    var q1 := MemoryLoad(p, id);
    var q2 := if IsDigitalChannel(env, id) && CurMode(q1) != USBDig
              then SetCurMode(q1, USBDig) else q1;
    match FindBand(env.catalog, CurFreq(q2))
    case Some(b) => q2.(freqBand := b, band := if b.typ != 0 then b.id else -1)
    case None => q2.(band := -1)
  }

  /** The message mem_load shows: the channel's label if it has one, otherwise
      the channel number for ordinary channels, otherwise none. */
  function LoadedMessage(labelText: string, id: nat, memNum: nat): seq<Effect> {
    if |labelText| > 0 then [Shown(MsgLabel(labelText))]
    else if id <= memNum then [Shown(MsgLoaded(id))]
    else []
  }

  /** mem_load: load the channel, then refresh the radio (VFO, filters, ATU),
      the info, the panel and the display, and show the message. */
  function MemLoad(p: Panel, env: Env, id: nat): (r: Panel)
    ensures var q := MemoryLoad(p, id);
            && CurFreq(r) == CurFreq(q)
            && CurMode(r) == (if IsDigitalChannel(env, id) then USBDig else CurMode(q))
            && r.stored == q.stored
    ensures r.band == DerivedBand(env, CurFreq(r))
    ensures r.trace == p.trace + [Radio(VfoSet), Radio(FiltersSetup), Radio(LoadAtu), InfoUpdated, PannelShown,
                                  FreqShown(DisplayedFreq(r))] + LoadedMessage(r.stored.labelText, id, env.memNum)
    ensures r == p.(cur := r.cur, stored := r.stored, band := r.band, freqBand := r.freqBand, trace := r.trace)
  {
    var q := LoadChannel(p, env, id);
    var q5 := FreqUpdate(Emit(InfoUpdate(Emit(Emit(Emit(q, Radio(VfoSet)), Radio(FiltersSetup)), Radio(LoadAtu))), PannelShown));
    if |q5.stored.labelText| > 0 then Emit(q5, Shown(MsgLabel(q5.stored.labelText)))
    else if id <= env.memNum then Emit(q5, Shown(MsgLoaded(id)))
    else q5
  }

  /** mem_save: store the current frequency, mode and label as channel id and
      confirm ordinary channel numbers; the other channels are kept. */
  function MemSave(p: Panel, env: Env, id: nat): (r: Panel)
    ensures r.stored.memory == p.stored.memory[id := Channel(CurFreq(p), CurMode(p), p.stored.labelText)]
    ensures r.trace == p.trace + (if id <= env.memNum then [Shown(MsgSaved(id))] else [])
    ensures r == p.(stored := p.stored.(memory := r.stored.memory), trace := r.trace)
  {
    var c := Channel(CurFreq(p), CurMode(p), p.stored.labelText);
    var q := p.(stored := p.stored.(memory := p.stored.memory[id := c]));
    if id <= env.memNum then Emit(q, Shown(MsgSaved(id))) else q
  }

  /* ---- modes ---- */

  predicate IsModeKey(key: KeypadKey) {
    key == KeyModeAm || key == KeyModeCw || key == KeyModeSsb
  }

  /** The mode the mode key selects from mode m. */
  function NextMode(key: KeypadKey, m: Mode, longPress: bool): Mode
    requires IsModeKey(key)
  {
    match key
    case KeyModeAm => NextModeAmFm(m, longPress)
    case KeyModeCw => NextModeCw(m, longPress)
    case KeyModeSsb => NextModeSsb(m, longPress)
  }

  /** change_mode: only a long press or a release selects a mode; the mode is
      announced, set on the current VFO, and the filters and info refreshed. */
  function ChangeMode(p: Panel, key: KeypadKey, phase: Phase): (r: Panel)
    requires IsModeKey(key)
    ensures phase != Long && phase != Release ==> r == p
    ensures phase == Long || phase == Release ==>
              var m := NextMode(key, CurMode(p), phase == Long);
              && CurMode(r) == m && CurFreq(r) == CurFreq(p)
              && r.trace == p.trace + [Announced(ModeName(m)), ModeSet(p.vfos.vfo, m),
                                       Radio(FiltersSetup), InfoUpdated, PannelShown]
    ensures r == p.(cur := r.cur, trace := r.trace)
  {
    if phase != Long && phase != Release then p
    else
      var m := NextMode(key, CurMode(p), phase == Long);
      var q := Emit(p, Announced(ModeName(m)));
      var q2 := Emit(SetCurMode(q, m), ModeSet(q.vfos.vfo, m));
      Emit(InfoUpdate(Emit(q2, Radio(FiltersSetup))), PannelShown)
  }

  /* ---- application pages ---- */

  /** The effects of apps_disable, in order. */
  const Teardown: seq<Effect> := [DialogDestructed, RttySet(RttyOff), PannelShown]

  /** apps_disable: close any dialog, switch RTTY off, show the panel. */
  function AppsDisable(p: Panel): (r: Panel)
    ensures r.ui == p.ui.(dialog := None, rtty := RttyOff)
    ensures r.trace == p.trace + Teardown
    ensures r == p.(ui := r.ui, trace := r.trace)
  {
    Emit(SetRtty(Emit(p.(ui := p.ui.(dialog := None)), DialogDestructed), RttyOff), PannelShown)
  }

  /** The dialog main_screen_app constructs for a page, if any. */
  function PageDialog(page: Page): Option<Dialog> {
    match page
    case PageSettings => Some(DialogSettings)
    case PageSwrScan => Some(DialogSwrScan)
    case PageFt8 => Some(DialogFt8)
    case PageGps => Some(DialogGps)
    case PageRecorder => Some(DialogRecorder)
    case _ => None
  }

  /** What main_screen_app does after loading the page's buttons: start RTTY
      reception, or construct the page's dialog. It never tears down again. */
  function AppStart(page: Page): (r: seq<Effect>)
    ensures DialogDestructed !in r
  {
    if page == PageRtty then [RttySet(RttyRx), PannelShown]
    else match PageDialog(page)
      case Some(d) => [DialogConstructed(d)]
      case None => []
  }

  /** main_screen_app: tear down the running application, load the page's
      buttons, then start RTTY or construct the page's dialog. */
  function App(p: Panel, page: Page): (r: Panel)
    ensures r.ui == p.ui.(dialog := PageDialog(page), buttons := OnPage(page),
                          rtty := if page == PageRtty then RttyRx else RttyOff)
    ensures r.trace == p.trace + Teardown + [ButtonsUnloaded, PageLoaded(page)] + AppStart(page)
    ensures r == p.(ui := r.ui, trace := r.trace)
  {
    var q := LoadPage(UnloadPage(AppsDisable(p)), page);
    if page == PageRtty then Emit(SetRtty(q, RttyRx), PannelShown)
    else match PageDialog(page)
      case Some(d) => DialogConstruct(q, d)
      case None => q
  }

  /** main_screen_dialog_deleted_cb: the running dialog has gone, and the
      button bar returns to the first volume page. */
  function DialogDeleted(p: Panel): (r: Panel)
    ensures r.ui.dialog.None?
    ensures r == p.(ui := p.ui.(dialog := None, buttons := OnPage(PageVol1)),
                    trace := p.trace + [ButtonsUnloaded, PageLoaded(PageVol1)])
  {
    LoadPage(UnloadPage(p.(ui := p.ui.(dialog := None))), PageVol1)
  }

  /** The button page of the application actions that go through main_screen_app. */
  function ActionPage(a: PressAction): Option<Page> {
    match a
    case ActionAppRtty => Some(PageRtty)
    case ActionAppFt8 => Some(PageFt8)
    case ActionAppSwrScan => Some(PageSwrScan)
    case ActionAppGps => Some(PageGps)
    case ActionAppSettings => Some(PageSettings)
    case ActionAppRecorder => Some(PageRecorder)
    case _ => None
  }

  /** main_screen_action: run a configured press action. Only the step, the
      application state and the trace can change. */
  function Action(p: Panel, env: Env, a: PressAction): (r: Panel)
    ensures ActionPage(a).Some? ==> r == App(p, ActionPage(a).value)
    ensures r == p.(stored := p.stored.(steps := r.stored.steps), ui := r.ui, trace := r.trace)
  {
    match a
    case ActionNone => p
    case ActionScreenshot => Emit(p, ScreenshotTaken)
    case ActionRecorder =>
      Emit(p.(ui := p.ui.(recorderOn := !p.ui.recorderOn)), RecorderSet(!p.ui.recorderOn))
    case ActionMute => Emit(p, Radio(ChangeMute))
    case ActionVoiceMode => Emit(p, VoiceModeChanged)
    case ActionBatInfo => Emit(p, BatteryInfoSaid)
    case ActionStepUp => NextFreqStep(p, env, true)
    case ActionStepDown => NextFreqStep(p, env, false)
    case ActionNrToggle => Emit(p, Radio(ChangeNr))
    case ActionNbToggle => Emit(p, Radio(ChangeNb))
    case ActionAppRtty | ActionAppFt8 | ActionAppSwrScan | ActionAppGps | ActionAppSettings | ActionAppRecorder =>
      App(p, ActionPage(a).value)
    case ActionAppQth => DialogConstruct(p, DialogQth)
    case ActionAppCallsign => DialogConstruct(p, DialogCallsign)
  }

  /* ---- radio notifications ---- */

  /** main_screen_radio_cb after the radio switched to TX (tx) or RX: in split
      the display is refreshed, since it shows the other VFO while transmitting;
      the event is then passed on. */
  function RadioNotified(p: Panel, tx: bool): (r: Panel)
    ensures r.vfos.tx == tx
    ensures r.trace == p.trace + (if p.vfos.split then [FreqShown(DisplayedFreq(r))] else []) + [RadioEventForwarded(tx)]
    ensures r == p.(vfos := p.vfos.(tx := tx), trace := r.trace)
  {
    var q := p.(vfos := p.vfos.(tx := tx));
    Emit(if q.vfos.split then FreqUpdate(q) else q, RadioEventForwarded(tx))
  }

  /** main_screen_update_cb */
  function ScreenUpdate(p: Panel): (r: Panel)
    ensures r == p.(trace := p.trace + [FreqShown(DisplayedFreq(p)), InfoUpdated])
  {
    InfoUpdate(FreqUpdate(p))
  }

  /** main_screen_atu_update_cb */
  function AtuUpdate(p: Panel): (r: Panel)
    ensures r == p.(trace := p.trace + [AtuInfoUpdated])
  {
    Emit(p, AtuInfoUpdated)
  }
}
