/** Properties of the front panel that relate several operations or whole
    runs of events: the lock gates, the lock state machine over runs, band
    tracking on entry and on tuning, the memory round trip, and the inputs
    that share one handler. */
module Properties {
  import opened RadioTypes
  import opened Modes
  import opened Tuning
  import opened Bands
  import opened PanelState
  import opened Controller
  import opened EventDispatch

  /* ---------------- modes ---------------- */

  /** Mode keys do nothing while the mode is locked. */
  lemma ModeKeysRespectModeLock(p: Panel, env: Env, key: KeypadKey, phase: Phase)
    requires IsModeKey(key) && p.locks.mode
    ensures Keypad(p, env, key, phase) == p
  {
  }

  /** Without the mode lock a mode key goes to change_mode, whose contract
      says which mode it selects and that a press or a long release does
      nothing. */
  lemma ModeKeyCallsChangeMode(p: Panel, env: Env, key: KeypadKey, phase: Phase)
    requires IsModeKey(key) && !p.locks.mode
    ensures Keypad(p, env, key, phase) == ChangeMode(p, key, phase)
  {
  }

  /* ---------------- tuning ---------------- */

  /** An encoder count outside the 16-bit range is wrapped before it reaches
      freq_shift: 65537 counts tune as one. */
  lemma RotaryWrapsCount(p: Panel, env: Env)
    requires env.Valid()
    ensures Rotary(p, env, 0x1_0001) == Emit(FreqShift(p, env, 1), DialogRotary(0x1_0001))
  {
    assert ToInt16(0x1_0001) == 1;
  }

  /** The UP hardware key tunes up by one step when the frequency is not locked. */
  lemma HKeyUpTunes(p: Panel, env: Env)
    requires env.Valid() && !p.locks.freq
    ensures HKeyPressed(p, env, HKeyUp, Release) == FreqShift(p, env, 1)
  {
  }

  /** The DOWN hardware key tunes down by one step when the frequency is not locked. */
  lemma HKeyDownTunes(p: Panel, env: Env)
    requires env.Valid() && !p.locks.freq
    ensures HKeyPressed(p, env, HKeyDown, Release) == FreqShift(p, env, -1)
  {
  }

  /** Tuning up one step from 14 200 000 Hz with a 100 Hz step and no
      acceleration asks the radio for +100 Hz; when the radio settles on
      14 200 100 Hz inside the current band, that band stays current and
      nothing is activated. */
  lemma TuneWithinBandScenario(p: Panel, env: Env, k: nat)
    requires env.Valid() && env.freqAccel == FREQ_ACCEL_NONE
    requires !p.locks.freq && CurFreq(p) == 14_200_000 && Step(p) == 100
    requires env.changeFreq(14_200_000, 100) == 14_200_100
    requires Ordered(env.catalog) && k < |env.catalog|
    requires env.catalog[k] == Band(p.band, 1, 14_000_000, 14_350_000)
    ensures var r := FreqShift(p, env, 1);
            && CurFreq(r) == 14_200_100
            && r.band == p.band
            && CurMode(r) == CurMode(p)
            && r.trace == p.trace + [RadioFreqChanged(100), FreqShown(DisplayedFreq(SetCurFreq(p, 14_200_100))),
                                     DialogSent(EvFreqUpdate)]
  {
    FindBandInOrderedCatalogue(env.catalog, 14_200_100, k);
    assert ShiftDelta(1, 100, FREQ_ACCEL_NONE) == 100;
  }

  /* ---------------- band tracking ---------------- */

  /** Crossing into another real band stores the previous frequency first,
      then activates the new band at the new frequency, with the mode and the
      other VFO that band stores. */
  lemma CrossBandActivatesNewBand(p: Panel, env: Env, freq: nat, prev: nat, b: Band)
    requires FindBand(env.catalog, freq) == Some(b) && b.typ != 0 && b.id != p.band
    ensures var r := CheckCrossBand(p, env, freq, prev);
            && r.trace == p.trace + [FreqStored(prev), BandActivated(b.id, freq), InfoUpdated, PannelShown]
            && r.band == b.id && r.freqBand == b && CurFreq(r) == freq
            && CurMode(r) == env.bandVfo(b.id, p.vfos.vfo).mode
            && VfoOf(r, OtherVfo(p.vfos.vfo)) == env.bandVfo(b.id, OtherVfo(p.vfos.vfo))
  {
  }

  /** Staying inside the current band changes nothing but the looked-up band record. */
  lemma CrossBandSameBand(p: Panel, env: Env, freq: nat, prev: nat, b: Band)
    requires FindBand(env.catalog, freq) == Some(b) && b.typ != 0 && b.id == p.band
    ensures CheckCrossBand(p, env, freq, prev) == p.(freqBand := b)
  {
  }

  /** A gap (type 0) or a frequency outside the catalogue clears the band
      cursor, and emits nothing. */
  lemma CrossBandGapClearsBand(p: Panel, env: Env, freq: nat, prev: nat)
    requires FindBand(env.catalog, freq).None? || FindBand(env.catalog, freq).value.typ == 0
    ensures var r := CheckCrossBand(p, env, freq, prev);
            r == p.(band := -1, freqBand := r.freqBand)
  {
  }

  /** Direct entry into a real band other than the current one activates it
      exactly as a tuning step does, before tuning the radio. */
  lemma SetFreqActivatesNewBand(p: Panel, env: Env, freq: nat, b: Band)
    requires FindBand(env.catalog, freq) == Some(b) && b.typ != 0 && b.id != p.band
    ensures var r := SetFreq(p, env, freq);
            && r.band == b.id
            && CurMode(r) == env.bandVfo(b.id, p.vfos.vfo).mode
            && r.trace == p.trace + [FreqStored(CurFreq(p)), BandActivated(b.id, freq), InfoUpdated,
                                     PannelShown, RadioFreqSet(freq), ScreenUpdateSent]
  {
  }

  /** Direct entry does not consult the frequency lock. */
  lemma SetFreqIgnoresFreqLock(p: Panel, env: Env, freq: nat, lock: bool)
    ensures SetFreq(p.(locks := p.locks.(freq := lock)), env, freq)
            == SetFreq(p, env, freq).(locks := p.locks.(freq := lock))
  {
  }

  /* ---------------- memory channels ---------------- */

  /** Save then load restores the frequency and the mode (USB-digital on the
      FT8/FT4 ids) and the label, and re-derives the band from the frequency. */
  lemma {:induction false} MemoryRoundTrip(p: Panel, env: Env, id: nat)
    ensures var r := MemLoad(MemSave(p, env, id), env, id);
            && CurFreq(r) == CurFreq(p)
            && CurMode(r) == (if IsDigitalChannel(env, id) then USBDig else CurMode(p))
            && r.band == DerivedBand(env, CurFreq(p))
            && r.stored.labelText == p.stored.labelText
  {
    var s := MemSave(p, env, id);
    assert s.stored.memory[id] == Channel(CurFreq(p), CurMode(p), p.stored.labelText);
    var q := MemoryLoad(s, id);
    assert q.cur == VfoParams(CurFreq(p), CurMode(p));
  }

  /** HKEY_1 .. HKEY_8: release loads, long press saves the matching channel. */
  lemma MemoryKeys(p: Panel, env: Env, key: HKey)
    requires env.Valid() && IsMemoryKey(key)
    ensures HKeyPressed(p, env, key, Release) == MemLoad(p, env, MemoryKeyId(key))
    ensures HKeyPressed(p, env, key, Long) == MemSave(p, env, MemoryKeyId(key))
    ensures HKeyPressed(p, env, key, Press) == p
  {
  }

  /** Different memory keys address different channels. */
  lemma MemoryKeyIdInjective(k1: HKey, k2: HKey)
    requires IsMemoryKey(k1) && IsMemoryKey(k2) && k1 != k2
    ensures MemoryKeyId(k1) != MemoryKeyId(k2)
  {
  }

  /* ---------------- locks ---------------- */

  /** The mode keys leave the locks alone. */
  lemma KeypadModeKeysKeepLocks(p: Panel, env: Env, key: KeypadKey, phase: Phase)
    requires IsModeKey(key)
    ensures Keypad(p, env, key, phase).locks == p.locks
  {
    if !p.locks.mode {
      ModeKeyCallsChangeMode(p, env, key, phase);
    }
  }

  /** The function keys leave the locks alone. */
  lemma KeypadFunctionKeysKeepLocks(p: Panel, env: Env, key: KeypadKey, phase: Phase)
    requires key in {KeyF1, KeyF2, KeyF3, KeyF4, KeyF5}
    ensures Keypad(p, env, key, phase).locks == p.locks
  {
  }

  /** The button group keys leave the locks alone. */
  lemma KeypadGroupKeysKeepLocks(p: Panel, env: Env, key: KeypadKey, phase: Phase)
    requires key in {KeyGen, KeyApp, KeyKey, KeyDfn}
    ensures Keypad(p, env, key, phase).locks == p.locks
  {
  }

  /** The message and default keys leave the locks alone. */
  lemma KeypadMsgKeysKeepLocks(p: Panel, env: Env, key: KeypadKey, phase: Phase)
    requires key == KeyMsg || key == KeyDfl
    ensures Keypad(p, env, key, phase).locks == p.locks
  {
  }

  /** The remaining keys other than KEYPAD_LOCK leave the locks alone. */
  lemma KeypadRadioKeysKeepLocks(p: Panel, env: Env, key: KeypadKey, phase: Phase)
    requires key in {KeyPre, KeyBandUp, KeyBandDown, KeyAgc, KeyFst, KeyAtu, KeyAb, KeyPower, KeyPtt, KeyUnsupported}
    ensures Keypad(p, env, key, phase).locks == p.locks
  {
  }

  /** The keypad changes the locks only through the KEYPAD_LOCK release. */
  lemma KeypadLocks(p: Panel, env: Env, key: KeypadKey, phase: Phase)
    ensures Keypad(p, env, key, phase).locks
            == if key == KeyLock && phase == Release then p.locks.(freq := !p.locks.freq) else p.locks
  {
    if IsModeKey(key) {
      KeypadModeKeysKeepLocks(p, env, key, phase);
    } else if key in {KeyF1, KeyF2, KeyF3, KeyF4, KeyF5} {
      KeypadFunctionKeysKeepLocks(p, env, key, phase);
    } else if key in {KeyGen, KeyApp, KeyKey, KeyDfn} {
      KeypadGroupKeysKeepLocks(p, env, key, phase);
    } else if key == KeyMsg || key == KeyDfl {
      KeypadMsgKeysKeepLocks(p, env, key, phase);
    } else if key != KeyLock {
      KeypadRadioKeysKeepLocks(p, env, key, phase);
    }
  }

  /** Releasing KEYPAD_LOCK toggles the frequency lock and refreshes the display. */
  lemma KeypadLockRelease(p: Panel, env: Env)
    ensures Keypad(p, env, KeyLock, Release) == ToggleFreqLock(p)
  {
  }

  /** Releasing HKEY_SPCH toggles the frequency lock and refreshes the display. */
  lemma HKeySpchRelease(p: Panel, env: Env)
    requires env.Valid()
    ensures HKeyPressed(p, env, HKeySpch, Release) == ToggleFreqLock(p)
  {
  }

  /** The memory keys leave the locks alone. */
  lemma MemoryKeysKeepLocks(p: Panel, env: Env, key: HKey, phase: Phase)
    requires env.Valid() && IsMemoryKey(key)
    ensures HKeyPressed(p, env, key, phase).locks == p.locks
  {
    MemoryKeys(p, env, key);
  }

  /** The UP key leaves the locks alone. */
  lemma UpKeyKeepsLocks(p: Panel, env: Env, phase: Phase)
    requires env.Valid()
    ensures HKeyPressed(p, env, HKeyUp, phase).locks == p.locks
  {
    if phase == Release {
      if !p.locks.freq {
        HKeyUpTunes(p, env);
      }
    } else if phase == Long {
      HKeyUpLongUsesBandStep(p, env);
    }
  }

  /** The DOWN key leaves the locks alone. */
  lemma DownKeyKeepsLocks(p: Panel, env: Env, phase: Phase)
    requires env.Valid()
    ensures HKeyPressed(p, env, HKeyDown, phase).locks == p.locks
  {
    if phase == Release {
      if !p.locks.freq {
        HKeyDownTunes(p, env);
      }
    } else if phase == Long {
      HKeyDownLongUsesBandStep(p, env);
    }
  }

  /** The function keys F1 and F2 leave the locks alone. */
  lemma HKeyFunctionKeysKeepLocks(p: Panel, env: Env, key: HKey, phase: Phase)
    requires env.Valid() && (key == HKeyF1 || key == HKeyF2)
    ensures HKeyPressed(p, env, key, phase).locks == p.locks
  {
  }

  /** The hardware keys change the locks only through the HKEY_SPCH release. */
  lemma HKeyLocks(p: Panel, env: Env, key: HKey, phase: Phase)
    requires env.Valid()
    ensures HKeyPressed(p, env, key, phase).locks
            == if key == HKeySpch && phase == Release then p.locks.(freq := !p.locks.freq) else p.locks
  {
    if IsMemoryKey(key) {
      MemoryKeysKeepLocks(p, env, key, phase);
    } else if key == HKeyUp {
      UpKeyKeepsLocks(p, env, phase);
    } else if key == HKeyDown {
      DownKeyKeepsLocks(p, env, phase);
    } else if key == HKeyF1 || key == HKeyF2 {
      HKeyFunctionKeysKeepLocks(p, env, key, phase);
    }
  }

  /** The keyboard changes the locks only through the scroll-lock key. */
  lemma KeyboardLocks(p: Panel, env: Env, code: KeyCode)
    requires env.Valid()
    ensures KeyboardKey(p, env, code).locks
            == if code == ScrollLock then p.locks.(freq := !p.locks.freq) else p.locks
  {
  }

  /** The input events change the locks only through their lock keys. */
  lemma InputLocks(p: Panel, env: Env, ev: Event)
    requires env.Valid()
    requires ev.KeypadEvent? || ev.HKeyEvent? || ev.KeyboardEvent?
    ensures Dispatch(p, env, ev).locks == LocksAfter(p.locks, ev)
  {
    match ev
    case KeypadEvent(key, phase) => KeypadLocks(p, env, key, phase);
    case HKeyEvent(key, phase) => HKeyLocks(p, env, key, phase);
    case KeyboardEvent(code) => KeyboardLocks(p, env, code);
  }

  /** Of the other events only the lock calls set a lock. */
  lemma CallLocks(p: Panel, env: Env, ev: Event)
    requires env.Valid()
    requires !(ev.KeypadEvent? || ev.HKeyEvent? || ev.KeyboardEvent?)
    ensures Dispatch(p, env, ev).locks == LocksAfter(p.locks, ev)
  {
  }

  /** Every event moves the locks as the lock state machine says. */
  lemma DispatchLocks(p: Panel, env: Env, ev: Event)
    requires env.Valid()
    ensures Dispatch(p, env, ev).locks == LocksAfter(p.locks, ev)
  {
    if ev.KeypadEvent? || ev.HKeyEvent? || ev.KeyboardEvent? {
      InputLocks(p, env, ev);
    } else {
      CallLocks(p, env, ev);
    }
  }

  /** The lock state machine over a run of events. */
  function LocksAfterAll(l: Locks, evs: seq<Event>): Locks
    decreases |evs|
  {
    if |evs| == 0 then l else LocksAfterAll(LocksAfter(l, evs[0]), evs[1..])
  }

  /** A run of events moves the locks as the lock state machine says. */
  lemma {:induction false} RunLocks(p: Panel, env: Env, evs: seq<Event>)
    requires env.Valid()
    ensures Run(p, env, evs).locks == LocksAfterAll(p.locks, evs)
    decreases |evs|
  {
    if |evs| > 0 {
      DispatchLocks(p, env, evs[0]);
      RunLocks(Dispatch(p, env, evs[0]), env, evs[1..]);
    }
  }

  /** The events that can change a lock. */
  predicate IsLockEvent(ev: Event) {
    TogglesFreqLock(ev) || ev.LockFreqCall? || ev.LockBandCall? || ev.LockModeCall?
  }

  /** Without lock events the lock state machine stays where it is. */
  lemma {:induction false} LocksStableWithoutLockEvents(l: Locks, evs: seq<Event>)
    requires forall i :: 0 <= i < |evs| ==> !IsLockEvent(evs[i])
    ensures LocksAfterAll(l, evs) == l
    decreases |evs|
  {
    if |evs| > 0 {
      assert LocksAfter(l, evs[0]) == l;
      LocksStableWithoutLockEvents(l, evs[1..]);
    }
  }

  /** So over any run of events none of which touches a lock, all three
      locks keep their values. */
  lemma LocksStableOverRun(p: Panel, env: Env, evs: seq<Event>)
    requires env.Valid()
    requires forall i :: 0 <= i < |evs| ==> !IsLockEvent(evs[i])
    ensures Run(p, env, evs).locks == p.locks
  {
    RunLocks(p, env, evs);
    LocksStableWithoutLockEvents(p.locks, evs);
  }

  /** A toggle negates the frequency lock and only refreshes the display. */
  lemma LockToggleNegates(p: Panel, env: Env, ev: Event)
    requires env.Valid() && TogglesFreqLock(ev)
    ensures Dispatch(p, env, ev) == p.(locks := p.locks.(freq := !p.locks.freq), trace := p.trace + [FreqShown(DisplayedFreq(p))])
  {
  }

  /** Toggling twice restores the lock and the rest of the state. */
  lemma LockToggleTwice(p: Panel, env: Env, ev: Event)
    requires env.Valid() && TogglesFreqLock(ev)
    ensures var r := Dispatch(Dispatch(p, env, ev), env, ev);
            r == p.(trace := r.trace)
  {
    LockToggleNegates(p, env, ev);
    LockToggleNegates(Dispatch(p, env, ev), env, ev);
  }

  /** The keypad band keys switch band through the band-lock gate. */
  lemma KeypadBandKeysUseBandStep(p: Panel, env: Env)
    ensures Keypad(p, env, KeyBandUp, Release) == BandStep(p, env, true)
    ensures Keypad(p, env, KeyBandDown, Release) == BandStep(p, env, false)
  {
  }

  /** A long press of the UP hardware key switches band up through the same gate. */
  lemma HKeyUpLongUsesBandStep(p: Panel, env: Env)
    requires env.Valid()
    ensures HKeyPressed(p, env, HKeyUp, Long) == BandStep(p, env, true)
  {
  }

  /** A long press of the DOWN hardware key switches band down through the same gate. */
  lemma HKeyDownLongUsesBandStep(p: Panel, env: Env)
    requires env.Valid()
    ensures HKeyPressed(p, env, HKeyDown, Long) == BandStep(p, env, false)
  {
  }

  /** Page up/down on the keyboard switch band through the same gate. */
  lemma KeyboardBandKeysUseBandStep(p: Panel, env: Env)
    requires env.Valid()
    ensures KeyboardKey(p, env, PageUpKey) == BandStep(p, env, true)
    ensures KeyboardKey(p, env, PageDownKey) == BandStep(p, env, false)
  {
  }

  /** The inputs that tune the frequency: the encoder, the UP/DOWN hardware
      keys and the '-' / '=' keyboard keys. */
  predicate IsTuningEvent(ev: Event) {
    ev.RotaryEvent? || ev == HKeyEvent(HKeyUp, Release) || ev == HKeyEvent(HKeyDown, Release)
    || ev == KeyboardEvent(Char('-')) || ev == KeyboardEvent(Char('='))
  }

  /** While the frequency is locked a tuning input changes nothing but the trace. */
  lemma LockedTuningEvent(p: Panel, env: Env, ev: Event)
    requires env.Valid() && p.locks.freq && IsTuningEvent(ev)
    ensures var r := Dispatch(p, env, ev);
            r == p.(trace := r.trace)
  {
  }

  /** Any run of tuning inputs under the frequency lock leaves the whole state
      but the trace as it was. */
  lemma {:induction false} LockedTuningRun(p: Panel, env: Env, evs: seq<Event>)
    requires env.Valid() && p.locks.freq
    requires forall i :: 0 <= i < |evs| ==> IsTuningEvent(evs[i])
    ensures var r := Run(p, env, evs);
            r == p.(trace := r.trace)
    decreases |evs|
  {
    if |evs| > 0 {
      LockedTuningEvent(p, env, evs[0]);
      LockedTuningRun(Dispatch(p, env, evs[0]), env, evs[1..]);
    }
  }

  /** Any run of mode-key presses under the mode lock changes nothing at all. */
  lemma {:induction false} LockedModeKeysRun(p: Panel, env: Env, evs: seq<Event>)
    requires env.Valid() && p.locks.mode
    requires forall i :: 0 <= i < |evs| ==> evs[i].KeypadEvent? && IsModeKey(evs[i].key)
    ensures Run(p, env, evs) == p
    decreases |evs|
  {
    if |evs| > 0 {
      ModeKeysRespectModeLock(p, env, evs[0].key, evs[0].phase);
      LockedModeKeysRun(p, env, evs[1..]);
    }
  }

  /* ---------------- PTT and the message key ---------------- */

  /** KEYPAD_PTT: pressing keys the transmitter first and then, in CW, the
      morse key; releasing (after a short or a long press) lifts the morse key
      first; nothing but the trace changes. */
  lemma PttOrdering(p: Panel, env: Env, phase: Phase)
    ensures Keypad(p, env, KeyPtt, phase) == PttKey(p, phase)
  {
  }

  /** KEYPAD_MSG release opens the message dialog of the current mode. */
  lemma KeypadMsgRelease(p: Panel, env: Env)
    ensures Keypad(p, env, KeyMsg, Release) == MsgKey(p)
  {
  }

  /** The message key in CW modes opens the CW messages, in LSB, USB, AM and
      NFM the voice messages; the teardown happens exactly when that dialog
      is not already running. In the digital modes only a note is shown. */
  lemma MsgKeyRoutesByMode(p: Panel)
    ensures var r := MsgKey(p);
            var d := MsgDialog(CurMode(p));
            && (d.Some? ==> r.ui.dialog == d && r.ui.buttons == OnGroup(MsgGroup(d.value))
                            && (p.ui.dialog != d <==> r.trace[|p.trace|] == DialogDestructed))
            && (d.None? ==> r == Emit(p, Shown(MsgNotUsedInMode)))
  {
  }

  /* ---------------- band keys ---------------- */

  /** Without the band lock, a band key pressed inside catalogue band k of an
      ordered catalogue moves to the neighbouring entry when that is a real
      band, with the frequency and mode the band stores for the current VFO. */
  lemma BandKeyReachesNeighbour(p: Panel, env: Env, k: nat, up: bool)
    requires !p.locks.band && Ordered(env.catalog) && k < |env.catalog| && Contains(env.catalog[k], CurFreq(p))
    requires if up then k + 1 < |env.catalog| && Real(env.catalog[k + 1]) else 0 < k && Real(env.catalog[k - 1])
    ensures var n := env.catalog[if up then k + 1 else k - 1];
            var r := BandStep(p, env, up);
            r.band == n.id && r.cur == env.bandVfo(n.id, p.vfos.vfo)
  {
    NextBandIsNeighbour(env.catalog, CurFreq(p), k);
  }

  /* ---------------- tuning step ---------------- */

  /** The tuning step follows the mode: after a mode key selects a mode,
      tuning uses that mode's own step. */
  lemma ModeChangeSelectsStep(p: Panel, key: KeypadKey, phase: Phase)
    requires IsModeKey(key) && (phase == Long || phase == Release)
    ensures Step(ChangeMode(p, key, phase)) == StepOf(p.stored.steps, NextMode(key, CurMode(p), phase == Long))
  {
  }

  /** Changing the step in one mode and switching to another mode gives that
      mode's unchanged step. */
  lemma StepChangeStaysWithMode(p: Panel, env: Env, up: bool, key: KeypadKey, phase: Phase)
    requires IsModeKey(key) && (phase == Long || phase == Release)
    requires NextMode(key, CurMode(p), phase == Long) != CurMode(p)
    ensures Step(ChangeMode(NextFreqStep(p, env, up), key, phase)) == Step(ChangeMode(p, key, phase))
  {
  }

  /* ---------------- dialogs ---------------- */

  /** Once the running dialog has closed itself, Escape toggles the volume
      knob again. */
  lemma EscapeAfterDialogDeleted(p: Panel, env: Env)
    requires env.Valid()
    ensures KeyboardKey(DialogDeleted(p), env, Escape).ui.vol != p.ui.vol
  {
  }

  /* ---------------- knob toggles ---------------- */

  /** Pressing the knob twice restores the MFK mode. */
  lemma MfkToggleTwice(p: Panel)
    ensures SpectrumPressed(SpectrumPressed(p)).ui == p.ui
  {
  }

  /** Escape flips the volume knob between editing and selecting when no
      dialog runs, and does nothing otherwise. */
  lemma VolToggle(p: Panel, env: Env)
    requires env.Valid()
    ensures p.ui.dialog.None? ==> KeyboardKey(p, env, Escape).ui.vol != p.ui.vol
                                  && KeyboardKey(KeyboardKey(p, env, Escape), env, Escape).ui == p.ui
    ensures p.ui.dialog.Some? ==> KeyboardKey(p, env, Escape) == p
  {
  }

  /* ---------------- application pages ---------------- */

  /** The QTH and callsign actions construct their dialog without the
      teardown: a running RTTY stays on and no dialog_destruct is emitted. */
  lemma QthAndCallsignSkipTeardown(p: Panel, env: Env)
    ensures Action(p, env, ActionAppQth)
            == p.(ui := p.ui.(dialog := Some(DialogQth)), trace := p.trace + [DialogConstructed(DialogQth)])
    ensures Action(p, env, ActionAppCallsign)
            == p.(ui := p.ui.(dialog := Some(DialogCallsign)), trace := p.trace + [DialogConstructed(DialogCallsign)])
  {
  }

  /** The keyboard F9 key opens the settings page without the teardown. */
  lemma KeyboardSettingsSkipsTeardown(p: Panel, env: Env)
    requires env.Valid()
    ensures var r := KeyboardKey(p, env, KeyboardF9);
            && r.ui == p.ui.(buttons := OnPage(PageSettings), dialog := Some(DialogSettings))
            && r.trace == p.trace + [ButtonsUnloaded, PageLoaded(PageSettings), DialogConstructed(DialogSettings)]
  {
  }
}
