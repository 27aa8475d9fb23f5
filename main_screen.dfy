/** The front panel as the C file keeps it: module-level state updated in
    place by the callbacks. Each field of MainScreen is one part of the panel
    state, and each method is proved to leave the object in the state the
    transition function of the same name computes from the old state, so
    every property proved about the transitions holds of the object. */
module MainScreenObject {
  import opened RadioTypes
  import opened Modes
  import opened Tuning
  import opened Bands
  import opened PanelState
  import Controller
  import EventDispatch
  import Properties

  class MainScreen {
    var locks: Locks
    var cur: VfoParams
    var vfos: VfoPair
    var band: int
    var freqBand: Band
    var stored: Stored
    var ui: Ui
    var trace: seq<Effect>
    const env: Env

    /** The object's state as a panel value. */
    function Snapshot(): Panel
      reads this
    {
      Panel(locks, cur, vfos, band, freqBand, stored, ui, trace)
    }

    constructor(init: Panel, env: Env)
      requires env.Valid()
      ensures Snapshot() == init && this.env == env
    {
      locks := init.locks;
      cur := init.cur;
      vfos := init.vfos;
      band := init.band;
      freqBand := init.freqBand;
      stored := init.stored;
      ui := init.ui;
      trace := init.trace;
      this.env := env;
    }

    /** Write a whole panel value back into the fields. */
    method Store(s: Panel)
      modifies this
      ensures Snapshot() == s
    {
      locks, cur, vfos, band, freqBand, stored, ui, trace :=
        s.locks, s.cur, s.vfos, s.band, s.freqBand, s.stored, s.ui, s.trace;
    }

    /** freq_update */
    method FreqUpdate()
      modifies this
      ensures Snapshot() == PanelState.FreqUpdate(old(Snapshot()))
    {
      trace := trace + [FreqShown(DisplayedFreq(Snapshot()))];
    }

    /* ---- the three locks ---- */

    /** The lock toggle of KEYPAD_LOCK, HKEY_SPCH and the scroll-lock key. */
    method ToggleFreqLock()
      modifies this
      ensures Snapshot() == Controller.ToggleFreqLock(old(Snapshot()))
    {
      locks := locks.(freq := !locks.freq);
      FreqUpdate();
    }

    /** main_screen_lock_freq */
    method LockFreq(lock: bool)
      modifies this
      ensures Snapshot() == Controller.LockFreq(old(Snapshot()), lock)
    {
      locks := locks.(freq := lock);
      FreqUpdate();
    }

    /** main_screen_lock_band */
    method LockBand(lock: bool)
      modifies this
      ensures Snapshot() == Controller.LockBand(old(Snapshot()), lock)
    {
      locks := locks.(band := lock);
    }

    /** main_screen_lock_mode */
    method LockMode(lock: bool)
      modifies this
      ensures Snapshot() == Controller.LockMode(old(Snapshot()), lock)
    {
      locks := locks.(mode := lock);
      trace := trace + [ModeLockShown(lock)];
    }

    /* ---- band tracking and tuning ---- */

    /** The band crossing shared by check_cross_band and main_screen_set_freq:
        store prev as the old band's frequency, activate b at freq, refresh
        the info and the panel. */
    method CrossInto(b: Band, freq: nat, prev: nat)
      modifies this
      ensures Snapshot() == Controller.CrossInto(old(Snapshot()), env, b, freq, prev)
    {
      cur := VfoParams(prev, cur.mode);
      trace := trace + [FreqStored(prev)];
      Activate(b, freq);
      trace := trace + [InfoUpdated, PannelShown];
    }

    /** bands_activate: load the band's stored parameters, tuned to f. */
    method Activate(b: Band, f: nat)
      modifies this
      ensures Snapshot() == Controller.Activate(old(Snapshot()), env, b, f)
    {
      cur := VfoParams(f, env.bandVfo(b.id, vfos.vfo).mode);
      vfos := vfos.(other := env.bandVfo(b.id, OtherVfo(vfos.vfo)));
      band := b.id;
      trace := trace + [BandActivated(b.id, f)];
    }

    /** bands_change */
    method BandChange(up: bool)
      modifies this
      ensures Snapshot() == Controller.BandChange(old(Snapshot()), env, up)
    {
      trace := trace + [BandChanged(up)];
      match NextBand(env.catalog, cur.freq, up) {
        case None =>
        case Some(b) => Activate(b, env.bandVfo(b.id, vfos.vfo).freq);
      }
    }

    /** The band keys: switch band unless it is locked, then forward the key. */
    method BandStep(up: bool)
      modifies this
      ensures Snapshot() == Controller.BandStep(old(Snapshot()), env, up)
    {
      if !locks.band {
        BandChange(up);
        trace := trace + [DialogSent(EvFreqUpdate)];
      }
      trace := trace + [DialogSent(if up then EvBandUp else EvBandDown)];
    }

    /** check_cross_band */
    method CheckCrossBand(freq: nat, prev: nat)
      modifies this
      ensures Snapshot() == Controller.CheckCrossBand(old(Snapshot()), env, freq, prev)
    {
      match FindBand(env.catalog, freq)
      case None =>
        band := -1;
      case Some(b) =>
        freqBand := b;
        if b.typ != 0 {
          if b.id != band {
            CrossInto(b, freq, prev);
          }
        } else {
          band := -1;
        }
    }

    /** freq_shift */
    method FreqShift(diff: int)
      requires env.Valid()
      modifies this
      ensures Snapshot() == Controller.FreqShift(old(Snapshot()), env, diff)
    {
      if locks.freq {
        return;
      }
      var delta := ShiftDelta(diff, StepOf(stored.steps, cur.mode), env.freqAccel);
      var prev := cur.freq;
      var freq := env.changeFreq(prev, delta);
      cur := VfoParams(freq, cur.mode);
      trace := trace + [RadioFreqChanged(delta)];
      FreqUpdate();
      CheckCrossBand(freq, prev);
      trace := trace + [DialogSent(EvFreqUpdate)];
    }

    /** main_screen_set_freq */
    method SetFreq(freq: nat)
      modifies this
      ensures Snapshot() == Controller.SetFreq(old(Snapshot()), env, freq)
    {
      var prev := cur.freq;
      match FindBand(env.catalog, freq) {
        case None =>
        case Some(b) =>
          freqBand := b;
          if b.typ != 0 && b.id != band {
            CrossInto(b, freq, prev);
          }
      }
      cur := VfoParams(freq, cur.mode);
      trace := trace + [RadioFreqSet(freq), ScreenUpdateSent];
    }

    /** main_screen_rotary_cb */
    method Rotary(diff: int)
      requires env.Valid()
      modifies this
      ensures Snapshot() == Controller.Rotary(old(Snapshot()), env, diff)
    {
      FreqShift(ToInt16(diff));
      trace := trace + [DialogRotary(diff)];
    }

    /* ---- memory channels ---- */

    /** The parameter part of mem_load: load the channel, force USB-digital
        on the FT8/FT4 ids, re-derive the band. */
    method LoadChannel(id: nat)
      modifies this
      ensures Snapshot() == Controller.LoadChannel(old(Snapshot()), env, id)
    {
      if id in stored.memory {
        var c := stored.memory[id];
        cur := VfoParams(c.freq, c.mode);
        stored := stored.(labelText := c.labelText);
      }
      if Controller.IsDigitalChannel(env, id) && cur.mode != USBDig {
        cur := VfoParams(cur.freq, USBDig);
      }
      match FindBand(env.catalog, cur.freq) {
        case Some(b) =>
          freqBand := b;
          band := if b.typ != 0 then b.id else -1;
        case None =>
          band := -1;
      }
    }

    /** mem_load */
    method MemLoad(id: nat)
      modifies this
      ensures Snapshot() == Controller.MemLoad(old(Snapshot()), env, id)
    {
      LoadChannel(id);
      trace := trace + [Radio(VfoSet), Radio(FiltersSetup), Radio(LoadAtu), InfoUpdated, PannelShown];
      FreqUpdate();
      if |stored.labelText| > 0 {
        trace := trace + [Shown(MsgLabel(stored.labelText))];
      } else if id <= env.memNum {
        trace := trace + [Shown(MsgLoaded(id))];
      }
    }

    /** mem_save */
    method MemSave(id: nat)
      modifies this
      ensures Snapshot() == Controller.MemSave(old(Snapshot()), env, id)
    {
      stored := stored.(memory := stored.memory[id := Channel(cur.freq, cur.mode, stored.labelText)]);
      if id <= env.memNum {
        trace := trace + [Shown(MsgSaved(id))];
      }
    }

    /* ---- modes ---- */

    /** The announcement of change_mode: search the table of spoken names
        for mode m and say the entry found. */
    method AnnounceMode(m: Mode)
      modifies this
      ensures Snapshot() == Emit(old(Snapshot()), Announced(ModeName(m)))
    {
      var text := FindModeText(ModesText, m);
      ModesTextNamesEveryMode(m);
      if text.Some? {
        trace := trace + [Announced(text.value)];
      }
    }

    /** change_mode */
    method ChangeMode(key: KeypadKey, phase: Phase)
      requires Controller.IsModeKey(key)
      modifies this
      ensures Snapshot() == Controller.ChangeMode(old(Snapshot()), key, phase)
    {
      if phase != Long && phase != Release {
        return;
      }
      var m := Controller.NextMode(key, cur.mode, phase == Long);
      AnnounceMode(m);
      cur := VfoParams(cur.freq, m);
      trace := trace + [ModeSet(vfos.vfo, m), Radio(FiltersSetup), InfoUpdated, PannelShown];
    }

    /* ---- the input callbacks ---- */

    /** main_screen_keypad_cb: the mode keys, the band keys and the lock
        release update the object's own fields; the other keys apply the keypad
        transition. */
    method Keypad(key: KeypadKey, phase: Phase)
      modifies this
      ensures Snapshot() == EventDispatch.Keypad(old(Snapshot()), env, key, phase)
    {
      ghost var p := Snapshot();
      if Controller.IsModeKey(key) && !locks.mode {
        Properties.ModeKeyCallsChangeMode(p, env, key, phase);
        ChangeMode(key, phase);
      } else if key == KeyLock && phase == Release {
        Properties.KeypadLockRelease(p, env);
        ToggleFreqLock();
      } else if (key == KeyBandUp || key == KeyBandDown) && phase == Release {
        Properties.KeypadBandKeysUseBandStep(p, env);
        BandStep(key == KeyBandUp);
      } else {
        Store(EventDispatch.Keypad(Snapshot(), env, key, phase));
      }
    }

    /** main_screen_hkey_cb: the memory, lock, tuning and band keys update the
        fields in place; the other keys apply the hardware-key transition. */
    method HKey(key: HKey, phase: Phase)
      requires env.Valid()
      modifies this
      ensures Snapshot() == EventDispatch.HKeyPressed(old(Snapshot()), env, key, phase)
    {
      ghost var p := Snapshot();
      if EventDispatch.IsMemoryKey(key) && (phase == Release || phase == Long) {
        Properties.MemoryKeys(p, env, key);
        if phase == Release {
          MemLoad(EventDispatch.MemoryKeyId(key));
        } else {
          MemSave(EventDispatch.MemoryKeyId(key));
        }
      } else if key == HKeySpch && phase == Release {
        Properties.HKeySpchRelease(p, env);
        ToggleFreqLock();
      } else if key == HKeyUp && phase == Release && !locks.freq {
        Properties.HKeyUpTunes(p, env);
        FreqShift(1);
      } else if key == HKeyDown && phase == Release && !locks.freq {
        Properties.HKeyDownTunes(p, env);
        FreqShift(-1);
      } else if key == HKeyUp && phase == Long {
        Properties.HKeyUpLongUsesBandStep(p, env);
        BandStep(true);
      } else if key == HKeyDown && phase == Long {
        Properties.HKeyDownLongUsesBandStep(p, env);
        BandStep(false);
      } else {
        Store(EventDispatch.HKeyPressed(Snapshot(), env, key, phase));
      }
    }

    /** spectrum_key_cb: the tuning, lock, band and volume-knob keys update
        the fields in place; the other keys apply the keyboard transition. */
    method KeyboardKey(code: KeyCode)
      requires env.Valid()
      modifies this
      ensures Snapshot() == EventDispatch.KeyboardKey(old(Snapshot()), env, code)
    {
      if code == Char('-') || code == Char('=') {
        if !locks.freq {
          FreqShift(if code == Char('=') then 1 else -1);
        }
      } else if code == ScrollLock {
        ToggleFreqLock();
      } else if code == PageUpKey || code == PageDownKey {
        Properties.KeyboardBandKeysUseBandStep(Snapshot(), env);
        BandStep(code == PageUpKey);
      } else if code == Escape {
        if ui.dialog.None? {
          ui := ui.(vol := EventDispatch.ToggleKnob(ui.vol));
          trace := trace + [VolUpdated(0)];
        }
      } else {
        Store(EventDispatch.KeyboardKey(Snapshot(), env, code));
      }
    }

    /** spectrum_pressed_cb */
    method SpectrumPressed()
      modifies this
      ensures Snapshot() == EventDispatch.SpectrumPressed(old(Snapshot()))
    {
      ui := ui.(mfk := EventDispatch.ToggleKnob(ui.mfk));
      trace := trace + [MfkUpdated(0)];
    }

    /** main_screen_radio_cb */
    method RadioNotified(tx: bool)
      modifies this
      ensures Snapshot() == Controller.RadioNotified(old(Snapshot()), tx)
    {
      vfos := vfos.(tx := tx);
      if vfos.split {
        FreqUpdate();
      }
      trace := trace + [RadioEventForwarded(tx)];
    }

    /** main_screen_update_cb */
    method ScreenUpdate()
      modifies this
      ensures Snapshot() == Controller.ScreenUpdate(old(Snapshot()))
    {
      FreqUpdate();
      trace := trace + [InfoUpdated];
    }

    /** main_screen_atu_update_cb */
    method AtuUpdate()
      modifies this
      ensures Snapshot() == Controller.AtuUpdate(old(Snapshot()))
    {
      trace := trace + [AtuInfoUpdated];
    }

    /** main_screen_dialog_deleted_cb */
    method DialogDeleted()
      modifies this
      ensures Snapshot() == Controller.DialogDeleted(old(Snapshot()))
    {
      ui := ui.(dialog := None);
      ui := ui.(buttons := OnPage(PageVol1));
      trace := trace + [ButtonsUnloaded, PageLoaded(PageVol1)];
    }

    /** main_screen_app */
    method App(page: Page)
      modifies this
      ensures Snapshot() == Controller.App(old(Snapshot()), page)
    {
      ui := ui.(dialog := None, rtty := RttyOff, buttons := OnPage(page));
      trace := trace + Controller.Teardown + [ButtonsUnloaded, PageLoaded(page)];
      if page == PageRtty {
        ui := ui.(rtty := RttyRx);
        trace := trace + [RttySet(RttyRx), PannelShown];
      } else {
        match Controller.PageDialog(page) {
          case Some(d) =>
            ui := ui.(dialog := Some(d));
            trace := trace + [DialogConstructed(d)];
          case None =>
        }
      }
    }

    /** main_screen_action: the application actions go through App; the
        others apply the action transition. */
    method Action(a: PressAction)
      modifies this
      ensures Snapshot() == Controller.Action(old(Snapshot()), env, a)
    {
      match Controller.ActionPage(a) {
        case Some(page) => App(page);
        case None => Store(Controller.Action(Snapshot(), env, a));
      }
    }
  }
}
