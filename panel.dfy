/** The state the front panel works on, as one value: the three locks, the
    current band parameters (VFOs, split, band cursor), the widget sub-states
    the panel toggles, the collaborators' state it drives, and the trace of
    effects emitted so far. Env holds the configuration and the answers of the
    collaborators whose code is not part of this model. */
module PanelState {
  import opened RadioTypes
  import opened Tuning
  import opened Bands

  /** Configuration and collaborator answers, fixed while the panel runs.
      - catalog: the band catalogue searched by params_bands_find;
      - freqAccel: params.freq_accel.x;
      - memFt8Id, memFt4Id, memNum: MEM_FT8_ID, MEM_FT4_ID and MEM_NUM;
      - binding: the press action configured for each key slot;
      - changeFreq: the frequency radio_change_freq settles on, given the
        current frequency and the requested delta;
      - nextStep: the step params_current_mode_freq_step_change switches to;
      - bandVfo: the parameters a band stores for each VFO, which
        bands_activate loads. */
  datatype Env = Env(
    catalog: seq<Band>,
    freqAccel: nat,
    memFt8Id: nat,
    memFt4Id: nat,
    memNum: nat,
    binding: ActionSlot -> PressAction,
    changeFreq: (nat, int) -> nat,
    nextStep: (nat, bool) -> nat,
    bandVfo: (int, Vfo) -> VfoParams)
  {
    /** The acceleration setting is one of the enumerated values. */
    predicate Valid() {
      ValidAccel(freqAccel)
    }
  }

  /** The three static lock flags of main_screen.c. */
  datatype Locks = Locks(freq: bool, mode: bool, band: bool)

  /** The VFO side of the current band's parameters besides the current VFO's
      own frequency and mode: which VFO is current, the other VFO's
      parameters, split, and whether the radio transmits
      (radio_get_state() == RADIO_TX). */
  datatype VfoPair = VfoPair(vfo: Vfo, other: VfoParams, split: bool, tx: bool)

  /** The frequency step of every mode (params_current_mode_freq_step_get
      reads the entry of the current mode). */
  type StepTable = t: map<Mode, nat>
    | NFM in t && AM in t && CWR in t && CW in t && LSBDig in t && LSB in t && USBDig in t && USB in t
    witness map[NFM := 0, AM := 0, CWR := 0, CW := 0, LSBDig := 0, LSB := 0, USBDig := 0, USB := 0]

  /** Stored parameters the panel reads and writes: the current band's label,
      the frequency step of each mode, and the memory channels. */
  datatype Stored = Stored(labelText: string, steps: StepTable, memory: map<nat, Channel>)

  /** The widget and application state the panel switches: mfk_state, the
      volume knob mode, the running dialog, RTTY, the button bar and the
      recorder. */
  datatype Ui = Ui(
    mfk: KnobState,
    vol: KnobState,
    dialog: Option<Dialog>,
    rtty: RttyState,
    buttons: Buttons,
    recorderOn: bool)

  /** The panel state.
      - locks: the frequency, mode and band locks;
      - cur: the current VFO's frequency and mode;
      - vfos: the rest of the VFO state;
      - band, freqBand: params.band (-1 = no band) and params.freq_band;
      - stored: label, step and memory channels;
      - ui: dialogs, RTTY, buttons and knob modes;
      - trace: the effects emitted so far, oldest first. */
  datatype Panel = Panel(
    locks: Locks,
    cur: VfoParams,
    vfos: VfoPair,
    band: int,
    freqBand: Band,
    stored: Stored,
    ui: Ui,
    trace: seq<Effect>)

  /** The parameters of VFO v. */
  function VfoOf(p: Panel, v: Vfo): VfoParams {
    if v == p.vfos.vfo then p.cur else p.vfos.other
  }

  /** params_band_cur_freq_get */
  function CurFreq(p: Panel): nat {
    p.cur.freq
  }

  /** radio_current_mode / params_band_cur_mode_get */
  function CurMode(p: Panel): Mode {
    p.cur.mode
  }

  /** params_current_mode_freq_step_get: the step of the current mode. */
  function Step(p: Panel): nat {
    StepOf(p.stored.steps, CurMode(p))
  }

  /** The step table's entry for mode m. */
  function StepOf(t: StepTable, m: Mode): nat {
    match m
    case LSB => t[LSB]
    case LSBDig => t[LSBDig]
    case USB => t[USB]
    case USBDig => t[USBDig]
    case CW => t[CW]
    case CWR => t[CWR]
    case AM => t[AM]
    case NFM => t[NFM]
  }

  /** Set the frequency of the current VFO, keeping its mode and the other VFO. */
  function SetCurFreq(p: Panel, f: nat): (r: Panel)
    ensures CurFreq(r) == f && CurMode(r) == CurMode(p)
    ensures r == p.(cur := r.cur)
  {
    p.(cur := VfoParams(f, p.cur.mode))
  }

  /** Set the mode of the current VFO, keeping its frequency and the other VFO. */
  function SetCurMode(p: Panel, m: Mode): (r: Panel)
    ensures CurMode(r) == m && CurFreq(r) == CurFreq(p)
    ensures r == p.(cur := r.cur)
  {
    p.(cur := VfoParams(p.cur.freq, m))
  }

  /** Append one effect to the trace. */
  function Emit(p: Panel, e: Effect): (r: Panel)
    ensures r.trace == p.trace + [e]
    ensures r == p.(trace := r.trace)
  {
    p.(trace := p.trace + [e])
  }

  /** The VFO whose frequency the display shows (freq_update): while split is on
      and the radio transmits, the other VFO; otherwise the current one. */
  function DisplayVfo(vfo: Vfo, split: bool, tx: bool): (r: Vfo)
    ensures r != vfo <==> split && tx
  {
    if split && tx then OtherVfo(vfo) else vfo
  }

  function DisplayedFreq(p: Panel): nat {
    VfoOf(p, DisplayVfo(p.vfos.vfo, p.vfos.split, p.vfos.tx)).freq
  }

  /** freq_update: put the displayed VFO's frequency on the display. */
  function FreqUpdate(p: Panel): (r: Panel)
    ensures r.trace == p.trace + [FreqShown(DisplayedFreq(p))]
    ensures r == p.(trace := r.trace)
  {
    Emit(p, FreqShown(DisplayedFreq(p)))
  }

  /** Without split, and in split while receiving, the display shows the
      current VFO's frequency; in split while transmitting it shows the other
      VFO's. */
  lemma DisplayedFreqChoice(p: Panel)
    ensures !(p.vfos.split && p.vfos.tx) ==> DisplayedFreq(p) == CurFreq(p)
    ensures p.vfos.split && p.vfos.tx ==> DisplayedFreq(p) == p.vfos.other.freq
  {
  }
}
