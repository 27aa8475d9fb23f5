/** The mode-cycling tables of the mode keys (AM, CW and SSB families) and the
    table of spoken mode names searched when a mode is selected. */
module Modes {
  import opened RadioTypes

  predicate IsSsb(m: Mode) {
    m == LSB || m == LSBDig || m == USB || m == USBDig
  }

  /** Upper sideband (USB or USB-digital). */
  predicate IsUpper(m: Mode) {
    m == USB || m == USBDig
  }

  /** A digital variant (LSB-digital or USB-digital). */
  predicate IsDigital(m: Mode) {
    m == LSBDig || m == USBDig
  }

  predicate IsCwFamily(m: Mode) {
    m == CW || m == CWR
  }

  /** get_next_mode_am_fm: AM and narrow FM swap; the long-press flag is ignored;
      any other mode jumps to AM. */
  function NextModeAmFm(m: Mode, longPress: bool): (r: Mode)
    ensures r == AM || r == NFM
    ensures m == AM <==> r == NFM
  {
    match m
    case AM => NFM
    case _ => AM
  }

  /** get_next_mode_cw: CW and CW-reversed swap; the long-press flag is ignored;
      any other mode jumps to CW. */
  function NextModeCw(m: Mode, longPress: bool): (r: Mode)
    ensures IsCwFamily(r)
    ensures m == CW <==> r == CWR
  {
    match m
    case CW => CWR
    case _ => CW
  }

  /** get_next_mode_ssb: on an SSB mode a short press swaps the sideband and keeps
      the digital flag, a long press swaps analog/digital and keeps the sideband;
      any non-SSB mode jumps to LSB. */
  function NextModeSsb(m: Mode, longPress: bool): (r: Mode)
    ensures IsSsb(r)
    ensures IsSsb(m) && !longPress ==> IsUpper(r) != IsUpper(m) && IsDigital(r) == IsDigital(m)
    ensures IsSsb(m) && longPress ==> IsUpper(r) == IsUpper(m) && IsDigital(r) != IsDigital(m)
    ensures !IsSsb(m) ==> r == LSB
  {
    match m
    case LSBDig => if longPress then LSB else USBDig
    case USBDig => if longPress then USB else LSBDig
    case LSB => if longPress then LSBDig else USB
    case USB => if longPress then USBDig else LSB
    case _ => LSB
  }

  /** An SSB mode is determined by its sideband and its digital flag. */
  lemma SsbDeterminedBySidebandAndDigital(a: Mode, b: Mode)
    requires IsSsb(a) && IsSsb(b)
    requires IsUpper(a) == IsUpper(b) && IsDigital(a) == IsDigital(b)
    ensures a == b
  {
  }

  /** Each press kind is an involution on the SSB modes; it follows from the
      sideband/digital characterisation alone. */
  lemma SsbPressIsInvolution(m: Mode, longPress: bool)
    requires IsSsb(m)
    ensures NextModeSsb(NextModeSsb(m, longPress), longPress) == m
  {
    var once := NextModeSsb(m, longPress);
    var twice := NextModeSsb(once, longPress);
    SsbDeterminedBySidebandAndDigital(twice, m);
  }

  /** Four short presses from any SSB mode come back to it (the cycle is closed). */
  lemma SsbShortCycleCloses(m: Mode)
    requires IsSsb(m)
    ensures NextModeSsb(NextModeSsb(NextModeSsb(NextModeSsb(m, false), false), false), false) == m
  {
    SsbPressIsInvolution(m, false);
    SsbPressIsInvolution(NextModeSsb(NextModeSsb(m, false), false), false);
  }

  /** The AM/FM and CW tables ignore the long-press flag. */
  lemma LongPressIgnoredOutsideSsb(m: Mode)
    ensures NextModeAmFm(m, true) == NextModeAmFm(m, false)
    ensures NextModeCw(m, true) == NextModeCw(m, false)
  {
  }

  /** AM/NFM and CW/CWR are two-cycles. */
  lemma AmFmAndCwAreTwoCycles(m: Mode, lp1: bool, lp2: bool)
    ensures (m == AM || m == NFM) ==> NextModeAmFm(NextModeAmFm(m, lp1), lp2) == m
    ensures IsCwFamily(m) ==> NextModeCw(NextModeCw(m, lp1), lp2) == m
  {
  }

  /** The spoken name of mode m. */
  function ModeName(m: Mode): string {
    match m
    case NFM => "N F M modulation"
    case AM => "A M modulation"
    case CWR => "CWR modulation"
    case CW => "CW modulation"
    case LSBDig => "LSB digital modulation"
    case LSB => "LSB modulation"
    case USBDig => "USB digital modulation"
    case USB => "USB modulation"
  }

  /** The table change_mode searches, in its order. */
  const ModesText: seq<(Mode, string)> := [
    (NFM, ModeName(NFM)), (AM, ModeName(AM)), (CWR, ModeName(CWR)), (CW, ModeName(CW)),
    (LSBDig, ModeName(LSBDig)), (LSB, ModeName(LSB)), (USBDig, ModeName(USBDig)), (USB, ModeName(USB))
  ]

  /** The text of the first entry of the table for mode m, if there is one. */
  function LookupText(table: seq<(Mode, string)>, m: Mode): Option<string>
    decreases |table|
  {
    if |table| == 0 then None
    else if table[0].0 == m then Some(table[0].1)
    else LookupText(table[1..], m)
  }

  /** The lookup finds nothing exactly when no entry is for m, and otherwise
      the text of the first entry for m. */
  lemma {:induction false} LookupTextSpec(table: seq<(Mode, string)>, m: Mode)
    ensures var r := LookupText(table, m);
            && (r.None? <==> forall i :: 0 <= i < |table| ==> table[i].0 != m)
            && (r.Some? ==> exists i :: 0 <= i < |table| && table[i] == (m, r.value)
                                  && forall j :: 0 <= j < i ==> table[j].0 != m)
    decreases |table|
  {
    if |table| > 0 && table[0].0 != m {
      LookupTextSpec(table[1..], m);
      var rest := LookupText(table[1..], m);
      if rest.Some? {
        var i :| 0 <= i < |table[1..]| && table[1..][i] == (m, rest.value)
                 && forall j :: 0 <= j < i ==> table[1..][j].0 != m;
        assert table[i + 1] == (m, rest.value);
        assert forall j :: 0 <= j < i + 1 ==> table[j].0 != m by {
          forall j | 0 <= j < i + 1 ensures table[j].0 != m {
            if j > 0 { assert table[j] == table[1..][j - 1]; }
          }
        }
      } else {
        assert forall i :: 0 <= i < |table| ==> table[i].0 != m by {
          forall i | 0 <= i < |table| ensures table[i].0 != m {
            if i > 0 { assert table[i] == table[1..][i - 1]; }
          }
        }
      }
    }
  }

  /** Every mode has an entry in the table, and the search finds its name,
      so selecting a mode always announces it. */
  lemma ModesTextNamesEveryMode(m: Mode)
    ensures LookupText(ModesText, m) == Some(ModeName(m))
  {
  }

  /** The search loop of change_mode: scan the table and stop at the first entry
      for mode m. */
  method FindModeText(table: seq<(Mode, string)>, m: Mode) returns (r: Option<string>)
    ensures r == LookupText(table, m)
  {
    r := None;
    var i := 0;
    while i < |table|
      invariant 0 <= i <= |table|
      invariant LookupText(table[i..], m) == LookupText(table, m)
    {
      assert table[i..][1..] == table[i + 1..];
      if table[i].0 == m {
        r := Some(table[i].1);
        return;
      }
      i := i + 1;
    }
  }
}
