/** The band catalogue as the panel sees it: an ordered list of bands and the
    lookup of the band containing a frequency (params_bands_find). */
module Bands {
  import opened RadioTypes

  predicate Contains(b: Band, f: nat) {
    b.start <= f < b.stop
  }

  /** A band of the catalogue proper; type 0 marks the gaps between bands. */
  predicate Real(b: Band) {
    b.typ != 0
  }

  /** The catalogue is ordered by frequency: every band is a non-empty range
      and ends before the next one starts. */
  predicate Ordered(catalog: seq<Band>) {
    && (forall i :: 0 <= i < |catalog| ==> catalog[i].start < catalog[i].stop)
    && (forall i, j :: 0 <= i < j < |catalog| ==> catalog[i].stop <= catalog[j].start)
  }

  /** params_bands_find: the first band of the catalogue containing f, or None
      when f lies outside every catalogued range. */
  function FindBand(catalog: seq<Band>, f: nat): Option<Band>
    decreases |catalog|
  {
    if |catalog| == 0 then None
    else if Contains(catalog[0], f) then Some(catalog[0])
    else FindBand(catalog[1..], f)
  }

  /** The lookup finds nothing exactly when no band contains f, and otherwise
      the first band that contains it. */
  lemma {:induction false} FindBandSpec(catalog: seq<Band>, f: nat)
    ensures var r := FindBand(catalog, f);
            && (r.None? <==> forall i :: 0 <= i < |catalog| ==> !Contains(catalog[i], f))
            && (r.Some? ==> exists i :: 0 <= i < |catalog| && catalog[i] == r.value && Contains(r.value, f)
                                  && forall j :: 0 <= j < i ==> !Contains(catalog[j], f))
    decreases |catalog|
  {
    if |catalog| > 0 && !Contains(catalog[0], f) {
      FindBandSpec(catalog[1..], f);
      var rest := FindBand(catalog[1..], f);
      if rest.Some? {
        var i :| 0 <= i < |catalog[1..]| && catalog[1..][i] == rest.value && Contains(rest.value, f)
                 && forall j :: 0 <= j < i ==> !Contains(catalog[1..][j], f);
        assert catalog[i + 1] == rest.value;
        assert forall j :: 0 <= j < i + 1 ==> !Contains(catalog[j], f) by {
          forall j | 0 <= j < i + 1 ensures !Contains(catalog[j], f) {
            if j > 0 { assert catalog[j] == catalog[1..][j - 1]; }
          }
        }
      } else {
        assert forall i :: 0 <= i < |catalog| ==> !Contains(catalog[i], f) by {
          forall i | 0 <= i < |catalog| ensures !Contains(catalog[i], f) {
            if i > 0 { assert catalog[i] == catalog[1..][i - 1]; }
          }
        }
      }
    }
  }

  /** In an ordered catalogue at most one band contains a frequency, so the
      lookup returns exactly that band. */
  lemma FindBandInOrderedCatalogue(catalog: seq<Band>, f: nat, k: nat)
    requires Ordered(catalog)
    requires k < |catalog| && Contains(catalog[k], f)
    ensures FindBand(catalog, f) == Some(catalog[k])
  {
    FindBandSpec(catalog, f);
  }

  /* ---- the adjacent band (params_bands_find_next) ---- */

  /** A real band lying wholly above f (up) or wholly below it (down). */
  predicate Beyond(b: Band, f: nat, up: bool) {
    Real(b) && if up then f < b.start else b.stop <= f
  }

  /** The first real band of the catalogue that starts above f. */
  function NextBandUp(catalog: seq<Band>, f: nat): Option<Band>
    decreases |catalog|
  {
    if |catalog| == 0 then None
    else if Beyond(catalog[0], f, true) then Some(catalog[0])
    else NextBandUp(catalog[1..], f)
  }

  /** The last real band of the catalogue that ends at or below f. */
  function NextBandDown(catalog: seq<Band>, f: nat): Option<Band>
    decreases |catalog|
  {
    if |catalog| == 0 then None
    else if Beyond(catalog[|catalog| - 1], f, false) then Some(catalog[|catalog| - 1])
    else NextBandDown(catalog[..|catalog| - 1], f)
  }

  /** params_bands_find_next: the real band next to f in the direction of up. */
  function NextBand(catalog: seq<Band>, f: nat, up: bool): Option<Band> {
    if up then NextBandUp(catalog, f) else NextBandDown(catalog, f)
  }

  /** The upward search finds nothing exactly when no real band lies above f,
      and otherwise the first one that does. */
  lemma {:induction false} NextBandUpSpec(catalog: seq<Band>, f: nat)
    ensures var r := NextBandUp(catalog, f);
            && (r.None? <==> forall i :: 0 <= i < |catalog| ==> !Beyond(catalog[i], f, true))
            && (r.Some? ==> exists i :: 0 <= i < |catalog| && catalog[i] == r.value && Beyond(r.value, f, true)
                                  && forall j :: 0 <= j < i ==> !Beyond(catalog[j], f, true))
    decreases |catalog|
  {
    if |catalog| > 0 && !Beyond(catalog[0], f, true) {
      NextBandUpSpec(catalog[1..], f);
      var rest := NextBandUp(catalog[1..], f);
      if rest.Some? {
        var i :| 0 <= i < |catalog[1..]| && catalog[1..][i] == rest.value && Beyond(rest.value, f, true)
                 && forall j :: 0 <= j < i ==> !Beyond(catalog[1..][j], f, true);
        assert catalog[i + 1] == rest.value;
        assert forall j :: 0 <= j < i + 1 ==> !Beyond(catalog[j], f, true) by {
          forall j | 0 <= j < i + 1 ensures !Beyond(catalog[j], f, true) {
            if j > 0 { assert catalog[j] == catalog[1..][j - 1]; }
          }
        }
      } else {
        assert forall i :: 0 <= i < |catalog| ==> !Beyond(catalog[i], f, true) by {
          forall i | 0 <= i < |catalog| ensures !Beyond(catalog[i], f, true) {
            if i > 0 { assert catalog[i] == catalog[1..][i - 1]; }
          }
        }
      }
    }
  }

  /** The downward search finds nothing exactly when no real band lies below
      f, and otherwise the last one that does. */
  lemma {:induction false} NextBandDownSpec(catalog: seq<Band>, f: nat)
    ensures var r := NextBandDown(catalog, f);
            && (r.None? <==> forall i :: 0 <= i < |catalog| ==> !Beyond(catalog[i], f, false))
            && (r.Some? ==> exists i :: 0 <= i < |catalog| && catalog[i] == r.value && Beyond(r.value, f, false)
                                  && forall j :: i < j < |catalog| ==> !Beyond(catalog[j], f, false))
    decreases |catalog|
  {
    if |catalog| > 0 {
      var n := |catalog| - 1;
      var init := catalog[..n];
      if Beyond(catalog[n], f, false) {
        assert catalog[n] == NextBandDown(catalog, f).value;
      } else {
        NextBandDownSpec(init, f);
        var rest := NextBandDown(init, f);
        if rest.Some? {
          var i :| 0 <= i < |init| && init[i] == rest.value && Beyond(rest.value, f, false)
                   && forall j :: i < j < |init| ==> !Beyond(init[j], f, false);
          assert catalog[i] == rest.value;
          assert forall j :: i < j < |catalog| ==> !Beyond(catalog[j], f, false) by {
            forall j | i < j < |catalog| ensures !Beyond(catalog[j], f, false) {
              if j < n { assert catalog[j] == init[j]; }
            }
          }
        } else {
          assert forall i :: 0 <= i < |catalog| ==> !Beyond(catalog[i], f, false) by {
            forall i | 0 <= i < |catalog| ensures !Beyond(catalog[i], f, false) {
              if i < n { assert catalog[i] == init[i]; }
            }
          }
        }
      }
    }
  }

  /** In an ordered catalogue the band found upward is the nearest real band
      above f: no other real band above f starts below it. */
  lemma NextBandUpIsNearest(catalog: seq<Band>, f: nat, k: nat)
    requires Ordered(catalog) && k < |catalog| && Beyond(catalog[k], f, true)
    ensures NextBandUp(catalog, f).Some?
    ensures NextBandUp(catalog, f).value.start <= catalog[k].start
  {
    NextBandUpSpec(catalog, f);
    var r := NextBandUp(catalog, f).value;
    var i :| 0 <= i < |catalog| && catalog[i] == r && Beyond(r, f, true)
             && forall j :: 0 <= j < i ==> !Beyond(catalog[j], f, true);
    if i < k {
      assert catalog[i].stop <= catalog[k].start;
    }
  }

  /** In an ordered catalogue the band found downward is the nearest real band
      below f: no other real band below f ends above it. */
  lemma NextBandDownIsNearest(catalog: seq<Band>, f: nat, k: nat)
    requires Ordered(catalog) && k < |catalog| && Beyond(catalog[k], f, false)
    ensures NextBandDown(catalog, f).Some?
    ensures catalog[k].stop <= NextBandDown(catalog, f).value.stop
  {
    NextBandDownSpec(catalog, f);
    var r := NextBandDown(catalog, f).value;
    var i :| 0 <= i < |catalog| && catalog[i] == r && Beyond(r, f, false)
             && forall j :: i < j < |catalog| ==> !Beyond(catalog[j], f, false);
    if k < i {
      assert catalog[k].stop <= catalog[i].start;
    }
  }

  /** In an ordered catalogue, from a frequency inside band k the band keys
      reach the neighbouring catalogue entries when those are real bands. */
  lemma NextBandIsNeighbour(catalog: seq<Band>, f: nat, k: nat)
    requires Ordered(catalog) && k < |catalog| && Contains(catalog[k], f)
    ensures k + 1 < |catalog| && Real(catalog[k + 1]) ==> NextBand(catalog, f, true) == Some(catalog[k + 1])
    ensures 0 < k && Real(catalog[k - 1]) ==> NextBand(catalog, f, false) == Some(catalog[k - 1])
  {
    if k + 1 < |catalog| && Real(catalog[k + 1]) {
      NextBandUpSpec(catalog, f);
      assert catalog[k].stop <= catalog[k + 1].start;
    }
    if 0 < k && Real(catalog[k - 1]) {
      NextBandDownSpec(catalog, f);
      assert catalog[k - 1].stop <= catalog[k].start;
    }
  }
}
