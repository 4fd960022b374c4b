/**
 * The Zernike coefficient editor: a fixed-length coefficient vector `z`,
 * one row (a relative slider and an editable label) per shown mode, the
 * panel's parameter dictionary (`zernike_labels`, `shown_modes`) and the
 * radians/nanometres display unit.
 *
 * The panel's callback is not stored: every operation that ends by
 * redrawing the phase returns the argument it hands the callback
 * (`PhiPlotCallback`), and the owner of the panel applies it.
 */
module ZernikePanels {
  import opened Wrappers
  import opened Params
  import opened RelSliders

  const LabelsKey: string := "zernike_labels"
  const ShownKey: string := "shown_modes"
  const DefaultShownModes: int := 21

  function Abs(m: int): nat { if m < 0 then -m else m }

  /**
   * `default_zernike_name`: a name for the mode with 1-based index `i` and
   * azimuthal order `m`; the radial order `n` is not consulted. The name is
   * empty exactly for a mode past the fourth whose |m| exceeds 5.
   */
  function DefaultZernikeName(i: int, n: int, m: int): (r: string)
    ensures r == "" <==> (i < 1 || 4 < i) && 5 < Abs(m)
  {
    if i == 1 then "piston"
    else if i == 2 then "tip"
    else if i == 3 then "tilt"
    else if i == 4 then "defocus"
    else if m == 0 then "spherical"
    else if Abs(m) == 1 then "coma"
    else if Abs(m) == 2 then "astigmatism"
    else if Abs(m) == 3 then "trefoil"
    else if Abs(m) == 4 then "quadrafoil"
    else if Abs(m) == 5 then "pentafoil"
    else ""
  }

  /** The names of the first four modes, by 1-based index. */
  const LowOrderNames: seq<string> := ["piston", "tip", "tilt", "defocus"]
  /** The names of the other modes, by the absolute azimuthal order 0..5. */
  const AzimuthalNames: seq<string> :=
    ["spherical", "coma", "astigmatism", "trefoil", "quadrafoil", "pentafoil"]

  /** The naming is the two tables: by index for the first four modes, by |m| for the rest. */
  lemma DefaultZernikeNameByTable(i: int, n: int, m: int)
    ensures DefaultZernikeName(i, n, m) ==
      if 1 <= i <= 4 then LowOrderNames[i - 1]
      else if Abs(m) <= 5 then AzimuthalNames[Abs(m)]
      else ""
  {
  }

  /** The panel's own parameter keys have the types the panel relies on. */
  predicate ParsOk(p: map<string, Value>)
  {
    && LabelsKey in p && p[LabelsKey].Dict?
    && (forall k :: k in p[LabelsKey].entries ==> p[LabelsKey].entries[k].Text?)
    && ShownKey in p && p[ShownKey].Int?
  }

  /** `def_pars`: no labels, 21 shown modes. */
  function DefaultPars(): (p: map<string, Value>)
    ensures ParsOk(p)
  {
    map[LabelsKey := Dict(map[]), ShownKey := Int(DefaultShownModes)]
  }

  /** The label dictionary, keyed by `str(i)` of the 0-based mode index. */
  function Labels(p: map<string, Value>): map<string, Value>
    requires ParsOk(p)
  {
    p[LabelsKey].entries
  }

  /** `p['zernike_labels'][key] = name`. */
  function WithLabel(p: map<string, Value>, key: string, name: string): (r: map<string, Value>)
    requires ParsOk(p)
    ensures ParsOk(r)
    ensures Labels(r) == Labels(p)[key := Text(name)]
    ensures r == p[LabelsKey := r[LabelsKey]]
  {
    p[LabelsKey := Dict(Labels(p)[key := Text(name)])]
  }

  /** `nmodes`: the requested number of shown modes, never more than there are modes. */
  function ModesToShow(shown: int, nk: nat): (r: int)
    ensures r <= nk && r <= shown
    ensures r == shown || r == nk
  {
    if shown < nk then shown else nk
  }

  /**
   * `save_parameters(merge)`: the merge dictionary overridden by the panel's
   * dictionary, with `shown_modes` set to the number of rows.
   */
  function Saved(pars: map<string, Value>, nrows: nat, merge: map<string, Value>): (d: map<string, Value>)
    ensures d.Keys == merge.Keys + pars.Keys + {ShownKey}
    ensures forall k :: k in pars && k != ShownKey ==> d[k] == pars[k]
    ensures forall k :: k in merge && k !in pars && k != ShownKey ==> d[k] == merge[k]
    ensures d[ShownKey] == Int(nrows)
  {
    (merge + pars)[ShownKey := Int(nrows)]
  }

  /**
   * `load_parameters(d)`: the defaults overridden by `d`, with `shown_modes`
   * reduced to at most `nk`.
   */
  function Loaded(d: map<string, Value>, nk: nat): (p: map<string, Value>)
    requires ParsOk(DefaultPars() + d)
    ensures ParsOk(p)
    ensures p.Keys == d.Keys + {LabelsKey, ShownKey}
    ensures forall k :: k in d && k != ShownKey ==> p[k] == d[k]
    ensures LabelsKey !in d ==> Labels(p) == map[]
    ensures p[ShownKey] == Int(ModesToShow((DefaultPars() + d)[ShownKey].i, nk))
  {
    var merged := DefaultPars() + d;
    merged[ShownKey := Int(ModesToShow(merged[ShownKey].i, nk))]
  }

  /** Loading what was saved restores the dictionary, with the row count as `shown_modes`. */
  lemma SaveLoadRoundTrip(pars: map<string, Value>, nrows: nat, nk: nat)
    requires ParsOk(pars) && nrows <= nk
    ensures ParsOk(DefaultPars() + Saved(pars, nrows, map[]))
    ensures Loaded(Saved(pars, nrows, map[]), nk) == pars[ShownKey := Int(nrows)]
  {
  }

  /** The indices `lo .. hi-1` rendered as label keys. */
  function KeysBetween(lo: nat, hi: nat): set<string>
    decreases hi
  {
    if hi <= lo then {} else KeysBetween(lo, hi - 1) + {Decimal(hi - 1)}
  }

  lemma {:induction false} KeysBetweenMember(lo: nat, hi: nat, j: nat)
    requires lo <= j < hi
    ensures Decimal(j) in KeysBetween(lo, hi)
    decreases hi
  {
    if j < hi - 1 {
      KeysBetweenMember(lo, hi - 1, j);
    }
  }

  lemma {:induction false} KeysBetweenOnly(lo: nat, hi: nat, k: string)
    requires k in KeysBetween(lo, hi)
    ensures exists j: nat :: lo <= j < hi && Decimal(j) == k
    decreases hi
  {
    if k != Decimal(hi - 1) {
      KeysBetweenOnly(lo, hi - 1, k);
    }
  }

  /** No key of the indices below `hi` is the key of an index at or above it. */
  lemma {:induction false} KeysBetweenBelow(lo: nat, hi: nat, i: nat)
    requires hi <= i
    ensures Decimal(i) !in KeysBetween(lo, hi)
    decreases hi
  {
    if lo < hi {
      KeysBetweenBelow(lo, hi - 1, i);
      if Decimal(hi - 1) == Decimal(i) {
        DecimalInjective(hi - 1, i);
      }
    }
  }

  /**
   * The label dictionary after the growing loop of `update_zernike_rows` has
   * visited the indices `lo .. hi-1`: each index without a label gets the
   * default name of its mode.
   */
  function Fill(p: map<string, Value>, lo: nat, hi: nat, ntab: seq<int>, mtab: seq<int>): (r: map<string, Value>)
    requires ParsOk(p) && hi <= |ntab| && hi <= |mtab|
    ensures ParsOk(r)
    ensures r == p[LabelsKey := r[LabelsKey]]
    decreases hi
  {
    if hi <= lo then p
    else
      var q := Fill(p, lo, hi - 1, ntab, mtab);
      var key := Decimal(hi - 1);
      if key in Labels(q) then q
      else WithLabel(q, key, DefaultZernikeName(hi, ntab[hi - 1], mtab[hi - 1]))
  }

  /** Filling never changes a label that was already there. */
  lemma {:induction false} FillKeeps(p: map<string, Value>, lo: nat, hi: nat, ntab: seq<int>, mtab: seq<int>, k: string)
    requires ParsOk(p) && hi <= |ntab| && hi <= |mtab| && k in Labels(p)
    ensures k in Labels(Fill(p, lo, hi, ntab, mtab))
    ensures Labels(Fill(p, lo, hi, ntab, mtab))[k] == Labels(p)[k]
    decreases hi
  {
    if lo < hi {
      FillKeeps(p, lo, hi - 1, ntab, mtab, k);
    }
  }

  /** Filling adds exactly the keys of the visited indices. */
  lemma {:induction false} FillKeys(p: map<string, Value>, lo: nat, hi: nat, ntab: seq<int>, mtab: seq<int>)
    requires ParsOk(p) && hi <= |ntab| && hi <= |mtab|
    ensures Labels(Fill(p, lo, hi, ntab, mtab)).Keys == Labels(p).Keys + KeysBetween(lo, hi)
    decreases hi
  {
    if lo < hi {
      FillKeys(p, lo, hi - 1, ntab, mtab);
    }
  }

  /** A visited index that had no label ends with the default name of its mode. */
  lemma {:induction false} FillDefault(p: map<string, Value>, lo: nat, hi: nat, ntab: seq<int>, mtab: seq<int>, i: nat)
    requires ParsOk(p) && hi <= |ntab| && hi <= |mtab|
    requires lo <= i < hi && Decimal(i) !in Labels(p)
    ensures Decimal(i) in Labels(Fill(p, lo, hi, ntab, mtab))
    ensures Labels(Fill(p, lo, hi, ntab, mtab))[Decimal(i)] == Text(DefaultZernikeName(i + 1, ntab[i], mtab[i]))
    decreases hi
  {
    if i < hi - 1 {
      FillDefault(p, lo, hi - 1, ntab, mtab, i);
      FillStepKeeps(p, lo, hi, ntab, mtab, i);
    } else {
      FillStepNew(p, lo, hi, ntab, mtab);
    }
  }

  /** The last step of a fill leaves the label of an earlier index as it was. */
  lemma FillStepKeeps(p: map<string, Value>, lo: nat, hi: nat, ntab: seq<int>, mtab: seq<int>, i: nat)
    requires ParsOk(p) && hi <= |ntab| && hi <= |mtab|
    requires lo <= i < hi - 1 && Decimal(i) in Labels(Fill(p, lo, hi - 1, ntab, mtab))
    ensures Decimal(i) in Labels(Fill(p, lo, hi, ntab, mtab))
    ensures Labels(Fill(p, lo, hi, ntab, mtab))[Decimal(i)] == Labels(Fill(p, lo, hi - 1, ntab, mtab))[Decimal(i)]
  {
  }

  /** The last step of a fill names its index when the label was missing from the start. */
  lemma FillStepNew(p: map<string, Value>, lo: nat, hi: nat, ntab: seq<int>, mtab: seq<int>)
    requires ParsOk(p) && hi <= |ntab| && hi <= |mtab|
    requires lo < hi && Decimal(hi - 1) !in Labels(p)
    ensures Decimal(hi - 1) in Labels(Fill(p, lo, hi, ntab, mtab))
    ensures Labels(Fill(p, lo, hi, ntab, mtab))[Decimal(hi - 1)] == Text(DefaultZernikeName(hi, ntab[hi - 1], mtab[hi - 1]))
  {
    FillKeys(p, lo, hi - 1, ntab, mtab);
    KeysBetweenBelow(lo, hi - 1, hi - 1);
  }

  /**
   * The parameters a panel built (or loaded) from `given` starts with, AS
   * WRITTEN: `def_pars` is a class attribute and the merge copies only its top
   * level, so a panel whose `given` has no `zernike_labels` entry takes the
   * class's own label dictionary object, whose contents `shared` are whatever
   * earlier panels wrote into it.
   */
  function StartParsAsWritten(shared: map<string, Value>, given: map<string, Value>): (p: map<string, Value>)
    ensures LabelsKey !in given ==> LabelsKey in p && p[LabelsKey] == Dict(shared)
    ensures forall k :: k in given ==> k in p && p[k] == given[k]
  {
    map[LabelsKey := Dict(shared), ShownKey := Int(DefaultShownModes)] + given
  }

  /**
   * The class's label dictionary after a panel started from `given` renames
   * `key` to `text`, AS WRITTEN: the edit goes into the shared object unless
   * the panel brought its own label dictionary.
   */
  function SharedAfterEditAsWritten(shared: map<string, Value>, given: map<string, Value>, key: string, text: string): (r: map<string, Value>)
    ensures LabelsKey in given ==> r == shared
    ensures LabelsKey !in given ==> r.Keys == shared.Keys + {key} && r[key] == Text(text)
    ensures forall k :: k in shared && k != key ==> r[k] == shared[k]
  {
    if LabelsKey in given then shared else shared[key := Text(text)]
  }

  /**
   * As written, a label typed in one panel leaks into the next panel built
   * without labels: its first mode is called "foo" instead of "piston".
   */
  lemma LabelsLeakAsWritten(ntab: seq<int>, mtab: seq<int>)
    requires 1 <= |ntab| && 1 <= |mtab|
    ensures var p := StartParsAsWritten(SharedAfterEditAsWritten(map[], map[], Decimal(0), "foo"), map[]);
      && ParsOk(p)
      && Labels(Fill(p, 0, 1, ntab, mtab))[Decimal(0)] == Text("foo")
      && DefaultZernikeName(1, ntab[0], mtab[0]) == "piston"
  {
  }

  /**
   * The intended behaviour: every panel starts from a label dictionary of its
   * own, so a panel built without labels names every shown mode by default,
   * whatever other panels did.
   */
  lemma {:induction false} FreshPanelDefaultNames(given: map<string, Value>, hi: nat, ntab: seq<int>, mtab: seq<int>, i: nat)
    requires LabelsKey !in given && ParsOk(DefaultPars() + given)
    requires hi <= |ntab| && hi <= |mtab| && i < hi
    ensures Decimal(i) in Labels(Fill(DefaultPars() + given, 0, hi, ntab, mtab))
    ensures Labels(Fill(DefaultPars() + given, 0, hi, ntab, mtab))[Decimal(i)]
      == Text(DefaultZernikeName(i + 1, ntab[i], mtab[i]))
  {
    assert Labels(DefaultPars() + given) == map[];
    FillDefault(DefaultPars() + given, 0, hi, ntab, mtab, i);
  }

  class ZernikePanel {
    /** The number of modes of the Zernike evaluator. */
    const nk: nat
    /** Radial and azimuthal order of each mode. */
    const ntab: seq<int>
    const mtab: seq<int>
    /** `wavelength / (2 pi)`: the radians-to-nanometres factor. */
    const radToNm: real
    /** Whether a callback was given. */
    const hasCallback: bool
    /** The coefficient vector, updated in place. */
    const z: array<real>
    /** `zernike_rows`: the slider of each shown mode, in mode order. */
    var rows: seq<RelSlider>
    var pars: map<string, Value>
    var radians: bool
    var mul: real
    ghost var Repr: set<object>

    ghost predicate Valid()
      reads this, Repr
    {
      && this in Repr && z in Repr
      && z.Length == nk && |ntab| == nk && |mtab| == nk && 0.0 < radToNm
      && |rows| <= nk
      && (forall i :: 0 <= i < |rows| ==> rows[i] in Repr && rows[i].Valid() && !rows[i].blocked)
      && (forall i, j :: 0 <= i < j < |rows| ==> rows[i] != rows[j])
      && ParsOk(pars)
      && (forall i: nat :: i < |rows| ==> Decimal(i) in Labels(pars))
      && mul == (if radians then 1.0 else radToNm)
    }

    /** Every shown row's effective value shows its coefficient. */
    ghost predicate Synced()
      reads this, Repr
      requires Valid()
    {
      forall i :: 0 <= i < |rows| ==> rows[i].value == SpinBox(z[i])
    }

    /** The gate at the end of `update_phi_plot`: the callback runs, with `z`, only if there is one and it is asked for. */
    function PhiPlotCallback(run: bool): (fired: Option<seq<real>>)
      reads this, z
      ensures fired.Some? <==> hasCallback && run
      ensures fired.Some? ==> fired.value == z[..]
    {
      if hasCallback && run then Some(z[..]) else None
    }

    /** The fields `__init__` sets before it builds the rows: no rows yet, the given parameters over the defaults. */
    constructor (nk: nat, ntab: seq<int>, mtab: seq<int>, radToNm: real,
                 z0: Option<seq<real>>, hasCallback: bool, given: map<string, Value>)
      requires |ntab| == nk && |mtab| == nk && 0.0 < radToNm
      requires z0.Some? ==> |z0.value| == nk
      requires ParsOk(DefaultPars() + given) && 0 <= (DefaultPars() + given)[ShownKey].i
      ensures Valid() && fresh(Repr)
      ensures this.nk == nk && this.ntab == ntab && this.mtab == mtab
      ensures this.radToNm == radToNm && this.hasCallback == hasCallback
      ensures z[..] == if z0.Some? then z0.value else seq(nk, _ => 0.0)
      ensures radians && mul == 1.0
      ensures rows == [] && pars == DefaultPars() + given
    {
      this.nk, this.ntab, this.mtab := nk, ntab, mtab;
      this.radToNm, this.hasCallback := radToNm, hasCallback;
      var initial := if z0.Some? then z0.value else seq(nk, _ => 0.0);
      var a := new real[nk];
      forall i | 0 <= i < nk {
        a[i] := initial[i];
      }
      z := a;
      rows := [];
      pars := DefaultPars() + given;
      radians, mul := true, 1.0;
      new;
      Repr := {this, z};
    }

    /**
     * `update_zernike_rows(mynk)`: append rows for the missing indices or pop
     * rows from the end until there are exactly `mynk`; `None` keeps the count.
     */
    method UpdateZernikeRows(target: Option<int>)
      requires Valid()
      requires target.Some? ==> 0 <= target.value <= nk
      modifies this
      ensures Valid() && fresh(Repr - old(Repr))
      ensures |rows| == if target.Some? then target.value else old(|rows|)
      ensures forall i :: 0 <= i < |rows| && i < old(|rows|) ==> rows[i] == old(rows[i])
      ensures forall i :: old(|rows|) <= i < |rows| ==> rows[i].AsCreated(z[i])
      ensures pars == Fill(old(pars), old(|rows|), |rows|, ntab, mtab)
      ensures radians == old(radians) && mul == old(mul)
    {
      var want := if target.Some? then target.value else |rows|;
      if |rows| < want {
        GrowRows(want);
      } else {
        ShrinkRows(want);
      }
    }

    /** The growing loop of `update_zernike_rows`. */
    method GrowRows(want: nat)
      requires Valid() && |rows| <= want <= nk
      modifies this
      ensures Valid() && fresh(Repr - old(Repr))
      ensures |rows| == want && rows[..old(|rows|)] == old(rows)
      ensures forall i :: old(|rows|) <= i < |rows| ==> rows[i].AsCreated(z[i])
      ensures pars == Fill(old(pars), old(|rows|), |rows|, ntab, mtab)
      ensures radians == old(radians) && mul == old(mul)
    {
      var i := |rows|;
      while i < want
        invariant old(|rows|) <= i <= want && |rows| == i
        invariant Valid() && fresh(Repr - old(Repr))
        invariant rows[..old(|rows|)] == old(rows)
        invariant forall j :: old(|rows|) <= j < i ==> rows[j].AsCreated(z[j])
        invariant pars == Fill(old(pars), old(|rows|), i, ntab, mtab)
        invariant radians == old(radians) && mul == old(mul)
      {
        AppendRow();
        i := i + 1;
      }
    }

    /** The shrinking loop of `update_zernike_rows`: pop rows from the end. */
    method ShrinkRows(want: nat)
      requires Valid() && want <= |rows|
      modifies this
      ensures Valid() && Repr == old(Repr) && pars == old(pars)
      ensures rows == old(rows)[..want]
      ensures radians == old(radians) && mul == old(mul)
    {
      while want < |rows|
        invariant want <= |rows| <= old(|rows|)
        invariant rows == old(rows)[..|rows|]
        invariant Valid() && Repr == old(Repr) && pars == old(pars)
        invariant radians == old(radians) && mul == old(mul)
        decreases |rows|
      {
        rows := rows[..|rows| - 1];
      }
    }

    /** One iteration of the growing loop: the row for index `|rows|`, and its label if it has none. */
    method AppendRow()
      requires Valid() && |rows| < nk
      modifies this
      ensures Valid() && fresh(Repr - old(Repr))
      ensures |rows| == old(|rows|) + 1 && rows[..old(|rows|)] == old(rows)
      ensures fresh(rows[old(|rows|)]) && rows[old(|rows|)].AsCreated(z[old(|rows|)])
      ensures pars == if Decimal(old(|rows|)) in Labels(old(pars)) then old(pars)
        else WithLabel(old(pars), Decimal(old(|rows|)),
                       DefaultZernikeName(old(|rows|) + 1, ntab[old(|rows|)], mtab[old(|rows|)]))
      ensures radians == old(radians) && mul == old(mul)
    {
      LabelNext();
      PushRow();
    }

    /** The label half of `AppendRow`: give index `|rows|` its default name unless it has a label. */
    method LabelNext()
      requires Valid() && |rows| < nk
      modifies this
      ensures Valid() && Repr == old(Repr) && rows == old(rows) && Decimal(|rows|) in Labels(pars)
      ensures pars == if Decimal(|rows|) in Labels(old(pars)) then old(pars)
        else WithLabel(old(pars), Decimal(|rows|), DefaultZernikeName(|rows| + 1, ntab[|rows|], mtab[|rows|]))
      ensures radians == old(radians) && mul == old(mul)
    {
      var i := |rows|;
      var key := Decimal(i);
      if key !in Labels(pars) {
        pars := WithLabel(pars, key, DefaultZernikeName(i + 1, ntab[i], mtab[i]));
      }
    }

    /** The row half of `AppendRow`: a new slider for the coefficient at index `|rows|`. */
    method PushRow()
      requires Valid() && |rows| < nk && Decimal(|rows|) in Labels(pars)
      modifies this
      ensures Valid() && fresh(Repr - old(Repr)) && pars == old(pars)
      ensures |rows| == old(|rows|) + 1 && rows[..old(|rows|)] == old(rows)
      ensures fresh(rows[old(|rows|)]) && rows[old(|rows|)].AsCreated(z[old(|rows|)])
      ensures radians == old(radians) && mul == old(mul)
    {
      var slider := new RelSlider(z[|rows|]);
      rows := rows + [slider];
      Repr := Repr + {slider};
    }

    /** `update_gui_controls`: show every row's coefficient in its slider, with signals blocked. */
    method UpdateGuiControls()
      requires Valid()
      modifies set i | 0 <= i < |rows| :: rows[i]
      ensures Valid() && Synced()
      ensures forall i :: 0 <= i < |rows| ==>
        && rows[i].anchor == old(rows[i].anchor) && rows[i].position == old(rows[i].position)
        && rows[i].maxDelta == old(rows[i].maxDelta)
    {
      var i := 0;
      while i < |rows|
        invariant 0 <= i <= |rows|
        invariant Valid()
        invariant forall j :: 0 <= j < i ==> rows[j].value == SpinBox(z[j])
        invariant forall j :: 0 <= j < |rows| ==>
          && rows[j].anchor == old(rows[j].anchor) && rows[j].position == old(rows[j].position)
          && rows[j].maxDelta == old(rows[j].maxDelta)
      {
        var slider := rows[i];
        slider.Block();
        slider.SetValue(z[i]);
        slider.Unblock();
        i := i + 1;
      }
    }

    /** `make_hand_slider(ind)`: the slider of row `ind` reported `r`; store it and redraw. */
    method CoefficientChanged(ind: nat, r: real) returns (fired: Option<seq<real>>)
      requires Valid() && ind < nk
      modifies z
      ensures Valid()
      ensures z[..] == old(z[..])[ind := r]
      ensures fired == PhiPlotCallback(true)
    {
      z[ind] := r;
      fired := PhiPlotCallback(true);
    }

    /** Pressing the slider of row `ind`. */
    method SliderPressed(ind: nat)
      requires Valid() && ind < |rows|
      modifies rows[ind]
      ensures Valid()
      ensures rows[ind].anchor == Some(rows[ind].value) && rows[ind].value == old(rows[ind].value)
      ensures rows[ind].position == old(rows[ind].position) && rows[ind].maxDelta == old(rows[ind].maxDelta)
    {
      rows[ind].Press();
    }

    /** Moving the slider of row `ind` to `rel`: with an anchor, only `z[ind]` changes. */
    method SliderMoved(ind: nat, rel: int) returns (fired: Option<seq<real>>)
      requires Valid() && ind < |rows| && RelMin <= rel <= RelMax
      modifies rows[ind], z
      ensures Valid()
      ensures rows[ind].anchor == old(rows[ind].anchor) && rows[ind].maxDelta == old(rows[ind].maxDelta)
      ensures old(rows[ind].anchor).None? ==>
        && z[..] == old(z[..]) && fired == None
        && rows[ind].position == 0 && rows[ind].value == old(rows[ind].value)
      ensures old(rows[ind].anchor).Some? ==>
        var target := MoveTarget(old(rows[ind].anchor).value, rel, old(rows[ind].maxDelta));
        && z[..] == old(z[..])[ind := target]
        && rows[ind].position == rel && rows[ind].value == SpinBox(target)
        && fired == PhiPlotCallback(true)
    {
      var r := rows[ind].Move(rel);
      fired := None;
      if r.Some? {
        fired := CoefficientChanged(ind, r.value);
      }
    }

    /** Releasing the slider of row `ind`: no coefficient changes. */
    method SliderReleased(ind: nat)
      requires Valid() && ind < |rows|
      modifies rows[ind]
      ensures Valid()
      ensures rows[ind].anchor == None && rows[ind].position == 0
      ensures rows[ind].value == old(rows[ind].value) && rows[ind].maxDelta == old(rows[ind].maxDelta)
    {
      rows[ind].Release();
    }

    /** Typing `v` into the effective-value box of row `ind`. */
    method ValueTyped(ind: nat, v: real) returns (fired: Option<seq<real>>)
      requires Valid() && ind < |rows|
      modifies rows[ind], z
      ensures Valid()
      ensures z[..] == old(z[..])[ind := SpinBox(v)]
      ensures rows[ind].value == SpinBox(v)
      ensures rows[ind].anchor == old(rows[ind].anchor) && rows[ind].position == old(rows[ind].position)
      ensures rows[ind].maxDelta == old(rows[ind].maxDelta)
      ensures fired == PhiPlotCallback(true)
    {
      var r := rows[ind].ValueTyped(v);
      fired := CoefficientChanged(ind, r.value);
    }

    /** `make_hand_lab(le, i)`: the operator renamed row `i`. */
    method LabelEdited(i: nat, text: string)
      requires Valid() && i < |rows|
      modifies this
      ensures Valid() && Repr == old(Repr) && rows == old(rows)
      ensures pars == WithLabel(old(pars), Decimal(i), text)
      ensures radians == old(radians)
    {
      pars := WithLabel(pars, Decimal(i), text);
    }

    /** `reset_fun`: zero every coefficient in place, show it, redraw. */
    method ResetClicked() returns (fired: Option<seq<real>>)
      requires Valid()
      modifies z, set i | 0 <= i < |rows| :: rows[i]
      ensures Valid() && Synced()
      ensures forall i :: 0 <= i < z.Length ==> z[i] == 0.0
      ensures fired == PhiPlotCallback(true)
    {
      forall i | 0 <= i < z.Length {
        z[i] := 0.0;
      }
      UpdateGuiControls();
      fired := PhiPlotCallback(true);
    }

    /**
     * `change_nmodes`: `entered` is `int()` of the typed text (`None` when it
     * raises). Anything outside 1..nk is rejected and the rows stay as they are.
     */
    method ModesEntered(entered: Option<int>) returns (fired: Option<seq<real>>)
      requires Valid()
      modifies this
      ensures Valid() && fresh(Repr - old(Repr))
      ensures !(entered.Some? && 0 < entered.value <= nk) ==>
        rows == old(rows) && pars == old(pars) && fired == None
      ensures entered.Some? && 0 < entered.value <= nk ==>
        && |rows| == entered.value
        && fired == (if entered.value != old(|rows|) then PhiPlotCallback(true) else None)
      ensures forall i :: 0 <= i < |rows| && i < old(|rows|) ==> rows[i] == old(rows[i])
      ensures forall i :: old(|rows|) <= i < |rows| ==> rows[i].AsCreated(z[i])
      ensures pars == Fill(old(pars), old(|rows|), |rows|, ntab, mtab)
      ensures radians == old(radians) && mul == old(mul)
    {
      fired := None;
      if entered.None? || entered.value <= 0 || nk < entered.value {
        return;
      }
      var ival := entered.value;
      if ival != |rows| {
        UpdateZernikeRows(Some(ival));
        fired := PhiPlotCallback(true);
      }
    }

    /** The radians check box: choose the display unit and redraw. */
    method UnitsToggled(rad: bool) returns (fired: Option<seq<real>>)
      requires Valid()
      modifies this
      ensures Valid() && Repr == old(Repr) && rows == old(rows) && pars == old(pars)
      ensures radians == rad && mul == (if rad then 1.0 else radToNm)
      ensures fired == PhiPlotCallback(true)
    {
      radians := rad;
      mul := if rad then 1.0 else radToNm;
      fired := PhiPlotCallback(true);
    }

    /**
     * `load_parameters(d)`: adopt the defaults overridden by `d`, clamp
     * `shown_modes`, then rebuild every row. (The rows are dropped before the
     * dictionary is replaced; dropping rows touches neither, so the end state is
     * the same as the source's order.)
     */
    method LoadParameters(d: map<string, Value>)
      requires Valid()
      requires ParsOk(DefaultPars() + d) && 0 <= (DefaultPars() + d)[ShownKey].i
      modifies this
      ensures Valid() && fresh(Repr - old(Repr))
      ensures |rows| == ModesToShow((DefaultPars() + d)[ShownKey].i, nk)
      ensures forall i :: 0 <= i < |rows| ==> rows[i].AsCreated(z[i])
      ensures pars == Fill(Loaded(d, nk), 0, |rows|, ntab, mtab)
      ensures radians == old(radians) && mul == old(mul)
    {
      ShrinkRows(0);
      var loaded := Loaded(d, nk);
      ReplacePars(loaded);
      GrowRows(loaded[ShownKey].i);
    }

    /** Adopt a new parameter dictionary while no row is shown. */
    method ReplacePars(p: map<string, Value>)
      requires Valid() && |rows| == 0 && ParsOk(p)
      modifies this
      ensures Valid() && Repr == old(Repr) && rows == old(rows) && pars == p
      ensures radians == old(radians) && mul == old(mul)
    {
      pars := p;
    }

    /** `save_parameters(merge)`. */
    function SaveParameters(merge: map<string, Value>): (d: map<string, Value>)
      reads this
      ensures d.Keys == merge.Keys + pars.Keys + {ShownKey}
      ensures forall k :: k in pars && k != ShownKey ==> d[k] == pars[k]
      ensures d[ShownKey] == Int(|rows|)
    {
      Saved(pars, |rows|, merge)
    }
  }

  /**
   * `ZernikePanel.__init__`: the coefficient vector (a copy of `z0`, or zeros),
   * the given parameters over the defaults, and one row per shown mode, each
   * mode without a label getting its default name.
   */
  method NewZernikePanel(nk: nat, ntab: seq<int>, mtab: seq<int>, radToNm: real,
                         z0: Option<seq<real>>, hasCallback: bool, given: map<string, Value>)
    returns (panel: ZernikePanel)
    requires |ntab| == nk && |mtab| == nk && 0.0 < radToNm
    requires z0.Some? ==> |z0.value| == nk
    requires ParsOk(DefaultPars() + given) && 0 <= (DefaultPars() + given)[ShownKey].i
    ensures panel.Valid() && fresh(panel.Repr)
    ensures panel.nk == nk && panel.ntab == ntab && panel.mtab == mtab
    ensures panel.radToNm == radToNm && panel.hasCallback == hasCallback
    ensures panel.z[..] == if z0.Some? then z0.value else seq(nk, _ => 0.0)
    ensures panel.radians && panel.mul == 1.0
    ensures |panel.rows| == ModesToShow((DefaultPars() + given)[ShownKey].i, nk)
    ensures forall i :: 0 <= i < |panel.rows| ==> panel.rows[i].AsCreated(panel.z[i])
    ensures panel.pars == Fill(DefaultPars() + given, 0, |panel.rows|, ntab, mtab)
  {
    panel := new ZernikePanel(nk, ntab, mtab, radToNm, z0, hasCallback, given);
    panel.GrowRows(ModesToShow(panel.pars[ShownKey].i, nk));
  }
}
