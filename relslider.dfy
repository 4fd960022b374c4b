/**
 * The relative slider of one Zernike mode: an "effective value" spin box,
 * a relative slider in [-100, 100] that applies a bounded delta to the
 * value captured when the slider is pressed, and a "maximum relative
 * delta" spin box that sets the sensitivity.
 *
 * The change callback is not stored: every handler returns the argument
 * it passes to the callback (`None` when it does not call it), and the
 * owner of the slider applies it.
 */
module RelSliders {
  import opened Wrappers

  /** Range of the effective-value spin box once it is configured. */
  const SpinMin: real := -1000.0
  const SpinMax: real := 1000.0
  /** Range of a freshly created QDoubleSpinBox, before any `setMinimum`/`setMaximum`. */
  const QtDefaultMin: real := 0.0
  const QtDefaultMax: real := 99.99
  /** Range of the relative slider. */
  const RelMin: int := -100
  const RelMax: int := 100
  /** Initial value and minimum of the maximum-delta spin box; its maximum stays Qt's default. */
  const DefaultMaxDelta: real := 4.0
  const MinMaxDelta: real := 0.01

  function Clamp(v: real, lo: real, hi: real): (r: real)
    requires lo <= hi
    ensures lo <= r <= hi
    ensures lo <= v <= hi ==> r == v
    ensures v < lo ==> r == lo
    ensures hi < v ==> r == hi
  {
    if v < lo then lo else if hi < v then hi else v
  }

  /** What the configured effective-value spin box holds after `setValue(v)`. */
  function SpinBox(v: real): (r: real)
    ensures SpinMin <= r <= SpinMax
    ensures SpinMin <= v <= SpinMax ==> r == v
    ensures v < SpinMin ==> r == SpinMin
    ensures SpinMax < v ==> r == SpinMax
    ensures r == 0.0 <==> v == 0.0
    ensures (r < 0.0 <==> v < 0.0) && (r > 0.0 <==> v > 0.0)
  {
    Clamp(v, SpinMin, SpinMax)
  }

  /**
   * The value a move of the relative slider to `rel` produces:
   * the anchor plus `rel / 100` of the maximum delta.
   */
  function MoveTarget(anchor: real, rel: int, maxDelta: real): (r: real)
    ensures rel == 0 ==> r == anchor
    ensures RelMin <= rel <= RelMax && 0.0 <= maxDelta ==> anchor - maxDelta <= r <= anchor + maxDelta
  {
    BoundedFraction(rel, maxDelta);
    anchor + (rel as real) / 100.0 * maxDelta
  }

  lemma BoundedFraction(rel: int, m: real)
    ensures RelMin <= rel <= RelMax && 0.0 <= m ==> -m <= (rel as real) / 100.0 * m <= m
  {
  }

  /** A larger slider position moves the value further, for any positive sensitivity. */
  lemma MoveTargetMonotone(anchor: real, rel1: int, rel2: int, maxDelta: real)
    requires rel1 < rel2 && 0.0 < maxDelta
    ensures MoveTarget(anchor, rel1, maxDelta) < MoveTarget(anchor, rel2, maxDelta)
  {
    var f1, f2 := (rel1 as real) / 100.0, (rel2 as real) / 100.0;
    assert f1 < f2;
    MulPositive(f2 - f1, maxDelta);
    assert (f2 - f1) * maxDelta == f2 * maxDelta - f1 * maxDelta;
    var p1, p2 := f1 * maxDelta, f2 * maxDelta;
    assert p1 < p2;
    var a1, a2 := MoveTarget(anchor, rel1, maxDelta), MoveTarget(anchor, rel2, maxDelta);
    assert a1 == anchor + p1;
    assert a2 == anchor + p2;
  }

  lemma MulPositive(a: real, b: real)
    requires 0.0 < a && 0.0 < b
    ensures 0.0 < a * b
  {
  }

  /**
   * The value the spin box holds right after the constructor's `setValue(val)`
   * AS WRITTEN: the call comes before the range is widened to [-1000, 1000],
   * so Qt's default range [0, 99.99] applies.
   */
  function InitialValueAsWritten(val: real): (r: real)
    ensures QtDefaultMin <= r <= QtDefaultMax
    ensures QtDefaultMin <= val <= QtDefaultMax ==> r == val
    ensures val < QtDefaultMin ==> r == QtDefaultMin
    ensures QtDefaultMax < val ==> r == QtDefaultMax
  {
    Clamp(val, QtDefaultMin, QtDefaultMax)
  }

  /** As written, a negative coefficient is shown as 0 while its indicator says non-zero. */
  lemma InitialValueAsWrittenDropsSign()
    ensures InitialValueAsWritten(-0.5) == 0.0
    ensures (InitialValueAsWritten(-0.5) != 0.0) != (-0.5 != 0.0)
  {
  }

  /** The intended initial value: the configured spin box holding `val`. */
  function InitialValue(val: real): (r: real)
    ensures SpinMin <= val <= SpinMax ==> r == val
    ensures r == 0.0 <==> val == 0.0
  {
    SpinBox(val)
  }

  class RelSlider {
    /** `old_val`: the value captured when the slider was pressed; `None` between gestures. */
    var anchor: Option<real>
    /** `sba`: the effective value. */
    var value: real
    /** `qsr`: the relative slider position. */
    var position: int
    /** `sbm`: the maximum relative delta. */
    var maxDelta: real
    /** `sba_color`: the darker background that marks a non-zero value. */
    var highlighted: bool
    /** Whether the signals of the three widgets are blocked. */
    var blocked: bool

    ghost predicate Valid()
      reads this
    {
      && RelMin <= position <= RelMax
      && MinMaxDelta <= maxDelta <= QtDefaultMax
      && SpinMin <= value <= SpinMax
      && highlighted == (value != 0.0)
    }

    /** The state the constructor leaves for the coefficient `val`: centred, no anchor, default sensitivity. */
    ghost predicate AsCreated(val: real)
      reads this
    {
      value == InitialValue(val) && anchor == None && position == 0 && maxDelta == DefaultMaxDelta
    }

    constructor (val: real)
      ensures Valid() && !blocked && AsCreated(val)
      ensures highlighted == (val != 0.0)
    {
      anchor := None;
      value := InitialValue(val);
      highlighted := val != 0.0;
      position := 0;
      maxDelta := DefaultMaxDelta;
      blocked := false;
    }

    method Block()
      modifies this
      ensures blocked
      ensures anchor == old(anchor) && value == old(value) && position == old(position)
      ensures maxDelta == old(maxDelta) && highlighted == old(highlighted)
    {
      blocked := true;
    }

    method Unblock()
      modifies this
      ensures !blocked
      ensures anchor == old(anchor) && value == old(value) && position == old(position)
      ensures maxDelta == old(maxDelta) && highlighted == old(highlighted)
    {
      blocked := false;
    }

    /** `qs1_start`: the slider is pressed; capture the current value. */
    method Press()
      requires Valid() && !blocked
      modifies this
      ensures Valid() && !blocked
      ensures anchor == Some(old(value))
      ensures value == old(value) && position == old(position)
      ensures maxDelta == old(maxDelta) && highlighted == old(highlighted)
    {
      Block();
      anchor := Some(value);
      Unblock();
    }

    /**
     * `qs1_cb`: the slider has moved to `rel`. Without an anchor the slider is
     * put back to 0 and the callback is not called; otherwise the value becomes
     * the anchor plus the scaled delta and that value goes to the callback.
     */
    method Move(rel: int) returns (fired: Option<real>)
      requires Valid() && !blocked
      requires RelMin <= rel <= RelMax
      modifies this
      ensures Valid() && !blocked
      ensures anchor == old(anchor) && maxDelta == old(maxDelta)
      ensures old(anchor).None? ==>
        && fired == None && position == 0
        && value == old(value) && highlighted == old(highlighted)
      ensures old(anchor).Some? ==>
        var v := MoveTarget(old(anchor).value, rel, old(maxDelta));
        fired == Some(v) && position == rel && value == SpinBox(v)
    {
      position := rel;
      Block();
      if anchor.None? {
        position := 0;
        Unblock();
        return None;
      }
      var v := MoveTarget(anchor.value, position, maxDelta);
      value := SpinBox(v);
      highlighted := v != 0.0;
      fired := Some(v);
      Unblock();
    }

    /** `qs1_end`: the slider is released; re-centre it and forget the anchor. */
    method Release()
      requires Valid() && !blocked
      modifies this
      ensures Valid() && !blocked
      ensures anchor == None && position == 0
      ensures value == old(value) && maxDelta == old(maxDelta) && highlighted == old(highlighted)
    {
      Block();
      position := 0;
      anchor := None;
      Unblock();
    }

    /** `sba_cb`: the operator typed `v` into the effective-value box; its value goes to the callback. */
    method ValueTyped(v: real) returns (fired: Option<real>)
      requires Valid() && !blocked
      modifies this
      ensures Valid() && !blocked
      ensures value == SpinBox(v) && fired == Some(value)
      ensures anchor == old(anchor) && position == old(position) && maxDelta == old(maxDelta)
    {
      value := SpinBox(v);
      Block();
      highlighted := value != 0.0;
      fired := Some(value);
      Unblock();
    }

    /**
     * The operator edits the maximum-delta box, whose range is [0.01, 99.99]
     * (only the minimum is set); no handler is attached to it.
     */
    method MaxDeltaTyped(m: real)
      requires Valid() && !blocked
      requires MinMaxDelta <= m <= QtDefaultMax
      modifies this
      ensures Valid() && !blocked && maxDelta == m
      ensures anchor == old(anchor) && value == old(value) && position == old(position)
      ensures highlighted == old(highlighted)
    {
      maxDelta := m;
    }

    /**
     * `set_value`: set the value directly, re-deriving the non-zero indicator.
     * Called only with the signals blocked, so `sba_cb` does not run.
     */
    method SetValue(v: real)
      requires Valid() && blocked
      modifies this
      ensures Valid() && blocked == old(blocked)
      ensures value == SpinBox(v) && highlighted == (v != 0.0)
      ensures anchor == old(anchor) && position == old(position) && maxDelta == old(maxDelta)
    {
      highlighted := v != 0.0;
      value := SpinBox(v);
    }
  }

  /**
   * A gesture that presses, moves by zero and releases lands exactly on the
   * value it started from, and hands exactly that value to the callback.
   */
  method ZeroDeltaGesture(s: RelSlider) returns (fired: Option<real>)
    requires s.Valid() && !s.blocked
    modifies s
    ensures s.Valid() && !s.blocked
    ensures s.value == old(s.value) && fired == Some(old(s.value))
    ensures s.anchor == None && s.position == 0 && s.maxDelta == old(s.maxDelta)
  {
    s.Press();
    fired := s.Move(0);
    s.Release();
  }
}
