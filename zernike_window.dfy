/**
 * The main window: a controller (`zcontrol`) that holds the actuator vector
 * `u`, the Zernike panel whose coefficient vector `z` it drives, the control
 * options tab, and the hand-off of the deformable mirror to a control session
 * running elsewhere (acquire, draw, release), guarded by a mutex.
 *
 * The controller's own computations (`u2z`, `write`, the saturation flag, the
 * parameters it accepts) belong to a module that is not part of this model;
 * they are the fields of a `Device`.
 */
module ZernikeWindows {
  import opened Wrappers
  import opened Params
  import opened RelSliders
  import opened ZernikePanels
  import opened OptionsPanels

  /**
   * The calibration and what the controller derived from it does: the number
   * of modes and actuators, the mode orders, the radians-to-nanometres factor,
   * the conversions between actuator and Zernike vectors, the saturation test
   * of a write, whether the controller accepts a stored configuration, and the
   * initial vectors and flat flag of a controller built from a configuration
   * (`None` for the defaults).
   */
  datatype Device = Device(
    nk: nat, nu: nat, ntab: seq<int>, mtab: seq<int>, radToNm: real,
    u2z: (bool, seq<real>) -> seq<real>, z2u: (bool, seq<real>) -> seq<real>, saturates: (bool, seq<real>) -> bool,
    accepts: Value -> bool,
    startU: Option<Value> -> seq<real>, startZ: Option<Value> -> seq<real>, startFlat: Option<Value> -> bool)

  ghost predicate DeviceOk(d: Device)
  {
    && |d.ntab| == d.nk && |d.mtab| == d.nk && 0.0 < d.radToNm
    && (forall flat: bool, u: seq<real> :: |u| == d.nu ==> |d.u2z(flat, u)| == d.nk)
    && (forall flat: bool, z: seq<real> :: |z| == d.nk ==> |d.z2u(flat, z)| == d.nu)
    && (forall c :: |d.startU(c)| == d.nu)
    && (forall c :: |d.startZ(c)| == d.nk)
  }

  const ControlKey: string := "ZernikeControl"
  const PanelKey: string := "ZernikePanel"
  /** The prefix of the control options' keys, `control_options` and `control_name`. */
  const ControlFamily: string := "control"

  /**
   * The configuration a new controller is built from: the stored
   * `ZernikeControl` entry when there is one and the controller accepts it,
   * otherwise the defaults (the `except` branch).
   */
  function ChooseConfig(pars: map<string, Value>, accepts: Value -> bool): (c: Option<Value>)
    ensures c.Some? <==> ControlKey in pars && accepts(pars[ControlKey])
    ensures c.Some? ==> c.value == pars[ControlKey]
  {
    if ControlKey in pars && accepts(pars[ControlKey]) then Some(pars[ControlKey]) else None
  }

  /**
   * `norm(u) != 0`: the norm of a vector is zero exactly when it is the zero
   * vector, so this holds when some entry is not zero.
   */
  function NonZero(u: seq<real>): (r: bool)
    ensures !r <==> u == seq(|u|, _ => 0.0)
  {
    var zero := seq(|u|, _ => 0.0);
    if exists i :: 0 <= i < |u| && u[i] != 0.0 then
      var i :| 0 <= i < |u| && u[i] != 0.0;
      assert u[i] != zero[i];
      true
    else
      assert u == zero;
      false
  }

  /** `u.tolist()`. */
  function Reals(u: seq<real>): (vs: seq<Value>)
    ensures |vs| == |u| && forall i :: 0 <= i < |u| ==> vs[i] == Real(u[i])
  {
    seq(|u|, i requires 0 <= i < |u| => Real(u[i]))
  }

  /**
   * The parameters `acquire_control` hands to the new control session: the
   * copy of the selected strategy's options, with the flat switched on, the
   * current actuator vector as the flat, a zero starting vector and `all` off.
   */
  function ControlRequest(values: map<string, Value>, u: seq<real>): (r: map<string, Value>)
    ensures r.Keys == values.Keys + {"flat_on", "uflat", "u", "all"}
    ensures forall k :: k in values && k !in {"flat_on", "uflat", "u", "all"} ==> r[k] == values[k]
    ensures r["flat_on"] == Int(1) && r["all"] == Int(0)
    ensures r["uflat"].List? && |r["uflat"].items| == |u|
    ensures forall i :: 0 <= i < |u| ==> r["uflat"].items[i] == Real(u[i])
    ensures r["u"].List? && |r["u"].items| == |u|
    ensures forall i :: 0 <= i < |u| ==> r["u"].items[i] == Real(0.0)
  {
    values["flat_on" := Int(1)]["uflat" := List(Reals(u))]["u" := List(Reals(seq(|u|, _ => 0.0)))]["all" := Int(0)]
  }

  /** The dictionary the window works on once the `ZernikePanel` entry is guaranteed. */
  function WithPanelEntry(pars0: map<string, Value>): (p: map<string, Value>)
    ensures PanelKey in p && p.Keys == pars0.Keys + {PanelKey}
    ensures forall k :: k in pars0 ==> p[k] == pars0[k]
    ensures PanelKey !in pars0 ==> p[PanelKey] == Dict(map[])
  {
    if PanelKey in pars0 then pars0 else pars0[PanelKey := Dict(map[])]
  }

  /** What `closeEvent` does with the event. */
  datatype CloseOutcome = Quit | Accept | Ignore

  /** The controller: the actuator vector it holds and the writes it has sent to the mirror. */
  class Control {
    const device: Device
    /** The configuration it was built from; `None` for the defaults. */
    const config: Option<Value>
    /** `zcontrol.z` when it was built: the panel's initial coefficients. */
    const z: seq<real>
    /** `zcontrol.u`, updated in place. */
    const u: array<real>
    var saturation: bool
    var flatOn: bool
    /** The actuator vectors sent to the mirror, oldest first. */
    ghost var sent: seq<seq<real>>

    ghost predicate Valid()
      reads this
    {
      DeviceOk(device) && u.Length == device.nu && |z| == device.nk
    }

    constructor (device: Device, config: Option<Value>)
      requires DeviceOk(device)
      ensures Valid() && fresh(u)
      ensures this.device == device && this.config == config
      ensures u[..] == device.startU(config) && z == device.startZ(config)
      ensures flatOn == device.startFlat(config) && sent == []
    {
      this.device, this.config := device, config;
      var u0 := device.startU(config);
      var a := new real[device.nu];
      forall i | 0 <= i < device.nu {
        a[i] := u0[i];
      }
      u := a;
      z := device.startZ(config);
      flatOn := device.startFlat(config);
      saturation := false;
      sent := [];
    }

    /** `u2z()`: the coefficients of the current actuator vector. */
    function U2Z(): (zs: seq<real>)
      reads this, u
      requires Valid()
      ensures |zs| == device.nk
    {
      var flat := flatOn;
      device.u2z(flat, u[..])
    }

    /** `write(z)`: derive the actuator vector of `z`, send it to the mirror, note its saturation. */
    method Write(zs: seq<real>)
      requires Valid() && |zs| == device.nk
      modifies this, u
      ensures Valid() && flatOn == old(flatOn)
      ensures u[..] == device.z2u(flatOn, zs) && saturation == device.saturates(flatOn, zs)
      ensures sent == old(sent) + [device.z2u(flatOn, zs)]
    {
      var flat := flatOn;
      var us := device.z2u(flat, zs);
      forall i | 0 <= i < u.Length {
        u[i] := us[i];
      }
      saturation := device.saturates(flat, zs);
      sent := sent + [us];
    }
  }

  class ZernikeWindow {
    const device: Device
    var zcontrol: Control
    const zpanel: ZernikePanel
    const options: OptionsPanel
    /** Whether each tab (the front tab, then the control tab) is enabled. */
    const tabs: array<bool>
    /** Whether the mutex is held. */
    var locked: bool
    var canClose: bool
    /** The `flat` check box. */
    var flatChecked: bool
    /** The saturation indicator of the status line. */
    var shownSaturation: bool
    ghost var Repr: set<object>

    ghost predicate Valid()
      reads this, Repr
    {
      && this in Repr && zcontrol in Repr && zcontrol.u in Repr && tabs in Repr && options in Repr
      && zpanel in Repr && zpanel.Repr <= Repr
      && this !in zpanel.Repr && zcontrol !in zpanel.Repr && zcontrol.u !in zpanel.Repr
      && tabs !in zpanel.Repr && options !in zpanel.Repr
      && zcontrol.Valid() && zcontrol.device == device
      && zpanel.Valid() && zpanel.hasCallback
      && zpanel.nk == device.nk && zpanel.ntab == device.ntab && zpanel.mtab == device.mtab
      && options.Valid() && options.name == ControlFamily
      && tabs.Length == 2
      && canClose == !locked
      && (forall i :: 0 <= i < tabs.Length ==> tabs[i] == !locked)
    }

    /** The window's parameter dictionary, which the options tab shares and edits. */
    function Pars(): map<string, Value>
      reads this, options
    {
      options.pars
    }


    /** The window over parts already built; nothing is locked and every tab is enabled. */
    constructor (device: Device, c: Control, t: array<bool>, opts: OptionsPanel, panel: ZernikePanel)
      requires c !in panel.Repr && c.u !in panel.Repr && t !in panel.Repr && opts !in panel.Repr
      requires c.Valid() && c.device == device
      requires t.Length == 2 && forall i :: 0 <= i < t.Length ==> t[i]
      requires opts.Valid() && opts.name == ControlFamily
      requires panel.Valid() && panel.hasCallback
      requires panel.nk == device.nk && panel.ntab == device.ntab && panel.mtab == device.mtab
      ensures Valid() && Repr == {this, c, c.u, t, opts, panel} + panel.Repr
      ensures this.device == device && zcontrol == c && tabs == t && options == opts && zpanel == panel
      ensures !locked && canClose && flatChecked == c.flatOn && shownSaturation == c.saturation
    {
      this.device := device;
      zcontrol, zpanel, tabs, options := c, panel, t, opts;
      locked, canClose := false, true;
      flatChecked := c.flatOn;
      shownSaturation := c.saturation;
      new;
      Repr := {this, c, c.u, t, opts, panel} + panel.Repr;
    }

    /**
     * `write_dm(z, do_write)`, the panel's callback: write `z` when asked,
     * then show the controller's saturation flag.
     */
    method WriteDm(zs: seq<real>, doWrite: bool)
      requires Valid() && |zs| == device.nk
      modifies this, zcontrol, zcontrol.u
      ensures Valid() && Repr == old(Repr) && zcontrol == old(zcontrol)
      ensures doWrite ==>
        && zcontrol.u[..] == device.z2u(zcontrol.flatOn, zs) && zcontrol.saturation == device.saturates(zcontrol.flatOn, zs)
        && zcontrol.sent == old(zcontrol.sent) + [device.z2u(zcontrol.flatOn, zs)]
      ensures !doWrite ==>
        && zcontrol.u[..] == old(zcontrol.u[..]) && zcontrol.saturation == old(zcontrol.saturation)
        && zcontrol.sent == old(zcontrol.sent)
      ensures shownSaturation == zcontrol.saturation && zcontrol.flatOn == old(zcontrol.flatOn)
      ensures locked == old(locked) && canClose == old(canClose) && flatChecked == old(flatChecked)
    {
      if doWrite {
        zcontrol.Write(zs);
      }
      shownSaturation := zcontrol.saturation;
    }

    /** What the panel's callback receives is passed on to `write_dm`, writing. */
    method PanelCallback(fired: Option<seq<real>>)
      requires Valid() && (fired.Some? ==> |fired.value| == device.nk)
      modifies this, zcontrol, zcontrol.u
      ensures Valid() && Repr == old(Repr) && zcontrol == old(zcontrol)
      ensures fired.None? ==>
        && zcontrol.u[..] == old(zcontrol.u[..]) && zcontrol.sent == old(zcontrol.sent)
        && zcontrol.saturation == old(zcontrol.saturation) && shownSaturation == old(shownSaturation)
      ensures fired.Some? ==>
        && zcontrol.u[..] == device.z2u(zcontrol.flatOn, fired.value)
        && zcontrol.saturation == device.saturates(zcontrol.flatOn, fired.value)
        && zcontrol.sent == old(zcontrol.sent) + [device.z2u(zcontrol.flatOn, fired.value)]
        && shownSaturation == zcontrol.saturation
      ensures locked == old(locked) && canClose == old(canClose) && flatChecked == old(flatChecked)
      ensures zcontrol.flatOn == old(zcontrol.flatOn)
    {
      if fired.Some? {
        WriteDm(fired.value, true);
      }
    }

    /** The loops over the tabs: enable or disable every one of them. */
    method SetTabsEnabled(enabled: bool)
      modifies tabs
      ensures forall i :: 0 <= i < tabs.Length ==> tabs[i] == enabled
    {
      var i := 0;
      while i < tabs.Length
        invariant 0 <= i <= tabs.Length
        invariant forall j :: 0 <= j < i ==> tabs[j] == enabled
      {
        tabs[i] := enabled;
        i := i + 1;
      }
    }

    /**
     * The acquire handler: take the mutex, forbid closing, disable every tab.
     * Taking the mutex a second time would deadlock, hence `!locked`.
     */
    method Acquire()
      requires Valid() && !locked
      modifies this, tabs
      ensures Valid() && Repr == old(Repr) && zcontrol == old(zcontrol)
      ensures locked && !canClose
      ensures forall i :: 0 <= i < tabs.Length ==> !tabs[i]
      ensures flatChecked == old(flatChecked) && shownSaturation == old(shownSaturation)
    {
      locked := true;
      canClose := false;
      SetTabsEnabled(false);
    }

    /**
     * The release handler. With the session's final vector, adopt it when it
     * is not all zeros, show its coefficients, sync the sliders and redraw
     * (the redraw's callback writes those coefficients back to the mirror).
     * In every case enable the tabs, allow closing and give the mutex back.
     */
    method Release(final: Option<seq<real>>)
      requires Valid() && locked
      requires final.Some? ==> |final.value| == device.nu
      modifies this, zcontrol, zcontrol.u, tabs, zpanel.Repr
      ensures Valid() && Repr == old(Repr) && zcontrol == old(zcontrol)
      ensures !locked && canClose
      ensures forall i :: 0 <= i < tabs.Length ==> tabs[i]
      ensures final.None? ==>
        && zpanel.z[..] == old(zpanel.z[..]) && zcontrol.u[..] == old(zcontrol.u[..])
        && zcontrol.sent == old(zcontrol.sent)
        && zcontrol.saturation == old(zcontrol.saturation) && shownSaturation == old(shownSaturation)
      ensures final.Some? ==>
        var adopted := if NonZero(final.value) then final.value else old(zcontrol.u[..]);
        && zpanel.z[..] == device.u2z(zcontrol.flatOn, adopted) && zpanel.Synced()
        && zcontrol.u[..] == device.z2u(zcontrol.flatOn, zpanel.z[..])
        && zcontrol.saturation == device.saturates(zcontrol.flatOn, zpanel.z[..])
        && zcontrol.sent == old(zcontrol.sent) + [device.z2u(zcontrol.flatOn, zpanel.z[..])]
        && shownSaturation == zcontrol.saturation
      ensures zpanel.rows == old(zpanel.rows) && zpanel.pars == old(zpanel.pars)
      ensures zpanel.radians == old(zpanel.radians) && zpanel.mul == old(zpanel.mul)
      ensures Pars() == old(Pars()) && flatChecked == old(flatChecked)
      ensures zcontrol.flatOn == old(zcontrol.flatOn)
    {
      if final.Some? {
        if NonZero(final.value) {
          CopyIntoU(final.value);
        }
        ShowAndWrite();
      }
      Unlock();
    }

    /** The end of the release handler: enable every tab, allow closing, give the mutex back. */
    method Unlock()
      requires Valid() && locked
      modifies this, tabs
      ensures Valid() && Repr == old(Repr) && zcontrol == old(zcontrol)
      ensures !locked && canClose
      ensures forall i :: 0 <= i < tabs.Length ==> tabs[i]
      ensures flatChecked == old(flatChecked) && shownSaturation == old(shownSaturation)
    {
      SetTabsEnabled(true);
      canClose := true;
      locked := false;
    }

    /**
     * Show the controller's coefficients in the panel, sync the sliders and
     * redraw; the redraw's callback writes the coefficients to the mirror.
     */
    method ShowAndWrite()
      requires Valid()
      modifies this, zcontrol, zcontrol.u, zpanel.z, zpanel.Repr
      ensures Valid() && Repr == old(Repr) && zcontrol == old(zcontrol)
      ensures zpanel.z[..] == device.u2z(zcontrol.flatOn, old(zcontrol.u[..])) && zpanel.Synced()
      ensures zcontrol.u[..] == device.z2u(zcontrol.flatOn, zpanel.z[..])
      ensures zcontrol.saturation == device.saturates(zcontrol.flatOn, zpanel.z[..])
      ensures shownSaturation == zcontrol.saturation
      ensures zcontrol.sent == old(zcontrol.sent) + [device.z2u(zcontrol.flatOn, zpanel.z[..])]
      ensures zpanel.rows == old(zpanel.rows) && zpanel.pars == old(zpanel.pars)
      ensures zpanel.radians == old(zpanel.radians) && zpanel.mul == old(zpanel.mul)
      ensures locked == old(locked) && canClose == old(canClose) && flatChecked == old(flatChecked)
      ensures zcontrol.flatOn == old(zcontrol.flatOn)
    {
      ShowControllerCoefficients();
      var fired := zpanel.PhiPlotCallback(true);
      PanelCallback(fired);
    }

    /** `zcontrol.u[:] = u`. */
    method CopyIntoU(u: seq<real>)
      requires Valid() && |u| == device.nu
      modifies zcontrol.u
      ensures Valid() && zcontrol.u[..] == u
    {
      forall i | 0 <= i < zcontrol.u.Length {
        zcontrol.u[i] := u[i];
      }
    }

    /** `zpanel.z[:] = zcontrol.u2z()` followed by `zpanel.update_gui_controls()`. */
    method ShowControllerCoefficients()
      requires Valid()
      modifies zpanel.z, zpanel.Repr
      ensures Valid() && zpanel.Synced()
      ensures zpanel.z[..] == device.u2z(zcontrol.flatOn, zcontrol.u[..])
      ensures zpanel.rows == old(zpanel.rows) && zpanel.pars == old(zpanel.pars)
      ensures zpanel.radians == old(zpanel.radians) && zpanel.mul == old(zpanel.mul)
    {
      var zs := zcontrol.U2Z();
      ghost var us := zcontrol.u[..];
      assert zs == device.u2z(zcontrol.flatOn, us);
      forall i | 0 <= i < zpanel.z.Length {
        zpanel.z[i] := zs[i];
      }
      assert zcontrol.u[..] == us;
      zpanel.UpdateGuiControls();
      assert zcontrol.u[..] == us;
    }

    /**
     * The draw handler, run for every step of a control session: adopt the
     * session's vector and show its coefficients, without running the panel's
     * callback, without writing to the mirror and without syncing the sliders.
     */
    method Draw(u: seq<real>)
      requires Valid() && |u| == device.nu
      modifies this, zcontrol, zcontrol.u, zpanel.z
      ensures Valid() && Repr == old(Repr) && zcontrol == old(zcontrol)
      ensures zcontrol.u[..] == u && zpanel.z[..] == device.u2z(zcontrol.flatOn, u)
      ensures zcontrol.sent == old(zcontrol.sent) && zcontrol.saturation == old(zcontrol.saturation)
      ensures shownSaturation == zcontrol.saturation
      ensures locked == old(locked) && canClose == old(canClose) && flatChecked == old(flatChecked)
      ensures zcontrol.flatOn == old(zcontrol.flatOn)
    {
      CopyIntoU(u);
      var zs := zcontrol.U2Z();
      forall i | 0 <= i < zpanel.z.Length {
        zpanel.z[i] := zs[i];
      }
      var fired := zpanel.PhiPlotCallback(false);
      assert fired == None;
      WriteDm(zs, false);
    }

    /** `closeEvent`: quit the application or accept the event only when closing is allowed. */
    function CloseEvent(hasApp: bool): (r: CloseOutcome)
      reads this
      ensures r == Ignore <==> !canClose
      ensures r == Quit <==> canClose && hasApp
    {
      if !canClose then Ignore else if hasApp then Quit else Accept
    }

    /**
     * The click handler of the mirror plot. `hit` is the actuator under the
     * click (`None` outside the axes or away from every actuator) and `answer`
     * the value confirmed in the dialog, which keeps it in [-1, 1]. The edit
     * changes only that actuator, shows the resulting coefficients and
     * redraws, and the redraw's callback writes them to the mirror. The
     * handler holds the mutex while it runs, so it needs the mutex free.
     */
    method SelectActuator(hit: Option<nat>, answer: Option<real>)
      requires Valid() && !locked
      requires hit.Some? ==> hit.value < device.nu
      requires answer.Some? ==> -1.0 <= answer.value <= 1.0
      modifies this, zcontrol, zcontrol.u, zpanel.Repr
      ensures Valid() && Repr == old(Repr) && zcontrol == old(zcontrol) && !locked
      ensures !(hit.Some? && answer.Some?) ==>
        && zpanel.z[..] == old(zpanel.z[..]) && zcontrol.u[..] == old(zcontrol.u[..])
        && zcontrol.sent == old(zcontrol.sent)
        && zcontrol.saturation == old(zcontrol.saturation) && shownSaturation == old(shownSaturation)
      ensures hit.Some? && answer.Some? ==>
        var edited := old(zcontrol.u[..])[hit.value := answer.value];
        && zpanel.z[..] == device.u2z(zcontrol.flatOn, edited) && zpanel.Synced()
        && zcontrol.u[..] == device.z2u(zcontrol.flatOn, zpanel.z[..])
        && zcontrol.saturation == device.saturates(zcontrol.flatOn, zpanel.z[..])
        && zcontrol.sent == old(zcontrol.sent) + [device.z2u(zcontrol.flatOn, zpanel.z[..])]
        && shownSaturation == zcontrol.saturation
      ensures zpanel.rows == old(zpanel.rows) && zpanel.pars == old(zpanel.pars)
      ensures zpanel.radians == old(zpanel.radians) && zpanel.mul == old(zpanel.mul)
      ensures canClose == old(canClose) && flatChecked == old(flatChecked)
      ensures zcontrol.flatOn == old(zcontrol.flatOn)
    {
      if hit.Some? && answer.Some? {
        zcontrol.u[hit.value] := answer.value;
        ShowAndWrite();
      }
    }

    /**
     * `acquire_control`: take over the window, then build the request for a
     * new control session from a copy of the selected options. `built` says
     * whether the session could be created; when it cannot, the window is
     * released without a vector (and the error propagates to the caller).
     * Returns the strategy name and the request.
     */
    method AcquireControl(built: bool) returns (strategy: string, request: map<string, Value>)
      requires Valid() && !locked
      modifies this, zcontrol, zcontrol.u, tabs, zpanel.Repr
      ensures Valid() && Repr == old(Repr) && zcontrol == old(zcontrol)
      ensures strategy == old(options.GetOptions()).0
      ensures request == ControlRequest(old(options.GetOptions()).1, old(zcontrol.u[..]))
      ensures Pars() == old(Pars())
      ensures zpanel.z[..] == old(zpanel.z[..]) && zcontrol.u[..] == old(zcontrol.u[..])
      ensures zcontrol.sent == old(zcontrol.sent) && zcontrol.saturation == old(zcontrol.saturation)
      ensures shownSaturation == old(shownSaturation) && flatChecked == old(flatChecked)
      ensures zpanel.rows == old(zpanel.rows) && zpanel.pars == old(zpanel.pars)
      ensures zpanel.radians == old(zpanel.radians) && zpanel.mul == old(zpanel.mul)
      ensures built ==> locked && !canClose && forall i :: 0 <= i < tabs.Length ==> !tabs[i]
      ensures !built ==> !locked && canClose && forall i :: 0 <= i < tabs.Length ==> tabs[i]
      ensures zcontrol.flatOn == old(zcontrol.flatOn)
    {
      Acquire();
      var opts := options.GetOptions();
      strategy := opts.0;
      request := ControlRequest(opts.1, zcontrol.u[..]);
      if !built {
        Release(None);
      }
    }

    /**
     * `instance_control`: rebuild the controller from the stored
     * configuration (or the defaults), mirror its flat flag in the check box,
     * show its coefficients and redraw, which writes them to the mirror.
     */
    method InstanceControl()
      requires Valid()
      modifies this, zpanel.Repr
      ensures Valid() && fresh(Repr - old(Repr)) && fresh(zcontrol)
      ensures zcontrol.config == ChooseConfig(Pars(), device.accepts)
      ensures flatChecked == zcontrol.flatOn
      ensures zpanel.z[..] == device.u2z(zcontrol.flatOn, device.startU(zcontrol.config)) && zpanel.Synced()
      ensures zcontrol.u[..] == device.z2u(zcontrol.flatOn, zpanel.z[..]) && zcontrol.sent == [device.z2u(zcontrol.flatOn, zpanel.z[..])]
      ensures zcontrol.saturation == device.saturates(zcontrol.flatOn, zpanel.z[..]) && shownSaturation == zcontrol.saturation
      ensures zpanel.rows == old(zpanel.rows) && zpanel.pars == old(zpanel.pars) && Pars() == old(Pars())
      ensures zpanel.radians == old(zpanel.radians) && zpanel.mul == old(zpanel.mul)
      ensures locked == old(locked) && canClose == old(canClose)
    {
      var c := new Control(device, ChooseConfig(options.pars, device.accepts));
      AdoptControl(c);
      ShowAndWrite();
    }

    /** `self.zcontrol = c`, with the `flat` check box following its flat flag. */
    method AdoptControl(c: Control)
      requires Valid() && c.Valid() && c.device == device && c !in Repr && c.u !in Repr
      modifies this
      ensures Valid() && Repr == old(Repr) + {c, c.u} && zcontrol == c && flatChecked == c.flatOn
      ensures locked == old(locked) && canClose == old(canClose)
    {
      zcontrol := c;
      Repr := Repr + {c, c.u};
      flatChecked := c.flatOn;
    }

    /** The `flat` check box: switch the controller's flat and write the current coefficients. */
    method FlatToggled(on: bool)
      requires Valid()
      modifies this, zcontrol, zcontrol.u
      ensures Valid() && Repr == old(Repr) && zcontrol == old(zcontrol)
      ensures zcontrol.flatOn == on && flatChecked == on && zpanel.z[..] == old(zpanel.z[..])
      ensures zcontrol.u[..] == device.z2u(on, zpanel.z[..]) && zcontrol.saturation == device.saturates(on, zpanel.z[..])
      ensures zcontrol.sent == old(zcontrol.sent) + [device.z2u(on, zpanel.z[..])]
      ensures shownSaturation == zcontrol.saturation && locked == old(locked)
    {
      flatChecked := on;
      zcontrol.flatOn := on;
      WriteDm(zpanel.z[..], true);
    }

    /** A move of a panel slider, which the front tab only delivers while it is enabled. */
    method PanelSliderMoved(ind: nat, rel: int)
      requires Valid() && tabs[0] && ind < |zpanel.rows| && RelMin <= rel <= RelMax
      modifies this, zcontrol, zcontrol.u, zpanel.Repr
      ensures Valid() && Repr == old(Repr) && zcontrol == old(zcontrol)
      ensures old(zpanel.rows[ind].anchor).None? ==>
        && zpanel.z[..] == old(zpanel.z[..]) && zcontrol.u[..] == old(zcontrol.u[..])
        && zcontrol.sent == old(zcontrol.sent)
        && zcontrol.saturation == old(zcontrol.saturation) && shownSaturation == old(shownSaturation)
      ensures old(zpanel.rows[ind].anchor).Some? ==>
        && zpanel.z[..] == old(zpanel.z[..])[ind := MoveTarget(old(zpanel.rows[ind].anchor).value, rel, old(zpanel.rows[ind].maxDelta))]
        && zcontrol.u[..] == device.z2u(zcontrol.flatOn, zpanel.z[..])
        && zcontrol.saturation == device.saturates(zcontrol.flatOn, zpanel.z[..])
        && zcontrol.sent == old(zcontrol.sent) + [device.z2u(zcontrol.flatOn, zpanel.z[..])]
        && shownSaturation == zcontrol.saturation
      ensures zpanel.rows == old(zpanel.rows) && zpanel.pars == old(zpanel.pars)
      ensures old(zpanel.rows[ind].anchor).None? ==>
        zpanel.rows[ind].position == 0 && zpanel.rows[ind].value == old(zpanel.rows[ind].value)
      ensures old(zpanel.rows[ind].anchor).Some? ==>
        && zpanel.rows[ind].position == rel
        && zpanel.rows[ind].value == SpinBox(MoveTarget(old(zpanel.rows[ind].anchor).value, rel, old(zpanel.rows[ind].maxDelta)))
      ensures zpanel.rows[ind].anchor == old(zpanel.rows[ind].anchor) && zpanel.rows[ind].maxDelta == old(zpanel.rows[ind].maxDelta)
      ensures zpanel.radians == old(zpanel.radians) && zpanel.mul == old(zpanel.mul)
      ensures locked == old(locked) && canClose == old(canClose) && flatChecked == old(flatChecked)
      ensures zcontrol.flatOn == old(zcontrol.flatOn)
    {
      var fired := zpanel.SliderMoved(ind, rel);
      PanelCallback(fired);
    }

    /** The panel's reset button: zero the coefficients and write them. */
    method PanelReset()
      requires Valid() && tabs[0]
      modifies this, zcontrol, zcontrol.u, zpanel.Repr
      ensures Valid() && Repr == old(Repr) && zcontrol == old(zcontrol)
      ensures forall i :: 0 <= i < zpanel.z.Length ==> zpanel.z[i] == 0.0
      ensures zpanel.Synced()
      ensures zcontrol.u[..] == device.z2u(zcontrol.flatOn, zpanel.z[..])
      ensures zcontrol.saturation == device.saturates(zcontrol.flatOn, zpanel.z[..])
      ensures zcontrol.sent == old(zcontrol.sent) + [device.z2u(zcontrol.flatOn, zpanel.z[..])]
      ensures shownSaturation == zcontrol.saturation
      ensures locked == old(locked) && canClose == old(canClose) && flatChecked == old(flatChecked)
      ensures zpanel.rows == old(zpanel.rows) && zpanel.pars == old(zpanel.pars)
      ensures zpanel.radians == old(zpanel.radians) && zpanel.mul == old(zpanel.mul)
      ensures zcontrol.flatOn == old(zcontrol.flatOn)
    {
      var fired := zpanel.ResetClicked();
      PanelCallback(fired);
    }
  }

  /**
   * The state `ZernikePanel.__init__` leaves for the entries `given`:
   * radians, `min(shown_modes, nk)` rows as created for their coefficients,
   * and the given parameters over the defaults with the shown labels filled.
   */
  ghost predicate PanelAsBuilt(panel: ZernikePanel, given: map<string, Value>)
    reads panel, panel.Repr
    requires panel.Valid() && ParsOk(DefaultPars() + given)
  {
    && panel.radians && panel.mul == 1.0
    && |panel.rows| == ModesToShow((DefaultPars() + given)[ShownKey].i, panel.nk)
    && (forall i :: 0 <= i < |panel.rows| ==> panel.rows[i].AsCreated(panel.z[i]))
    && panel.pars == Fill(DefaultPars() + given, 0, |panel.rows|, panel.ntab, panel.mtab)
  }

  /** The state `setup` leaves: the strategies and their options, the first strategy selected and displayed. */
  ghost predicate OptionsAsBuilt(opts: OptionsPanel, strategies: seq<string>,
                                 info: map<string, map<string, OptionInfo>>, conv: Conversions)
    reads opts
    requires opts.Valid()
  {
    && |strategies| > 0
    && opts.strategies == strategies && opts.info == info && opts.conv == conv
    && opts.selection == strategies[0] && opts.texts == Texts(conv, info[strategies[0]], opts.Values())
  }

  /** The window's panel: built for the device's modes from `z0`, with the window's callback. */
  method NewPanel(device: Device, z0: seq<real>, given: map<string, Value>) returns (panel: ZernikePanel)
    requires DeviceOk(device) && |z0| == device.nk
    requires ParsOk(DefaultPars() + given) && 0 <= (DefaultPars() + given)[ShownKey].i
    ensures fresh(panel.Repr) && panel.Valid() && panel.hasCallback
    ensures panel.nk == device.nk && panel.ntab == device.ntab && panel.mtab == device.mtab
    ensures panel.z[..] == z0 && PanelAsBuilt(panel, given)
  {
    panel := NewZernikePanel(device.nk, device.ntab, device.mtab, device.radToNm, Some(z0), true, given);
  }

  /**
   * `ZernikeWindow.__init__`: build the controller (falling back to the
   * defaults), the panel from the controller's `z`, write the panel's `z` to
   * the mirror, and set up the control options tab; nothing is locked.
   */
  method NewWindow(pars0: map<string, Value>, device: Device, strategies: seq<string>,
                   defaults: map<string, Value>, info: map<string, map<string, OptionInfo>>, conv: Conversions)
    returns (w: ZernikeWindow)
    requires DeviceOk(device)
    requires WithPanelEntry(pars0)[PanelKey].Dict?
    requires ParsOk(DefaultPars() + WithPanelEntry(pars0)[PanelKey].entries)
    requires 0 <= (DefaultPars() + WithPanelEntry(pars0)[PanelKey].entries)[ShownKey].i
    requires |strategies| > 0 && forall s :: s in strategies <==> s in defaults
    requires HasStore(SetupPars(WithPanelEntry(pars0), ControlFamily, defaults, strategies[0]), ControlFamily)
    requires Ready(Store(SetupPars(WithPanelEntry(pars0), ControlFamily, defaults, strategies[0]), ControlFamily), info, strategies[0])
    ensures w.Valid() && fresh(w.Repr)
    ensures !w.locked && w.canClose && w.device == device
    ensures w.zcontrol.config == ChooseConfig(pars0, device.accepts)
    ensures w.zpanel.z[..] == device.startZ(w.zcontrol.config)
    ensures w.zcontrol.sent == [device.z2u(w.zcontrol.flatOn, w.zpanel.z[..])] && w.zcontrol.u[..] == device.z2u(w.zcontrol.flatOn, w.zpanel.z[..])
    ensures w.shownSaturation == w.zcontrol.saturation
    ensures w.Pars() == SetupPars(WithPanelEntry(pars0), ControlFamily, defaults, strategies[0])
    ensures OptionsAsBuilt(w.options, strategies, info, conv)
    ensures PanelAsBuilt(w.zpanel, WithPanelEntry(pars0)[PanelKey].entries)
    ensures w.flatChecked == w.zcontrol.flatOn
  {
    var c, t, opts, panel := NewParts(pars0, device, strategies, defaults, info, conv);
    w := new ZernikeWindow(device, c, t, opts, panel);
  }

  /** The parts `__init__` builds: the controller, the tabs, the control options and the panel. */
  method NewParts(pars0: map<string, Value>, device: Device, strategies: seq<string>,
                  defaults: map<string, Value>, info: map<string, map<string, OptionInfo>>, conv: Conversions)
    returns (c: Control, t: array<bool>, opts: OptionsPanel, panel: ZernikePanel)
    requires DeviceOk(device)
    requires WithPanelEntry(pars0)[PanelKey].Dict?
    requires ParsOk(DefaultPars() + WithPanelEntry(pars0)[PanelKey].entries)
    requires 0 <= (DefaultPars() + WithPanelEntry(pars0)[PanelKey].entries)[ShownKey].i
    requires |strategies| > 0 && forall s :: s in strategies <==> s in defaults
    requires HasStore(SetupPars(WithPanelEntry(pars0), ControlFamily, defaults, strategies[0]), ControlFamily)
    requires Ready(Store(SetupPars(WithPanelEntry(pars0), ControlFamily, defaults, strategies[0]), ControlFamily), info, strategies[0])
    ensures fresh(c) && fresh(c.u) && fresh(t) && fresh(opts) && fresh(panel.Repr)
    ensures c !in panel.Repr && c.u !in panel.Repr && t !in panel.Repr && opts !in panel.Repr
    ensures c.Valid() && c.device == device && c.config == ChooseConfig(pars0, device.accepts)
    ensures c.z == device.startZ(c.config)
    ensures c.u[..] == device.z2u(c.flatOn, c.z) && c.saturation == device.saturates(c.flatOn, c.z) && c.sent == [device.z2u(c.flatOn, c.z)]
    ensures t.Length == 2 && forall i :: 0 <= i < t.Length ==> t[i]
    ensures opts.Valid() && opts.name == ControlFamily
    ensures opts.pars == SetupPars(WithPanelEntry(pars0), ControlFamily, defaults, strategies[0])
    ensures OptionsAsBuilt(opts, strategies, info, conv)
    ensures panel.Valid() && panel.hasCallback && panel.z[..] == c.z
    ensures panel.nk == device.nk && panel.ntab == device.ntab && panel.mtab == device.mtab
    ensures PanelAsBuilt(panel, WithPanelEntry(pars0)[PanelKey].entries)
  {
    c := NewController(device, ChooseConfig(pars0, device.accepts));
    var p := WithPanelEntry(pars0);
    t := NewTabs();
    opts := NewControlOptions(p, strategies, defaults, info, conv);
    panel := NewPanel(device, c.z, p[PanelKey].entries);
  }

  /**
   * The window's controller, built from `config`, with the coefficients it
   * starts from already written to the mirror (`write_dm(zpanel.z)`, whose
   * panel starts from a copy of `zcontrol.z`).
   */
  method NewController(device: Device, config: Option<Value>) returns (c: Control)
    requires DeviceOk(device)
    ensures fresh(c) && fresh(c.u) && c.Valid()
    ensures c.device == device && c.config == config && c.z == device.startZ(config)
    ensures c.u[..] == device.z2u(c.flatOn, c.z) && c.saturation == device.saturates(c.flatOn, c.z)
    ensures c.sent == [device.z2u(c.flatOn, c.z)] && c.flatOn == device.startFlat(config)
  {
    c := new Control(device, config);
    c.Write(c.z);
  }

  /** The two tabs of the window, both enabled. */
  method NewTabs() returns (t: array<bool>)
    ensures fresh(t) && t.Length == 2
    ensures forall i :: 0 <= i < t.Length ==> t[i]
  {
    t := new bool[2];
    t[0], t[1] := true, true;
  }

  /** `make_control_tab`: the options panel of the control strategies, over the window's dictionary. */
  method NewControlOptions(p: map<string, Value>, strategies: seq<string>, defaults: map<string, Value>,
                           info: map<string, map<string, OptionInfo>>, conv: Conversions) returns (opts: OptionsPanel)
    requires |strategies| > 0 && forall s :: s in strategies <==> s in defaults
    requires HasStore(SetupPars(p, ControlFamily, defaults, strategies[0]), ControlFamily)
    requires Ready(Store(SetupPars(p, ControlFamily, defaults, strategies[0]), ControlFamily), info, strategies[0])
    ensures fresh(opts) && opts.Valid() && opts.name == ControlFamily
    ensures opts.pars == SetupPars(p, ControlFamily, defaults, strategies[0])
    ensures OptionsAsBuilt(opts, strategies, info, conv)
  {
    opts := new OptionsPanel(p, ControlFamily, strategies, defaults, info, conv);
  }

  /**
   * A whole control session: acquire, any number of draws, release with the
   * session's last vector. Closing is refused throughout, and afterwards the
   * window is unlocked and closable again. The window ends on the final
   * vector when it is not all zeros and otherwise on the last drawn one (the
   * controller's own vector when nothing was drawn); that vector's
   * coefficients are shown and written once, since the draws write nothing.
   */
  method ControlSession(w: ZernikeWindow, steps: seq<seq<real>>, final: seq<real>) returns (refused: bool)
    requires w.Valid() && !w.locked && |final| == w.device.nu
    requires forall k :: 0 <= k < |steps| ==> |steps[k]| == w.device.nu
    modifies w.Repr
    ensures w.Valid() && !w.locked && w.canClose
    ensures refused
    ensures forall i :: 0 <= i < w.tabs.Length ==> w.tabs[i]
    ensures w.zcontrol == old(w.zcontrol) && w.zcontrol.flatOn == old(w.zcontrol.flatOn)
    ensures
      var last := if |steps| == 0 then old(w.zcontrol.u[..]) else steps[|steps| - 1];
      var adopted := if NonZero(final) then final else last;
      && w.zpanel.z[..] == w.device.u2z(w.zcontrol.flatOn, adopted) && w.zpanel.Synced()
      && w.zcontrol.sent == old(w.zcontrol.sent) + [w.device.z2u(w.zcontrol.flatOn, w.zpanel.z[..])]
  {
    var s, r := w.AcquireControl(true);
    refused := DrawSteps(w, steps);
    w.Release(Some(final));
  }

  /**
   * The draws of a control session, each followed by an attempt to close the
   * window: every attempt is refused, nothing is written, and the controller
   * ends on the last drawn vector.
   */
  method DrawSteps(w: ZernikeWindow, steps: seq<seq<real>>) returns (refused: bool)
    requires w.Valid() && w.locked
    requires forall k :: 0 <= k < |steps| ==> |steps[k]| == w.device.nu
    modifies w.Repr
    ensures w.Valid() && w.locked && w.Repr == old(w.Repr) && refused
    ensures w.zcontrol == old(w.zcontrol) && w.zcontrol.flatOn == old(w.zcontrol.flatOn)
    ensures w.zcontrol.sent == old(w.zcontrol.sent)
    ensures w.zcontrol.u[..] == if |steps| == 0 then old(w.zcontrol.u[..]) else steps[|steps| - 1]
  {
    refused := w.CloseEvent(false) == Ignore;
    var k := 0;
    while k < |steps|
      invariant 0 <= k <= |steps|
      invariant w.Valid() && w.locked && w.Repr == old(w.Repr)
      invariant refused
      invariant w.zcontrol == old(w.zcontrol) && w.zcontrol.flatOn == old(w.zcontrol.flatOn)
      invariant w.zcontrol.sent == old(w.zcontrol.sent)
      invariant w.zcontrol.u[..] == if k == 0 then old(w.zcontrol.u[..]) else steps[k - 1]
    {
      w.Draw(steps[k]);
      refused := refused && w.CloseEvent(false) == Ignore;
      k := k + 1;
    }
  }
}
