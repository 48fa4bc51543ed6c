/** The decision logic of the climate entity in
    `custom_components/smartbox/climate.py`: which preset and HVAC action it
    shows, which presets it offers, and which writes its commands issue.
    The writes a command awaits are modelled as a list of actions; the
    `Heater` class performs them on the cache of `Cache` and is proved to do
    exactly what that list says. */
module Climate {
  import opened Vocabulary
  import opened Translation
  import Cache

  /** The hub's HVACAction values the entity reports. */
  datatype HvacAction = HeatingAction | IdleAction | OffAction

  /** An awaited write: the device's away flag, or a status patch that the
      node merges into its cached status. */
  datatype Action = SetAway(away: bool) | SetStatus(patch: Dict)

  /** The writes a command performed, in order, and the exception that ended
      it, if any. */
  datatype Outcome = Outcome(actions: seq<Action>, error: Option<Err>)

  /** What the entity reads: the node's status and the device's away flag. */
  datatype View = View(status: Dict, away: bool)

  /** The effect of one write on what the entity reads. */
  function Apply(v: View, a: Action): (w: View)
    ensures a.SetAway? ==> w == v.(away := a.away)
    ensures a.SetStatus? ==> w == v.(status := Merge(v.status, a.patch))
  {
    match a
    case SetAway(b) => v.(away := b)
    case SetStatus(p) => v.(status := Merge(v.status, p))
  }

  /** The effect of a sequence of writes, first to last. */
  function ApplyAll(v: View, acts: seq<Action>): View
    decreases |acts|
  {
    if acts == [] then v else ApplyAll(Apply(v, acts[0]), acts[1..])
  }

  /** Performing one more write after a sequence of writes. */
  lemma {:induction false} ApplyAllAppend(v: View, acts: seq<Action>, a: Action)
    ensures ApplyAll(v, acts + [a]) == Apply(ApplyAll(v, acts), a)
    decreases |acts|
  {
    if acts == [] {
      assert [a][1..] == [];
    } else {
      assert (acts + [a])[1..] == acts[1..] + [a];
      ApplyAllAppend(Apply(v, acts[0]), acts[1..], a);
    }
  }

  /** `temperature_unit`: the status's unit, Celsius when it names none; an
      unknown unit raises as in `get_temperature_unit`. */
  function TemperatureUnit(s: Dict): (r: Result<TempUnit>)
    ensures "units" !in s ==> r == Ok(Celsius)
    ensures r == Ok(Fahrenheit) <==> "units" in s && s["units"] == S("F")
    ensures r == Ok(Celsius) <==> "units" !in s || s["units"] == S("C")
    ensures r.Fail? <==> GetTemperatureUnit(s).Fail?
    ensures r.Fail? ==> r.error == ValueErr
  {
    var unit :- GetTemperatureUnit(s);
    if unit.Some? then Ok(unit.value) else Ok(Celsius)
  }

  /** `hvac_modes`: the modes the entity offers, HEAT first; they are
      exactly the modes the mode patch supports. */
  function HvacModes(): (r: seq<HvacMode>)
    ensures |r| == 3 && r[0] == Heat && r[1] == Auto && r[2] == Off
    ensures forall t, m :: m in r <==> SetHvacModeArgs(t, map["selected_temp" := S("comfort")], m).Ok?
  {
    [Heat, Auto, Off]
  }

  /** The status carries what `hvac_action` reads after `is_heating`:
      `mode`, and `on` for a `htr_mod` node that is not in mode off. */
  predicate ModeReadable(t: NodeType, s: Dict)
  {
    "mode" in s && (t == HtrMod && s["mode"] != S("off") ==> "on" in s)
  }

  /** `hvac_action`: HEATING while the node heats; otherwise OFF when it is
      switched off and not boosting; otherwise IDLE. */
  function GetHvacAction(t: NodeType, s: Dict): (r: Result<HvacAction>)
    ensures Cache.IsHeating(t, s).Ok? && Truthy(Cache.IsHeating(t, s).value) ==> r == Ok(HeatingAction)
    ensures r == Ok(OffAction) <==>
      Cache.IsHeating(t, s).Ok? && !Truthy(Cache.IsHeating(t, s).value) && SwitchedOff(t, s) && !Boosting(s)
    ensures r == Ok(IdleAction) <==>
      && Cache.IsHeating(t, s).Ok? && !Truthy(Cache.IsHeating(t, s).value) && ModeReadable(t, s)
      && !(SwitchedOff(t, s) && !Boosting(s))
    ensures r.Fail? <==> Cache.IsHeating(t, s).Fail? || (!Truthy(Cache.IsHeating(t, s).value) && !ModeReadable(t, s))
    ensures Cache.IsHeating(t, s).Fail? ==> r == Fail(Cache.IsHeating(t, s).error)
    ensures Cache.IsHeating(t, s).Ok? && !Truthy(Cache.IsHeating(t, s).value) && "mode" !in s ==>
      r == Fail(MissingKey("mode"))
    ensures (Cache.IsHeating(t, s).Ok? && !Truthy(Cache.IsHeating(t, s).value)
             && t == HtrMod && "mode" in s && s["mode"] != S("off") && "on" !in s) ==>
      r == Fail(MissingKey("on"))
  {
    var heating :- Cache.IsHeating(t, s);
    if Truthy(heating) then Ok(HeatingAction)
    else
      var mode :- Lookup(s, "mode");
      var off :- if mode == S("off") then Ok(true)
                 else if t == HtrMod then (var on :- Lookup(s, "on"); Ok(!Truthy(on)))
                 else Ok(false);
      if off && !Boosting(s) then Ok(OffAction) else Ok(IdleAction)
  }

  /** `preset_mode`: away wins, then boost; a `htr_mod` node derives its
      preset from `mode` and `selected_temp`; other node types are at home. */
  function PresetMode(t: NodeType, v: View): (r: Result<string>)
    ensures v.away ==> r == Ok(PresetAway)
    ensures !v.away && Boosting(v.status) ==> r == Ok(PresetBoost)
    ensures !v.away && !Boosting(v.status) && t != HtrMod ==> r == Ok(PresetHome)
    ensures !v.away && !Boosting(v.status) && t == HtrMod ==>
      var s := v.status;
      && ("mode" !in s ==> r == Fail(MissingKey("mode")))
      && ("mode" in s && s["mode"] == S("auto") ==> r == Ok(PresetSchedule))
      && ("mode" in s && s["mode"] == S("presence") ==> r == Ok(PresetActivity))
      && ("mode" in s && s["mode"] == S("self_learn") ==> r == Ok(PresetSelfLearn))
      && ("mode" in s && s["mode"] !in {S("auto"), S("presence"), S("self_learn"), S("manual")} ==>
            r == Fail(ValueErr))
      && ("mode" in s && s["mode"] == S("manual") ==>
            && ("selected_temp" !in s ==> r == Fail(MissingKey("selected_temp")))
            && ("selected_temp" in s && s["selected_temp"] == S("comfort") ==> r == Ok(PresetComfort))
            && ("selected_temp" in s && s["selected_temp"] == S("eco") ==> r == Ok(PresetEco))
            && ("selected_temp" in s && s["selected_temp"] == S("ice") ==> r == Ok(PresetFrost))
            && ("selected_temp" in s && s["selected_temp"] !in {S("comfort"), S("eco"), S("ice")} ==>
                  r == Fail(ValueErr)))
    ensures r.Ok? && t == HtrMod ==> r.value == PresetAway || r.value == PresetBoost || r.value in ModPresets
  {
    if v.away then Ok(PresetAway)
    else if Boosting(v.status) then Ok(PresetBoost)
    else if t == HtrMod then
      var mode :- Lookup(v.status, "mode");
      if mode == S("auto") then Ok(PresetSchedule)
      else if mode == S("presence") then Ok(PresetActivity)
      else if mode == S("self_learn") then Ok(PresetSelfLearn)
      else if mode == S("manual") then
        var sel :- Lookup(v.status, "selected_temp");
        if sel == S("comfort") then Ok(PresetComfort)
        else if sel == S("eco") then Ok(PresetEco)
        else if sel == S("ice") then Ok(PresetFrost)
        else Fail(ValueErr)
      else Fail(ValueErr)
    else Ok(PresetHome)
  }

  /** `preset_modes`: away first, boost when the node offers it, then the six
      `htr_mod` presets, or home for the other node types. */
  function PresetModeList(boostAvailable: bool, t: NodeType): (r: seq<string>)
    ensures |r| > 0 && r[0] == PresetAway
    ensures PresetBoost in r <==> boostAvailable
    ensures PresetHome in r <==> t != HtrMod
    ensures forall p :: p in ModPresets ==> (p in r <==> t == HtrMod)
    ensures forall p :: p in r ==> p in [PresetAway, PresetBoost, PresetHome] + ModPresets
    ensures forall i, j :: 0 <= i < j < |r| ==> r[i] != r[j]
  {
    [PresetAway] + (if boostAvailable then [PresetBoost] else []) +
    (if t == HtrMod then ModPresets else [PresetHome])
  }

  /** `async_set_hvac_mode`: one status write with the mode patch, which also
      clears boost when the node is boosting; nothing is written when the
      patch cannot be built. */
  function SetHvacModeOutcome(t: NodeType, v: View, m: HvacMode): (o: Outcome)
    ensures SetHvacModeArgs(t, v.status, m).Fail? ==>
      o == Outcome([], Some(SetHvacModeArgs(t, v.status, m).error))
    ensures SetHvacModeArgs(t, v.status, m).Ok? ==>
      && o.error == None && |o.actions| == 1 && o.actions[0].SetStatus?
      && var patch := o.actions[0].patch;
      && ("boost" in patch <==> Boosting(v.status))
      && ("boost" in patch ==> patch["boost"] == B(false))
      && patch - {"boost"} == SetHvacModeArgs(t, v.status, m).value
  {
    match SetHvacModeArgs(t, v.status, m)
    case Fail(e) => Outcome([], Some(e))
    case Ok(args) =>
      var patch := if Boosting(v.status) then args["boost" := B(false)] else args;
      Outcome([SetStatus(patch)], None)
  }

  /** `async_set_temperature`: a status write with the temperature patch when
      a temperature is given. */
  function SetTemperatureOutcome(t: NodeType, v: View, temp: Option<real>): (o: Outcome)
    ensures temp.None? ==> o == Outcome([], None)
    ensures temp.Some? && SetTemperatureArgs(t, v.status, temp.value).Fail? ==>
      o == Outcome([], Some(SetTemperatureArgs(t, v.status, temp.value).error))
    ensures temp.Some? && SetTemperatureArgs(t, v.status, temp.value).Ok? ==>
      o == Outcome([SetStatus(SetTemperatureArgs(t, v.status, temp.value).value)], None)
  {
    if temp.None? then Outcome([], None)
    else
      match SetTemperatureArgs(t, v.status, temp.value)
      case Fail(e) => Outcome([], Some(e))
      case Ok(args) => Outcome([SetStatus(args)], None)
  }

  /** `async_set_preset_mode`: away only sets the away flag; any other preset
      first clears a set away flag, then boost writes `boost` alone, a
      `htr_mod` node writes its preset patch and other node types stop. */
  function SetPresetModeOutcome(t: NodeType, v: View, p: string): (o: Outcome)
    ensures p == PresetAway ==> o == Outcome([SetAway(true)], None)
    ensures p != PresetAway ==>
      var clear := if v.away then [SetAway(false)] else [];
      && |clear| <= |o.actions| && o.actions[..|clear|] == clear
      && (p == PresetBoost ==> o == Outcome(clear + [SetStatus(map["boost" := B(true)])], None))
      && (p != PresetBoost && t != HtrMod ==> o == Outcome(clear, None))
      && (p != PresetBoost && t == HtrMod && SetPresetModeStatusUpdate(t, v.status, p).Fail? ==>
            o == Outcome(clear, Some(SetPresetModeStatusUpdate(t, v.status, p).error)))
      && (p != PresetBoost && t == HtrMod && SetPresetModeStatusUpdate(t, v.status, p).Ok? ==>
            o == Outcome(clear + [SetStatus(SetPresetModeStatusUpdate(t, v.status, p).value)], None))
  {
    if p == PresetAway then Outcome([SetAway(true)], None)
    else
      var clear := if v.away then [SetAway(false)] else [];
      if p == PresetBoost then Outcome(clear + [SetStatus(map["boost" := B(true)])], None)
      else if t == HtrMod then
        match SetPresetModeStatusUpdate(t, v.status, p)
        case Fail(e) => Outcome(clear, Some(e))
        case Ok(u) => Outcome(clear + [SetStatus(u)], None)
      else Outcome(clear, None)
  }

  // ---------------------------------------------------------------------
  // Properties of the entity's commands

  /** Choosing any preset but away clears the away flag, even when the
      preset then raises. */
  lemma {:induction false} PresetClearsAway(t: NodeType, v: View, p: string)
    requires p != PresetAway
    ensures !ApplyAll(v, SetPresetModeOutcome(t, v, p).actions).away
  {
    var o := SetPresetModeOutcome(t, v, p);
    var clear := if v.away then [SetAway(false)] else [];
    var v1 := ApplyAll(v, clear);
    assert !v1.away by {
      if v.away {
        assert ApplyAll(v, clear) == ApplyAll(v.(away := false), []);
      }
    }
    if o.actions != clear {
      assert o.actions == clear + [o.actions[|clear|]];
      ApplyAllAppend(v, clear, o.actions[|clear|]);
    }
  }

  /** Round trip through the entity: on any node, each mode of `hvac_modes`
      reads back after it is set, boosting or not (the command clears boost).
      A `htr_mod` HEAT request needs `selected_temp`, and OFF on a `htr_mod`
      node needs a `mode` to read. */
  lemma HvacModeCommandRoundTrip(t: NodeType, v: View, m: HvacMode)
    requires m in HvacModes()
    requires t == HtrMod && m == Heat ==> "selected_temp" in v.status
    requires t == HtrMod && m == Off ==> "mode" in v.status
    ensures SetHvacModeOutcome(t, v, m).error.None?
    ensures GetHvacMode(t, ApplyAll(v, SetHvacModeOutcome(t, v, m).actions).status) == Ok(m)
  {
  }

  /** Round trip through the entity: a temperature command that succeeds
      reads back as the requested target. */
  lemma TemperatureCommandRoundTrip(t: NodeType, v: View, temp: real)
    requires SetTemperatureOutcome(t, v, Some(temp)).error.None?
    ensures GetTargetTemperature(t, ApplyAll(v, SetTemperatureOutcome(t, v, Some(temp)).actions).status) == Ok(temp)
  {
  }

  /** Round trip through the entity: every preset the entity offers reads
      back after it is chosen, provided the node is not boosting (a boosting
      node keeps reporting boost, which only away outranks). */
  lemma {:induction false} PresetCommandRoundTrip(t: NodeType, v: View, boostAvailable: bool, p: string)
    requires p in PresetModeList(boostAvailable, t)
    requires !Boosting(v.status) || p == PresetAway || p == PresetBoost
    ensures SetPresetModeOutcome(t, v, p).error.None?
    ensures PresetMode(t, ApplyAll(v, SetPresetModeOutcome(t, v, p).actions)) == Ok(p)
  {
    var o := SetPresetModeOutcome(t, v, p);
    if p == PresetAway {
      assert o.actions[1..] == [];
      return;
    }
    var clear := if v.away then [SetAway(false)] else [];
    var v1 := ApplyAll(v, clear);
    assert v1 == v.(away := false) by {
      if v.away {
        assert ApplyAll(v, clear) == ApplyAll(v.(away := false), []);
      }
    }
    if o.actions == clear {
      assert p == PresetHome && t != HtrMod;
    } else {
      assert o.actions == clear + [o.actions[|clear|]];
      ApplyAllAppend(v, clear, o.actions[|clear|]);
      var patch := o.actions[|clear|].patch;
      var s' := Merge(v.status, patch);
      if p != PresetBoost {
        assert Get(s', "boost", B(false)) == Get(v.status, "boost", B(false));
        assert s'["mode"] == patch["mode"];
      }
    }
  }

  /** A mod preset chosen on a boosting `htr_mod` node leaves `boost` as it
      was, so the node goes on reporting boost, not the chosen preset. */
  lemma {:induction false} ModPresetKeepsBoost(v: View, p: string)
    requires Boosting(v.status)
    requires p in ModPresets
    ensures SetPresetModeOutcome(HtrMod, v, p).error.None?
    ensures PresetMode(HtrMod, ApplyAll(v, SetPresetModeOutcome(HtrMod, v, p).actions)) == Ok(PresetBoost)
  {
    var o := SetPresetModeOutcome(HtrMod, v, p);
    var clear := if v.away then [SetAway(false)] else [];
    assert ApplyAll(v, clear) == v.(away := false) by {
      if v.away {
        assert ApplyAll(v, clear) == ApplyAll(v.(away := false), []);
      }
    }
    assert o.actions == clear + [o.actions[|clear|]];
    ApplyAllAppend(v, clear, o.actions[|clear|]);
    var s' := Merge(v.status, o.actions[|clear|].patch);
    assert Get(s', "boost", B(false)) == Get(v.status, "boost", B(false));
  }

  /** The mode command, unlike a preset, clears boost on a boosting node. */
  lemma HvacModeCommandClearsBoost(t: NodeType, v: View, m: HvacMode)
    requires Boosting(v.status)
    requires SetHvacModeArgs(t, v.status, m).Ok?
    ensures !Boosting(ApplyAll(v, SetHvacModeOutcome(t, v, m).actions).status)
  {
  }

  /** When the node is not heating and its mode can be read, the action is
      OFF exactly when the mode is OFF. */
  lemma ActionOffIffModeOff(t: NodeType, s: Dict)
    requires Cache.IsHeating(t, s).Ok? && !Truthy(Cache.IsHeating(t, s).value)
    requires GetHvacMode(t, s).Ok?
    ensures GetHvacAction(t, s) == Ok(OffAction) <==> GetHvacMode(t, s) == Ok(Off)
  {
  }

  /** A `htr_mod` node in `modified_auto` reads as AUTO but has no preset:
      the preset table does not list that mode. */
  lemma ModifiedAutoHasNoPreset()
    ensures var s := map["mode" := S("modified_auto"), "on" := B(true)];
      GetHvacMode(HtrMod, s) == Ok(Auto) && PresetMode(HtrMod, View(s, false)) == Fail(ValueErr)
  {
  }

  /** The climate entity of one heater node. */
  class Heater {
    const node: Cache.Node

    constructor (node: Cache.Node)
      ensures this.node == node
    {
      this.node := node;
    }

    /** The node status and device away flag the entity reads. */
    function Current(): View
      reads node`status, node.device`away
    {
      View(node.status, node.device.away)
    }

    /** `preset_modes`, built by appending as the entity does; a setup whose
        factory options cannot be read raises before anything is built. */
    method PresetModes() returns (r: Result<seq<string>>)
      ensures node.BoostAvailable().Fail? ==> r == Fail(node.BoostAvailable().error)
      ensures node.BoostAvailable().Ok? ==> r == Ok(PresetModeList(node.BoostAvailable().value, node.nodeType))
    {
      var available := node.BoostAvailable();
      if available.Fail? {
        return Fail(available.error);
      }
      var modes := [PresetAway];
      if available.value {
        modes := modes + [PresetBoost];
      } else {
        assert modes == modes + [];
      }
      if node.nodeType == HtrMod {
        modes := modes + ModPresets;
      } else {
        modes := modes + [PresetHome];
      }
      return Ok(modes);
    }

    /** `async_set_hvac_mode`. */
    method AsyncSetHvacMode(m: HvacMode) returns (err: Option<Err>)
      modifies node`status
      ensures Current() == ApplyAll(old(Current()), SetHvacModeOutcome(node.nodeType, old(Current()), m).actions)
      ensures err == SetHvacModeOutcome(node.nodeType, old(Current()), m).error
    {
      var args := SetHvacModeArgs(node.nodeType, node.status, m);
      if args.Fail? {
        return Some(args.error);
      }
      var patch := args.value;
      if Truthy(node.Boost()) {
        patch := patch["boost" := B(false)];
      }
      var _ := node.SetStatus(patch);
      err := None;
      assert [SetStatus(patch)][1..] == [];
    }

    /** `async_turn_off`: the OFF mode. */
    method AsyncTurnOff() returns (err: Option<Err>)
      modifies node`status
      ensures Current() == ApplyAll(old(Current()), SetHvacModeOutcome(node.nodeType, old(Current()), Off).actions)
      ensures err == SetHvacModeOutcome(node.nodeType, old(Current()), Off).error
    {
      err := AsyncSetHvacMode(Off);
    }

    /** `async_turn_on`: the AUTO mode. */
    method AsyncTurnOn() returns (err: Option<Err>)
      modifies node`status
      ensures Current() == ApplyAll(old(Current()), SetHvacModeOutcome(node.nodeType, old(Current()), Auto).actions)
      ensures err == SetHvacModeOutcome(node.nodeType, old(Current()), Auto).error
    {
      err := AsyncSetHvacMode(Auto);
    }

    /** `async_set_temperature`. */
    method AsyncSetTemperature(temp: Option<real>) returns (err: Option<Err>)
      modifies node`status
      ensures Current() == ApplyAll(old(Current()), SetTemperatureOutcome(node.nodeType, old(Current()), temp).actions)
      ensures err == SetTemperatureOutcome(node.nodeType, old(Current()), temp).error
    {
      if temp.None? {
        return None;
      }
      var args := SetTemperatureArgs(node.nodeType, node.status, temp.value);
      if args.Fail? {
        return Some(args.error);
      }
      var _ := node.SetStatus(args.value);
      err := None;
      assert [SetStatus(args.value)][1..] == [];
    }

    /** `async_set_preset_mode`. */
    method AsyncSetPresetMode(p: string) returns (err: Option<Err>)
      modifies node`status, node.device`away, node.device`signals
      ensures Current() == ApplyAll(old(Current()), SetPresetModeOutcome(node.nodeType, old(Current()), p).actions)
      ensures err == SetPresetModeOutcome(node.nodeType, old(Current()), p).error
      ensures node.device.signals == old(node.device.signals) +
        (if p == PresetAway then (if old(node.device.away) then [] else Cache.AwaySignals(node.device.order, true))
         else (if old(node.device.away) then Cache.AwaySignals(node.device.order, false) else []))
    {
      ghost var v0 := Current();
      if p == PresetAway {
        node.UpdateDeviceAwayStatus(true);
        assert [SetAway(true)][1..] == [];
        return None;
      }
      ghost var clear: seq<Action> := [];
      if node.device.away {
        node.UpdateDeviceAwayStatus(false);
        clear := [SetAway(false)];
        assert clear[1..] == [];
      }
      assert Current() == ApplyAll(v0, clear);
      if p == PresetBoost {
        var _ := node.SetStatus(map["boost" := B(true)]);
        ApplyAllAppend(v0, clear, SetStatus(map["boost" := B(true)]));
        return None;
      }
      if node.nodeType == HtrMod {
        var update := SetPresetModeStatusUpdate(node.nodeType, node.status, p);
        if update.Fail? {
          return Some(update.error);
        }
        var _ := node.SetStatus(update.value);
        ApplyAllAppend(v0, clear, SetStatus(update.value));
      }
      err := None;
    }
  }
}
