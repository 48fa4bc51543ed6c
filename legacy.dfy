/** The module-level functions of `custom_components/smartbox/model.py`, the
    older variant of the models module that the package still ships.  Its
    temperature-unit, temperature-patch, mode-patch and factory-option
    functions are the ones of `Translation`; the functions below are those
    that behave differently, each stated against its newer counterpart. */
module Legacy {
  import opened Vocabulary
  import Translation
  import Climate

  /** `is_heater_node`: every node type but the power monitor is a heater. */
  predicate IsHeaterNode(t: NodeType)
    ensures IsHeaterNode(t) <==> t != Pmo
  {
    assert HeaterNodeTypes == {Acm, Htr, HtrMod} && (t.Acm? || t.Htr? || t.HtrMod? || t.Pmo?);
    t in HeaterNodeTypes
  }

  /** `is_supported_node`: the supported nodes are the heaters. */
  predicate IsSupportedNode(t: NodeType)
    ensures IsSupportedNode(t) <==> t != Pmo
  {
    IsHeaterNode(t)
  }

  /** `get_hvac_mode` without the boost override: OFF, HEAT or AUTO from
      `mode` (and `on` on a `htr_mod` node) alone. */
  function GetHvacMode(t: NodeType, s: Dict): (r: Result<HvacMode>)
    ensures r == Ok(Off) <==> Translation.SwitchedOff(t, s)
    ensures r == Ok(Heat) <==> "mode" in s && s["mode"] == S("manual") && Translation.SwitchedOn(t, s)
    ensures r == Ok(Auto) <==> "mode" in s && IsAutoMode(s["mode"]) && Translation.SwitchedOn(t, s)
    ensures "mode" !in s ==> r == Fail(MissingKey("mode"))
    ensures t == HtrMod && "mode" in s && s["mode"] != S("off") && "on" !in s ==> r == Fail(MissingKey("on"))
    ensures r.Fail? && r.error == ValueErr <==>
      "mode" in s && s["mode"] != S("off") && Translation.SwitchedOn(t, s)
      && s["mode"] != S("manual") && !IsAutoMode(s["mode"])
  {
    var mode :- Lookup(s, "mode");
    if mode == S("off") then Ok(Off)
    else if t == HtrMod then
      var on :- Lookup(s, "on");
      if !Truthy(on) then Ok(Off) else ModeTable(mode)
    else ModeTable(mode)
  }

  /** `get_target_temperature` without the `off` selection: a `htr_mod`
      node whose `selected_temp` is `off` raises the unexpected-value
      KeyError. */
  function GetTargetTemperature(t: NodeType, s: Dict): (r: Result<real>)
    ensures t == HtrMod && "selected_temp" in s && s["selected_temp"] == S("off") ==>
      r == Fail(UnexpectedValue("selected_temp", S("off")))
    ensures !(t == HtrMod && "selected_temp" in s && s["selected_temp"] == S("off")) ==>
      r == Translation.GetTargetTemperature(t, s)
  {
    if t == HtrMod then
      var sel :- Lookup(s, "selected_temp");
      if sel == S("comfort") then
        var c :- Lookup(s, "comfort_temp");
        AsReal(c)
      else if sel == S("eco") then
        var c :- Lookup(s, "comfort_temp");
        var o :- Lookup(s, "eco_offset");
        var comfort :- AsReal(c);
        var offset :- AsReal(o);
        Ok(comfort - offset)
      else if sel == S("ice") then
        var i :- Lookup(s, "ice_temp");
        AsReal(i)
      else
        Fail(UnexpectedValue("selected_temp", sel))
    else
      var st :- Lookup(s, "stemp");
      AsReal(st)
  }

  /** `_get_htr_mod_preset_mode`: the preset a `htr_mod` node's mode and
      selected temperature stand for. */
  function HtrModPresetMode(mode: Val, sel: Val): (r: Result<string>)
    ensures r == Ok(PresetSchedule) <==> mode == S("auto")
    ensures r == Ok(PresetActivity) <==> mode == S("presence")
    ensures r == Ok(PresetSelfLearn) <==> mode == S("self_learn")
    ensures r == Ok(PresetComfort) <==> mode == S("manual") && sel == S("comfort")
    ensures r == Ok(PresetEco) <==> mode == S("manual") && sel == S("eco")
    ensures r == Ok(PresetFrost) <==> mode == S("manual") && sel == S("ice")
    ensures r.Ok? ==> r.value in ModPresets
    ensures r.Fail? ==> r.error == ValueErr
  {
    if mode == S("manual") then
      if sel == S("comfort") then Ok(PresetComfort)
      else if sel == S("eco") then Ok(PresetEco)
      else if sel == S("ice") then Ok(PresetFrost)
      else Fail(ValueErr)
    else if mode == S("auto") then Ok(PresetSchedule)
    else if mode == S("presence") then Ok(PresetActivity)
    else if mode == S("self_learn") then Ok(PresetSelfLearn)
    else Fail(ValueErr)
  }

  /** `set_preset_mode_status_update` whose assertion rules out only home
      and away: `none` reaches the final ValueError instead. */
  function SetPresetModeStatusUpdate(t: NodeType, s: Dict, p: string): (r: Result<Dict>)
    ensures t == HtrMod && p == PresetNone ==> r == Fail(ValueErr)
    ensures !(t == HtrMod && p == PresetNone) ==> r == Translation.SetPresetModeStatusUpdate(t, s, p)
  {
    if t != HtrMod then Fail(ValueErr)
    else if p == PresetHome || p == PresetAway then Fail(AssertErr)
    else if p == PresetSchedule then Translation.SetHvacModeArgs(t, s, Auto)
    else if p == PresetSelfLearn then Ok(map["on" := B(true), "mode" := S("self_learn")])
    else if p == PresetActivity then Ok(map["on" := B(true), "mode" := S("presence")])
    else if p == PresetComfort then Ok(map["on" := B(true), "mode" := S("manual"), "selected_temp" := S("comfort")])
    else if p == PresetEco then Ok(map["on" := B(true), "mode" := S("manual"), "selected_temp" := S("eco")])
    else if p == PresetFrost then Ok(map["on" := B(true), "mode" := S("manual"), "selected_temp" := S("ice")])
    else Fail(ValueErr)
  }

  // ---------------------------------------------------------------------
  // Round trips within the older variant, and how it relates to the newer

  /** Each of the six `htr_mod` presets reads back through the preset table
      once its patch is merged into the status. */
  lemma PresetRoundTrip(s: Dict, p: string)
    requires p in ModPresets
    ensures SetPresetModeStatusUpdate(HtrMod, s, p).Ok?
    ensures var s' := Merge(s, SetPresetModeStatusUpdate(HtrMod, s, p).value);
      "mode" in s' && HtrModPresetMode(s'["mode"], Get(s', "selected_temp", S(""))) == Ok(p)
  {
  }

  /** Without a boost override the older mode getter also inverts the mode
      patch, boost or not: it never looks at `boost`. */
  lemma HvacModeRoundTrip(t: NodeType, s: Dict, m: HvacMode)
    requires Translation.SetHvacModeArgs(t, s, m).Ok?
    requires t == HtrMod && m == Off ==> "mode" in s
    ensures GetHvacMode(t, Merge(s, Translation.SetHvacModeArgs(t, s, m).value)) == Ok(m)
  {
  }

  /** The two mode getters agree whenever the node is not boosting, and the
      newer one reports HEAT while boosting. */
  lemma HvacModeVariantsAgreeWithoutBoost(t: NodeType, s: Dict)
    ensures !Translation.Boosting(s) ==> GetHvacMode(t, s) == Translation.GetHvacMode(t, s)
    ensures Translation.Boosting(s) ==> Translation.GetHvacMode(t, s) == Ok(Heat)
  {
  }

  /** A boosting heater whose mode is off: the newer getter reports HEAT,
      the older one OFF. */
  lemma BoostedOffHeaterDisagrees()
    ensures var s := map["mode" := S("off"), "boost" := B(true)];
      Translation.GetHvacMode(Htr, s) == Ok(Heat) && GetHvacMode(Htr, s) == Ok(Off)
  {
  }

  /** On the `htr_mod` statuses the entity can read a preset from, the
      entity's preset getter and the older preset table agree. */
  lemma PresetTablesAgree(s: Dict)
    requires !Translation.Boosting(s)
    requires "mode" in s && (s["mode"] == S("manual") ==> "selected_temp" in s)
    ensures Climate.PresetMode(HtrMod, Climate.View(s, false)) ==
      HtrModPresetMode(s["mode"], Get(s, "selected_temp", S("")))
  {
  }
}
