/** The module-level translation functions of
    `custom_components/smartbox/models.py`: reading the hub's HVAC mode,
    target temperature and unit out of a vendor status dictionary, and
    building the status patches that request a mode, a temperature or a
    preset.  Each getter is paired with the setter it inverts. */
module Translation {
  import opened Vocabulary

  /** `status.get("boost", False)` is truthy. */
  predicate Boosting(s: Dict)
  {
    Truthy(Get(s, "boost", B(false)))
  }

  /** The condition under which the node reads as switched off: mode `off`,
      or a `htr_mod` node whose `on` flag is falsy. */
  predicate SwitchedOff(t: NodeType, s: Dict)
  {
    "mode" in s && (s["mode"] == S("off") || (t == HtrMod && "on" in s && !Truthy(s["on"])))
  }

  /** The node is not held off by its `on` flag (only `htr_mod` has one). */
  predicate SwitchedOn(t: NodeType, s: Dict)
  {
    t != HtrMod || ("on" in s && Truthy(s["on"]))
  }

  /** `get_temperature_unit`: no unit when `units` is absent, C and F map to
      the hub's units, any other value raises ValueError. */
  function GetTemperatureUnit(s: Dict): (r: Result<Option<TempUnit>>)
    ensures "units" !in s ==> r == Ok(None)
    ensures r == Ok(Some(Celsius)) <==> "units" in s && s["units"] == S("C")
    ensures r == Ok(Some(Fahrenheit)) <==> "units" in s && s["units"] == S("F")
    ensures r.Fail? <==> "units" in s && s["units"] != S("C") && s["units"] != S("F")
    ensures r.Fail? ==> r.error == ValueErr
  {
    if "units" !in s then Ok(None)
    else if s["units"] == S("C") then Ok(Some(Celsius))
    else if s["units"] == S("F") then Ok(Some(Fahrenheit))
    else Fail(ValueErr)
  }

  /** `get_target_temperature`.  A `htr_mod` node resolves its target through
      `selected_temp`; every other node type reports `stemp`.  Each required
      key that is absent raises a KeyError naming it. */
  function GetTargetTemperature(t: NodeType, s: Dict): (r: Result<real>)
    ensures t != HtrMod && "stemp" !in s ==> r == Fail(MissingKey("stemp"))
    ensures t != HtrMod && "stemp" in s ==> r == AsReal(s["stemp"])
    ensures t == HtrMod && "selected_temp" !in s ==> r == Fail(MissingKey("selected_temp"))
    ensures t == HtrMod && "selected_temp" in s ==>
      var sel := s["selected_temp"];
      && (sel == S("comfort") ==>
            r == if "comfort_temp" in s then AsReal(s["comfort_temp"]) else Fail(MissingKey("comfort_temp")))
      && (sel == S("eco") && "comfort_temp" !in s ==> r == Fail(MissingKey("comfort_temp")))
      && (sel == S("eco") && "comfort_temp" in s && "eco_offset" !in s ==> r == Fail(MissingKey("eco_offset")))
      && (sel == S("eco") && "comfort_temp" in s && "eco_offset" in s ==>
            r == (var c, o := AsReal(s["comfort_temp"]), AsReal(s["eco_offset"]);
                  if c.Fail? then Fail(c.error) else if o.Fail? then Fail(o.error) else Ok(c.value - o.value)))
      && (sel == S("ice") ==>
            r == if "ice_temp" in s then AsReal(s["ice_temp"]) else Fail(MissingKey("ice_temp")))
      && (sel == S("off") ==> r == Ok(0.0))
      && (sel !in {S("comfort"), S("eco"), S("ice"), S("off")} ==>
            r == Fail(UnexpectedValue("selected_temp", sel)))
  {
    if t == HtrMod then
      var sel :- Lookup(s, "selected_temp");
      if sel == S("comfort") then
        var c :- Lookup(s, "comfort_temp");
        AsReal(c)
      else if sel == S("eco") then
        var c :- Lookup(s, "comfort_temp");
        var o :- Lookup(s, "eco_offset");
        var comfort :- AsReal(c);
        var offset :- AsReal(o);
        Ok(comfort - offset)
      else if sel == S("ice") then
        var i :- Lookup(s, "ice_temp");
        AsReal(i)
      else if sel == S("off") then
        Ok(0.0)
      else
        Fail(UnexpectedValue("selected_temp", sel))
    else
      var st :- Lookup(s, "stemp");
      AsReal(st)
  }

  /** The value written as `comfort_temp` for a requested temperature: the
      temperature itself in comfort, the temperature plus the eco offset in
      eco; ice cannot be set and any other selection is unexpected. */
  function ComfortTarget(s: Dict, temp: real): (r: Result<real>)
    requires "selected_temp" in s
    ensures s["selected_temp"] == S("comfort") ==> r == Ok(temp)
    ensures s["selected_temp"] == S("eco") && "eco_offset" !in s ==> r == Fail(MissingKey("eco_offset"))
    ensures s["selected_temp"] == S("eco") && "eco_offset" in s && s["eco_offset"].N? ==>
      r == Ok(temp + s["eco_offset"].num)
    ensures s["selected_temp"] == S("ice") ==> r == Fail(ValueErr)
    ensures s["selected_temp"] !in {S("comfort"), S("eco"), S("ice")} ==>
      r == Fail(UnexpectedValue("selected_temp", s["selected_temp"]))
  {
    var sel := s["selected_temp"];
    if sel == S("comfort") then Ok(temp)
    else if sel == S("eco") then
      var o :- Lookup(s, "eco_offset");
      var offset :- AsReal(o);
      Ok(temp + offset)
    else if sel == S("ice") then Fail(ValueErr)
    else Fail(UnexpectedValue("selected_temp", sel))
  }

  /** `set_temperature_args`: the status patch that asks for target
      temperature `temp`.  `units` is always required; a `htr_mod` patch
      switches the node on and carries `mode`, `selected_temp`, `eco_offset`
      and `units` over unchanged, other node types get exactly
      `{stemp, units}`. */
  function SetTemperatureArgs(t: NodeType, s: Dict, temp: real): (r: Result<Dict>)
    ensures "units" !in s ==> r == Fail(MissingKey("units"))
    ensures "units" in s && t == HtrMod && "selected_temp" !in s ==> r == Fail(MissingKey("selected_temp"))
    ensures "units" in s && t == HtrMod && "selected_temp" in s && s["selected_temp"] == S("ice") ==>
      r == Fail(ValueErr)
    ensures t != HtrMod ==> (r.Ok? <==> "units" in s)
    ensures t == HtrMod ==> (r.Ok? <==>
      && "units" in s && "selected_temp" in s && s["selected_temp"] in {S("comfort"), S("eco")}
      && "mode" in s && "eco_offset" in s
      && (s["selected_temp"] == S("eco") ==> AsReal(s["eco_offset"]).Ok?))
    ensures ("units" in s && t == HtrMod && "selected_temp" in s
             && s["selected_temp"] !in {S("comfort"), S("eco"), S("ice")}) ==>
      r == Fail(UnexpectedValue("selected_temp", s["selected_temp"]))
    ensures ("units" in s && t == HtrMod && "selected_temp" in s && s["selected_temp"] == S("eco")
             && "eco_offset" !in s) ==> r == Fail(MissingKey("eco_offset"))
    ensures ("units" in s && t == HtrMod && "selected_temp" in s && ComfortTarget(s, temp).Ok?
             && "mode" !in s) ==> r == Fail(MissingKey("mode"))
    ensures ("units" in s && t == HtrMod && "selected_temp" in s && ComfortTarget(s, temp).Ok?
             && "mode" in s && "eco_offset" !in s) ==> r == Fail(MissingKey("eco_offset"))
    ensures r.Ok? && t != HtrMod ==>
      r.value.Keys == {"stemp", "units"} && r.value["stemp"] == N(temp) && r.value["units"] == s["units"]
    ensures r.Ok? && t == HtrMod ==>
      && r.value.Keys == {"on", "mode", "selected_temp", "comfort_temp", "eco_offset", "units"}
      && r.value["on"] == B(true)
      && (forall k :: k in {"mode", "selected_temp", "eco_offset", "units"} ==> k in s && r.value[k] == s[k])
      && s["selected_temp"] in {S("comfort"), S("eco")}
      && r.value["comfort_temp"].N?
      && ComfortTarget(s, temp) == Ok(r.value["comfort_temp"].num)
  {
    var units :- Lookup(s, "units");
    if t == HtrMod then
      var sel :- Lookup(s, "selected_temp");
      var target :- ComfortTarget(s, temp);
      var mode :- Lookup(s, "mode");
      var offset :- Lookup(s, "eco_offset");
      Ok(map["on" := B(true), "mode" := mode, "selected_temp" := sel,
             "comfort_temp" := N(target), "eco_offset" := offset, "units" := units])
    else
      Ok(map["stemp" := N(temp), "units" := units])
  }

  /** `get_hvac_mode`: boost forces HEAT whatever `mode` and `on` say; then
      OFF, HEAT or AUTO by the mode table; an unknown mode raises ValueError
      and an absent `mode` (or `on` on a `htr_mod` node) a KeyError. */
  function GetHvacMode(t: NodeType, s: Dict): (r: Result<HvacMode>)
    ensures Boosting(s) ==> r == Ok(Heat)
    ensures r == Ok(Off) <==> !Boosting(s) && SwitchedOff(t, s)
    ensures r == Ok(Heat) <==>
      Boosting(s) || ("mode" in s && s["mode"] == S("manual") && SwitchedOn(t, s))
    ensures r == Ok(Auto) <==>
      !Boosting(s) && "mode" in s && IsAutoMode(s["mode"]) && SwitchedOn(t, s)
    ensures r.Ok? ==> r.value in {Off, Heat, Auto}
    ensures !Boosting(s) && "mode" !in s ==> r == Fail(MissingKey("mode"))
    ensures !Boosting(s) && t == HtrMod && "mode" in s && s["mode"] != S("off") && "on" !in s ==>
      r == Fail(MissingKey("on"))
    ensures (!Boosting(s) && "mode" in s && SwitchedOn(t, s) && s["mode"] != S("off")
             && s["mode"] != S("manual") && !IsAutoMode(s["mode"])) ==> r == Fail(ValueErr)
  {
    if Boosting(s) then Ok(Heat)
    else
      var mode :- Lookup(s, "mode");
      if mode == S("off") then Ok(Off)
      else if t == HtrMod then
        var on :- Lookup(s, "on");
        if !Truthy(on) then Ok(Off) else ModeTable(mode)
      else ModeTable(mode)
  }

  /** `set_hvac_mode_args`: the status patch that requests an HVAC mode.
      Only OFF, HEAT and AUTO are supported; a `htr_mod` HEAT request needs
      and carries over `selected_temp`.  No patch touches `boost`. */
  function SetHvacModeArgs(t: NodeType, s: Dict, m: HvacMode): (r: Result<Dict>)
    ensures m !in {Off, Heat, Auto} ==> r == Fail(ValueErr)
    ensures t == HtrMod && m == Heat && "selected_temp" !in s ==> r == Fail(MissingKey("selected_temp"))
    ensures r.Ok? <==> m in {Off, Heat, Auto} && (t == HtrMod && m == Heat ==> "selected_temp" in s)
    ensures r.Ok? ==> "boost" !in r.value
    ensures r.Ok? && t == HtrMod ==> "on" in r.value && r.value["on"] == B(m != Off)
    ensures r.Ok? && t == HtrMod && m == Heat ==>
      "selected_temp" in r.value && r.value["selected_temp"] == s["selected_temp"]
    ensures r.Ok? && t != HtrMod ==>
      r.value == map["mode" := S(if m == Off then "off" else if m == Heat then "manual" else "auto")]
    ensures r.Ok? && t == HtrMod && m == Off ==> r.value == map["on" := B(false)]
    ensures r.Ok? && t == HtrMod && m == Heat ==>
      r.value == map["selected_temp" := s["selected_temp"], "on" := B(true), "mode" := S("manual")]
    ensures r.Ok? && t == HtrMod && m == Auto ==> r.value == map["on" := B(true), "mode" := S("auto")]
  {
    if t == HtrMod then
      if m == Off then Ok(map["on" := B(false)])
      else if m == Heat then
        var sel :- Lookup(s, "selected_temp");
        Ok(map["selected_temp" := sel, "on" := B(true), "mode" := S("manual")])
      else if m == Auto then Ok(map["on" := B(true), "mode" := S("auto")])
      else Fail(ValueErr)
    else if m == Off then Ok(map["mode" := S("off")])
    else if m == Heat then Ok(map["mode" := S("manual")])
    else if m == Auto then Ok(map["mode" := S("auto")])
    else Fail(ValueErr)
  }

  /** `set_preset_mode_status_update`: the status patch that selects one of
      the six `htr_mod` presets.  Other node types raise ValueError, `home`,
      `away` and `none` fail the assertion, schedule is the AUTO patch and an
      unknown preset raises ValueError. */
  function SetPresetModeStatusUpdate(t: NodeType, s: Dict, p: string): (r: Result<Dict>)
    ensures t != HtrMod ==> r == Fail(ValueErr)
    ensures t == HtrMod && p in {PresetHome, PresetAway, PresetNone} ==> r == Fail(AssertErr)
    ensures t == HtrMod && p == PresetSchedule ==> r == SetHvacModeArgs(t, s, Auto)
    ensures r.Ok? <==> t == HtrMod && p in ModPresets
    ensures t == HtrMod && p !in ModPresets && p !in {PresetHome, PresetAway, PresetNone} ==>
      r == Fail(ValueErr)
    ensures r.Ok? ==> "on" in r.value && r.value["on"] == B(true) && "boost" !in r.value && "mode" in r.value
    ensures t == HtrMod && p == PresetSelfLearn ==> r == Ok(map["on" := B(true), "mode" := S("self_learn")])
    ensures t == HtrMod && p == PresetActivity ==> r == Ok(map["on" := B(true), "mode" := S("presence")])
    ensures t == HtrMod && p == PresetComfort ==>
      r == Ok(map["on" := B(true), "mode" := S("manual"), "selected_temp" := S("comfort")])
    ensures t == HtrMod && p == PresetEco ==>
      r == Ok(map["on" := B(true), "mode" := S("manual"), "selected_temp" := S("eco")])
    ensures t == HtrMod && p == PresetFrost ==>
      r == Ok(map["on" := B(true), "mode" := S("manual"), "selected_temp" := S("ice")])
    ensures t == HtrMod && p == PresetSchedule ==> r == Ok(map["on" := B(true), "mode" := S("auto")])
  {
    if t != HtrMod then Fail(ValueErr)
    else if p == PresetHome || p == PresetAway || p == PresetNone then Fail(AssertErr)
    else if p == PresetSchedule then SetHvacModeArgs(t, s, Auto)
    else if p == PresetSelfLearn then Ok(map["on" := B(true), "mode" := S("self_learn")])
    else if p == PresetActivity then Ok(map["on" := B(true), "mode" := S("presence")])
    else if p == PresetComfort then Ok(map["on" := B(true), "mode" := S("manual"), "selected_temp" := S("comfort")])
    else if p == PresetEco then Ok(map["on" := B(true), "mode" := S("manual"), "selected_temp" := S("eco")])
    else if p == PresetFrost then Ok(map["on" := B(true), "mode" := S("manual"), "selected_temp" := S("ice")])
    else Fail(ValueErr)
  }

  /** `get_factory_options`: the setup's `factory_options`, an empty
      dictionary when absent. */
  function GetFactoryOptions(setup: Dict): (v: Val)
    ensures "factory_options" !in setup ==> v == D(map[])
    ensures "factory_options" in setup ==> v == setup["factory_options"]
  {
    Get(setup, "factory_options", D(map[]))
  }

  /** `factory_options.get(key, dflt)`; a `factory_options` that is not a
      dictionary has no `.get`, an AttributeError. */
  function FactoryOption(setup: Dict, key: string, dflt: Val): (r: Result<Val>)
    ensures "factory_options" !in setup ==> r == Ok(dflt)
    ensures "factory_options" in setup && setup["factory_options"].D? ==>
      r == Ok(Get(setup["factory_options"].entries, key, dflt))
    ensures "factory_options" in setup && !setup["factory_options"].D? ==> r == Fail(AttributeErr)
  {
    match GetFactoryOptions(setup)
    case D(m) => Ok(Get(m, key, dflt))
    case _ => Fail(AttributeErr)
  }

  /** `window_mode_available`: false unless the factory options say so. */
  function WindowModeAvailable(setup: Dict): (r: Result<Val>)
    ensures "factory_options" !in setup ==> r == Ok(B(false))
    ensures "factory_options" in setup && setup["factory_options"].D? ==>
      r == Ok(Get(setup["factory_options"].entries, "window_mode_available", B(false)))
    ensures "factory_options" in setup && !setup["factory_options"].D? ==> r == Fail(AttributeErr)
  {
    FactoryOption(setup, "window_mode_available", B(false))
  }

  /** `true_radiant_available`: false unless the factory options say so. */
  function TrueRadiantAvailable(setup: Dict): (r: Result<Val>)
    ensures "factory_options" !in setup ==> r == Ok(B(false))
    ensures "factory_options" in setup && setup["factory_options"].D? ==>
      r == Ok(Get(setup["factory_options"].entries, "true_radiant_available", B(false)))
    ensures "factory_options" in setup && !setup["factory_options"].D? ==> r == Fail(AttributeErr)
  {
    FactoryOption(setup, "true_radiant_available", B(false))
  }

  // ---------------------------------------------------------------------
  // Round trips between the getters and the setters

  /** Whenever a temperature patch can be built, merging it into the status
      and reading the target back gives the requested temperature (for
      `htr_mod` in comfort and eco alike, over real arithmetic). */
  lemma TemperatureRoundTrip(t: NodeType, s: Dict, temp: real)
    requires SetTemperatureArgs(t, s, temp).Ok?
    ensures GetTargetTemperature(t, Merge(s, SetTemperatureArgs(t, s, temp).value)) == Ok(temp)
  {
  }

  /** A temperature patch never changes the unit the status reports. */
  lemma TemperaturePatchKeepsUnit(t: NodeType, s: Dict, temp: real)
    requires SetTemperatureArgs(t, s, temp).Ok?
    ensures GetTemperatureUnit(Merge(s, SetTemperatureArgs(t, s, temp).value)) == GetTemperatureUnit(s)
  {
  }

  /** With boost off, merging the patch for OFF, HEAT or AUTO and reading the
      mode back gives the requested mode.  A `htr_mod` OFF patch only clears
      `on`, so the status must already carry a `mode` to be read. */
  lemma HvacModeRoundTrip(t: NodeType, s: Dict, m: HvacMode)
    requires !Boosting(s)
    requires SetHvacModeArgs(t, s, m).Ok?
    requires t == HtrMod && m == Off ==> "mode" in s
    ensures GetHvacMode(t, Merge(s, SetHvacModeArgs(t, s, m).value)) == Ok(m)
  {
  }

  /** Requesting the mode a second time, from the status the first request
      produced, changes nothing further. */
  lemma SetHvacModeIdempotent(t: NodeType, s: Dict, m: HvacMode)
    requires SetHvacModeArgs(t, s, m).Ok?
    ensures var s1 := Merge(s, SetHvacModeArgs(t, s, m).value);
      SetHvacModeArgs(t, s1, m).Ok? && Merge(s1, SetHvacModeArgs(t, s1, m).value) == s1
  {
  }

  /** Writing back the mode a status reads as is not the identity: every
      automatic mode (presence, self_learn, modified_auto) is rewritten to
      `auto`, which still reads as AUTO. */
  lemma AutoWriteBackNormalises(t: NodeType, s: Dict)
    requires GetHvacMode(t, s) == Ok(Auto)
    ensures SetHvacModeArgs(t, s, Auto).Ok?
    ensures var s' := Merge(s, SetHvacModeArgs(t, s, Auto).value);
      s'["mode"] == S("auto") && GetHvacMode(t, s') == Ok(Auto)
  {
  }

  /** The six preset patches do not depend on the status they are built
      from. */
  lemma PresetPatchIndependentOfStatus(t: NodeType, s: Dict, s': Dict, p: string)
    ensures SetPresetModeStatusUpdate(t, s, p) == SetPresetModeStatusUpdate(t, s', p)
  {
  }

  /** The worked example of an eco target: comfort 24.3 with offset 4 reads
      as 20.3. */
  lemma EcoExample()
    ensures GetTargetTemperature(HtrMod,
      map["selected_temp" := S("eco"), "comfort_temp" := N(24.3), "eco_offset" := N(4.0)]) == Ok(20.3)
  {
  }
}
