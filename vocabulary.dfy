/** Shared vocabulary of the smartbox integration: the untyped status and
    setup dictionaries exchanged with the vendor API, the node-type codes,
    the hub's HVAC-mode and preset vocabulary, and the Python exceptions the
    translation functions raise, as a Result datatype. */
module Vocabulary {

  /** A value stored in a status or setup dictionary.  Numbers (including
      numeric strings, which the model takes as already parsed) are N;
      nested dictionaries such as `factory_options` are D. */
  datatype Val = S(str: string) | B(flag: bool) | N(num: real) | D(entries: map<string, Val>)

  /** A status or setup dictionary, keyed by field name. */
  type Dict = map<string, Val>

  /** The exceptions of the source.  MissingKey and UnexpectedValue are both
      Python KeyErrors: the first names the absent key, the second reports an
      unexpected value of `key`.  TypeErr is `float()` of a dictionary;
      AttributeErr is a `.get` on a value that is not a dictionary. */
  datatype Err =
    | MissingKey(key: string)
    | UnexpectedValue(key: string, value: Val)
    | ValueErr
    | AssertErr
    | TypeErr
    | AttributeErr

  datatype Option<+T> = None | Some(value: T)

  datatype Result<+T> = Ok(value: T) | Fail(error: Err) {
    predicate IsFailure() { Fail? }
    function PropagateFailure<U>(): Result<U> requires Fail? { Fail(error) }
    function Extract(): T requires Ok? { value }
  }

  /** Vendor node-type codes `htr`, `acm`, `htr_mod` and `pmo`. */
  datatype NodeType = Htr | Acm | HtrMod | Pmo

  /** The hub's HVACMode enumeration. */
  datatype HvacMode = Off | Heat | Cool | HeatCool | Auto | Dry | FanOnly

  /** The hub's temperature units. */
  datatype TempUnit = Celsius | Fahrenheit

  /** Preset names: the hub's own and the three the integration adds. */
  const PresetNone := "none"
  const PresetAway := "away"
  const PresetHome := "home"
  const PresetBoost := "boost"
  const PresetComfort := "comfort"
  const PresetEco := "eco"
  const PresetActivity := "activity"
  const PresetFrost := "frost"
  const PresetSchedule := "schedule"
  const PresetSelfLearn := "self_learn"

  /** The six presets a `htr_mod` node derives from its mode. */
  const ModPresets: seq<string> :=
    [PresetActivity, PresetComfort, PresetEco, PresetFrost, PresetSelfLearn, PresetSchedule]

  /** Heater node types: the node types that get a climate entity. */
  const HeaterNodeTypes: set<NodeType> := {Acm, Htr, HtrMod}

  /** Python truthiness of a dictionary value. */
  predicate Truthy(v: Val)
  {
    match v
    case S(s) => s != ""
    case B(b) => b
    case N(x) => x != 0.0
    case D(m) => m != map[]
  }

  /** The falsy values are exactly the empty string, False, zero and the
      empty dictionary. */
  lemma FalsyValues(v: Val)
    ensures !Truthy(v) <==> v == S("") || v == B(false) || v == N(0.0) || v == D(map[])
  {
  }

  /** `d.get(k, dflt)`. */
  function Get(d: Dict, k: string, dflt: Val): (v: Val)
    ensures k in d ==> v == d[k]
    ensures k !in d ==> v == dflt
  {
    if k in d then d[k] else dflt
  }

  /** `d[k]`, or `_check_status_key(k, ...)` followed by `d[k]`: both raise a
      KeyError naming `k` when it is absent. */
  function Lookup(d: Dict, k: string): (r: Result<Val>)
    ensures r.Ok? <==> k in d
    ensures r.Ok? ==> r.value == d[k]
    ensures r.Fail? ==> r.error == MissingKey(k)
  {
    if k in d then Ok(d[k]) else Fail(MissingKey(k))
  }

  /** `d |= patch`: keys of the patch overwrite, other keys are kept. */
  function Merge(d: Dict, patch: Dict): (m: Dict)
    ensures m.Keys == d.Keys + patch.Keys
    ensures forall k :: k in patch ==> m[k] == patch[k]
    ensures forall k :: k in d && k !in patch ==> m[k] == d[k]
  {
    d + patch
  }

  /** `float(v)` on a value that is already a number (True and False read as
      1 and 0); a string stands for one that does not parse. */
  function AsReal(v: Val): (r: Result<real>)
    ensures v.N? ==> r == Ok(v.num)
    ensures v.B? ==> r == Ok(if v.flag then 1.0 else 0.0)
    ensures v.S? ==> r == Fail(ValueErr)
    ensures v.D? ==> r == Fail(TypeErr)
  {
    match v
    case N(x) => Ok(x)
    case B(b) => Ok(if b then 1.0 else 0.0)
    case S(_) => Fail(ValueErr)
    case D(_) => Fail(TypeErr)
  }

  /** The vendor modes that read as AUTO. */
  predicate IsAutoMode(mode: Val)
  {
    mode == S("auto") || mode == S("modified_auto") || mode == S("self_learn") || mode == S("presence")
  }

  /** The table both variants of `get_hvac_mode` apply once OFF is ruled
      out: manual is HEAT, the four automatic modes are AUTO, anything else
      raises ValueError. */
  function ModeTable(mode: Val): (r: Result<HvacMode>)
    ensures r == Ok(Heat) <==> mode == S("manual")
    ensures r == Ok(Auto) <==> IsAutoMode(mode)
    ensures r.Fail? <==> mode != S("manual") && !IsAutoMode(mode)
    ensures r.Fail? ==> r.error == ValueErr
  {
    if mode == S("manual") then Ok(Heat)
    else if IsAutoMode(mode) then Ok(Auto)
    else Fail(ValueErr)
  }
}
