/**
 * The adapter's observable state as a value, and what each host entry point
 * does to it: preset loading, MIDI, parameter writes (including the "state"
 * restore) and parameter reads.
 */
module PluginState {
  import opened CText
  import opened Engine
  import opened Midi
  import opened Registry
  import opened ChainParams

  /** char module_dir[256], char preset_name[64] and char search[64]. */
  const MODULE_DIR_CAPACITY: nat := 255
  const PRESET_NAME_CAPACITY: nat := 63
  const SEARCH_CAPACITY: nat := 63

  const OCTAVE_MIN := -3
  const OCTAVE_MAX := 3

  const DEFAULT_PRESET_NAME: CString := "Init"
  const PLUGIN_NAME: CString := "Surge XT"

  /** Everything the host can observe of an instance, plus the engine trace. */
  datatype Model = Model(
    library: seq<Patch>,          // the engine's raw patch catalogue
    ordering: seq<int>,           // display index to raw index
    patch: Patch,                 // the patch the engine holds
    calls: seq<EngineCall>,       // every engine entry point called so far
    currentPreset: int,
    presetCount: int,
    presetName: CString,
    octave: int,
    registry: seq<ParamEntry>,    // params[0..param_count)
    uiHierarchy: CString,
    chainParams: CString)

  /** What holds of every live instance between host calls. */
  predicate ModelInv(m: Model) {
    && OrderingValid(m.library, m.ordering)
    && m.presetCount == |m.ordering|
    && m.registry == RegistryOf(m.patch.params)
    && OCTAVE_MIN <= m.octave <= OCTAVE_MAX
    && (m.presetCount == 0 ==> m.currentPreset == 0 && m.presetName == DEFAULT_PRESET_NAME)
    && (m.presetCount > 0 ==>
          && 0 <= m.currentPreset < m.presetCount
          && m.patch == m.library[m.ordering[m.currentPreset]]
          && m.presetName == PresetNameFor(m.patch.name))
  }

  /** The preset name recorded for a patch: its name cut to the buffer, or
   *  "Init" for a patch without a name. */
  function PresetNameFor(name: CString): (r: CString)
    ensures r != [] && |r| <= PRESET_NAME_CAPACITY
    ensures name == [] ==> r == DEFAULT_PRESET_NAME
    ensures name != [] ==> |r| <= |name| && r == name[..|r|] && (|name| <= PRESET_NAME_CAPACITY ==> r == name)
  {
    if name != [] then Truncate(name, PRESET_NAME_CAPACITY) else DEFAULT_PRESET_NAME
  }

  /** load_preset_by_display_index: a display index outside the ordering
   *  changes nothing; any other loads the patch it names, records the index
   *  and the name, and rebuilds the registry. chain_params is not rebuilt. */
  function LoadStep(m: Model, idx: int): Model
    requires OrderingValid(m.library, m.ordering)
  {
    if idx < 0 || idx >= |m.ordering| then m
    else
      var raw := m.ordering[idx];
      var p := m.library[raw];
      m.(patch := p, calls := m.calls + [EngineCall.LoadPatch(raw)], currentPreset := idx,
         presetName := PresetNameFor(p.name), registry := RegistryOf(p.params))
  }

  /** v2_create_instance once the engine exists, up to the documents: the
   *  registry, the preset count and the first preset if there is one. */
  function Booted(library: seq<Patch>, ordering: seq<int>, initial: Patch, calls: seq<EngineCall>): Model
    requires OrderingValid(library, ordering)
  {
    var m0 := Model(library, ordering, initial, calls, 0, |ordering|, DEFAULT_PRESET_NAME, 0,
                    RegistryOf(initial.params), "", "");
    if |ordering| > 0 then LoadStep(m0, 0) else m0
  }

  /** v2_create_instance once the engine exists: the booted state, then
   *  ui_hierarchy and the chain_params built from the registry. */
  function Created(library: seq<Patch>, ordering: seq<int>, initial: Patch,
                   calls: seq<EngineCall>, uiHierarchy: CString): Model
    requires OrderingValid(library, ordering)
  {
    var m1 := Booted(library, ordering, initial, calls);
    m1.(uiHierarchy := uiHierarchy, chainParams := ChainParamsDoc(m1.registry))
  }

  /** v2_on_midi: the engine call the message translates to, if any. */
  function MidiStep(m: Model, msg: seq<bv8>): Model {
    match TranslateMidi(msg, m.octave)
    case None => m
    case Some(c) => m.(calls := m.calls + [c])
  }

  /** The octave offset held into [-3, 3]. */
  function ClampOctave(v: int): (r: int)
    ensures OCTAVE_MIN <= r <= OCTAVE_MAX
    ensures OCTAVE_MIN <= v <= OCTAVE_MAX ==> r == v
    ensures v < OCTAVE_MIN ==> r == OCTAVE_MIN
    ensures v > OCTAVE_MAX ==> r == OCTAVE_MAX
  {
    if v < OCTAVE_MIN then OCTAVE_MIN else if v > OCTAVE_MAX then OCTAVE_MAX else v
  }

  /** The value set_param hands the engine for atof's reading v: held into
   *  [0, 1], with an infinity taken to the end of its sign, and nothing at
   *  all for NaN, which no comparison can place. */
  function ClampUnit(v: Float): (r: Option<real>)
    ensures r.None? <==> v.NaN?
    ensures r.Some? ==> 0.0 <= r.value <= 1.0
    ensures v.Finite? && 0.0 <= v.value <= 1.0 ==> r == Some(v.value)
    ensures FloatLess(v, 0.0) ==> r == Some(0.0)
    ensures FloatGreater(v, 1.0) ==> r == Some(1.0)
  {
    match v
    case NaN => None
    case Infinity(negative) => Some(if negative then 0.0 else 1.0)
    case Finite(x) => Some(if x < 0.0 then 0.0 else if x > 1.0 then 1.0 else x)
  }

  /** The two comparisons of set_param exactly as written: NaN passes both,
   *  so it leaves unchanged. */
  function ClampAsWritten(v: Float): (r: Float)
    ensures r.NaN? <==> v.NaN?
  {
    if FloatLess(v, 0.0) then Finite(0.0) else if FloatGreater(v, 1.0) then Finite(1.0) else v
  }

  /** json_get_number: the value after the first "key": in json, past blanks. */
  function JsonGetNumber(json: CString, key: CString): (r: Option<Float>)
    ensures r.None? <==> FindSub(json, SearchPattern(key)).None?
  {
    var search := SearchPattern(key);
    match FindSub(json, search)
    case None => None
    case Some(i) => Some(Atof(SkipBlanks(json[i + |search|..])))
  }

  /** The text json_get_number looks for, as it fits its 64-byte buffer. */
  function SearchPattern(key: CString): (p: CString)
    ensures |key| + 3 <= SEARCH_CAPACITY ==> p == "\"" + key + "\":"
  {
    var full: CString := "\"" + key + "\":";
    assert |full| <= SEARCH_CAPACITY ==> full[..|full|] == full;
    Truncate(full, SEARCH_CAPACITY)
  }

  /** s without its leading ' ' characters. */
  function SkipBlanks(s: string): (t: string)
    ensures |t| <= |s| && (t == [] || t[0] != ' ')
    ensures s != [] && s[0] != ' ' ==> t == s
  {
    if s != [] && s[0] == ' ' then SkipBlanks(s[1..]) else s
  }

  /** The text get_param("state") produces. */
  function StateJson(preset: int, octave: int): CString {
    PresetField + FormatInt(preset) + OctaveField + FormatInt(octave) + "}"
  }
  const PresetField: CString := "{\"preset\":"
  const OctaveField: CString := ",\"octave_transpose\":"

  /** The keys set_param handles itself before it consults the registry. */
  predicate IsModuleSetKey(key: string) {
    key == "state" || key == "preset" || key == "octave_transpose" || key == "all_notes_off"
  }

  /** The first half of set_param("state", json): the preset the state
   *  names, truncated toward zero, is loaded when it is in range. A value
   *  that is not a finite number, for which the int conversion is
   *  undefined, is ignored. */
  function RestorePreset(m: Model, json: CString): Model
    requires OrderingValid(m.library, m.ordering)
  {
    match JsonGetNumber(json, "preset")
    case Some(Finite(f)) =>
      var idx := TruncToInt(f);
      if 0 <= idx < m.presetCount then LoadStep(m, idx) else m
    case _ => m
  }

  /** The second half: the octave offset the state names, truncated toward
   *  zero and clamped; a value that is not a finite number is ignored. */
  function RestoreOctave(m: Model, json: CString): Model {
    match JsonGetNumber(json, "octave_transpose")
    case Some(Finite(f)) => m.(octave := ClampOctave(TruncToInt(f)))
    case _ => m
  }

  /** v2_set_param on a live instance. */
  function SetStep(m: Model, key: CString, val: CString): Model
    requires OrderingValid(m.library, m.ordering)
  {
    if key == "state" then RestoreOctave(RestorePreset(m, val), val)
    else if key == "preset" then
      var idx := Atoi(val);
      if 0 <= idx < m.presetCount then LoadStep(m, idx) else m
    else if key == "octave_transpose" then
      m.(octave := ClampOctave(Atoi(val)))
    else if key == "all_notes_off" then
      m.(calls := m.calls + [EngineCall.AllNotesOff])
    else
      match FirstMatch(m.registry, key)
      case None => m
      case Some(i) =>
        match ClampUnit(Atof(val))
        case None => m
        case Some(v) => m.(calls := m.calls + [SetParameter01(m.registry[i].surgeId, v)])
  }

  /** What get_param has to hand back before it is written to the caller's buffer. */
  datatype Reply =
    | Text(text: CString)                // printed through snprintf
    | Document(doc: CString)             // copied whole, or not at all
    | EngineValue(id: int, asFloat: bool) // the engine's value, "%.4f" or rounded "%d"
    | Missing                            // -1

  /** The keys get_param answers itself before it consults the registry. */
  predicate IsModuleGetKey(key: string) {
    key == "preset" || key == "preset_count" || key == "preset_name" || key == "name"
    || key == "octave_transpose" || key == "state" || key == "ui_hierarchy" || key == "chain_params"
  }

  /** v2_get_param on a live instance, before delivery. */
  function GetReply(m: Model, key: CString): Reply {
    if key == "preset" then Text(FormatInt(m.currentPreset))
    else if key == "preset_count" then Text(FormatInt(m.presetCount))
    else if key == "preset_name" then Text(m.presetName)
    else if key == "name" then Text(PLUGIN_NAME)
    else if key == "octave_transpose" then Text(FormatInt(m.octave))
    else if key == "state" then Text(StateJson(m.currentPreset, m.octave))
    else if key == "ui_hierarchy" then Document(m.uiHierarchy)
    else if key == "chain_params" then Document(m.chainParams)
    else
      match FirstMatch(m.registry, key)
      case None => Missing
      case Some(i) => EngineValue(m.registry[i].surgeId, m.registry[i].valtype == 2)
  }

  /** Writing a reply to a buffer of bufLen bytes: the return value and what
   *  the buffer holds afterwards (None when it was left alone). A document is
   *  copied only when it fits with its NUL; otherwise the answer is -1. */
  function Deliver(r: Reply, bufLen: nat, readout: (int, bool) -> CString): (o: Output)
    ensures r.Missing? ==> o == Output(-1, None)
    ensures r.Document? && |r.doc| < bufLen ==> o == Output(|r.doc|, Some(r.doc))
    ensures r.Document? && |r.doc| >= bufLen ==> o == Output(-1, None)
    ensures r.Text? ==> o.ret == |r.text| && (o.buffer.Some? <==> bufLen > 0)
    ensures r.Text? && |r.text| < bufLen ==> o.buffer.Some? && o.buffer.value == r.text
  {
    match r
    case Text(t) => Snprintf(t, bufLen)
    case Document(d) => if |d| < bufLen then Output(|d|, Some(d)) else Output(-1, None)
    case EngineValue(id, asFloat) => Snprintf(readout(id, asFloat), bufLen)
    case Missing => Output(-1, None)
  }
}
