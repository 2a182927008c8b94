/**
 * The plugin instance and the host-facing v2 entry points. An instance owns
 * its engine, a fixed table of MAX_SURGE_PARAMS registry slots, the octave
 * offset, the current preset and the two prebuilt JSON documents.
 */
module Plugin {
  import opened CText
  import opened Engine
  import opened Midi
  import opened Registry
  import opened ChainParams
  import opened Render
  import opened PluginState
  import PluginProps

  class Instance {
    var moduleDir: CString
    var errorMsg: CString
    const synth: Synth
    var currentPreset: int
    var presetCount: int
    var octaveTranspose: int
    var presetName: CString
    /** The registry slots; params[0..paramCount) are in use. */
    const params: array<ParamEntry>
    var paramCount: nat
    var uiHierarchyJson: CString
    var chainParamsJson: CString

    /** The engine and the slot table are usable. */
    ghost predicate Wired()
      reads this, synth
    {
      synth.Valid() && params.Length == MAX_SURGE_PARAMS && paramCount <= MAX_SURGE_PARAMS
    }

    /** The instance as the host sees it. */
    ghost function Snapshot(): Model
      reads this, synth, params
      requires paramCount <= params.Length
    {
      Model(synth.library, synth.patchOrdering, synth.patch, synth.calls, currentPreset,
            presetCount, presetName, octaveTranspose, params[..paramCount],
            uiHierarchyJson, chainParamsJson)
    }

    ghost predicate Valid()
      reads this, synth, params
    {
      Wired() && ModelInv(Snapshot()) && errorMsg == "" && |moduleDir| <= MODULE_DIR_CAPACITY
    }

    /** v2_create_instance after the engine was constructed: the slot table
     *  starts zeroed, the registry is built, the first preset (if any) is
     *  loaded, then ui_hierarchy and chain_params are built. */
    constructor (engine: Synth, moduleDir: CString, uiHierarchy: CString)
      requires engine.Valid()
      modifies engine`patch, engine`calls
      ensures Valid() && synth == engine && fresh(params)
      ensures Snapshot() == Created(engine.library, engine.patchOrdering, old(engine.patch),
                                    old(engine.calls), uiHierarchy)
      ensures this.moduleDir == Truncate(moduleDir, MODULE_DIR_CAPACITY)
    {
      this.moduleDir := Truncate(moduleDir, MODULE_DIR_CAPACITY);
      errorMsg := "";
      synth := engine;
      currentPreset := 0;
      presetCount := 0;
      octaveTranspose := 0;
      presetName := DEFAULT_PRESET_NAME;
      params := new ParamEntry[MAX_SURGE_PARAMS](_ => EMPTY_ENTRY);
      paramCount := 0;
      uiHierarchyJson := "";
      chainParamsJson := "";
      new;
      ghost var booted := Booted(synth.library, synth.patchOrdering, synth.patch, synth.calls);
      SetUpPresets();
      BuildDocuments(booted, uiHierarchy);
      PluginProps.CreatedFromBooted(synth.library, synth.patchOrdering, old(engine.patch), old(engine.calls), uiHierarchy, booted);
    }

    /** The last part of v2_create_instance: ui_hierarchy is stored and
     *  chain_params built from the registry. */
    method BuildDocuments(ghost booted: Model, uiHierarchy: CString)
      requires paramCount <= params.Length && Snapshot() == booted && AllFit(params[..paramCount])
      modifies this`uiHierarchyJson, this`chainParamsJson
      ensures Snapshot() == booted.(uiHierarchy := uiHierarchy, chainParams := ChainParamsDoc(booted.registry))
    {
      uiHierarchyJson := uiHierarchy;
      BuildChainParams();
    }

    /** The first part of v2_create_instance: the registry of the engine's
     *  initial patch, the preset count, then the first preset if there is one. */
    method SetUpPresets()
      requires Wired()
      requires currentPreset == 0 && octaveTranspose == 0 && presetName == DEFAULT_PRESET_NAME
      requires uiHierarchyJson == "" && chainParamsJson == ""
      modifies this`paramCount, params, this`presetCount, this`currentPreset, this`presetName, synth`patch, synth`calls
      ensures Wired() && AllFit(params[..paramCount])
      ensures Snapshot() == Booted(synth.library, synth.patchOrdering, old(synth.patch), old(synth.calls))
    {
      PopulateParamRegistry();
      presetCount := |synth.patchOrdering|;
      if presetCount > 0 {
        LoadPresetByDisplayIndex(0);
      }
      RegistryFits(synth.patch.params);
    }

    /** populate_param_registry: one slot per admitted table entry, in table
     *  order, until the table or the slots run out; slots after the last
     *  written one keep their old contents. */
    method PopulateParamRegistry()
      requires Wired()
      modifies this`paramCount, params
      ensures Wired()
      ensures params[..paramCount] == RegistryOf(synth.patch.params)
      ensures forall k :: paramCount <= k < MAX_SURGE_PARAMS ==> params[k] == old(params[k])
    {
      var t := synth.patch.params;
      var n := |t|;
      paramCount := 0;
      var i := 0;
      while i < n && paramCount < MAX_SURGE_PARAMS
        invariant 0 <= i <= n
        invariant paramCount <= MAX_SURGE_PARAMS
        invariant params[..paramCount] == RegistryUpTo(t, i)
        invariant forall k :: paramCount <= k < MAX_SURGE_PARAMS ==> params[k] == old(params[k])
      {
        var p := t[i];
        if Admitted(p) {
          params[paramCount] := MakeEntry(p);
          paramCount := paramCount + 1;
        }
        i := i + 1;
      }
      RegistryOfScan(t, i);
    }

    /** find_param: the first slot in use whose key is exactly key. */
    method FindParam(key: string) returns (r: Option<nat>)
      requires paramCount <= params.Length
      ensures r == FirstMatch(params[..paramCount], key)
    {
      var i := 0;
      while i < paramCount
        invariant 0 <= i <= paramCount
        invariant forall j :: 0 <= j < i ==> params[j].key != key
      {
        if params[i].key == key {
          return Some(i);
        }
        i := i + 1;
      }
      return None;
    }

    /** load_preset_by_display_index. */
    method LoadPresetByDisplayIndex(idx: int)
      requires Wired()
      modifies this`currentPreset, this`presetName, this`paramCount, params, synth`patch, synth`calls
      ensures Wired()
      ensures Snapshot() == LoadStep(old(Snapshot()), idx)
    {
      if idx < 0 || idx >= |synth.patchOrdering| {
        return;
      }
      var raw := synth.patchOrdering[idx];
      synth.LoadPatch(raw);
      currentPreset := idx;
      var name := synth.patch.name;
      if name != [] {
        presetName := Truncate(name, PRESET_NAME_CAPACITY);
      } else {
        presetName := DEFAULT_PRESET_NAME;
      }
      PopulateParamRegistry();
    }

    /** build_chain_params: the header, then one description per slot in use
     *  while the write offset is below GUARD, then the closing bracket; no
     *  snprintf along the way runs out of buffer. */
    method BuildChainParams()
      requires paramCount <= params.Length
      requires AllFit(params[..paramCount])
      modifies this`chainParamsJson
      ensures chainParamsJson == ChainParamsDoc(params[..paramCount])
    {
      ghost var es := params[..paramCount];
      SnprintfFits(Header, CHAIN_BUFSIZE);
      var w := Snprintf(Header, CHAIN_BUFSIZE);
      var doc: CString := w.buffer.value;
      var offset := w.ret;
      var i := 0;
      while i < paramCount && offset < GUARD
        invariant 0 <= i <= paramCount
        invariant offset == |doc| < GUARD + MAX_ENTRY_LEN
        invariant Emit(es, i, doc) == ChainParamsDoc(es)
      {
        assert EntryFits(es[i]);
        var text := EntryJson(params[i]);
        SnprintfFits(text, CHAIN_BUFSIZE - offset);
        w := Snprintf(text, CHAIN_BUFSIZE - offset);
        doc := doc + w.buffer.value;
        offset := offset + w.ret;
        i := i + 1;
      }
      SnprintfFits("]", CHAIN_BUFSIZE - offset);
      w := Snprintf("]", CHAIN_BUFSIZE - offset);
      chainParamsJson := doc + w.buffer.value;
    }

    /** set_param("state", val): the preset named in the saved state, when it
     *  is in range, then the octave offset, clamped. */
    method RestoreState(val: CString)
      requires Valid()
      modifies this`octaveTranspose, this`currentPreset, this`presetName, this`paramCount, params, synth`patch, synth`calls
      ensures Valid() && Snapshot() == SetStep(old(Snapshot()), "state", val)
    {
      ghost var m := Snapshot();
      PluginProps.SetStepInv(m, "state", val);
      RestorePresetFrom(val);
      RestoreOctaveFrom(val);
    }

    method RestorePresetFrom(val: CString)
      requires Wired() && OrderingValid(synth.library, synth.patchOrdering) && presetCount == |synth.patchOrdering|
      modifies this`currentPreset, this`presetName, this`paramCount, params, synth`patch, synth`calls
      ensures Wired()
      ensures Snapshot() == RestorePreset(old(Snapshot()), val)
    {
      var preset := JsonGetNumber(val, "preset");
      if preset.Some? && preset.value.Finite? {
        var idx := TruncToInt(preset.value.value);
        if idx >= 0 && idx < presetCount {
          LoadPresetByDisplayIndex(idx);
        }
      }
    }

    method RestoreOctaveFrom(val: CString)
      requires paramCount <= params.Length
      modifies this`octaveTranspose
      ensures Snapshot() == RestoreOctave(old(Snapshot()), val)
    {
      var octave := JsonGetNumber(val, "octave_transpose");
      if octave.Some? && octave.value.Finite? {
        octaveTranspose := TruncToInt(octave.value.value);
        if octaveTranspose < OCTAVE_MIN { octaveTranspose := OCTAVE_MIN; }
        if octaveTranspose > OCTAVE_MAX { octaveTranspose := OCTAVE_MAX; }
      }
    }

    /** set_param("preset", val): load the display index atoi reads, when in range. */
    method SelectPreset(val: CString)
      requires Valid()
      modifies this`currentPreset, this`presetName, this`paramCount, params, synth`patch, synth`calls
      ensures Valid() && Snapshot() == SetStep(old(Snapshot()), "preset", val)
    {
      ghost var m := Snapshot();
      PluginProps.SetStepInv(m, "preset", val);
      var idx := Atoi(val);
      if idx >= 0 && idx < presetCount {
        LoadPresetByDisplayIndex(idx);
      }
    }

    /** set_param("octave_transpose", val): the offset atoi reads, clamped. */
    method SetOctave(val: CString)
      requires Valid()
      modifies this`octaveTranspose
      ensures Valid() && Snapshot() == SetStep(old(Snapshot()), "octave_transpose", val)
    {
      ghost var m := Snapshot();
      PluginProps.SetStepInv(m, "octave_transpose", val);
      octaveTranspose := Atoi(val);
      if octaveTranspose < OCTAVE_MIN { octaveTranspose := OCTAVE_MIN; }
      if octaveTranspose > OCTAVE_MAX { octaveTranspose := OCTAVE_MAX; }
    }

    /** set_param on any other key: the registered parameter's value, read by
     *  atof and clamped into [0, 1], is handed to the engine. */
    method SetEngineParam(key: CString, val: CString)
      requires Valid() && !IsModuleSetKey(key)
      modifies synth`calls
      ensures Valid() && Snapshot() == SetStep(old(Snapshot()), key, val)
    {
      ghost var m := Snapshot();
      PluginProps.SetStepInv(m, key, val);
      var entry := FindParam(key);
      var v := Atof(val);
      if entry.Some? && !v.NaN? {
        var x: real;
        if FloatLess(v, 0.0) {
          x := 0.0;
        } else if FloatGreater(v, 1.0) {
          x := 1.0;
        } else {
          x := v.value;
        }
        synth.Call(SetParameter01(params[entry.value].surgeId, x));
      }
    }
  }

  // ---------------------------------------------------------------------
  // The v2 entry points; a null instance is the host passing no instance
  // ---------------------------------------------------------------------

  /** v2_create_instance: no instance when the engine could not be built in
   *  either mode (engine is null), otherwise a live instance around it. */
  method CreateInstance(engine: Synth?, moduleDir: CString, uiHierarchy: CString) returns (inst: Instance?)
    requires engine != null ==> engine.Valid()
    modifies if engine != null then {engine} else {}
    ensures (inst == null) == (engine == null)
    ensures inst != null ==> fresh(inst) && inst.Valid() && inst.synth == engine
    ensures inst != null ==> inst.Snapshot() == Created(engine.library, engine.patchOrdering,
                                                        old(engine.patch), old(engine.calls), uiHierarchy)
  {
    if engine == null {
      return null;
    }
    inst := new Instance(engine, moduleDir, uiHierarchy);
  }

  /** v2_destroy_instance: what is released, in order. */
  datatype Resource = UiHierarchyText | ChainParamsText | SynthEngine | PluginLayer | InstanceRecord

  /** v2_destroy_instance: nothing for a null instance; otherwise every
   *  resource the instance owns, each exactly once, the instance record
   *  itself last, after everything reached through it. */
  method DestroyInstance(inst: Instance?) returns (released: seq<Resource>)
    ensures inst == null <==> released == []
    ensures inst != null ==> forall r: Resource :: r in released
    ensures forall i, j :: 0 <= i < j < |released| ==> released[i] != released[j]
    ensures inst != null ==> released[|released| - 1] == InstanceRecord
  {
    if inst == null {
      return [];
    }
    released := [UiHierarchyText, ChainParamsText, SynthEngine, PluginLayer, InstanceRecord];
    forall r: Resource
      ensures r in released
    {
      match r
      case UiHierarchyText => assert released[0] == r;
      case ChainParamsText => assert released[1] == r;
      case SynthEngine => assert released[2] == r;
      case PluginLayer => assert released[3] == r;
      case InstanceRecord => assert released[4] == r;
    }
  }

  /** v2_on_midi: at most one engine call; nothing without an instance. */
  method OnMidi(inst: Instance?, msg: seq<bv8>)
    requires inst != null ==> inst.Valid()
    modifies if inst != null then {inst.synth} else {}
    ensures inst != null ==> inst.Valid() && inst.Snapshot() == MidiStep(old(inst.Snapshot()), msg)
    ensures inst != null ==> inst.synth.blocks == old(inst.synth.blocks) && inst.synth.output == old(inst.synth.output)
  {
    if inst == null || |msg| < 2 {
      return;
    }
    ghost var m := inst.Snapshot();
    var call := TranslateMidi(msg, inst.octaveTranspose);
    if call.Some? {
      inst.synth.Call(call.value);
    }
    PluginProps.MidiStepInv(m, msg);
  }

  /** v2_set_param: nothing without an instance. */
  method SetParam(inst: Instance?, key: CString, val: CString)
    requires inst != null ==> inst.Valid()
    modifies if inst != null then {inst, inst.params, inst.synth} else {}
    ensures inst != null ==> inst.Valid() && inst.Snapshot() == SetStep(old(inst.Snapshot()), key, val)
    ensures inst != null ==> inst.synth.blocks == old(inst.synth.blocks) && inst.synth.output == old(inst.synth.output)
    ensures inst != null ==> inst.moduleDir == old(inst.moduleDir)
  {
    if inst == null {
      return;
    }
    if key == "state" {
      inst.RestoreState(val);
    } else if key == "preset" {
      inst.SelectPreset(val);
    } else if key == "octave_transpose" {
      inst.SetOctave(val);
    } else if key == "all_notes_off" {
      inst.synth.Call(AllNotesOff);
    } else {
      inst.SetEngineParam(key, val);
    }
  }

  /** v2_get_param: the return value and what the buffer of bufLen bytes
   *  holds afterwards; -1 without an instance. */
  method GetParam(inst: Instance?, key: CString, bufLen: nat) returns (o: Output)
    requires inst != null ==> inst.Valid()
    ensures inst == null ==> o == Output(-1, None)
    ensures inst != null ==> o == Deliver(GetReply(inst.Snapshot(), key), bufLen, inst.synth.readout)
  {
    if inst == null {
      return Output(-1, None);
    }
    if key == "preset" {
      return Snprintf(FormatInt(inst.currentPreset), bufLen);
    }
    if key == "preset_count" {
      return Snprintf(FormatInt(inst.presetCount), bufLen);
    }
    if key == "preset_name" {
      return Snprintf(inst.presetName, bufLen);
    }
    if key == "name" {
      return Snprintf(PLUGIN_NAME, bufLen);
    }
    if key == "octave_transpose" {
      return Snprintf(FormatInt(inst.octaveTranspose), bufLen);
    }
    if key == "state" {
      return Snprintf(StateJson(inst.currentPreset, inst.octaveTranspose), bufLen);
    }
    if key == "ui_hierarchy" {
      var len := |inst.uiHierarchyJson|;
      if len < bufLen {
        return Output(len, Some(inst.uiHierarchyJson));
      }
      return Output(-1, None);
    }
    if key == "chain_params" {
      var len := |inst.chainParamsJson|;
      if len < bufLen {
        return Output(len, Some(inst.chainParamsJson));
      }
      return Output(-1, None);
    }
    var entry := inst.FindParam(key);
    if entry.Some? {
      var e := inst.params[entry.value];
      return Snprintf(inst.synth.readout(e.surgeId, e.valtype == 2), bufLen);
    }
    return Output(-1, None);
  }

  /** v2_get_error: 0 and an untouched buffer unless an error was recorded,
   *  which a live instance never has. */
  method GetError(inst: Instance?, bufLen: nat) returns (o: Output)
    ensures inst == null || inst.errorMsg == "" ==> o == Output(0, None)
    ensures inst != null && inst.errorMsg != "" ==> o == Snprintf(inst.errorMsg, bufLen)
    ensures inst != null && inst.Valid() ==> o == Output(0, None)
  {
    if inst == null || inst.errorMsg == "" {
      return Output(0, None);
    }
    return Snprintf(inst.errorMsg, bufLen);
  }

  /** The inner loop of v2_render_block: the first `chunk` frames of the block
   *  just rendered, clipped, go to frames outIdx .. outIdx + chunk of out. */
  method CopyChunk(synth: Synth, out: array<int16>, outIdx: nat, chunk: nat, ghost start: nat, ghost c: nat)
    requires |synth.output| == BLOCK_SIZE && chunk <= BLOCK_SIZE
    requires outIdx == c * BLOCK_SIZE && 2 * (outIdx + chunk) <= out.Length
    requires forall i :: 0 <= i < BLOCK_SIZE ==> synth.output[i] == synth.signal(start + c, i)
    modifies out
    ensures forall k :: 0 <= k < 2 * outIdx || 2 * (outIdx + chunk) <= k < out.Length ==> out[k] == old(out[k])
    ensures forall k :: 2 * outIdx <= k < 2 * (outIdx + chunk) ==> out[k] == RenderedSample(synth.signal, start, k)
  {
    var i := 0;
    while i < chunk
      invariant 0 <= i <= chunk
      invariant forall k :: 0 <= k < 2 * outIdx || 2 * (outIdx + i) <= k < out.Length ==> out[k] == old(out[k])
      invariant forall k :: 2 * outIdx <= k < 2 * (outIdx + i) ==> out[k] == RenderedSample(synth.signal, start, k)
    {
      var frame := synth.output[i];
      FrameSplit(c, i);
      out[(outIdx + i) * 2] := Clip16(frame.left);
      out[(outIdx + i) * 2 + 1] := Clip16(frame.right);
      i := i + 1;
    }
  }

  /** v2_render_block: `frames` interleaved stereo frames into out. Without
   *  an instance the frames are silence; otherwise each engine block is
   *  rendered on demand and its first `chunk` frames are clipped and copied. */
  method RenderBlock(inst: Instance?, out: array<int16>, frames: nat)
    requires out.Length >= 2 * frames
    requires inst != null ==> inst.Valid()
    modifies out, if inst != null then {inst.synth} else {}
    ensures forall k :: 2 * frames <= k < out.Length ==> out[k] == old(out[k])
    ensures inst == null ==> forall k :: 0 <= k < 2 * frames ==> out[k] == 0
    ensures inst != null ==> inst.Valid()
    ensures inst != null ==> inst.Snapshot() == old(inst.Snapshot()).(calls := old(inst.synth.calls) + Processes(Chunks(frames)))
    ensures inst != null ==> inst.synth.blocks == old(inst.synth.blocks) + Chunks(frames)
    ensures inst != null ==> forall k :: 0 <= k < 2 * frames ==>
              out[k] == RenderedSample(inst.synth.signal, old(inst.synth.blocks), k)
  {
    if inst == null {
      forall k | 0 <= k < 2 * frames {
        out[k] := 0;
      }
      return;
    }
    var synth := inst.synth;
    ghost var m := inst.Snapshot();
    ghost var start := synth.blocks;
    var outIdx := 0;
    var remaining := frames;
    ghost var c := 0;
    while remaining > 0
      invariant 0 <= remaining <= frames && outIdx == frames - remaining
      invariant remaining > 0 ==> outIdx == c * BLOCK_SIZE
      invariant c == Chunks(outIdx)
      invariant synth.Valid()
      invariant synth.blocks == start + c
      invariant synth.patch == m.patch
      invariant synth.calls == m.calls + Processes(c)
      invariant forall k :: 2 * frames <= k < out.Length ==> out[k] == old(out[k])
      invariant forall k :: 0 <= k < 2 * outIdx ==> out[k] == RenderedSample(synth.signal, start, k)
    {
      var chunk := if remaining > BLOCK_SIZE then BLOCK_SIZE else remaining;
      synth.Process();
      CopyChunk(synth, out, outIdx, chunk, start, c);
      outIdx := outIdx + chunk;
      ChunksStep(c * BLOCK_SIZE, chunk);
      remaining := remaining - chunk;
      c := c + 1;
    }
    PluginProps.ModelInvIgnoresCalls(m, synth.calls);
  }
}
