# Surge XT plugin adapter for Move, in Dafny

This project models `src/dsp/surge_plugin.cpp`, the v2 plugin adapter
between the Move host and the Surge XT synthesizer engine, and proves
properties of it. The engine (`SurgeSynthesizer`) is an abstract collaborator:

- a catalogue of patches, each with a name and a parameter table;
- a display ordering of that catalogue;
- a block renderer that yields already-scaled integer frames;
- a text readout for parameter values;
- a trace of every engine entry point the adapter calls.

The modules follow the adapter's structure:

| module | file | what it holds |
|---|---|---|
| `CText` | `text.dfy` | C strings, `strncpy` truncation, `snprintf` into a bounded buffer, `%d`, `atoi`, `atof` over decimals, infinities and NaN, IEEE comparisons, the float-to-int cast, `strstr`, and the round trips between printing and parsing |
| `Engine` | `engine.dfy` | the abstract engine: parameter records, patches, engine calls, and the `Synth` class with `loadPatch`, the generic entry points and `process()` |
| `Midi` | `midi.dfy` | the translation of one MIDI message into at most one engine call |
| `Registry` | `registry.dfy` | the scene-A parameter registry as a value, `find_param`, and what a rebuild writes |
| `ChainParams` | `chain_params.dfy` | the `chain_params` document and the 200-byte guard of its builder |
| `Render` | `render.dfy` | 16-bit clipping, the block count and the interleaved sample layout |
| `PluginState` | `state.dfy` | the instance as a value (`Model`): preset loading, `set_param`, `get_param` and delivery into the caller's buffer |
| `PluginProps` | `plugin_props.dfy` | invariants and round trips over `Model` |
| `Plugin` | `plugin.dfy` | the `Instance` class with its 300-slot `params` array, and the host entry points as methods |

Each state-changing method of `Plugin.Instance` is proved against the value
model. Its `ensures` gives the new `Snapshot()` as a `PluginState` step
(`LoadStep`, `SetStep`, `MidiStep`) of the old one. Properties of those
steps are lemmas in `PluginProps`. The imperative parts stay imperative:

- the registry loop fills the `params` array in place;
- `build_chain_params` accumulates its write offset;
- `v2_render_block` writes the interleaved output array chunk by chunk.

Some behaviour of the code differs from the design description of the
system. In each case the model follows the code:

- The design describes `chain_params` as regenerated on every registry
  rebuild. The code builds it once, in `v2_create_instance`. A preset load
  rebuilds the registry but leaves `chain_params` as it was
  (`PluginProps.LoadStepEffect`).
- The design describes registry keys as unique. The code does not enforce
  this: two storage names can have the same first 47 characters after the
  prefix is stripped, and then `find_param` answers with the first of them
  (`Registry.FirstMatch`). Stripping alone can do it too: "a_x" and "x"
  give the same key (`Registry.KeyCollisions`).
- The design also describes registry keys as non-empty. The code does not
  enforce that either: the storage names "a_" and "" both give the empty
  key (`Registry.KeyCollisions`).

Values read with `atof` are IEEE floats in the model (`CText.Float`): a
finite real, a signed infinity, or NaN, with comparisons that are false
for NaN. The two places where a NaN reaches code that does not expect it
are listed under "## Findings".

## Model

| member | source | states |
|---|---|---|
| CText.Truncate | src/dsp/surge_plugin.cpp:173-182 | strncpy of at most n characters followed by a NUL keeps exactly the first min(length, n) characters |
| CText.Snprintf | src/dsp/surge_plugin.cpp:625-641 | snprintf returns the full length of the text; a zero-length buffer is untouched; otherwise the buffer keeps the longest prefix that fits before the NUL |
| CText.SnprintfFits | src/dsp/surge_plugin.cpp:394-408 | text shorter than the buffer is written whole and its length returned |
| CText.FormatInt | src/dsp/surge_plugin.cpp:626 | "%d" text is non-empty, made of digits and an optional leading minus, and starts with '-' exactly for negative numbers |
| CText.FindSub | src/dsp/surge_plugin.cpp:141 | strstr gives a position where the pattern occurs with no earlier occurrence, or nothing when it occurs nowhere |
| CText.FindSubAt | src/dsp/surge_plugin.cpp:141 | an occurrence with none before it is the one strstr finds |
| CText.MismatchAt | src/dsp/surge_plugin.cpp:141 | one differing character rules out an occurrence at that position |
| CText.AtoiOfFormat | src/dsp/surge_plugin.cpp:593-600 | atoi reads back any integer printed by "%d", whatever non-digit follows it |
| CText.AtofOfFormat | src/dsp/surge_plugin.cpp:145 | atof reads back any integer printed by "%d" when neither a digit nor '.' follows |
| CText.AtofOfNan | src/dsp/surge_plugin.cpp:145 | atof reads any text starting with "nan" in any case, after any white space and with a sign or none, as NaN |
| CText.AtofOfInf | src/dsp/surge_plugin.cpp:145 | atof reads any text starting with "inf" (so "infinity" too) in any case, after any white space, as an infinity with the sign written, positive without one |
| CText.AtofAfterSign | src/dsp/surge_plugin.cpp:145 | proof step: after white space, a '-' makes atof read the rest as negative, a '+' or no sign as positive |
| CText.SkipSpacesOfBlanks | src/dsp/surge_plugin.cpp:145 | proof step: leading white space of any kind is skipped up to the first other character |
| CText.Atof | src/dsp/surge_plugin.cpp:145 | atof as an IEEE value; its readings are stated by AtofOfFormat (printed integers are read back exactly), AtofOfNan and AtofOfInf |
| CText.Atoi | src/dsp/surge_plugin.cpp:593-600 | atoi: white space, an optional sign, then the leading digits; AtoiOfFormat states that it reads back every "%d" text |
| CText.TruncToInt | src/dsp/surge_plugin.cpp:578-584 | the (int) cast of a float truncates toward zero: the result is within one of the value, on the side of zero |
| CText.TruncOfWhole | src/dsp/surge_plugin.cpp:578 | the (int) cast of a whole number is that number |
| Midi.TransposeNote | src/dsp/surge_plugin.cpp:532-537 | the note is data1 plus 12 per octave, clamped into 0..127: exact inside the range, 0 below it, 127 above it |
| Midi.Bend | src/dsp/surge_plugin.cpp:554 | with a 7-bit low byte, the shift-or bend value is data2·128 + data1 − 8192 |
| Midi.TranslateMidi | src/dsp/surge_plugin.cpp:522-568 | a message shorter than two bytes makes no call; only the seven handled statuses make one; note calls carry the message's channel and the transposed note; poly aftertouch carries data1 untransposed |
| Midi.NoteOnZeroVelocityIsNoteOff | src/dsp/surge_plugin.cpp:540-549 | a note-on with velocity 0 releases the same transposed note, on the same channel, as a note-off with release velocity 0 |
| Midi.TwoByteMessageHasZeroData2 | src/dsp/surge_plugin.cpp:530 | a two-byte message acts as the three-byte message whose data2 is 0 |
| Midi.OnlyNotesAreTransposed | src/dsp/surge_plugin.cpp:532-537 | for every status other than note-on and note-off, the call does not depend on the octave offset |
| Midi.NoteOnPlaysTransposedNote | src/dsp/surge_plugin.cpp:540-542 | a note-on with non-zero velocity plays the transposed, clamped note with that velocity |
| Midi.NoteOffReleases | src/dsp/surge_plugin.cpp:547-549 | a note-off releases the transposed, clamped note on the message's channel with data2 as the release velocity (0 for a two-byte message) |
| Midi.PassThroughCalls | src/dsp/surge_plugin.cpp:550-566 | control change, poly and channel aftertouch, program change and pitch bend each yield their own engine call on the message's channel, with data1 and data2 as written (0 for a two-byte message) and the rebuilt bend |
| Midi.PitchBendCentre | src/dsp/surge_plugin.cpp:553-556 | data1 = 0 and data2 = 64 give a bend of 0 |
| Midi.PitchBendRange | src/dsp/surge_plugin.cpp:553-556 | for 7-bit data bytes the bend lies in [−8192, 8191], and both ends are reached |
| Midi.ReleaseFollowsCurrentOctave | src/dsp/surge_plugin.cpp:533-549 | a note-off is transposed by the offset current at release time, so an offset change between note-on and note-off releases a different note |
| Registry.StripScenePrefix | src/dsp/surge_plugin.cpp:172-176 | a leading "a_" is removed; any other name is kept |
| Registry.KeyOf | src/dsp/surge_plugin.cpp:170-177 | the key is a prefix of the stripped storage name, at most 47 characters long, and the whole stripped name when that fits |
| Registry.MakeEntry | src/dsp/surge_plugin.cpp:168-185 | a written entry's key and display name both fit their 48-byte fields |
| Registry.FirstMatch | src/dsp/surge_plugin.cpp:196-203 | the index found has the key exactly and no earlier entry has it; nothing is found only when no entry has the key |
| Registry.RegistryOfSpec | src/dsp/surge_plugin.cpp:158-188 | a rebuild registers min(admitted slots, 300) entries, each from a present scene-A slot whose id lookup succeeded, in increasing table order, under its stripped and truncated key and truncated full name; when at most 300 slots are admitted, every one of them is registered |
| Registry.RegistryOfScan | src/dsp/surge_plugin.cpp:160 | a scan stopped at the end of the table, or with all 300 slots full, has written the registry of the whole table |
| Registry.KeyCollisions | src/dsp/surge_plugin.cpp:170-177 | keys are neither non-empty nor unique: "a_" and "" give the empty key, "a_x" and "x" the same key |
| Registry.RegistryOf | src/dsp/surge_plugin.cpp:153-193 | what populate_param_registry leaves in params[0..param_count): at most 300 entries; its contents are stated by RegistryOfSpec and RegistryFits, and the loop is tied to it by Plugin.Instance.PopulateParamRegistry |
| Registry.RegistryFits | src/dsp/surge_plugin.cpp:173-182 | every registered key and display name is at most 47 characters |
| Registry.SelectedIncreasing | src/dsp/surge_plugin.cpp:160-188 | the table slots a scan takes strictly increase |
| Registry.SelectedExactly | src/dsp/surge_plugin.cpp:160-166 | a scan takes exactly the admitted slots |
| ChainParams.TypeTag | src/dsp/surge_plugin.cpp:399-400 | valtype 2 is described as "float", every other valtype (bool included) as "int" |
| ChainParams.EntryJson | src/dsp/surge_plugin.cpp:401-405 | an entry is at most 146 bytes long when its key and name fit their fields |
| ChainParams.EmitTakes | src/dsp/surge_plugin.cpp:398-408 | from any point of the build, the document is the text so far, then the entries the length-only stop rule counts, then "]" |
| ChainParams.StopsAtGuard | src/dsp/surge_plugin.cpp:398 | a build that stops before the last entry has reached the guard offset 32568 |
| ChainParams.TakenBelowGuard | src/dsp/surge_plugin.cpp:398 | every entry taken is started below the guard |
| ChainParams.StopBound | src/dsp/surge_plugin.cpp:398-405 | the write offset never passes guard + 146 |
| ChainParams.StopAtEnd | src/dsp/surge_plugin.cpp:398 | with room for all of them, every entry is taken |
| ChainParams.ChainParamsDoc | src/dsp/surge_plugin.cpp:386-409 | the chain_params document; its shape, the guard and the 32768-byte bound are stated by ChainParamsDocSpec, and the buffer loop is tied to it by Plugin.Instance.BuildChainParams |
| ChainParams.Emit | src/dsp/surge_plugin.cpp:394-408 | the build loop from entry i with the document so far; EmitTakes states what it produces |
| ChainParams.ChainParamsDocSpec | src/dsp/surge_plugin.cpp:386-409 | the document is the preset and octave_transpose header, then the first n entries, then "]"; each of those n entries started below the guard, and a registry longer than n had reached it; the document always fits the 32768-byte buffer; a registry of up to 223 entries is described in full |
| Render.Clip16 | src/dsp/surge_plugin.cpp:688-696 | samples in the int16 range are kept; larger ones become 32767 and smaller ones −32768 (clipped, not wrapped) |
| Render.Chunks | src/dsp/surge_plugin.cpp:679-700 | a request for `frames` frames takes ceil(frames / 32) engine blocks |
| Render.Processes | src/dsp/surge_plugin.cpp:682 | n renders record exactly n process() calls |
| Render.ChunksStep | src/dsp/surge_plugin.cpp:680-700 | after whole blocks, a full or partial chunk costs exactly one more engine block |
| Render.FrameSplit | src/dsp/surge_plugin.cpp:684-697 | proof step: frame c·32 + i of a request comes from position i of block c, with its left sample at an even index and its right sample at the odd index after it |
| PluginState.ModelInv | src/dsp/surge_plugin.cpp:98-118 | what holds of a live instance between host calls: a valid display ordering, preset_count its length, params the registry of the loaded patch, the octave offset in [−3, 3], and the current preset, patch and name in agreement; CreatedInv establishes it and MidiStepInv, LoadStepInv and SetStepInv keep it |
| PluginState.LoadStep | src/dsp/surge_plugin.cpp:209-230 | load_preset_by_display_index as a step; LoadStepEffect, LoadStepInv and ReloadKeepsState state what it does |
| PluginState.Booted | src/dsp/surge_plugin.cpp:490-497 | v2_create_instance up to the documents; CreatedFromBooted and CreatedInv state its result |
| PluginState.Created | src/dsp/surge_plugin.cpp:415-507 | v2_create_instance once the engine exists; CreatedInv states that it keeps the invariant with preset 0, octave 0 and chain_params of its registry |
| PluginState.MidiStep | src/dsp/surge_plugin.cpp:522-568 | v2_on_midi as a step: the translated call, if any, is appended to the trace; MidiStepInv states that it keeps the invariant |
| PluginState.StateJson | src/dsp/surge_plugin.cpp:636-640 | the get_param("state") text, with the preset and the octave offset each printed by "%d"; StatePresetReadBack and StateOctaveReadBack state that json_get_number reads both back, and StateRoundTrip that set_param("state") restores them |
| PluginState.RestorePreset | src/dsp/surge_plugin.cpp:577-582 | the preset half of set_param("state"); StateWrite and NonNumberStateIgnored state what it does |
| PluginState.RestoreOctave | src/dsp/surge_plugin.cpp:583-587 | the octave half of set_param("state"); StateWrite and NonNumberStateIgnored state what it does |
| PluginState.SetStep | src/dsp/surge_plugin.cpp:570-618 | v2_set_param as a step; SetStepInv, StateRoundTrip, PresetRoundTrip, OctaveRoundTrip, AllNotesOffOnlyCalls, EngineParamWrite and UnknownKey state what it does |
| PluginState.GetReply | src/dsp/surge_plugin.cpp:620-667 | v2_get_param as a reply before delivery; the round-trip lemmas and EngineParamWrite state what it answers, and Deliver how it reaches the buffer |
| PluginState.PresetNameFor | src/dsp/surge_plugin.cpp:219-226 | the preset name is the patch name cut to 63 characters, or "Init" for a patch without a name |
| PluginState.ClampOctave | src/dsp/surge_plugin.cpp:584-602 | the octave offset lies in [−3, 3]: exact inside the range, −3 below it, 3 above it |
| PluginState.ClampUnit | src/dsp/surge_plugin.cpp:613-615 | a parameter value is sent exactly when it is a number, and then lies in [0, 1]: exact inside the range, 0 below it or at −infinity, 1 above it or at +infinity; NaN gives nothing to send |
| PluginState.ClampAsWritten | src/dsp/surge_plugin.cpp:613-615 | the two comparisons as written give NaN back exactly for NaN |
| PluginState.JsonGetNumber | src/dsp/surge_plugin.cpp:138-147 | json_get_number fails exactly when strstr finds no `"key":`; a success carries atof's float, which may be infinite or NaN |
| PluginState.SearchPattern | src/dsp/surge_plugin.cpp:139-140 | the search text is `"key":` for every key short enough for the 64-byte buffer |
| PluginState.SkipBlanks | src/dsp/surge_plugin.cpp:144 | leading ' ' characters are skipped, and text not starting with one is left alone |
| PluginState.Deliver | src/dsp/surge_plugin.cpp:620-667 | an unknown key gives −1 and an untouched buffer; a document is copied whole with its length returned when it fits, and otherwise gives −1 with the buffer untouched; text is printed through snprintf |
| PluginProps.CreatedInv | src/dsp/surge_plugin.cpp:415-507 | a new instance keeps the invariant, shows preset 0 and octave 0, holds preset 0's patch when there are presets (otherwise the engine's initial patch), and its chain_params describes its registry |
| PluginProps.CreatedFromBooted | src/dsp/surge_plugin.cpp:490-501 | proof step: creation is setting up the presets, then building the two documents, and the result keeps the invariant |
| PluginProps.ModelInvIgnoresCalls | src/dsp/surge_plugin.cpp:679-701 | the engine call trace plays no part in the invariant, so rendering keeps it |
| PluginProps.MidiStepInv | src/dsp/surge_plugin.cpp:522-568 | v2_on_midi keeps the invariant |
| PluginProps.LoadStepInv | src/dsp/surge_plugin.cpp:209-230 | a preset load keeps the invariant |
| PluginProps.SetStepInv | src/dsp/surge_plugin.cpp:570-618 | v2_set_param keeps the invariant, so the octave offset stays in [−3, 3] and the current preset in range |
| PluginProps.LoadStepEffect | src/dsp/surge_plugin.cpp:209-230 | an index outside [0, preset count) changes nothing; a valid index i loads raw patch patchOrdering[i], sets current_preset to i and the name from the patch, rebuilds the registry from that patch, and leaves chain_params and the octave offset as they were |
| PluginProps.ReloadKeepsState | src/dsp/surge_plugin.cpp:209-230 | reloading the preset already shown only records another engine load |
| PluginProps.FirstMatchAfter | src/dsp/surge_plugin.cpp:141-143 | proof step: when the pattern first occurs right after a given head, strstr finds it there and reading starts just past it |
| PluginProps.AtofOfPrinted | src/dsp/surge_plugin.cpp:144-145 | proof step: skipping blanks and applying atof reads back a "%d" number that is followed by neither a digit nor '.' |
| PluginProps.JsonNumberAt | src/dsp/surge_plugin.cpp:138-147 | proof step: when strstr finds the pattern at i, json_get_number reads the text just past the match |
| PluginProps.PresetFieldFirst | src/dsp/surge_plugin.cpp:577 | proof step: in any text starting with the preset field, json_get_number of "preset" reads what follows the field |
| PluginProps.HeadHasNoOctaveMatch | src/dsp/surge_plugin.cpp:583 | proof step: no match of the octave_transpose pattern starts inside the preset field, its number or the comma after it |
| PluginProps.OctaveMatchAt | src/dsp/surge_plugin.cpp:583 | proof step: strstr finds the octave_transpose pattern right after the preset number, and the octave text follows it |
| PluginProps.OctaveFieldAfterPreset | src/dsp/surge_plugin.cpp:583 | proof step: after a preset field and number, json_get_number of "octave_transpose" reads what follows the octave field |
| PluginProps.StatePresetReadBack | src/dsp/surge_plugin.cpp:577-583 | json_get_number reads back the preset written by get_param("state") as a finite float |
| PluginProps.StateOctaveReadBack | src/dsp/surge_plugin.cpp:583-587 | json_get_number reads back the octave offset written by get_param("state") as a finite float |
| PluginProps.NonNumberStateIgnored | src/dsp/surge_plugin.cpp:575-589 | a preset or octave_transpose field that is missing or not a finite number leaves that part of the instance as it was |
| PluginProps.StateNanReachesCast | src/dsp/surge_plugin.cpp:577-578 | the state text {"preset":nan} makes json_get_number succeed with NaN, the value the (int) conversion then receives |
| PluginProps.AtofOfNanText | src/dsp/surge_plugin.cpp:144-145 | proof step: skipping blanks and applying atof to "nan}" gives NaN |
| PluginProps.StateWrite | src/dsp/surge_plugin.cpp:575-589 | restoring the text of state (p, o) loads preset p when it is in range and sets the octave offset to o clamped |
| PluginProps.StateRoundTrip | src/dsp/surge_plugin.cpp:575-589 | feeding get_param("state") back to set_param("state") reproduces current_preset and octave_transpose; the only change is another engine load of the current patch (for the code's float variable, this holds for presets below 2^24; see "## Left out") |
| PluginProps.PresetRoundTrip | src/dsp/surge_plugin.cpp:592-598 | setting "preset" to a printed index in range loads it, and get_param("preset") then answers that index; an index out of range changes nothing |
| PluginProps.OctaveRoundTrip | src/dsp/surge_plugin.cpp:599-604 | setting "octave_transpose" to a printed n stores n clamped into [−3, 3] (5 gives 3, −9 gives −3), and get_param("octave_transpose") answers that value |
| PluginProps.AllNotesOffOnlyCalls | src/dsp/surge_plugin.cpp:605-608 | all_notes_off makes one engine call, whatever its value, and changes nothing else |
| PluginProps.EngineParamWrite | src/dsp/surge_plugin.cpp:610-617 | a write to a registered key sends the engine one value in [0, 1] for the same engine parameter a read of that key reports: atof of the text when that is a number in range, 0 when it is below 0 (−infinity included), 1 when it is above 1 (+infinity included); a text atof reads as NaN sends nothing (see "## Findings") |
| PluginProps.NanEscapesClamp | src/dsp/surge_plugin.cpp:612-616 | atof reads "nan" as NaN, and the two comparisons as written let it through unchanged, so what they would send is not a value in [0, 1] |
| PluginProps.ClampAgreesOnNumbers | src/dsp/surge_plugin.cpp:613-615 | on every value but NaN, the comparisons as written and the model's clamp give the same number |
| PluginProps.UnknownKey | src/dsp/surge_plugin.cpp:611-666 | a key that is neither reserved nor registered leaves the state unchanged on set and gives −1 with an untouched buffer on get |
| Engine.Synth.LoadPatch | src/dsp/surge_plugin.cpp:215-216 | loadPatch installs the raw catalogue entry and records the call |
| Engine.Synth.Call | src/dsp/surge_plugin.cpp:539-566 | a forwarded engine call (the MIDI calls, allNotesOff at :606 and setParameter01 at :616) is appended to the trace, and nothing else changes |
| Engine.Synth.Process | src/dsp/surge_plugin.cpp:682 | process() renders the next engine block into output and records the call |
| Plugin.Instance.constructor | src/dsp/surge_plugin.cpp:415-507 | a created instance's state is Created(...): the registry of the engine's patch, the preset count, preset 0 loaded when there is one, the ui_hierarchy text, and chain_params built from the registry; it keeps the invariant |
| Plugin.Instance.SetUpPresets | src/dsp/surge_plugin.cpp:490-497 | after the registry is built, the preset count is set and the first preset is loaded if there is one |
| Plugin.Instance.BuildDocuments | src/dsp/surge_plugin.cpp:499-501 | the two documents are built from the registry as it stands after setup |
| Plugin.Instance.PopulateParamRegistry | src/dsp/surge_plugin.cpp:153-193 | the slots in use hold exactly the registry of the engine's current parameter table, and the slots after them are untouched |
| Plugin.Instance.FindParam | src/dsp/surge_plugin.cpp:196-203 | the scan answers the first slot in use with exactly that key, or nothing |
| Plugin.Instance.LoadPresetByDisplayIndex | src/dsp/surge_plugin.cpp:209-230 | the new state is the load step of the old one |
| Plugin.Instance.BuildChainParams | src/dsp/surge_plugin.cpp:386-409 | the buffer-and-offset loop produces exactly the chain_params document of the slots in use, and no snprintf on the way is truncated |
| Plugin.Instance.RestoreState | src/dsp/surge_plugin.cpp:575-589 | set_param("state") on the instance is the state step, and it keeps the invariant |
| Plugin.Instance.RestorePresetFrom | src/dsp/surge_plugin.cpp:577-582 | the preset named in the state text, truncated toward zero, is loaded when it is in range |
| Plugin.Instance.RestoreOctaveFrom | src/dsp/surge_plugin.cpp:583-587 | the octave offset named in the state text, truncated toward zero, is stored clamped |
| Plugin.Instance.SelectPreset | src/dsp/surge_plugin.cpp:592-598 | set_param("preset") is the preset step, and it keeps the invariant |
| Plugin.Instance.SetOctave | src/dsp/surge_plugin.cpp:599-604 | set_param("octave_transpose") is the octave step, and it keeps the invariant |
| Plugin.Instance.SetEngineParam | src/dsp/surge_plugin.cpp:610-617 | set_param on any other key is the registry step, and it keeps the invariant: a registered key gets atof of the value clamped into [0, 1], and a NaN is not sent |
| Plugin.CreateInstance | src/dsp/surge_plugin.cpp:415-507 | no instance exactly when the engine could not be constructed; otherwise a fresh instance in the created state around that engine |
| Plugin.DestroyInstance | src/dsp/surge_plugin.cpp:510-520 | a null instance releases nothing; otherwise every resource the instance owns is released exactly once, the instance record last |
| Plugin.OnMidi | src/dsp/surge_plugin.cpp:522-568 | the new state is the MIDI step, the invariant holds, and rendering state is untouched; a null instance does nothing |
| Plugin.SetParam | src/dsp/surge_plugin.cpp:570-618 | dispatch over the reserved keys and the registry yields the set step, keeps the invariant and leaves rendering untouched; a null instance does nothing |
| Plugin.GetParam | src/dsp/surge_plugin.cpp:620-667 | the return value and the buffer are the reply for that key delivered into bufLen bytes; a null instance gives −1 |
| Plugin.GetError | src/dsp/surge_plugin.cpp:704-708 | 0 with an untouched buffer without an instance or an error, and so for every live instance; otherwise the error text through snprintf |
| Plugin.CopyChunk | src/dsp/surge_plugin.cpp:684-698 | the chunk's frames, clipped and interleaved left/right, land at their place in the output, and nothing else is written |
| Plugin.RenderBlock | src/dsp/surge_plugin.cpp:669-702 | exactly 2·frames samples are written: zeros without an instance; otherwise sample k is the clipped left (even k) or right (odd k) value of frame k/2, taken from the engine block it falls in. ceil(frames / 32) blocks are rendered, and nothing else in the state changes |

## Left out

- Floating point: the engine's output, `output_gain` and the ×32767 scaling
  are folded into the engine's `signal`, which already yields integer
  sample units. Only the int32 clipping, the chunking and the interleaving
  are modelled.
- The `%.4f` formatting of continuous values and the `(int)(v + 0.5f)`
  rounding of the others are folded into the engine's `readout`. The engine
  value itself (`getParameter01`) is not modelled.
- CText.Atof: atof reads exact decimal text (sign, digits, an optional
  fraction), and "inf", "infinity" and "nan" in any case as IEEE
  infinities and NaN. Exponents, hexadecimal, "nan(...)" payloads and
  rounding to double precision are not modelled, and the `(float)`
  narrowing is omitted.
- PluginProps.StateRoundTrip: the code stores the parsed preset in a
  `float`, which holds every integer only up to 2^24. The model reads the
  number exactly, so the round trip is proved for every preset index; in
  the code it holds for indices below 2^24.
- CText.TruncToInt: the `(int)` conversion of a finite value outside the
  int range is undefined in C. The model truncates exactly, because
  integers are unbounded here.
- Engine.Synth.Call and Engine.Synth.Process: neither changes the loaded
  patch, and the engine's `readout` is fixed at creation. So a program
  change or a parameter write never switches the patch the registry was
  built from, and a reply never depends on the engine's state. The
  invariant (`ModelInv`, `MidiStepInv`, `ModelInvIgnoresCalls`) relies on
  this.
- PluginProps.EngineParamWrite: follows the corrected clamp of
  "## Findings", which does not send a NaN. The code sends it.
- Plugin.Instance.SetEngineParam: follows the corrected clamp of
  "## Findings", which does not send a NaN. The code sends it.
- CText.Atoi: the overflow of out-of-range numbers is not modelled, because
  integers are unbounded here.
- The engine internals (`process`, `setParameter01`, `getParameter01`,
  `loadPatch`, the DSP): each is an abstract call recorded in the trace.
  `loadPatch(raw)` is taken to install catalogue entry `raw`.
- Engine setup: `setSamplerate`, tempo, song position and
  `audio_processing_active` are not modelled. They reach only engine state.
- `plugin_log` file and host logging, `setenv` of HOME and XDG_DATA_HOME,
  and the exception-driven retry of engine construction in minimal mode.
  The outcome of that retry is the `engine` argument of `CreateInstance`,
  which is null when both attempts failed.
- `calloc` failure, `malloc` failure of the two documents, and the
  `malloc`/`free` lifecycle. `DestroyInstance` gives the release order
  instead, and the null-instance no-op.
- The fixed `ui_hierarchy` literal. It is an argument of creation, and only
  its copy-if-it-fits delivery is modelled.
- `g_host` and `move_plugin_init_v2`: function-pointer wiring.
- The `!inst->synth` guards of `v2_on_midi`, `v2_set_param`,
  `v2_render_block`, `populate_param_registry` and
  `load_preset_by_display_index`. Every instance the model creates has an
  engine, so only the null-instance guards are modelled.
- `error_msg`: the code writes it only on the failure path that frees the
  instance, so every live instance has an empty one.
- The unused `source` argument of `v2_on_midi` and `json_defaults` of
  `v2_create_instance`.
- Frame counts and buffer lengths are natural numbers. Negative `frames`
  or `buf_len` from the host are not modelled.
- The `(int)` conversions in `v2_set_param("state")` follow the corrected
  behaviour of "## Findings": a value that is not finite is ignored.

## Findings

| source | as written | input that shows it | evidently intended | confidence | as-written member | corrected member |
|---|---|---|---|---|---|---|
| src/dsp/surge_plugin.cpp:612-616 | the value is clamped by two comparisons, below 0 and above 1; both are false for NaN, so NaN reaches setParameter01 | set_param(any registered key, "nan") | a text that atof reads as NaN sends nothing, and every value sent lies in [0, 1]; other text that is not a number, which atof reads as 0, still sends 0 | not executed | PluginProps.NanEscapesClamp | PluginState.ClampUnit |
| src/dsp/surge_plugin.cpp:577-586 | the preset and octave_transpose numbers of a saved state go straight into `(int)` conversions, which are undefined for NaN and the infinities | set_param("state", "{\"preset\":nan}") | a field that is not a finite number is ignored (`RestorePreset`, `RestoreOctave`) | not executed | PluginProps.StateNanReachesCast | PluginProps.NonNumberStateIgnored |
