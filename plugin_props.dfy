/**
 * Properties of the instance state: what creation, preset loading, MIDI and
 * parameter writes keep invariant, and how parameter reads answer writes.
 */
module PluginProps {
  import opened CText
  import opened Engine
  import opened Midi
  import opened Registry
  import opened ChainParams
  import opened PluginState

  /** A new instance satisfies the invariant, shows preset 0 and octave 0, and
   *  its chain_params describes the registry it was created with. */
  lemma CreatedInv(library: seq<Patch>, ordering: seq<int>, initial: Patch,
                   calls: seq<EngineCall>, uiHierarchy: CString)
    requires OrderingValid(library, ordering)
    ensures ModelInv(Created(library, ordering, initial, calls, uiHierarchy))
    ensures Created(library, ordering, initial, calls, uiHierarchy).currentPreset == 0
    ensures Created(library, ordering, initial, calls, uiHierarchy).octave == 0
    ensures Created(library, ordering, initial, calls, uiHierarchy).chainParams
         == ChainParamsDoc(Created(library, ordering, initial, calls, uiHierarchy).registry)
    ensures |ordering| > 0 ==> Created(library, ordering, initial, calls, uiHierarchy).patch == library[ordering[0]]
    ensures |ordering| == 0 ==> Created(library, ordering, initial, calls, uiHierarchy).patch == initial
  {
  }

  /** Creation is the booted state with its two documents. */
  lemma CreatedFromBooted(library: seq<Patch>, ordering: seq<int>, initial: Patch,
                          calls: seq<EngineCall>, uiHierarchy: CString, booted: Model)
    requires OrderingValid(library, ordering)
    requires booted == Booted(library, ordering, initial, calls)
    ensures booted.(uiHierarchy := uiHierarchy, chainParams := ChainParamsDoc(booted.registry))
         == Created(library, ordering, initial, calls, uiHierarchy)
    ensures ModelInv(booted.(uiHierarchy := uiHierarchy, chainParams := ChainParamsDoc(booted.registry)))
  {
    CreatedInv(library, ordering, initial, calls, uiHierarchy);
  }

  /** The engine trace plays no part in the invariant. */
  lemma ModelInvIgnoresCalls(m: Model, calls: seq<EngineCall>)
    requires ModelInv(m)
    ensures ModelInv(m.(calls := calls))
  {
  }

  /** v2_on_midi keeps the invariant. */
  lemma MidiStepInv(m: Model, msg: seq<bv8>)
    requires ModelInv(m)
    ensures ModelInv(MidiStep(m, msg))
  {
  }

  /** A load keeps the invariant. */
  lemma LoadStepInv(m: Model, idx: int)
    requires ModelInv(m)
    ensures ModelInv(LoadStep(m, idx))
  {
  }

  /** v2_set_param keeps the invariant. */
  lemma SetStepInv(m: Model, key: CString, val: CString)
    requires ModelInv(m)
    ensures ModelInv(SetStep(m, key, val))
  {
  }

  // ---------------------------------------------------------------------
  // Preset loading
  // ---------------------------------------------------------------------

  /** A display index outside the ordering changes nothing; any other loads
   *  its patch, shows its index and name, rebuilds the registry from it, and
   *  leaves chain_params as it was built at creation. */
  lemma LoadStepEffect(m: Model, idx: int)
    requires ModelInv(m)
    ensures !(0 <= idx < m.presetCount) ==> LoadStep(m, idx) == m
    ensures 0 <= idx < m.presetCount ==>
              && LoadStep(m, idx).patch == m.library[m.ordering[idx]]
              && LoadStep(m, idx).currentPreset == idx
              && LoadStep(m, idx).presetName == PresetNameFor(m.library[m.ordering[idx]].name)
              && LoadStep(m, idx).registry == RegistryOf(m.library[m.ordering[idx]].params)
              && LoadStep(m, idx).chainParams == m.chainParams
              && LoadStep(m, idx).octave == m.octave
              && LoadStep(m, idx).calls == m.calls + [EngineCall.LoadPatch(m.ordering[idx])]
  {
  }

  /** Loading the preset already shown only records another engine load. */
  lemma ReloadKeepsState(m: Model)
    requires ModelInv(m) && m.presetCount > 0
    ensures LoadStep(m, m.currentPreset)
         == m.(calls := m.calls + [EngineCall.LoadPatch(m.ordering[m.currentPreset])])
  {
  }

  // ---------------------------------------------------------------------
  // The "state" document
  // ---------------------------------------------------------------------

  /** Where json_get_number starts reading when the first match of the
   *  search pattern follows head. */
  lemma FirstMatchAfter(json: CString, pat: CString, head: CString, number: CString)
    requires json == head + (pat + number)
    requires forall j :: 0 <= j < |head| ==> !OccursAt(json, pat, j)
    ensures FindSub(json, pat) == Some(|head|)
    ensures json[|head| + |pat|..] == number
  {
    var i := |head|;
    assert json[i..] == pat + number;
    assert json[i..i + |pat|] == (pat + number)[..|pat|] == pat;
    FindSubAt(json, pat, i);
  }

  /** atof reads back a printed integer followed by neither a digit nor '.',
   *  leading blanks skipped. */
  lemma AtofOfPrinted(n: int, rest: CString)
    requires rest == [] || (!IsDigit(rest[0]) && rest[0] != '.')
    ensures Atof(SkipBlanks(FormatInt(n) + rest)) == Finite(n as real)
  {
    var number := FormatInt(n) + rest;
    assert SkipBlanks(number) == number by {
      assert number[0] == FormatInt(n)[0];
    }
    AtofOfFormat(n, rest);
  }

  /** json_get_number reads the text right after the first match of "key". */
  lemma JsonNumberAt(json: CString, key: CString, i: nat)
    requires FindSub(json, SearchPattern(key)) == Some(i)
    requires i + |SearchPattern(key)| <= |json|
    ensures JsonGetNumber(json, key) == Some(Atof(SkipBlanks(json[i + |SearchPattern(key)|..])))
  {
  }

  /** The key of the octave offset. */
  const OctaveParamKey: CString := "octave_transpose"

  /** The text json_get_number looks for to find the preset. */
  const PresetPattern: CString := "\"preset\":"
  /** The text json_get_number looks for to find the octave offset. */
  const OctavePattern: CString := "\"octave_transpose\":"

  /** In text that opens with the preset field, json_get_number reads the
   *  preset from what follows the field. */
  lemma PresetFieldFirst(t: CString)
    ensures JsonGetNumber(PresetField + t, "preset") == Some(Atof(SkipBlanks(t)))
  {
    var s := PresetField + t;
    var pat := PresetPattern;
    assert SearchPattern("preset") == pat;
    assert PresetField == "{" + pat;
    ConcatAssoc("{", pat, t);
    MismatchAt(s, pat, 0, 0);
    FirstMatchAfter(s, pat, "{", t);
    JsonNumberAt(s, "preset", 1);
  }

  /** Text that begins with the preset field, a printed number and a comma
   *  has no match of the octave_transpose pattern starting in that part. */
  lemma HeadHasNoOctaveMatch(s: string, d: string)
    requires forall k :: 0 <= k < |d| ==> d[k] == '-' || IsDigit(d[k])
    requires |PresetField + d + ","| <= |s|
    requires s[..|PresetField + d + ","|] == PresetField + d + ","
    ensures forall j :: 0 <= j < |PresetField + d + ","| ==> !OccursAt(s, OctavePattern, j)
  {
    var head := PresetField + d + ",";
    forall j | 0 <= j < |head|
      ensures !OccursAt(s, OctavePattern, j)
    {
      if j == 1 || j == 8 {
        assert s[j + 1] == s[..|head|][j + 1] == head[j + 1];
        MismatchAt(s, OctavePattern, j, 1);
      } else {
        assert s[j] == s[..|head|][j] == head[j];
        MismatchAt(s, OctavePattern, j, 0);
      }
    }
  }

  /** In text made of the preset field, a printed number d, the octave
   *  field and more text t, json_get_number reads the octave offset from t:
   *  the preset number never starts a match of the octave pattern. */
  lemma OctaveFieldAfterPreset(d: CString, t: CString)
    requires forall k :: 0 <= k < |d| ==> d[k] == '-' || IsDigit(d[k])
    ensures JsonGetNumber(PresetField + d + OctaveField + t, "octave_transpose") == Some(Atof(SkipBlanks(t)))
  {
    var s := PresetField + d + OctaveField + t;
    var i := |PresetField + d + ","|;
    assert SearchPattern(OctaveParamKey) == OctavePattern;
    OctaveMatchAt(d, t);
    JsonNumberAt(s, OctaveParamKey, i);
  }

  /** The first octave pattern in such a text is the one after the preset
   *  field, and the octave number text follows it. */
  lemma OctaveMatchAt(d: CString, t: CString)
    requires forall k :: 0 <= k < |d| ==> d[k] == '-' || IsDigit(d[k])
    ensures FindSub(PresetField + d + OctaveField + t, OctavePattern) == Some(|PresetField + d + ","|)
    ensures (PresetField + d + OctaveField + t)[|PresetField + d + ","| + |OctavePattern|..] == t
  {
    var s := PresetField + d + OctaveField + t;
    var head := PresetField + d + ",";
    assert OctaveField == "," + OctavePattern;
    ConcatAssoc(PresetField + d, ",", OctavePattern);
    ConcatAssoc(head, OctavePattern, t);
    assert s[..|head|] == head;
    HeadHasNoOctaveMatch(s, d);
    FirstMatchAfter(s, OctavePattern, head, t);
  }

  /** json_get_number reads back the preset get_param("state") wrote. */
  lemma StatePresetReadBack(p: int, o: int)
    ensures JsonGetNumber(StateJson(p, o), "preset") == Some(Finite(p as real))
  {
    var d, e := FormatInt(p), FormatInt(o);
    var rest := OctaveField + e + "}";
    calc {
      StateJson(p, o);
      PresetField + d + OctaveField + e + "}";
      { ConcatAssoc(OctaveField, e, "}"); ConcatAssoc(PresetField + d + OctaveField, e, "}");
        ConcatAssoc(PresetField + d, OctaveField, e + "}"); }
      PresetField + d + rest;
      { ConcatAssoc(PresetField, d, rest); }
      PresetField + (d + rest);
    }
    PresetFieldFirst(d + rest);
    assert rest[0] == ',';
    AtofOfPrinted(p, rest);
  }

  /** json_get_number reads back the octave offset get_param("state") wrote. */
  lemma StateOctaveReadBack(p: int, o: int)
    ensures JsonGetNumber(StateJson(p, o), "octave_transpose") == Some(Finite(o as real))
  {
    var d, e := FormatInt(p), FormatInt(o);
    ConcatAssoc(PresetField + d + OctaveField, e, "}");
    assert StateJson(p, o) == PresetField + d + OctaveField + (e + "}");
    OctaveFieldAfterPreset(d, e + "}");
    AtofOfPrinted(o, "}");
  }

  /** Writing back the "state" text: the preset it names is loaded when in
   *  range, and the octave offset is clamped. */
  lemma StateWrite(m: Model, p: int, o: int)
    requires ModelInv(m)
    ensures SetStep(m, "state", StateJson(p, o))
         == (if 0 <= p < m.presetCount then LoadStep(m, p) else m).(octave := ClampOctave(o))
  {
    StatePresetReadBack(p, o);
    StateOctaveReadBack(p, o);
    TruncOfWhole(p);
    TruncOfWhole(o);
  }

  /** Saving and restoring the state: feeding the text get_param("state")
   *  returns to set_param("state") reloads the current preset and changes
   *  nothing else. */
  lemma StateRoundTrip(m: Model)
    requires ModelInv(m)
    ensures GetReply(m, "state") == Text(StateJson(m.currentPreset, m.octave))
    ensures SetStep(m, "state", StateJson(m.currentPreset, m.octave))
         == if m.presetCount > 0 then m.(calls := m.calls + [EngineCall.LoadPatch(m.ordering[m.currentPreset])]) else m
  {
    StateWrite(m, m.currentPreset, m.octave);
    if m.presetCount > 0 {
      ReloadKeepsState(m);
    }
  }

  // ---------------------------------------------------------------------
  // Module-level parameters
  // ---------------------------------------------------------------------

  /** A preset index written as text is read back by get_param("preset");
   *  an index out of range is ignored. */
  lemma PresetRoundTrip(m: Model, i: int)
    requires ModelInv(m)
    ensures 0 <= i < m.presetCount ==>
              && SetStep(m, "preset", FormatInt(i)) == LoadStep(m, i)
              && GetReply(SetStep(m, "preset", FormatInt(i)), "preset") == Text(FormatInt(i))
    ensures !(0 <= i < m.presetCount) ==> SetStep(m, "preset", FormatInt(i)) == m
  {
    AtoiOfFormat(i, []);
    assert FormatInt(i) + [] == FormatInt(i);
  }

  /** An octave offset written as text is read back clamped into [-3, 3]. */
  lemma OctaveRoundTrip(m: Model, n: int)
    requires ModelInv(m)
    ensures SetStep(m, "octave_transpose", FormatInt(n)) == m.(octave := ClampOctave(n))
    ensures GetReply(SetStep(m, "octave_transpose", FormatInt(n)), "octave_transpose")
         == Text(FormatInt(ClampOctave(n)))
  {
    AtoiOfFormat(n, []);
    assert FormatInt(n) + [] == FormatInt(n);
  }

  /** all_notes_off reaches the engine and changes nothing else. */
  lemma AllNotesOffOnlyCalls(m: Model, val: CString)
    requires ModelInv(m)
    ensures SetStep(m, "all_notes_off", val) == m.(calls := m.calls + [EngineCall.AllNotesOff])
  {
  }

  // ---------------------------------------------------------------------
  // Engine parameters
  // ---------------------------------------------------------------------

  /** A write to a registered key sends the engine, for the same engine
   *  parameter a read of that key reports, the value atof reads held into
   *  [0, 1]: exactly that value when it is already in range, 0 below the
   *  range (negative infinity included), 1 above it (positive infinity
   *  included). A NaN is not sent at all. */
  lemma EngineParamWrite(m: Model, key: CString, val: CString)
    requires ModelInv(m) && !IsModuleSetKey(key) && !IsModuleGetKey(key)
    requires FirstMatch(m.registry, key).Some?
    ensures GetReply(m, key).EngineValue?
    ensures Atof(val).NaN? ==> SetStep(m, key, val) == m
    ensures !Atof(val).NaN? ==>
              exists v: real :: (0.0 <= v <= 1.0 &&
                SetStep(m, key, val) == m.(calls := m.calls + [SetParameter01(GetReply(m, key).id, v)]))
    ensures Atof(val).Finite? && 0.0 <= Atof(val).value <= 1.0 ==>
              SetStep(m, key, val) == m.(calls := m.calls + [SetParameter01(GetReply(m, key).id, Atof(val).value)])
    ensures FloatLess(Atof(val), 0.0) ==>
              SetStep(m, key, val) == m.(calls := m.calls + [SetParameter01(GetReply(m, key).id, 0.0)])
    ensures FloatGreater(Atof(val), 1.0) ==>
              SetStep(m, key, val) == m.(calls := m.calls + [SetParameter01(GetReply(m, key).id, 1.0)])
  {
    var i := FirstMatch(m.registry, key).value;
    var r := ClampUnit(Atof(val));
    if r.Some? {
      assert SetStep(m, key, val) == m.(calls := m.calls + [SetParameter01(m.registry[i].surgeId, r.value)]);
    }
  }

  /** The comparisons as written let NaN through: set_param(key, "nan")
   *  hands the engine a value outside [0, 1]. */
  lemma NanEscapesClamp()
    ensures Atof("nan") == NaN
    ensures ClampAsWritten(Atof("nan")) == NaN
    ensures !(ClampAsWritten(Atof("nan")).Finite? && 0.0 <= ClampAsWritten(Atof("nan")).value <= 1.0)
  {
    assert StartsNoCase("nan", "nan");
    assert [] + "nan" == "nan";
    AtofOfNan([], "nan");
  }

  /** On every value but NaN the clamp as written and the clamp the model
   *  uses agree. */
  lemma ClampAgreesOnNumbers(v: Float)
    requires !v.NaN?
    ensures ClampAsWritten(v) == Finite(ClampUnit(v).value)
  {
  }

  /** The saved state "{"preset":nan}" reaches the (int) conversion with a
   *  NaN, for which C leaves the result undefined. */
  lemma StateNanReachesCast()
    ensures JsonGetNumber(NanState, "preset") == Some(NaN)
  {
    var s := NanState;
    var pat := SearchPattern("preset");
    assert s == "{" + (pat + "nan}");
    MismatchAt(s, pat, 0, 0);
    FirstMatchAfter(s, pat, "{", "nan}");
    JsonNumberAt(s, "preset", 1);
    AtofOfNanText();
  }

  /** What json_get_number reads from the text after the preset pattern. */
  lemma AtofOfNanText()
    ensures Atof(SkipBlanks("nan}")) == NaN
  {
    assert SkipBlanks("nan}") == "nan}";
    assert StartsNoCase("nan}", "nan");
    assert [] + "nan}" == "nan}";
    AtofOfNan([], "nan}");
  }
  const NanState: CString := "{\"preset\":nan}"

  /** A saved state whose preset or octave offset is not a finite number
   *  leaves that part of the instance as it was. */
  lemma NonNumberStateIgnored(m: Model, json: CString)
    requires ModelInv(m)
    ensures (match JsonGetNumber(json, "preset") case Some(v) => !v.Finite? case None => true) ==>
              RestorePreset(m, json) == m
    ensures (match JsonGetNumber(json, "octave_transpose") case Some(v) => !v.Finite? case None => true) ==>
              RestoreOctave(m, json) == m
  {
  }

  /** A key that is neither a module-level key nor registered is ignored by
   *  set_param and answered with -1 by get_param. */
  lemma UnknownKey(m: Model, key: CString, val: CString, bufLen: nat, readout: (int, bool) -> CString)
    requires ModelInv(m) && !IsModuleSetKey(key) && !IsModuleGetKey(key)
    requires forall k :: 0 <= k < |m.registry| ==> m.registry[k].key != key
    ensures SetStep(m, key, val) == m
    ensures Deliver(GetReply(m, key), bufLen, readout) == Output(-1, None)
  {
    assert FirstMatch(m.registry, key).None?;
  }
}
