/**
 * The chain_params document: a JSON array describing the two module-level
 * parameters and then every registered engine parameter, written into a
 * fixed 32 KiB buffer that stops taking entries 200 bytes before its end.
 */
module ChainParams {
  import opened CText
  import opened Registry

  const CHAIN_BUFSIZE: nat := 32768
  /** Entries are appended only while the write offset is below this. */
  const GUARD: nat := CHAIN_BUFSIZE - 200
  /** The longest entry a registry entry can produce. */
  const MAX_ENTRY_LEN: nat := 146

  /** The fixed opening: "[" and the descriptions of preset and octave_transpose. */
  const Header: CString := PresetJson + OctaveJson
  const PresetJson: CString := PresetKey + PresetName + IntType + PresetRange
  const OctaveJson: CString := OctaveKey + OctaveName + IntType + OctaveRange
  const PresetKey: CString := "[{\"key\":\"preset\""
  const PresetName: CString := ",\"name\":\"Preset\""
  const PresetRange: CString := ",\"min\":0,\"max\":9999}"
  const OctaveKey: CString := ",{\"key\":\"octave_transpose\""
  const OctaveName: CString := ",\"name\":\"Octave\""
  const OctaveRange: CString := ",\"min\":-3,\"max\":3}"
  const IntType: CString := ",\"type\":\"int\""

  /** valtype 2 is described as "float", every other valtype as "int". */
  function TypeTag(valtype: int): (t: CString)
    ensures t == "float" <==> valtype == 2
    ensures t == "int" <==> valtype != 2
  {
    if valtype == 2 then "float" else "int"
  }

  /** The description of one registered parameter. */
  function EntryJson(e: ParamEntry): (s: CString)
    ensures |s| == EntryLen(e)
    ensures EntryFits(e) ==> |s| <= MAX_ENTRY_LEN
  {
    KeyOpen + e.key + NameOpen + e.displayName + TypeOpen + TypeTag(e.valtype) + UnitRange
  }
  const KeyOpen: CString := ",{\"key\":\""
  const NameOpen: CString := "\",\"name\":\""
  const TypeOpen: CString := "\",\"type\":\""
  const UnitRange: CString := "\",\"min\":0,\"max\":1}"

  /** The length of the description of e: 47 bytes of punctuation and field
   *  names around the key, the name and the type tag. */
  function EntryLen(e: ParamEntry): nat {
    47 + |e.key| + |e.displayName| + |TypeTag(e.valtype)|
  }

  /** The document build_chain_params leaves for registry es. */
  function ChainParamsDoc(es: seq<ParamEntry>): CString {
    Emit(es, 0, Header)
  }

  /** The rest of the build once entries es[0..i) are written and doc is the
   *  text so far: entry i is appended while doc is shorter than GUARD, and
   *  the closing bracket ends the document. */
  function Emit(es: seq<ParamEntry>, i: nat, doc: CString): CString
    requires i <= |es|
    decreases |es| - i
  {
    if i == |es| || |doc| >= GUARD then doc + "]"
    else Emit(es, i + 1, doc + EntryJson(es[i]))
  }

  // ---------------------------------------------------------------------
  // The document as a whole
  // ---------------------------------------------------------------------

  /** The descriptions of es[0..n), in order. */
  function EntriesUpTo(es: seq<ParamEntry>, n: nat): CString
    requires n <= |es|
  {
    if n == 0 then "" else EntriesUpTo(es, n - 1) + EntryJson(es[n - 1])
  }

  /** How many entries a build takes when it reaches entry i at write offset
   *  `offset`, computed from the entries' lengths alone. */
  function StopIndex(es: seq<ParamEntry>, i: nat, offset: int): (n: nat)
    requires i <= |es|
    ensures i <= n <= |es|
    decreases |es| - i
  {
    if i == |es| || offset >= GUARD then i
    else StopIndex(es, i + 1, offset + EntryLen(es[i]))
  }

  /** The total length of the descriptions of es[0..n). */
  function LenUpTo(es: seq<ParamEntry>, n: nat): nat
    requires n <= |es|
  {
    if n == 0 then 0 else LenUpTo(es, n - 1) + EntryLen(es[n - 1])
  }

  lemma {:induction false} EntriesLength(es: seq<ParamEntry>, n: nat)
    requires n <= |es|
    ensures |EntriesUpTo(es, n)| == LenUpTo(es, n)
  {
    if n > 0 {
      EntriesLength(es, n - 1);
    }
  }

  /** From entry i on, after text h and the descriptions of es[0..i), the
   *  build appends exactly the entries StopIndex counts. */
  lemma {:induction false} EmitTakes(es: seq<ParamEntry>, i: nat, h: CString, doc: CString)
    requires i <= |es| && doc == h + EntriesUpTo(es, i)
    ensures Emit(es, i, doc) == h + EntriesUpTo(es, StopIndex(es, i, |doc|)) + "]"
    decreases |es| - i
  {
    if i < |es| && |doc| < GUARD {
      var next := doc + EntryJson(es[i]);
      ConcatAssoc(h, EntriesUpTo(es, i), EntryJson(es[i]));
      assert next == h + EntriesUpTo(es, i + 1);
      assert |next| == |doc| + EntryLen(es[i]);
      assert StopIndex(es, i, |doc|) == StopIndex(es, i + 1, |next|);
      EmitTakes(es, i + 1, h, next);
    }
  }

  /** When the guard stops the build early, the offset has reached GUARD. */
  lemma {:induction false} StopsAtGuard(es: seq<ParamEntry>, i: nat, offset: int)
    requires i <= |es|
    ensures StopIndex(es, i, offset) < |es| ==>
              offset - LenUpTo(es, i) + LenUpTo(es, StopIndex(es, i, offset)) >= GUARD
    decreases |es| - i
  {
    if i < |es| && offset < GUARD {
      StopsAtGuard(es, i + 1, offset + EntryLen(es[i]));
    }
  }

  /** Every entry the build takes is started below GUARD. */
  lemma {:induction false} TakenBelowGuard(es: seq<ParamEntry>, i: nat, offset: int)
    requires i <= |es|
    ensures forall k :: i <= k < StopIndex(es, i, offset) ==> offset - LenUpTo(es, i) + LenUpTo(es, k) < GUARD
    decreases |es| - i
  {
    if i < |es| && offset < GUARD {
      TakenBelowGuard(es, i + 1, offset + EntryLen(es[i]));
    }
  }

  /** Every entry is tried below GUARD, so the offset never passes GUARD + 145. */
  lemma {:induction false} StopBound(es: seq<ParamEntry>, i: nat, offset: int)
    requires i <= |es| && offset < GUARD
    requires AllFit(es)
    ensures offset - LenUpTo(es, i) + LenUpTo(es, StopIndex(es, i, offset)) < GUARD + MAX_ENTRY_LEN
    decreases |es| - i
  {
    if i < |es| {
      var next := offset + EntryLen(es[i]);
      assert EntryFits(es[i]);
      if next < GUARD {
        StopBound(es, i + 1, next);
      } else {
        assert StopIndex(es, i + 1, next) == i + 1;
      }
    }
  }

  /** With room for all of them, every entry is taken. */
  lemma {:induction false} StopAtEnd(es: seq<ParamEntry>, i: nat, offset: int)
    requires i <= |es|
    requires AllFit(es)
    requires offset + MAX_ENTRY_LEN * (|es| - 1 - i) < GUARD
    ensures StopIndex(es, i, offset) == |es|
    decreases |es| - i
  {
    if i < |es| {
      assert EntryFits(es[i]);
      StopAtEnd(es, i + 1, offset + EntryLen(es[i]));
    }
  }

  /** The document is the header, the descriptions of the first n registry
   *  entries and the closing bracket, where every one of those n entries
   *  was started below GUARD and a registry longer than n had reached it;
   *  the document never fills the buffer, so no snprintf truncates it, and
   *  a registry of up to 223 entries is described in full. */
  lemma ChainParamsDocSpec(es: seq<ParamEntry>)
    requires AllFit(es)
    ensures var n := StopIndex(es, 0, |Header|);
      && ChainParamsDoc(es) == Header + EntriesUpTo(es, n) + "]"
      && (forall k :: 0 <= k < n ==> |Header| + |EntriesUpTo(es, k)| < GUARD)
      && (n < |es| ==> |Header| + |EntriesUpTo(es, n)| >= GUARD)
      && |ChainParamsDoc(es)| < CHAIN_BUFSIZE
      && (|es| <= 223 ==> n == |es|)
  {
    assert Header + EntriesUpTo(es, 0) == Header;
    EmitTakes(es, 0, Header, Header);
    var n := StopIndex(es, 0, |Header|);
    EntriesLength(es, n);
    forall k | 0 <= k < n
      ensures |EntriesUpTo(es, k)| == LenUpTo(es, k)
    {
      EntriesLength(es, k);
    }
    TakenBelowGuard(es, 0, |Header|);
    StopsAtGuard(es, 0, |Header|);
    StopBound(es, 0, |Header|);
    if |es| <= 223 {
      StopAtEnd(es, 0, |Header|);
    }
  }
}
