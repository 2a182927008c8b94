/**
 * The parameter registry: the scene-A parameters of the loaded patch, each
 * under a short key (its storage name without the "a_" prefix), in table
 * order, at most MAX_SURGE_PARAMS of them; lookup is by exact key.
 */
module Registry {
  import opened CText
  import opened Engine

  const MAX_SURGE_PARAMS: nat := 300
  /** char key[48] and char display_name[48] keep 47 characters and a NUL. */
  const KEY_CAPACITY: nat := 47
  /** The scene number of scene A, the only scene the registry exposes. */
  const SCENE_A := 1

  datatype ParamEntry = ParamEntry(key: CString, displayName: CString, surgeId: int, valtype: int)

  /** The contents of a never-written slot (the instance is zero-allocated). */
  const EMPTY_ENTRY := ParamEntry("", "", 0, 0)

  /** A table slot the registry takes: present, in scene A, with an identifier. */
  predicate Admitted(p: ParamRecord) {
    p.present && p.scene == SCENE_A && p.idLookupOk
  }

  /** The storage name without a leading "a_". */
  function StripScenePrefix(s: CString): (r: CString)
    ensures |s| >= 2 && s[..2] == "a_" ==> r == s[2..]
    ensures !(|s| >= 2 && s[..2] == "a_") ==> r == s
  {
    if |s| >= 2 && s[0] == 'a' && s[1] == '_' then s[2..] else s
  }

  /** The registry key of a storage name. */
  function KeyOf(storageName: CString): (k: CString)
    ensures |k| <= KEY_CAPACITY && |k| <= |StripScenePrefix(storageName)|
    ensures k == StripScenePrefix(storageName)[..|k|]
    ensures |StripScenePrefix(storageName)| <= KEY_CAPACITY ==> k == StripScenePrefix(storageName)
  {
    Truncate(StripScenePrefix(storageName), KEY_CAPACITY)
  }

  /** Keys are neither non-empty nor unique: the storage names "a_" and ""
   *  both give the empty key, and "a_x" and "x" give the same one. */
  lemma KeyCollisions()
    ensures KeyOf("a_") == "" && KeyOf("") == ""
    ensures KeyOf("a_x") == KeyOf("x") == "x"
  {
    assert "a_"[2..] == "";
    assert "a_x"[2..] == "x";
  }

  /** The entry the registry writes for an admitted table slot. */
  function MakeEntry(p: ParamRecord): (e: ParamEntry)
    ensures EntryFits(e)
  {
    ParamEntry(KeyOf(p.storageName), Truncate(p.fullName, KEY_CAPACITY), p.id, p.valtype)
  }

  /** An entry whose key and display name fit their 48-byte fields. */
  predicate EntryFits(e: ParamEntry) {
    |e.key| <= KEY_CAPACITY && |e.displayName| <= KEY_CAPACITY
  }

  predicate AllFit(es: seq<ParamEntry>) {
    forall k :: 0 <= k < |es| ==> EntryFits(es[k])
  }

  /** The indices below n of the slots the registry takes, in table order. */
  function SelectedUpTo(t: seq<ParamRecord>, n: nat): (r: seq<nat>)
    requires n <= |t|
    ensures |r| <= n
    ensures forall k :: 0 <= k < |r| ==> r[k] < n
  {
    if n == 0 then []
    else SelectedUpTo(t, n - 1) + (if Admitted(t[n - 1]) then [n - 1] else [])
  }

  function Selected(t: seq<ParamRecord>): seq<nat> {
    SelectedUpTo(t, |t|)
  }

  /** What a rebuild over table t leaves in params[0..param_count): the scan
   *  of the whole table, cut at the ceiling. */
  function RegistryOf(t: seq<ParamRecord>): (r: seq<ParamEntry>)
    ensures |r| <= MAX_SURGE_PARAMS
  {
    var all := RegistryUpTo(t, |t|);
    if |all| <= MAX_SURGE_PARAMS then all else all[..MAX_SURGE_PARAMS]
  }

  /** The entries a scan of the first n slots writes, ceiling aside. */
  function RegistryUpTo(t: seq<ParamRecord>, n: nat): seq<ParamEntry>
    requires n <= |t|
  {
    if n == 0 then [] else RegistryUpTo(t, n - 1) + (if Admitted(t[n - 1]) then [MakeEntry(t[n - 1])] else [])
  }

  /** find_param: the first entry whose key is exactly key. */
  function FirstMatch(es: seq<ParamEntry>, key: string): (r: Option<nat>)
    ensures r.Some? ==> r.value < |es| && es[r.value].key == key
    ensures r.Some? ==> forall j :: 0 <= j < r.value ==> es[j].key != key
    ensures r.None? ==> forall j :: 0 <= j < |es| ==> es[j].key != key
  {
    if es == [] then None
    else if es[0].key == key then Some(0)
    else
      match FirstMatch(es[1..], key)
      case None => None
      case Some(i) => Some(i + 1)
  }

  // ---------------------------------------------------------------------
  // Properties of a rebuild
  // ---------------------------------------------------------------------

  /** A shorter scan selects a prefix of what a longer scan selects. */
  lemma {:induction false} SelectedPrefix(t: seq<ParamRecord>, n: nat, m: nat)
    requires n <= m <= |t|
    ensures |SelectedUpTo(t, n)| <= |SelectedUpTo(t, m)|
    ensures SelectedUpTo(t, n) == SelectedUpTo(t, m)[..|SelectedUpTo(t, n)|]
    decreases m - n
  {
    if n < m {
      SelectedPrefix(t, n, m - 1);
      var a := SelectedUpTo(t, m - 1);
      assert SelectedUpTo(t, m)[..|a|] == a;
    }
  }

  /** Selected indices strictly increase: entries keep table order. */
  lemma {:induction false} SelectedIncreasing(t: seq<ParamRecord>, n: nat)
    requires n <= |t|
    ensures forall i, j :: 0 <= i < j < |SelectedUpTo(t, n)| ==> SelectedUpTo(t, n)[i] < SelectedUpTo(t, n)[j]
  {
    if n > 0 {
      SelectedIncreasing(t, n - 1);
    }
  }

  /** Every selected index is an admitted slot, and every admitted slot is selected. */
  lemma {:induction false} SelectedExactly(t: seq<ParamRecord>, n: nat)
    requires n <= |t|
    ensures forall k :: 0 <= k < |SelectedUpTo(t, n)| ==> Admitted(t[SelectedUpTo(t, n)[k]])
    ensures forall i :: 0 <= i < n && Admitted(t[i]) ==> i in SelectedUpTo(t, n)
  {
    if n > 0 {
      SelectedExactly(t, n - 1);
    }
  }

  /** A shorter scan writes a prefix of what a longer scan writes. */
  lemma {:induction false} RegistryUpToPrefix(t: seq<ParamRecord>, n: nat, m: nat)
    requires n <= m <= |t|
    ensures |RegistryUpTo(t, n)| <= |RegistryUpTo(t, m)|
    ensures RegistryUpTo(t, n) == RegistryUpTo(t, m)[..|RegistryUpTo(t, n)|]
    decreases m - n
  {
    if n < m {
      RegistryUpToPrefix(t, n, m - 1);
      var a := RegistryUpTo(t, m - 1);
      assert RegistryUpTo(t, m)[..|a|] == a;
    }
  }

  /** The scan writes one entry per selected slot, in the selected order. */
  lemma {:induction false} RegistryUpToSelected(t: seq<ParamRecord>, n: nat)
    requires n <= |t|
    ensures |RegistryUpTo(t, n)| == |SelectedUpTo(t, n)|
    ensures forall k :: 0 <= k < |RegistryUpTo(t, n)| ==> RegistryUpTo(t, n)[k] == MakeEntry(t[SelectedUpTo(t, n)[k]])
  {
    if n > 0 {
      RegistryUpToSelected(t, n - 1);
    }
  }

  /** A rebuild registers, in increasing table order, exactly the admitted slots
   *  up to the ceiling, each under its stripped and truncated key. */
  lemma RegistryOfSpec(t: seq<ParamRecord>)
    ensures |RegistryOf(t)| == Min(|Selected(t)|, MAX_SURGE_PARAMS)
    ensures forall k :: 0 <= k < |RegistryOf(t)| ==>
              Admitted(t[Selected(t)[k]]) &&
              RegistryOf(t)[k] == MakeEntry(t[Selected(t)[k]]) &&
              RegistryOf(t)[k].key == KeyOf(t[Selected(t)[k]].storageName) &&
              RegistryOf(t)[k].displayName == Truncate(t[Selected(t)[k]].fullName, KEY_CAPACITY)
    ensures forall i, j :: 0 <= i < j < |RegistryOf(t)| ==> Selected(t)[i] < Selected(t)[j]
    ensures |Selected(t)| <= MAX_SURGE_PARAMS ==>
              forall i :: 0 <= i < |t| && Admitted(t[i]) ==> i in Selected(t)[..|RegistryOf(t)|]
  {
    RegistryUpToSelected(t, |t|);
    SelectedIncreasing(t, |t|);
    SelectedExactly(t, |t|);
    if |Selected(t)| <= MAX_SURGE_PARAMS {
      assert Selected(t)[..|RegistryOf(t)|] == Selected(t);
    }
  }

  /** A scan that stopped at the end of the table, or once the slots were
   *  full, has written exactly the registry of the whole table. */
  lemma RegistryOfScan(t: seq<ParamRecord>, i: nat)
    requires i <= |t| && |RegistryUpTo(t, i)| <= MAX_SURGE_PARAMS
    requires i == |t| || |RegistryUpTo(t, i)| == MAX_SURGE_PARAMS
    ensures RegistryOf(t) == RegistryUpTo(t, i)
  {
    RegistryUpToPrefix(t, i, |t|);
  }

  /** Every registered key and display name fits its field. */
  lemma RegistryFits(t: seq<ParamRecord>)
    ensures AllFit(RegistryOf(t))
  {
    RegistryUpToSelected(t, |t|);
  }
}
