/** Deep merge of configuration trees, and the sync of a configuration file. */
module ConfigMerge {
  import opened Prelude

  /** A parsed value that is not a dictionary is only known by its text and by being falsy or not. */
  datatype Tree = Scalar(text: string, falsy: bool) | Dict(pairs: seq<Pair>)

  datatype Pair = Pair(key: string, value: Tree)

  // ---- ordered dictionaries ----

  function IndexOf(d: seq<Pair>, key: string): (r: Option<nat>)
    ensures r.Some? ==> r.value < |d| && d[r.value].key == key
    ensures r.Some? ==> forall i :: r.value < i < |d| ==> d[i].key != key
    ensures r.None? ==> forall i :: 0 <= i < |d| ==> d[i].key != key
  {
    if d == [] then None
    else if d[|d| - 1].key == key then Some(|d| - 1)
    else IndexOf(d[..|d| - 1], key)
  }

  function Get(d: seq<Pair>, key: string): Option<Tree> {
    var i := IndexOf(d, key);
    if i.Some? then Some(d[i.value].value) else None
  }

  /** `d[key] = value`: an existing key keeps its position. */
  function Put(d: seq<Pair>, key: string, value: Tree): seq<Pair> {
    var i := IndexOf(d, key);
    if i.Some? then d[i.value := Pair(key, value)] else d + [Pair(key, value)]
  }

  predicate DistinctKeys(d: seq<Pair>) {
    forall i, j :: 0 <= i < j < |d| ==> d[i].key != d[j].key
  }

  /** No dictionary in the tree has a key twice. */
  predicate WellFormed(t: Tree) {
    t.Dict? ==> DistinctKeys(t.pairs) && forall p :: p in t.pairs ==> WellFormed(p.value)
  }

  lemma GetAt(d: seq<Pair>, i: nat)
    requires DistinctKeys(d) && i < |d|
    ensures IndexOf(d, d[i].key) == Some(i) && Get(d, d[i].key) == Some(d[i].value)
  {
  }

  lemma GetPut(d: seq<Pair>, key: string, value: Tree, k: string)
    requires DistinctKeys(d)
    ensures DistinctKeys(Put(d, key, value))
    ensures Get(Put(d, key, value), k) == if k == key then Some(value) else Get(d, k)
  {
    var d' := Put(d, key, value);
    assert IndexOf(d, key).None? ==> d'[|d|] == Pair(key, value);
    if Get(d', k).Some? { GetAt(d', IndexOf(d', k).value); }
    if Get(d, k).Some? {
      var i := IndexOf(d, k).value;
      assert d'[i].key == k;
      GetAt(d', i);
    }
    if k == key {
      var i := if IndexOf(d, key).Some? then IndexOf(d, key).value else |d|;
      assert d'[i] == Pair(key, value);
      GetAt(d', i);
    }
  }

  // ---- the merge ----

  /** `result[key] = ...` for one item of the override. */
  function MergeItem(d: seq<Pair>, p: Pair): seq<Pair>
    decreases p, 0
  {
    var prior := Get(d, p.key);
    if prior.Some? && prior.value.Dict? && p.value.Dict?
    then Put(d, p.key, Dict(Merge(prior.value.pairs, p.value.pairs)))
    else Put(d, p.key, p.value)
  }

  function Merge(base: seq<Pair>, override: seq<Pair>): seq<Pair>
    decreases override, 1
  {
    if override == [] then base
    else MergeItem(Merge(base, override[..|override| - 1]), override[|override| - 1])
  }

  /** The value under a key once `v` is merged over what `prior` holds. */
  function Merged(prior: Option<Tree>, v: Tree): Tree {
    if prior.Some? && prior.value.Dict? && v.Dict? then Dict(Merge(prior.value.pairs, v.pairs)) else v
  }

  /** The merge, key by key: absent from the override it stays, otherwise it is merged or replaced. */
  lemma {:induction false} MergeGet(base: seq<Pair>, override: seq<Pair>, k: string)
    requires DistinctKeys(base) && DistinctKeys(override)
    ensures DistinctKeys(Merge(base, override))
    ensures Get(Merge(base, override), k)
            == match Get(override, k) case None => Get(base, k) case Some(v) => Some(Merged(Get(base, k), v))
    decreases |override|
  {
    if override != [] {
      var front, p := override[..|override| - 1], override[|override| - 1];
      MergeGet(base, front, k);
      MergeGet(base, front, p.key);
      var d := Merge(base, front);
      assert Get(front, p.key).None?;
      GetPut(d, p.key, Merged(Get(d, p.key), p.value), k);
      if k != p.key { assert Get(override, k) == Get(front, k); }
    }
  }

  // ---- lookup by path ----

  function At(t: Tree, path: seq<string>): Option<Tree>
    decreases path
  {
    if path == [] then Some(t)
    else if t.Scalar? then None
    else
      var v := Get(t.pairs, path[0]);
      if v.None? then None else At(v.value, path[1..])
  }

  /** The override says nothing about the path: it ends in a dictionary without the next key. */
  predicate Untouched(override: Tree, path: seq<string>)
    decreases path
  {
    && path != [] && override.Dict?
    && (Get(override.pairs, path[0]).None? || Untouched(Get(override.pairs, path[0]).value, path[1..]))
  }

  function MergeTrees(base: Tree, override: Tree): Tree
    requires base.Dict? && override.Dict?
  {
    Dict(Merge(base.pairs, override.pairs))
  }

  lemma GetWellFormed(t: Tree, k: string)
    requires WellFormed(t) && t.Dict? && Get(t.pairs, k).Some?
    ensures WellFormed(Get(t.pairs, k).value)
  {
  }

  /** Every leaf of the override is found at its path. */
  lemma {:induction false} OverrideLeafFound(base: Tree, override: Tree, path: seq<string>)
    requires base.Dict? && override.Dict? && WellFormed(base) && WellFormed(override)
    requires At(override, path).Some? && At(override, path).value.Scalar?
    ensures At(MergeTrees(base, override), path) == At(override, path)
    decreases path
  {
    hide Merge;
    var k := path[0];
    MergeGet(base.pairs, override.pairs, k);
    var v := Get(override.pairs, k).value;
    GetWellFormed(override, k);
    if v.Dict? && Get(base.pairs, k).Some? && Get(base.pairs, k).value.Dict? {
      GetWellFormed(base, k);
      OverrideLeafFound(Get(base.pairs, k).value, v, path[1..]);
    }
  }

  /** Every path the override does not touch reads as it did in the base. */
  lemma {:induction false} UntouchedUnchanged(base: Tree, override: Tree, path: seq<string>)
    requires base.Dict? && override.Dict? && WellFormed(base) && WellFormed(override) && Untouched(override, path)
    ensures At(MergeTrees(base, override), path) == At(base, path)
    decreases path
  {
    hide Merge;
    var k := path[0];
    MergeGet(base.pairs, override.pairs, k);
    if Get(override.pairs, k).Some? {
      var v := Get(override.pairs, k).value;
      GetWellFormed(override, k);
      if Get(base.pairs, k).Some? && Get(base.pairs, k).value.Dict? {
        GetWellFormed(base, k);
        UntouchedUnchanged(Get(base.pairs, k).value, v, path[1..]);
      } else {
        UntouchedFindsNothing(v, path[1..]);
      }
    }
  }

  lemma {:induction false} UntouchedFindsNothing(t: Tree, path: seq<string>)
    requires Untouched(t, path)
    ensures At(t, path).None?
    decreases path
  {
    if Get(t.pairs, path[0]).Some? { UntouchedFindsNothing(Get(t.pairs, path[0]).value, path[1..]); }
  }

  // ---- merging again changes nothing ----

  /** Every key of the override is there with nothing left to merge into it. */
  predicate Absorbed(d: seq<Pair>, override: seq<Pair>)
    decreases override
  {
    forall i :: 0 <= i < |override| ==>
      var v := Get(d, override[i].key);
      v.Some? && if v.value.Dict? && override[i].value.Dict? then Absorbed(v.value.pairs, override[i].value.pairs)
                 else v.value == override[i].value
  }

  lemma {:induction false} AbsorbedStays(d: seq<Pair>, override: seq<Pair>)
    requires Absorbed(d, override)
    ensures Merge(d, override) == d
    decreases override
  {
    if override != [] {
      var front, p := override[..|override| - 1], override[|override| - 1];
      assert forall i :: 0 <= i < |front| ==> front[i] == override[i];
      AbsorbedStays(d, front);
      var v := Get(d, p.key).value;
      if v.Dict? && p.value.Dict? {
        AbsorbedStays(v.pairs, p.value.pairs);
      }
    }
  }

  lemma {:induction false} SelfAbsorbed(d: seq<Pair>)
    requires WellFormed(Dict(d))
    ensures Absorbed(d, d)
    decreases d
  {
    forall i | 0 <= i < |d| ensures Get(d, d[i].key) == Some(d[i].value) {
      GetAt(d, i);
    }
    forall i | 0 <= i < |d| && d[i].value.Dict? ensures Absorbed(d[i].value.pairs, d[i].value.pairs) {
      assert WellFormed(d[i].value);
      SelfAbsorbed(d[i].value.pairs);
    }
  }

  lemma {:induction false} MergeAbsorbs(base: seq<Pair>, override: seq<Pair>)
    requires WellFormed(Dict(base)) && WellFormed(Dict(override))
    ensures Absorbed(Merge(base, override), override)
    decreases override
  {
    hide Merge;
    forall i | 0 <= i < |override|
      ensures var v := Get(Merge(base, override), override[i].key);
        v.Some? && if v.value.Dict? && override[i].value.Dict? then Absorbed(v.value.pairs, override[i].value.pairs)
                   else v.value == override[i].value
    {
      var k, v := override[i].key, override[i].value;
      MergeGet(base, override, k);
      GetAt(override, i);
      assert WellFormed(v);
      if v.Dict? {
        var was := Get(base, k);
        if was.Some? && was.value.Dict? {
          GetWellFormed(Dict(base), k);
          MergeAbsorbs(was.value.pairs, v.pairs);
        } else {
          SelfAbsorbed(v.pairs);
        }
      }
    }
  }

  /** Merging the same override a second time changes nothing, not even the order of the keys. */
  lemma MergeIsIdempotent(base: Tree, override: Tree)
    requires base.Dict? && override.Dict? && WellFormed(base) && WellFormed(override)
    ensures MergeTrees(MergeTrees(base, override), override) == MergeTrees(base, override)
  {
    MergeAbsorbs(base.pairs, override.pairs);
    AbsorbedStays(Merge(base.pairs, override.pairs), override.pairs);
  }

  method DeepMerge(base: seq<Pair>, override: seq<Pair>) returns (result: seq<Pair>)
    ensures result == Merge(base, override)
    decreases override
  {
    result := base;
    for i := 0 to |override|
      invariant result == Merge(base, override[..i])
    {
      var p := override[i];
      assert override[..i + 1][..i] == override[..i] && override[..i + 1][i] == p;
      var prior := Get(result, p.key);
      if prior.Some? && prior.value.Dict? && p.value.Dict? {
        var sub := DeepMerge(prior.value.pairs, p.value.pairs);
        result := Put(result, p.key, Dict(sub));
      } else {
        result := Put(result, p.key, p.value);
      }
    }
    assert override[..|override|] == override;
  }

  // ---- the sync of one file ----

  const LEGACY_KEY := "reasoning_effort"

  /** A file that is not there, cannot be read or parsed, or holds a tree. */
  datatype File = Missing | Unreadable | Holds(tree: Tree)

  function Without(d: seq<Pair>, key: string): (r: seq<Pair>)
    ensures |r| <= |d|
  {
    if d == [] then []
    else Without(d[..|d| - 1], key) + if d[|d| - 1].key == key then [] else [d[|d| - 1]]
  }

  lemma {:induction false} WithoutSpec(d: seq<Pair>, key: string)
    ensures forall p :: p in Without(d, key) <==> p in d && p.key != key
    ensures DistinctKeys(d) ==> DistinctKeys(Without(d, key))
  {
    if d != [] {
      var front, p := d[..|d| - 1], d[|d| - 1];
      WithoutSpec(front, key);
      assert d == front + [p];
      forall q | q in Without(front, key) ensures q in front {
      }
      assert DistinctKeys(d) ==> forall q :: q in front ==> q.key != p.key;
    }
  }

  lemma {:induction false} WithoutAbsent(d: seq<Pair>, key: string)
    requires Get(d, key).None?
    ensures Without(d, key) == d
  {
    if d != [] {
      WithoutAbsent(d[..|d| - 1], key);
      assert d == d[..|d| - 1] + [d[|d| - 1]];
    }
  }

  /** What the file holds, an empty or otherwise falsy document counting as an empty dictionary. */
  function Existing(t: Tree): Tree {
    if (t.Scalar? && t.falsy) || (t.Dict? && t.pairs == []) then Dict([]) else t
  }

  /** The file after a sync, and whether it was written. */
  function Synced(f: File, overrides: seq<Pair>): (File, bool) {
    if !f.Holds? then (f, false)
    else
      var t := Existing(f.tree);
      if t.Scalar? then (f, false)
      else (Holds(Dict(Merge(Without(t.pairs, LEGACY_KEY), overrides))), true)
  }

  /** A file is written exactly if it holds a dictionary, or nothing to speak of; any other is left as it is. */
  lemma SyncWritesIff(f: File, overrides: seq<Pair>)
    ensures Synced(f, overrides).1 <==> f.Holds? && (f.tree.Dict? || f.tree.falsy)
    ensures !Synced(f, overrides).1 ==> Synced(f, overrides).0 == f
  {
  }

  /** What a written file holds under each key: the overrides merged over what it held, the legacy key apart. */
  lemma SyncGet(f: File, overrides: seq<Pair>, key: string)
    requires f.Holds? && WellFormed(f.tree) && WellFormed(Dict(overrides)) && Synced(f, overrides).1
    ensures var held := if f.tree.Dict? then f.tree.pairs else [];
      var prior := if key == "reasoning_effort" then None else Get(held, key);
      var after := Synced(f, overrides).0;
      && after.Holds? && after.tree.Dict?
      && Get(after.tree.pairs, key)
         == match Get(overrides, key) case None => prior case Some(v) => Some(Merged(prior, v))
  {
    var held := if f.tree.Dict? then f.tree.pairs else [];
    assert Existing(f.tree) == Dict(held);
    assert DistinctKeys(held) && DistinctKeys(overrides);
    hide WellFormed, Merge, Merged;
    WithoutSpec(held, LEGACY_KEY);
    GetWithout(held, LEGACY_KEY, key);
    MergeGet(Without(held, LEGACY_KEY), overrides, key);
  }

  lemma GetWithout(d: seq<Pair>, legacy: string, key: string)
    requires DistinctKeys(d)
    ensures Get(Without(d, legacy), key) == if key == legacy then None else Get(d, key)
  {
    WithoutSpec(d, legacy);
    var w := Without(d, legacy);
    if Get(w, key).Some? {
      var p := w[IndexOf(w, key).value];
      assert p in d && p.key == key;
      var i :| 0 <= i < |d| && d[i] == p;
      GetAt(d, i);
    }
    if key != legacy && Get(d, key).Some? {
      assert d[IndexOf(d, key).value] in w;
    }
  }

  /** With no legacy key among the overrides, a second sync leaves the file as the first one wrote it. */
  lemma SyncIsIdempotent(f: File, overrides: seq<Pair>)
    requires f.Holds? ==> WellFormed(f.tree)
    requires WellFormed(Dict(overrides)) && Get(overrides, LEGACY_KEY).None?
    ensures Synced(Synced(f, overrides).0, overrides) == Synced(f, overrides)
  {
    if Synced(f, overrides).1 {
      var base := Existing(f.tree).pairs;
      WithoutSpec(base, LEGACY_KEY);
      var cleaned := Without(base, LEGACY_KEY);
      assert WellFormed(Dict(cleaned));
      hide WellFormed, Merge, Without;
      MergeGet(cleaned, overrides, LEGACY_KEY) by { WellFormedKeys(cleaned); WellFormedKeys(overrides); }
      var merged := Merge(cleaned, overrides);
      assert Get(cleaned, LEGACY_KEY).None?;
      WithoutAbsent(merged, LEGACY_KEY);
      MergeIsIdempotent(Dict(cleaned), Dict(overrides));
    }
  }

  lemma WellFormedKeys(d: seq<Pair>)
    requires WellFormed(Dict(d))
    ensures DistinctKeys(d)
  {
  }

  /** The settings the platform writes. */
  function Overrides(cacheTtl: Tree, backend: Tree, shell: Tree, compression: Tree, maxBytes: Tree, redact: Tree, effort: Tree): seq<Pair> {
    [Pair("prompt_caching", Dict([Pair("cache_ttl", cacheTtl)])),
     Pair("terminal", Dict([Pair("backend", backend), Pair("persistent_shell", shell)])),
     Pair("compression", Dict([Pair("enabled", compression)])),
     Pair("tool_output", Dict([Pair("max_bytes", maxBytes)])),
     Pair("privacy", Dict([Pair("redact_pii", redact)])),
     Pair("agent", Dict([Pair("reasoning_effort", effort)]))]
  }

  lemma OverridesWellFormed(cacheTtl: Tree, backend: Tree, shell: Tree, compression: Tree, maxBytes: Tree, redact: Tree, effort: Tree)
    requires cacheTtl.Scalar? && backend.Scalar? && shell.Scalar? && compression.Scalar? && maxBytes.Scalar? && redact.Scalar? && effort.Scalar?
    ensures var o := Overrides(cacheTtl, backend, shell, compression, maxBytes, redact, effort);
      WellFormed(Dict(o)) && Get(o, LEGACY_KEY).None? && At(Dict(o), ["agent", "reasoning_effort"]) == Some(effort)
  {
    var o := Overrides(cacheTtl, backend, shell, compression, maxBytes, redact, effort);
    OneLeaf("cache_ttl", cacheTtl);
    OneLeaf("enabled", compression);
    OneLeaf("max_bytes", maxBytes);
    OneLeaf("redact_pii", redact);
    OneLeaf("reasoning_effort", effort);
    assert WellFormed(Dict([Pair("backend", backend), Pair("persistent_shell", shell)]));
    hide WellFormed;
    assert |o| == 6 && DistinctKeys(o) && forall i :: 0 <= i < |o| ==> o[i].key != LEGACY_KEY;
    PartsWellFormed(o);
    GetAt(o, 5);
    TwoSteps(o, "agent", "reasoning_effort", effort);
  }

  lemma PartsWellFormed(d: seq<Pair>)
    requires DistinctKeys(d) && forall i :: 0 <= i < |d| ==> WellFormed(d[i].value)
    ensures WellFormed(Dict(d))
  {
  }

  lemma OneLeaf(key: string, value: Tree)
    requires value.Scalar?
    ensures WellFormed(Dict([Pair(key, value)])) && Get([Pair(key, value)], key) == Some(value)
  {
    GetAt([Pair(key, value)], 0);
  }

  lemma TwoSteps(d: seq<Pair>, first: string, second: string, value: Tree)
    requires Get(d, first) == Some(Dict([Pair(second, value)])) && value.Scalar?
    ensures At(Dict(d), [first, second]) == Some(value)
  {
    OneLeaf(second, value);
    assert [first, second][1..] == [second] && [second][1..] == [];
    assert At(Dict([Pair(second, value)]), [second]) == At(value, []);
  }

  /**
   After a sync of the platform's settings the effort is where the agent reads it, and the key at the
   old place is gone.
   */
  lemma SyncMovesEffort(f: File, cacheTtl: Tree, backend: Tree, shell: Tree, compression: Tree, maxBytes: Tree, redact: Tree, effort: Tree)
    requires cacheTtl.Scalar? && backend.Scalar? && shell.Scalar? && compression.Scalar? && maxBytes.Scalar? && redact.Scalar? && effort.Scalar?
    requires f.Holds? && WellFormed(f.tree)
    ensures var r := Synced(f, Overrides(cacheTtl, backend, shell, compression, maxBytes, redact, effort));
      r.1 ==> r.0.Holds? && At(r.0.tree, ["agent", "reasoning_effort"]) == Some(effort) && At(r.0.tree, [LEGACY_KEY]) == None
  {
    var o := Overrides(cacheTtl, backend, shell, compression, maxBytes, redact, effort);
    OverridesWellFormed(cacheTtl, backend, shell, compression, maxBytes, redact, effort);
    if Synced(f, o).1 {
      var base := Existing(f.tree).pairs;
      WithoutSpec(base, LEGACY_KEY);
      var cleaned := Without(base, LEGACY_KEY);
      assert WellFormed(Dict(cleaned));
      assert Get(cleaned, LEGACY_KEY).None?;
      hide WellFormed, Merge, Without, Overrides, At;
      OverrideLeafFound(Dict(cleaned), Dict(o), ["agent", "reasoning_effort"]);
      MergeGet(cleaned, o, LEGACY_KEY) by { WellFormedKeys(cleaned); WellFormedKeys(o); }
      NoKeyNoPath(Merge(cleaned, o), LEGACY_KEY);
    }
  }

  lemma NoKeyNoPath(d: seq<Pair>, key: string)
    requires Get(d, key).None?
    ensures At(Dict(d), [key]) == None
  {
  }

  class ConfigFile {
    var file: File

    constructor (file: File)
      ensures this.file == file
    {
      this.file := file;
    }

    /** Pops the legacy key and merges the overrides; anything unexpected leaves the file alone. */
    method Sync(overrides: seq<Pair>) returns (written: bool)
      modifies this
      ensures (file, written) == Synced(old(file), overrides)
    {
      if !file.Holds? {
        return false;
      }
      var existing := Existing(file.tree);
      if existing.Dict? {
        existing := Dict(Without(existing.pairs, LEGACY_KEY));
      } else {
        return false;
      }
      var merged := DeepMerge(existing.pairs, overrides);
      file := Holds(Dict(merged));
      written := true;
    }
  }
}
