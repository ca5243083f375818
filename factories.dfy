/**
 * Data factory descriptors and the two-level index `sortedDataFactories` that
 * the route binder builds from them, keyed by `targetName` then `targetProperty`.
 */
module Factories {
  import opened Wrappers

  /**
   * A data factory: the method `targetProperty` of the component `targetName`
   * implements the operation named by the token `operation`; `resultType` is the
   * content type a read declares, if any.
   */
  datatype Factory = Factory(targetName: string, targetProperty: string, operation: string, resultType: Option<string>)

  type Index = map<string, map<string, Factory>>

  /** Some factory in `fs` is registered under the key (`name`, `property`). */
  predicate HasKey(fs: seq<Factory>, name: string, property: string)
  {
    exists i :: 0 <= i < |fs| && fs[i].targetName == name && fs[i].targetProperty == property
  }

  /** `fs[i]` is the last factory in `fs` registered under its own key. */
  predicate IsLastOfKey(fs: seq<Factory>, i: int)
  {
    0 <= i < |fs| &&
    forall j :: i < j < |fs| ==>
      fs[j].targetName != fs[i].targetName || fs[j].targetProperty != fs[i].targetProperty
  }

  /** One step of the indexing loop: create the inner object on first use, then store the factory. */
  function Put(idx: Index, f: Factory): Index
  {
    var inner := if f.targetName in idx then idx[f.targetName] else map[];
    idx[f.targetName := inner[f.targetProperty := f]]
  }

  /** The index after the loop has visited every factory of `fs` in order. */
  function IndexOf(fs: seq<Factory>): Index
  {
    if fs == [] then map[] else Put(IndexOf(fs[..|fs| - 1]), fs[|fs| - 1])
  }

  /** The factory `_.get(index, cls + "." + property)` finds, if any. */
  function Lookup(idx: Index, cls: string, property: string): Option<Factory>
  {
    if cls in idx && property in idx[cls] then Some(idx[cls][property]) else None
  }

  /** An outer key of the index is exactly a `targetName` some factory has. */
  lemma {:induction false} IndexOfNames(fs: seq<Factory>, name: string)
    ensures name in IndexOf(fs) <==> exists i :: 0 <= i < |fs| && fs[i].targetName == name
  {
    if fs != [] {
      var n := |fs| - 1;
      IndexOfNames(fs[..n], name);
      if name in IndexOf(fs) && fs[n].targetName != name {
        var i :| 0 <= i < n && fs[..n][i].targetName == name;
        assert fs[i].targetName == name;
      }
      if exists i :: 0 <= i < |fs| && fs[i].targetName == name {
        var i :| 0 <= i < |fs| && fs[i].targetName == name;
        if i < n { assert fs[..n][i].targetName == name; }
      }
    }
  }

  /** The index has an entry for (`name`, `property`) exactly when some factory has that key. */
  lemma {:induction false} IndexOfKeys(fs: seq<Factory>, name: string, property: string)
    ensures Lookup(IndexOf(fs), name, property).Some? <==> HasKey(fs, name, property)
  {
    if fs != [] {
      var n := |fs| - 1;
      IndexOfKeys(fs[..n], name, property);
      if HasKey(fs, name, property) && (fs[n].targetName != name || fs[n].targetProperty != property) {
        var i :| 0 <= i < |fs| && fs[i].targetName == name && fs[i].targetProperty == property;
        assert fs[..n][i] == fs[i];
      }
      if HasKey(fs[..n], name, property) {
        var i :| 0 <= i < n && fs[..n][i].targetName == name && fs[..n][i].targetProperty == property;
        assert fs[i] == fs[..n][i];
      }
    }
  }

  /** Under each key the index holds the LAST factory of `fs` with that key: a later factory wins. */
  lemma {:induction false} IndexOfLastWins(fs: seq<Factory>, name: string, property: string)
    requires Lookup(IndexOf(fs), name, property).Some?
    ensures exists i ::
              IsLastOfKey(fs, i) && fs[i].targetName == name && fs[i].targetProperty == property &&
              Lookup(IndexOf(fs), name, property).value == fs[i]
  {
    var n := |fs| - 1;
    var f := fs[n];
    if f.targetName == name && f.targetProperty == property {
      assert IsLastOfKey(fs, n);
    } else {
      var init := fs[..n];
      assert Lookup(IndexOf(fs), name, property) == Lookup(IndexOf(init), name, property);
      IndexOfLastWins(init, name, property);
      var i :| IsLastOfKey(init, i) && init[i].targetName == name && init[i].targetProperty == property &&
        Lookup(IndexOf(init), name, property).value == init[i];
      assert init[i] == fs[i];
      assert IsLastOfKey(fs, i);
    }
  }

  /**
   * The indexing loop of `initRoutes`: fills `sortedDataFactories` in place, creating
   * the inner object for a `targetName` the first time it is seen, so a later factory
   * with the same key overwrites an earlier one.
   */
  method BuildIndex(fs: seq<Factory>) returns (idx: Index)
    ensures idx == IndexOf(fs)
  {
    idx := map[];
    for k := 0 to |fs|
      invariant idx == IndexOf(fs[..k])
    {
      var f := fs[k];
      if f.targetName !in idx {
        idx := idx[f.targetName := map[]];
      }
      idx := idx[f.targetName := idx[f.targetName][f.targetProperty := f]];
      assert fs[..k + 1][..k] == fs[..k];
    }
    assert fs[..|fs|] == fs;
  }
}
