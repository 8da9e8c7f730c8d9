/** Small helpers shared by the models of the individual components. */
module Common {
  datatype Option<+T> = None | Some(value: T)

  /** No value occurs twice: what a PRIMARY KEY or UNIQUE column demands of its rows. */
  ghost predicate Distinct<T(!new)>(s: seq<T>) {
    forall i, j :: 0 <= i < j < |s| ==> s[i] != s[j]
  }

  /** The positive numbers of `requested`, each once. */
  ghost predicate IsSelection(selected: seq<int>, requested: seq<int>) {
    Distinct(selected) && (forall d :: d in selected <==> d in requested && d > 0)
  }

  function Get<K, V>(m: map<K, V>, k: K, default: V): V {
    if k in m then m[k] else default
  }

  /** Inserting rows one by one under a UNIQUE constraint succeeds exactly for distinct keys. */
  method InsertUnique<K(==,!new)>(keys: seq<K>) returns (ok: bool)
    ensures ok <==> Distinct(keys)
  {
    var present: set<K> := {};
    for n := 0 to |keys|
      invariant Distinct(keys[..n])
      invariant forall k :: k in present <==> k in keys[..n]
    {
      if keys[n] in present {
        var earlier :| 0 <= earlier < n && keys[..n][earlier] == keys[n];
        assert keys[earlier] == keys[n];
        return false;
      }
      assert keys[..n + 1] == keys[..n] + [keys[n]];
      present := present + {keys[n]};
    }
    assert keys[..|keys|] == keys;
    return true;
  }
}
