/**
 * The watch registry maps each watched path to the one future watching it.
 * Registering inserts a future's paths if absent and reports the first path
 * that was already taken; unregistering removes only the entries that map to
 * the future being unregistered.
 */
module Registry {
  import opened Wrappers
  import opened Files

  type FutureId = nat
  type Registry = map<Path, FutureId>

  /** Registering `paths[k]` finds it taken, by another future or earlier in the same list. */
  predicate Clashes(m: Registry, paths: seq<Path>, k: nat)
    requires k < |paths|
  {
    paths[k] in m || paths[k] in paths[..k]
  }

  /** The registry after `putIfAbsent(p, id)` for every `p` in `paths`, in order. */
  function Registered(m: Registry, paths: seq<Path>, id: FutureId): (r: Registry)
    // No entry is removed, and the only new owner is `id`.
    ensures m.Keys <= r.Keys
    ensures r.Values <= m.Values + {id}
    decreases |paths|
  {
    if paths == [] then m
    else
      var n := |paths| - 1;
      var prev := Registered(m, paths[..n], id);
      var p := paths[n];
      if p in prev then prev else prev[p := id]
  }

  /**
   * Registering leaves every path watched by someone and adds nothing else,
   * never overwrites an existing entry, and gives every new entry to `id`.
   */
  lemma {:induction false} RegisteredEntries(m: Registry, paths: seq<Path>, id: FutureId)
    ensures var r := Registered(m, paths, id);
      && (forall q :: q in r <==> q in m || q in paths)
      && (forall q :: q in m ==> r[q] == m[q])
      && (forall q :: q in r && q !in m ==> r[q] == id)
    decreases |paths|
  {
    if paths != [] {
      var n := |paths| - 1;
      RegisteredEntries(m, paths[..n], id);
      assert forall q :: q in paths <==> q in paths[..n] || q == paths[n];
    }
  }

  /**
   * The first path of `paths` whose `putIfAbsent` finds an entry already
   * there, when registering them in order into `m`.
   */
  function FirstClash(m: Registry, paths: seq<Path>): (r: Option<Path>)
    ensures r.Some? ==> r.value in paths
    decreases |paths|
  {
    if paths == [] then None
    else
      var n := |paths| - 1;
      var prev := FirstClash(m, paths[..n]);
      if prev.Some? then prev
      else if Clashes(m, paths, n) then Some(paths[n])
      else None
  }

  /** No clash is reported exactly when no path of the list is taken. */
  lemma {:induction false} FirstClashNone(m: Registry, paths: seq<Path>)
    ensures FirstClash(m, paths).None? <==> forall k :: 0 <= k < |paths| ==> !Clashes(m, paths, k)
    decreases |paths|
  {
    if paths != [] {
      var n := |paths| - 1;
      FirstClashNone(m, paths[..n]);
      PrefixClashes(m, paths, n);
    }
  }

  /** The clash reported is the first one: every path before it was free. */
  lemma {:induction false} FirstClashIsFirst(m: Registry, paths: seq<Path>)
    requires FirstClash(m, paths).Some?
    ensures exists k :: 0 <= k < |paths| && paths[k] == FirstClash(m, paths).value && Clashes(m, paths, k) &&
                        (forall j :: 0 <= j < k ==> !Clashes(m, paths, j))
    decreases |paths|
  {
    var n := |paths| - 1;
    PrefixClashes(m, paths, n);
    if FirstClash(m, paths[..n]).Some? {
      FirstClashIsFirst(m, paths[..n]);
      var k :| 0 <= k < n && paths[..n][k] == FirstClash(m, paths[..n]).value && Clashes(m, paths[..n], k) &&
               (forall j :: 0 <= j < k ==> !Clashes(m, paths[..n], j));
      assert paths[k] == paths[..n][k];
    } else {
      FirstClashNone(m, paths[..n]);
      assert Clashes(m, paths, n);
    }
  }

  /** Clashes within a prefix are the clashes of the whole list at those positions. */
  lemma PrefixClashes(m: Registry, paths: seq<Path>, n: nat)
    requires n <= |paths|
    ensures forall k :: 0 <= k < n ==> (Clashes(m, paths[..n], k) <==> Clashes(m, paths, k))
  {
    forall k | 0 <= k < n ensures paths[..n][..k] == paths[..k] && paths[..n][k] == paths[k] { }
  }

  /** The registry after `remove(p, id)` for every `p` in `paths`. */
  function Unregistered(m: Registry, paths: seq<Path>, id: FutureId): (r: Registry)
    // Nothing is added, and a future that owns nothing has nothing removed.
    ensures r.Keys <= m.Keys
    ensures id !in m.Values ==> r == m
    decreases |paths|
  {
    if paths == [] then m
    else
      var n := |paths| - 1;
      var prev := Unregistered(m, paths[..n], id);
      var p := paths[n];
      if p in prev && prev[p] == id then prev - {p} else prev
  }

  /**
   * Unregistering removes exactly the entries for the given paths that map to
   * `id`, and leaves every other entry as it was.
   */
  lemma {:induction false} UnregisteredEntries(m: Registry, paths: seq<Path>, id: FutureId)
    ensures var r := Unregistered(m, paths, id);
      && (forall q :: q in r <==> q in m && !(q in paths && m[q] == id))
      && (forall q :: q in r ==> r[q] == m[q])
    decreases |paths|
  {
    if paths != [] {
      var n := |paths| - 1;
      UnregisteredEntries(m, paths[..n], id);
      assert forall q :: q in paths <==> q in paths[..n] || q == paths[n];
    }
  }


  /** Registering one more path of the list: `putIfAbsent` of `paths[i]`, and a clash if it was taken. */
  lemma RegisterOneMore(m: Registry, paths: seq<Path>, i: nat, id: FutureId)
    requires i < |paths|
    ensures var r := Registered(m, paths[..i], id); var c := FirstClash(m, paths[..i]); var p := paths[i];
      && Registered(m, paths[..i + 1], id) == (if p in r then r else r[p := id])
      && FirstClash(m, paths[..i + 1]) == (if c.Some? then c else if p in r then Some(p) else None)
  {
    assert paths[..i + 1][..i] == paths[..i];
    RegisteredEntries(m, paths[..i], id);
  }

  /** Unregistering one more path of the list: `remove(paths[i], id)`. */
  lemma UnregisterOneMore(m: Registry, paths: seq<Path>, i: nat, id: FutureId)
    requires i < |paths|
    ensures var r := Unregistered(m, paths[..i], id); var p := paths[i];
      Unregistered(m, paths[..i + 1], id) == (if p in r && r[p] == id then r - {p} else r)
  {
    assert paths[..i + 1][..i] == paths[..i];
  }

  /** Unregistering a future undoes its registration, clash or not. */
  lemma UnregisterUndoesRegister(m: Registry, paths: seq<Path>, id: FutureId)
    requires id !in m.Values
    ensures Unregistered(Registered(m, paths, id), paths, id) == m
  {
    var r := Registered(m, paths, id);
    var u := Unregistered(r, paths, id);
    RegisteredEntries(m, paths, id);
    UnregisteredEntries(r, paths, id);
    forall q | q in m ensures q in u && u[q] == m[q] {
      assert m[q] in m.Values;
    }
  }

  /**
   * A clash does not stop the registration: a future that fails on its first
   * path still claims a later free one.
   */
  lemma ClashStillClaimsLaterPaths(a: Path, b: Path, owner: FutureId, id: FutureId)
    requires a != b
    ensures Registered(map[a := owner], [a, b], id) == map[a := owner, b := id]
    ensures FirstClash(map[a := owner], [a, b]) == Some(a)
  {
    assert [a, b][..1] == [a];
    assert [a][..0] == [];
    assert Clashes(map[a := owner], [a], 0);
    assert FirstClash(map[a := owner], [a]) == Some(a);
    assert Registered(map[a := owner], [a], id) == map[a := owner];
  }
}
