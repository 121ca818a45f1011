/**
  A containerd configuration document as go-toml holds it: a table of keys,
  each bound to a scalar, a list of strings or a nested table. Paths are the
  key sequences given to go-toml's GetPath, SetPath and DeletePath.
 */
module Toml {
  import opened Wrappers

  datatype Value =
    | Int(i: int)
    | Bool(b: bool)
    | Str(s: string)
    | StrList(items: seq<string>)
    | Table(entries: map<string, Value>)

  type Tree = map<string, Value>

  type Path = seq<string>

  /** The sub-table at key `k`, or an empty table when `k` is missing or not a table. */
  function SubTable(t: Tree, k: string): Tree
  {
    if k in t && t[k].Table? then t[k].entries else map[]
  }

  /** GetPath: the value at `p`, None when a key is missing or a non-table is crossed. */
  function GetPath(t: Tree, p: Path): Option<Value>
    decreases |p|
  {
    if p == [] then Some(Table(t))
    else if p[0] !in t then None
    else if |p| == 1 then Some(t[p[0]])
    else match t[p[0]]
      case Table(m) => GetPath(m, p[1..])
      case _ => None
  }

  /** SetPath: binds `p` to `v`, creating (or replacing non-table) intermediate tables. */
  function SetPath(t: Tree, p: Path, v: Value): Tree
    requires |p| > 0
    decreases |p|
  {
    if |p| == 1 then t[p[0] := v]
    else t[p[0] := Table(SetPath(SubTable(t, p[0]), p[1..], v))]
  }

  /** DeletePath: removes the key at `p`; a path that does not exist leaves the tree as it is. */
  function DeletePath(t: Tree, p: Path): Tree
    requires |p| > 0
    decreases |p|
  {
    if |p| == 1 then t - {p[0]}
    else if p[0] in t && t[p[0]].Table? then t[p[0] := Table(DeletePath(t[p[0]].entries, p[1..]))]
    else t
  }

  /** Two paths that part ways at some key: neither is a prefix of the other. */
  predicate Diverge(p: Path, q: Path)
    decreases |p|
  {
    |p| > 0 && |q| > 0 && (p[0] != q[0] || Diverge(p[1..], q[1..]))
  }

  /** Paths that differ at the first index where both are defined diverge. */
  lemma {:induction false} DivergeAt(p: Path, q: Path, k: nat)
    requires k < |p| && k < |q| && p[..k] == q[..k] && p[k] != q[k]
    ensures Diverge(p, q)
    decreases k
  {
    if k > 0 {
      assert p[0] == p[..k][0] == q[..k][0] == q[0];
      assert p[1..][..k - 1] == p[..k][1..] == q[..k][1..] == q[1..][..k - 1];
      DivergeAt(p[1..], q[1..], k - 1);
    }
  }

  /** What was set is what is read back. */
  lemma {:induction false} GetSetSame(t: Tree, p: Path, v: Value)
    requires |p| > 0
    ensures GetPath(SetPath(t, p, v), p) == Some(v)
    decreases |p|
  {
    if |p| > 1 {
      GetSetSame(SubTable(t, p[0]), p[1..], v);
    }
  }

  /** Setting one path leaves every diverging path as it was. */
  lemma {:induction false} GetSetOther(t: Tree, p: Path, v: Value, q: Path)
    requires |p| > 0 && Diverge(p, q)
    ensures GetPath(SetPath(t, p, v), q) == GetPath(t, q)
    decreases |p|
  {
    if p[0] == q[0] && |p| > 1 {
      var sub := SubTable(t, p[0]);
      if |q| > 1 {
        GetSetOther(sub, p[1..], v, q[1..]);
      }
    }
  }

  /** A deleted path reads back as missing. */
  lemma {:induction false} GetDeleteSame(t: Tree, p: Path)
    requires |p| > 0
    ensures GetPath(DeletePath(t, p), p) == None
    decreases |p|
  {
    if |p| > 1 && p[0] in t && t[p[0]].Table? {
      GetDeleteSame(t[p[0]].entries, p[1..]);
    }
  }

  /** Deleting one path leaves every diverging path as it was. */
  lemma {:induction false} GetDeleteOther(t: Tree, p: Path, q: Path)
    requires |p| > 0 && Diverge(p, q)
    ensures GetPath(DeletePath(t, p), q) == GetPath(t, q)
    decreases |p|
  {
    if p[0] == q[0] && |p| > 1 && |q| > 1 && p[0] in t && t[p[0]].Table? {
      GetDeleteOther(t[p[0]].entries, p[1..], q[1..]);
    }
  }

  /** Deleting a path that is not bound changes nothing. */
  lemma {:induction false} DeleteMissing(t: Tree, p: Path)
    requires |p| > 0 && GetPath(t, p) == None
    ensures DeletePath(t, p) == t
    decreases |p|
  {
    if |p| > 1 && p[0] in t && t[p[0]].Table? {
      DeleteMissing(t[p[0]].entries, p[1..]);
      assert t[p[0] := Table(t[p[0]].entries)] == t;
    }
  }

  /** `q` is a prefix of `p` (possibly `p` itself). */
  predicate IsPrefix(q: Path, p: Path)
  {
    |q| <= |p| && p[..|q|] == q
  }

  /** Paths neither of which is a prefix of the other diverge. */
  lemma {:induction false} NotPrefixDiverge(p: Path, q: Path)
    requires |p| > 0 && |q| > 0 && !IsPrefix(p, q) && !IsPrefix(q, p)
    ensures Diverge(p, q)
    decreases |p|
  {
    if p[0] == q[0] {
      NotPrefixDiverge(p[1..], q[1..]);
    }
  }

  /** Deleting never makes a missing path appear. */
  lemma {:induction false} DeleteKeepsMissing(t: Tree, p: Path, q: Path)
    requires |p| > 0 && GetPath(t, q) == None
    ensures GetPath(DeletePath(t, p), q) == None
    decreases |p|
  {
    if |p| > 1 && |q| > 1 && p[0] == q[0] && p[0] in t && t[p[0]].Table? {
      DeleteKeepsMissing(t[p[0]].entries, p[1..], q[1..]);
    }
  }

  /** Everything at or below a deleted path reads back as missing. */
  lemma {:induction false} DeleteBelow(t: Tree, p: Path, q: Path)
    requires |p| > 0 && IsPrefix(p, q)
    ensures GetPath(DeletePath(t, p), q) == None
    decreases |p|
  {
    assert p[0] == q[0];
    if |p| > 1 && p[0] in t && t[p[0]].Table? {
      assert IsPrefix(p[1..], q[1..]) by {
        assert q[1..][..|p| - 1] == q[..|p|][1..];
      }
      DeleteBelow(t[p[0]].entries, p[1..], q[1..]);
    }
  }

  /** Nothing is bound below an empty table. */
  lemma {:induction false} EmptyBelow(t: Tree, p: Path, q: Path)
    requires GetPath(t, p) == Some(Table(map[])) && IsPrefix(p, q) && |q| > |p|
    ensures GetPath(t, q) == None
    decreases |p|
  {
    if |p| > 0 {
      assert p[0] == q[0];
      if |p| > 1 {
        assert IsPrefix(p[1..], q[1..]) by {
          assert q[1..][..|p| - 1] == q[..|p|][1..];
        }
        EmptyBelow(t[p[0]].entries, p[1..], q[1..]);
      }
    }
  }

  /** Nothing is bound below a missing path. */
  lemma {:induction false} MissingBelow(t: Tree, p: Path, q: Path)
    requires GetPath(t, p) == None && IsPrefix(p, q)
    ensures GetPath(t, q) == None
    decreases |p|
  {
    assert p[0] == q[0];
    if |p| > 1 && p[0] in t && t[p[0]].Table? {
      assert IsPrefix(p[1..], q[1..]) by {
        assert q[1..][..|p| - 1] == q[..|p|][1..];
      }
      MissingBelow(t[p[0]].entries, p[1..], q[1..]);
    }
  }
}
