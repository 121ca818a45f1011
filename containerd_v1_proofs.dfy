/**
  What UpdateConfig and RevertConfig promise about any V1 tree, stated through
  GetPath: which entries and settings they write, what they copy from runc, and
  that every other path of the document is left as it was.
 */
module ContainerdV1Proofs {
  import opened Wrappers
  import opened Toml
  import opened ContainerdV1

  /** The runtime names of `rs` are pairwise distinct and none is runc. */
  predicate DistinctNames(rs: seq<(string, string)>)
  {
    && (forall i, j | 0 <= i < j < |rs| :: rs[i].0 != rs[j].0)
    && (forall i | 0 <= i < |rs| :: rs[i].0 != "runc")
  }

  /** `q` is untouched by adding the runtimes `rs`: it diverges from the version key, from
      every entry written, and from the default settings unless one of `rs` is the default. */
  predicate AddFrame(q: Path, rs: seq<(string, string)>, default: Option<string>)
  {
    && Diverge(VersionPath, q)
    && (forall i | 0 <= i < |rs| :: Diverge(RuntimePath(rs[i].0), q))
    && ((Diverge(DefaultRuntimeNamePath, q) && Diverge(DefaultRuntimePath, q))
        || forall i | 0 <= i < |rs| :: default != Some(rs[i].0))
  }

  lemma WithRuntimeFrame(t: Tree, n: string, b: string, isDefault: bool, u: bool, rt: string, q: Path)
    requires Diverge(VersionPath, q) && Diverge(RuntimePath(n), q)
    requires isDefault ==> Diverge(DefaultRuntimeNamePath, q) && Diverge(DefaultRuntimePath, q)
    ensures GetPath(WithRuntime(t, n, b, isDefault, u, rt), q) == GetPath(t, q)
  {
    var t1 := SetPath(t, VersionPath, Int(1));
    GetSetOther(t, VersionPath, Int(1), q);
    var t2 := SetPath(t1, RuntimePath(n), Table(RuntimeEntry(t1, n, b, rt)));
    GetSetOther(t1, RuntimePath(n), Table(RuntimeEntry(t1, n, b, rt)), q);
    if isDefault {
      GetSetOther(t2, DefaultRuntimeNamePath, Str(n), q);
      GetSetOther(t2, DefaultRuntimePath, Table(DefaultEntry(t2, b, rt)), q);
    }
  }

  /** Adding runtimes leaves every path outside their footprint as it was. */
  lemma {:induction false} WithRuntimesFrame(t: Tree, rs: seq<(string, string)>, dir: string, default: Option<string>,
                                             u: bool, rt: string, q: Path)
    requires AddFrame(q, rs, default)
    ensures GetPath(WithRuntimes(t, rs, dir, default, u, rt), q) == GetPath(t, q)
    decreases |rs|
  {
    if rs != [] {
      var isDefault := default == Some(rs[0].0);
      WithRuntimeFrame(t, rs[0].0, JoinPath(dir, rs[0].1), isDefault, u, rt, q);
      var t1 := WithRuntime(t, rs[0].0, JoinPath(dir, rs[0].1), isDefault, u, rt);
      assert AddFrame(q, rs[1..], default) by {
        forall i | 0 <= i < |rs[1..]| ensures rs[1..][i] == rs[i + 1] { }
      }
      WithRuntimesFrame(t1, rs[1..], dir, default, u, rt, q);
    }
  }

  /** The entry each of `rs` gets is built from the tree as UpdateConfig found it. */
  lemma {:induction false} WithRuntimesEntry(t: Tree, rs: seq<(string, string)>, dir: string, default: Option<string>,
                                             u: bool, rt: string, j: nat)
    requires j < |rs| && DistinctNames(rs)
    ensures GetPath(WithRuntimes(t, rs, dir, default, u, rt), RuntimePath(rs[j].0))
         == Some(Table(RuntimeEntry(t, rs[j].0, JoinPath(dir, rs[j].1), rt)))
    decreases |rs|
  {
    var n := rs[0].0;
    var isDefault := default == Some(n);
    var t1 := WithRuntime(t, n, JoinPath(dir, rs[0].1), isDefault, u, rt);
    assert DistinctNames(rs[1..]) by {
      forall i | 0 <= i < |rs[1..]| ensures rs[1..][i] == rs[i + 1] { }
    }
    if j == 0 {
      AddRuntimeEntry(t, n, JoinPath(dir, rs[0].1), isDefault, u, rt);
      var q := RuntimePath(n);
      FixedPathsDiverge(n);
      forall i | 0 <= i < |rs[1..]| ensures Diverge(RuntimePath(rs[1..][i].0), q) {
        assert rs[1..][i] == rs[i + 1];
        RuntimePathsDiverge(rs[i + 1].0, n);
      }
      WithRuntimesFrame(t1, rs[1..], dir, default, u, rt, q);
    } else {
      var m := rs[j].0;
      FixedPathsDiverge(m);
      FixedPathsDiverge("runc");
      RuntimePathsDiverge(n, m);
      RuntimePathsDiverge(n, "runc");
      FixedPathsDiverge(n);
      WithRuntimeFrame(t, n, JoinPath(dir, rs[0].1), isDefault, u, rt, RuntimePath(m));
      WithRuntimeFrame(t, n, JoinPath(dir, rs[0].1), isDefault, u, rt, RuntimePath("runc"));
      assert BaseEntry(t1, m, rt) == BaseEntry(t, m, rt);
      assert rs[1..][j - 1] == rs[j];
      WithRuntimesEntry(t1, rs[1..], dir, default, u, rt, j - 1);
    }
  }

  /** AddRuntime with setAsDefault records the default by name or inlines it. */
  lemma WithRuntimeDefault(t: Tree, n: string, b: string, u: bool, rt: string)
    ensures var r := WithRuntime(t, n, b, true, u, rt);
      if u then GetPath(r, DefaultRuntimeNamePath) == Some(Str(n)) && GetPath(r, DefaultRuntimePath) == GetPath(t, DefaultRuntimePath)
      else (GetPath(r, DefaultRuntimePath) == Some(Table(DefaultEntry(t, b, rt)))
        && GetPath(r, DefaultRuntimeNamePath) == GetPath(t, DefaultRuntimeNamePath))
  {
    FixedPathsDiverge(n);
    var u1 := SetPath(t, VersionPath, Int(1));
    var u2 := SetPath(u1, RuntimePath(n), Table(RuntimeEntry(u1, n, b, rt)));
    GetSetOther(t, VersionPath, Int(1), DefaultRuntimePath);
    GetSetOther(t, VersionPath, Int(1), DefaultRuntimeNamePath);
    GetSetOther(u1, RuntimePath(n), Table(RuntimeEntry(u1, n, b, rt)), DefaultRuntimePath);
    GetSetOther(u1, RuntimePath(n), Table(RuntimeEntry(u1, n, b, rt)), DefaultRuntimeNamePath);
    if u {
      GetSetSame(u2, DefaultRuntimeNamePath, Str(n));
      GetSetOther(u2, DefaultRuntimeNamePath, Str(n), DefaultRuntimePath);
    } else {
      GetSetSame(u2, DefaultRuntimePath, Table(DefaultEntry(u2, b, rt)));
      GetSetOther(u2, DefaultRuntimePath, Table(DefaultEntry(u2, b, rt)), DefaultRuntimeNamePath);
      assert DefaultEntry(u2, b, rt) == DefaultEntry(t, b, rt);
    }
  }

  /** Runtimes none of which is the default leave both default settings alone. */
  lemma WithRuntimesNoDefault(t: Tree, rs: seq<(string, string)>, dir: string, default: Option<string>,
                              u: bool, rt: string)
    requires forall i | 0 <= i < |rs| :: default != Some(rs[i].0)
    ensures var r := WithRuntimes(t, rs, dir, default, u, rt);
      GetPath(r, DefaultRuntimeNamePath) == GetPath(t, DefaultRuntimeNamePath)
      && GetPath(r, DefaultRuntimePath) == GetPath(t, DefaultRuntimePath)
  {
    FixedPathsDiverge("");
    forall i | 0 <= i < |rs|
      ensures Diverge(RuntimePath(rs[i].0), DefaultRuntimePath) && Diverge(RuntimePath(rs[i].0), DefaultRuntimeNamePath)
    {
      FixedPathsDiverge(rs[i].0);
    }
    WithRuntimesFrame(t, rs, dir, default, u, rt, DefaultRuntimePath);
    WithRuntimesFrame(t, rs, dir, default, u, rt, DefaultRuntimeNamePath);
  }

  /** The default runtime among `rs` is recorded by name, or inlined, and the other setting is untouched. */
  lemma {:induction false} WithRuntimesDefault(t: Tree, rs: seq<(string, string)>, dir: string, default: Option<string>,
                                               u: bool, rt: string, j: nat)
    requires j < |rs| && DistinctNames(rs) && default == Some(rs[j].0)
    ensures var r := WithRuntimes(t, rs, dir, default, u, rt);
      if u then GetPath(r, DefaultRuntimeNamePath) == Some(Str(rs[j].0)) && GetPath(r, DefaultRuntimePath) == GetPath(t, DefaultRuntimePath)
      else (GetPath(r, DefaultRuntimePath) == Some(Table(DefaultEntry(t, JoinPath(dir, rs[j].1), rt)))
        && GetPath(r, DefaultRuntimeNamePath) == GetPath(t, DefaultRuntimeNamePath))
    decreases |rs|
  {
    var n := rs[0].0;
    var b := JoinPath(dir, rs[0].1);
    var isDefault := default == Some(n);
    var t1 := WithRuntime(t, n, b, isDefault, u, rt);
    var rest := rs[1..];
    assert WithRuntimes(t, rs, dir, default, u, rt) == WithRuntimes(t1, rest, dir, default, u, rt);
    if j == 0 {
      WithRuntimeDefault(t, n, b, u, rt);
      forall i | 0 <= i < |rest| ensures default != Some(rest[i].0) {
        assert rest[i] == rs[i + 1];
      }
      WithRuntimesNoDefault(t1, rest, dir, default, u, rt);
    } else {
      assert DistinctNames(rest) by {
        forall i | 0 <= i < |rest| ensures rest[i] == rs[i + 1] { }
      }
      FixedPathsDiverge(n);
      WithRuntimeFrame(t, n, b, isDefault, u, rt, DefaultRuntimePath);
      WithRuntimeFrame(t, n, b, isDefault, u, rt, DefaultRuntimeNamePath);
      assert rest[j - 1] == rs[j];
      WithRuntimesDefault(t1, rest, dir, default, u, rt, j - 1);
      assert TableAt(t1, DefaultRuntimePath) == TableAt(t, DefaultRuntimePath);
    }
  }

  lemma WithRuntimeVersion(t: Tree, n: string, b: string, isDefault: bool, u: bool, rt: string)
    ensures GetPath(WithRuntime(t, n, b, isDefault, u, rt), VersionPath) == Some(Int(1))
  {
    var u1 := SetPath(t, VersionPath, Int(1));
    var u2 := SetPath(u1, RuntimePath(n), Table(RuntimeEntry(u1, n, b, rt)));
    FixedPathsDiverge(n);
    GetSetSame(t, VersionPath, Int(1));
    GetSetOther(u1, RuntimePath(n), Table(RuntimeEntry(u1, n, b, rt)), VersionPath);
    GetSetOther(u2, DefaultRuntimeNamePath, Str(n), VersionPath);
    GetSetOther(u2, DefaultRuntimePath, Table(DefaultEntry(u2, b, rt)), VersionPath);
  }

  /** Adding at least one runtime leaves `version = 1`. */
  lemma {:induction false} WithRuntimesVersion(t: Tree, rs: seq<(string, string)>, dir: string, default: Option<string>,
                                               u: bool, rt: string)
    ensures GetPath(WithRuntimes(t, rs, dir, default, u, rt), VersionPath)
         == if rs == [] then GetPath(t, VersionPath) else Some(Int(1))
    decreases |rs|
  {
    if rs != [] {
      var n := rs[0].0;
      var b := JoinPath(dir, rs[0].1);
      WithRuntimeVersion(t, n, b, default == Some(n), u, rt);
      WithRuntimesVersion(WithRuntime(t, n, b, default == Some(n), u, rt), rs[1..], dir, default, u, rt);
    }
  }

  // ----- UpdateConfig -----

  lemma ManagedDistinct(o: Options)
    requires o.runtimeClass != "runc"
    ensures DistinctNames(ManagedRuntimes(o))
  {
  }

  /** `e` is `base` with the CDI annotations added and options.BinaryName and options.Runtime
      set to `binary`; every other field and option of `base` is kept. */
  predicate Inherits(e: map<string, Value>, base: map<string, Value>, binary: string)
  {
    && e.Keys == base.Keys + {"container_annotations", "options"}
    && (forall k | k in base && k != "container_annotations" && k != "options" :: e[k] == base[k])
    && e["container_annotations"] == StrList([CdiAnnotations])
    && e["options"].Table?
    && var opts := e["options"].entries;
       && opts.Keys == SubTable(base, "options").Keys + {"BinaryName", "Runtime"}
       && opts["BinaryName"] == Str(binary) && opts["Runtime"] == Str(binary)
       && forall k | k in SubTable(base, "options") && k != "BinaryName" && k != "Runtime" ::
            opts[k] == SubTable(base, "options")[k]
  }

  lemma RuntimeEntryInherits(t: Tree, name: string, binary: string, rt: string)
    ensures Inherits(RuntimeEntry(t, name, binary, rt), BaseEntry(t, name, rt), binary)
  {
  }

  /** UpdateConfig writes `version = 1`. */
  lemma UpdateSetsVersion(t: Tree, o: Options, u: bool, rt: string)
    ensures GetPath(Updated(t, o, u, rt), VersionPath) == Some(Int(1))
  {
    WithRuntimesVersion(t, ManagedRuntimes(o), o.runtimeDir, DefaultRuntime(o), u, rt);
  }

  /** Each managed runtime gets an entry derived from runc (if present), else from the entry
      it replaces, else from the defaults, with the annotations and its own binary. */
  lemma UpdateWritesManagedEntries(t: Tree, o: Options, u: bool, rt: string, j: nat)
    requires o.runtimeClass != "runc" && j < 4
    ensures var (name, file) := ManagedRuntimes(o)[j]; var binary := JoinPath(o.runtimeDir, file);
      match GetPath(Updated(t, o, u, rt), RuntimePath(name))
      case Some(Table(e)) =>
        (match TableAt(t, RuntimePath("runc"))
         case Some(runc) => Inherits(e, runc, binary)
         case None =>
           (match TableAt(t, RuntimePath(name))
            case Some(existing) => Inherits(e, existing, binary)
            case None => Inherits(e, DefaultFields(rt), binary)))
      case _ => false
  {
    var rs := ManagedRuntimes(o);
    ManagedDistinct(o);
    WithRuntimesEntry(t, rs, o.runtimeDir, DefaultRuntime(o), u, rt, j);
    RuntimeEntryInherits(t, rs[j].0, JoinPath(o.runtimeDir, rs[j].1), rt);
  }

  /** UpdateConfig leaves every path outside the version key, the managed entries and (when
      a default is requested) the two default settings as it was. */
  lemma UpdatePreservesUnrelated(t: Tree, o: Options, u: bool, rt: string, q: Path)
    requires Diverge(VersionPath, q)
    requires forall i | 0 <= i < 4 :: Diverge(RuntimePath(ManagedRuntimes(o)[i].0), q)
    requires o.setAsDefault ==> Diverge(DefaultRuntimeNamePath, q) && Diverge(DefaultRuntimePath, q)
    ensures GetPath(Updated(t, o, u, rt), q) == GetPath(t, q)
  {
    WithRuntimesFrame(t, ManagedRuntimes(o), o.runtimeDir, DefaultRuntime(o), u, rt, q);
  }

  /** An existing runc entry is left verbatim. */
  lemma UpdateKeepsRunc(t: Tree, o: Options, u: bool, rt: string)
    requires o.runtimeClass != "runc"
    ensures GetPath(Updated(t, o, u, rt), RuntimePath("runc")) == GetPath(t, RuntimePath("runc"))
  {
    var rs := ManagedRuntimes(o);
    ManagedDistinct(o);
    FixedPathsDiverge("runc");
    forall i | 0 <= i < 4 ensures Diverge(RuntimePath(rs[i].0), RuntimePath("runc")) {
      RuntimePathsDiverge(rs[i].0, "runc");
    }
    UpdatePreservesUnrelated(t, o, u, rt, RuntimePath("runc"));
  }

  /** The binary file of the runtime that becomes the default. */
  function DefaultBinaryFile(runtimeClass: string): string
  {
    if runtimeClass == ExperimentalRuntimeName then ExperimentalRuntimeBinary
    else if runtimeClass == CdiRuntimeName then CdiRuntimeBinary
    else if runtimeClass == LegacyRuntimeName then LegacyRuntimeBinary
    else RuntimeBinary
  }

  /** Without setAsDefault neither setting changes; with it, the default is named (class, or
      "nvidia" for an empty class) or, in legacy mode, inlined with its binary. */
  lemma UpdateDefaultRuntime(t: Tree, o: Options, u: bool, rt: string)
    requires o.runtimeClass != "runc"
    ensures var r := Updated(t, o, u, rt);
      var name := if o.runtimeClass == "" then DefaultRuntimeClass else o.runtimeClass;
      if !o.setAsDefault then
        GetPath(r, DefaultRuntimeNamePath) == GetPath(t, DefaultRuntimeNamePath)
        && GetPath(r, DefaultRuntimePath) == GetPath(t, DefaultRuntimePath)
      else if u then
        GetPath(r, DefaultRuntimeNamePath) == Some(Str(name))
        && GetPath(r, DefaultRuntimePath) == GetPath(t, DefaultRuntimePath)
      else
        GetPath(r, DefaultRuntimePath)
          == Some(Table(DefaultEntry(t, JoinPath(o.runtimeDir, DefaultBinaryFile(o.runtimeClass)), rt)))
        && GetPath(r, DefaultRuntimeNamePath) == GetPath(t, DefaultRuntimeNamePath)
  {
    var rs := ManagedRuntimes(o);
    var d := DefaultRuntime(o);
    ManagedDistinct(o);
    if !o.setAsDefault {
      WithRuntimesNoDefault(t, rs, o.runtimeDir, d, u, rt);
    } else {
      var j := if o.runtimeClass == ExperimentalRuntimeName then 1
               else if o.runtimeClass == CdiRuntimeName then 2
               else if o.runtimeClass == LegacyRuntimeName then 3
               else 0;
      assert d == Some(rs[j].0) && rs[j].1 == DefaultBinaryFile(o.runtimeClass);
      WithRuntimesDefault(t, rs, o.runtimeDir, d, u, rt, j);
    }
  }

  /** The inlined default carries the binary, keeps what was there, and only carries
      annotations if the entry it replaces had them. */
  lemma DefaultEntryShape(t: Tree, binary: string, rt: string)
    ensures var e := DefaultEntry(t, binary, rt);
      var base := match TableAt(t, DefaultRuntimePath) case Some(m) => m case None => DefaultFields(rt);
      && e.Keys == base.Keys + {"options"}
      && (forall k | k in base && k != "options" :: e[k] == base[k])
      && ("container_annotations" in e <==> "container_annotations" in base)
      && SubTable(e, "options")["BinaryName"] == Str(binary)
      && SubTable(e, "options")["Runtime"] == Str(binary)
  {
  }

  // ----- RevertConfig -----

  /** A file name without a slash is its own last component. */
  lemma {:induction false} FileNameOfName(file: string)
    requires '/' !in file
    ensures FileName(file) == file
    decreases |file|
  {
    if file != [] {
      assert file[..|file| - 1] + [file[|file| - 1]] == file;
      FileNameOfName(file[..|file| - 1]);
    }
  }

  /** The last component of `dir + "/" + file` is `file`. */
  lemma {:induction false} FileNameAfterSlash(dir: string, file: string)
    requires '/' !in file
    ensures FileName(dir + "/" + file) == file
    decreases |file|
  {
    var p := dir + "/" + file;
    if file != [] {
      assert p[..|p| - 1] == dir + "/" + file[..|file| - 1];
      assert file[..|file| - 1] + [file[|file| - 1]] == file;
      FileNameAfterSlash(dir, file[..|file| - 1]);
    }
  }

  /** RevertConfig recognises a binary installed by UpdateConfig by its file name. */
  lemma FileNameJoin(dir: string, file: string)
    requires '/' !in file
    ensures FileName(JoinPath(dir, file)) == file
  {
    if dir == "" {
      FileNameOfName(file);
    } else {
      FileNameAfterSlash(dir, file);
    }
  }

  const DefaultBinaryPath: Path := DefaultRuntimePath + ["options", "Runtime"]

  lemma RemovedPathsDiverge(name: string)
    ensures Diverge(RuntimePath(name), DefaultBinaryPath) && Diverge(DefaultRuntimeNamePath, DefaultBinaryPath)
  {
    DivergeAt(RuntimePath(name), DefaultBinaryPath, 3);
    DivergeAt(DefaultRuntimeNamePath, DefaultBinaryPath, 3);
  }

  lemma WithoutRuntimeFrame(t: Tree, n: string, f: string, q: Path)
    requires Diverge(RuntimePath(n), q) && Diverge(DefaultRuntimeNamePath, q) && Diverge(DefaultRuntimePath, q)
    ensures GetPath(WithoutRuntime(t, n, f), q) == GetPath(t, q)
  {
    var t1 := DeletePath(t, RuntimePath(n));
    GetDeleteOther(t, RuntimePath(n), q);
    GetDeleteOther(t1, DefaultRuntimeNamePath, q);
    var t2 := if GetPath(t1, DefaultRuntimeNamePath) == Some(Str(n)) then DeletePath(t1, DefaultRuntimeNamePath) else t1;
    GetDeleteOther(t2, DefaultRuntimePath, q);
  }

  lemma {:induction false} WithoutRuntimesFrame(t: Tree, rs: seq<(string, string)>, q: Path)
    requires forall i | 0 <= i < |rs| :: Diverge(RuntimePath(rs[i].0), q)
    requires Diverge(DefaultRuntimeNamePath, q) && Diverge(DefaultRuntimePath, q)
    ensures GetPath(WithoutRuntimes(t, rs), q) == GetPath(t, q)
    decreases |rs|
  {
    if rs != [] {
      WithoutRuntimeFrame(t, rs[0].0, rs[0].1, q);
      assert forall i | 0 <= i < |rs[1..]| :: rs[1..][i] == rs[i + 1];
      WithoutRuntimesFrame(WithoutRuntime(t, rs[0].0, rs[0].1), rs[1..], q);
    }
  }

  lemma WithoutRuntimeKeepsMissing(t: Tree, n: string, f: string, q: Path)
    requires GetPath(t, q) == None
    ensures GetPath(WithoutRuntime(t, n, f), q) == None
  {
    var t1 := DeletePath(t, RuntimePath(n));
    DeleteKeepsMissing(t, RuntimePath(n), q);
    DeleteKeepsMissing(t1, DefaultRuntimeNamePath, q);
    var t2 := if GetPath(t1, DefaultRuntimeNamePath) == Some(Str(n)) then DeletePath(t1, DefaultRuntimeNamePath) else t1;
    DeleteKeepsMissing(t2, DefaultRuntimePath, q);
  }

  lemma {:induction false} WithoutRuntimesKeepsMissing(t: Tree, rs: seq<(string, string)>, q: Path)
    requires GetPath(t, q) == None
    ensures GetPath(WithoutRuntimes(t, rs), q) == None
    decreases |rs|
  {
    if rs != [] {
      WithoutRuntimeKeepsMissing(t, rs[0].0, rs[0].1, q);
      WithoutRuntimesKeepsMissing(WithoutRuntime(t, rs[0].0, rs[0].1), rs[1..], q);
    }
  }

  /** Each removed runtime entry is gone afterwards. */
  lemma {:induction false} WithoutRuntimesRemoves(t: Tree, rs: seq<(string, string)>, j: nat)
    requires j < |rs|
    ensures GetPath(WithoutRuntimes(t, rs), RuntimePath(rs[j].0)) == None
    decreases |rs|
  {
    var n := rs[0].0;
    var t1 := WithoutRuntime(t, n, rs[0].1);
    if j == 0 {
      var d1 := DeletePath(t, RuntimePath(n));
      GetDeleteSame(t, RuntimePath(n));
      DeleteKeepsMissing(d1, DefaultRuntimeNamePath, RuntimePath(n));
      var d2 := if GetPath(d1, DefaultRuntimeNamePath) == Some(Str(n)) then DeletePath(d1, DefaultRuntimeNamePath) else d1;
      DeleteKeepsMissing(d2, DefaultRuntimePath, RuntimePath(n));
      WithoutRuntimesKeepsMissing(t1, rs[1..], RuntimePath(n));
    } else {
      assert rs[1..][j - 1] == rs[j];
      WithoutRuntimesRemoves(t1, rs[1..], j - 1);
    }
  }

  /** A `default_runtime_name` naming one of the removed runtimes is removed. */
  lemma {:induction false} WithoutRuntimesDefaultName(t: Tree, rs: seq<(string, string)>, j: nat)
    requires j < |rs| && GetPath(t, DefaultRuntimeNamePath) == Some(Str(rs[j].0))
    ensures GetPath(WithoutRuntimes(t, rs), DefaultRuntimeNamePath) == None
    decreases |rs|
  {
    var n := rs[0].0;
    var t1 := WithoutRuntime(t, n, rs[0].1);
    var d1 := DeletePath(t, RuntimePath(n));
    FixedPathsDiverge(n);
    GetDeleteOther(t, RuntimePath(n), DefaultRuntimeNamePath);
    if n == rs[j].0 {
      GetDeleteSame(d1, DefaultRuntimeNamePath);
      DeleteKeepsMissing(DeletePath(d1, DefaultRuntimeNamePath), DefaultRuntimePath, DefaultRuntimeNamePath);
      WithoutRuntimesKeepsMissing(t1, rs[1..], DefaultRuntimeNamePath);
    } else {
      GetDeleteOther(d1, DefaultRuntimePath, DefaultRuntimeNamePath);
      assert rs[1..][j - 1] == rs[j];
      WithoutRuntimesDefaultName(t1, rs[1..], j - 1);
    }
  }

  /** An inlined `default_runtime` running one of the removed binaries is removed. */
  lemma {:induction false} WithoutRuntimesDefaultRuntime(t: Tree, rs: seq<(string, string)>, j: nat)
    requires j < |rs| && DefaultRuns(t, rs[j].1)
    ensures GetPath(WithoutRuntimes(t, rs), DefaultRuntimePath) == None
    decreases |rs|
  {
    var n := rs[0].0;
    var t1 := WithoutRuntime(t, n, rs[0].1);
    var d1 := DeletePath(t, RuntimePath(n));
    var d2 := if GetPath(d1, DefaultRuntimeNamePath) == Some(Str(n)) then DeletePath(d1, DefaultRuntimeNamePath) else d1;
    RemovedPathsDiverge(n);
    GetDeleteOther(t, RuntimePath(n), DefaultBinaryPath);
    GetDeleteOther(d1, DefaultRuntimeNamePath, DefaultBinaryPath);
    assert GetPath(d2, DefaultBinaryPath) == GetPath(t, DefaultBinaryPath);
    if DefaultRuns(d2, rs[0].1) {
      GetDeleteSame(d2, DefaultRuntimePath);
      WithoutRuntimesKeepsMissing(t1, rs[1..], DefaultRuntimePath);
    } else {
      assert j != 0;
      assert rs[1..][j - 1] == rs[j];
      WithoutRuntimesDefaultRuntime(t1, rs[1..], j - 1);
    }
  }

  lemma PruneKeeps(t: Tree, p: Path, q: Path)
    requires |p| > 0 && |q| > 0 && !IsPrefix(q, p)
    ensures GetPath(PruneIfEmpty(t, p), q) == GetPath(t, q)
  {
    if GetPath(t, p) == Some(Table(map[])) {
      if IsPrefix(p, q) {
        EmptyBelow(t, p, q);
        DeleteBelow(t, p, q);
      } else {
        NotPrefixDiverge(p, q);
        GetDeleteOther(t, p, q);
      }
    }
  }

  /** Pruning only touches the tables on the way to `runtimes` and a lone `version`. */
  lemma PrunedKeeps(t: Tree, q: Path)
    requires |q| > 0 && q[0] != "version" && !IsPrefix(q, RuntimesPath)
    ensures GetPath(Pruned(t), q) == GetPath(t, q)
  {
    assert !IsPrefix(q, ContainerdPath) && !IsPrefix(q, ["plugins", "cri"]) && !IsPrefix(q, ["plugins"]) by {
      assert ContainerdPath == RuntimesPath[..3];
      assert ["plugins", "cri"] == RuntimesPath[..2];
      assert ["plugins"] == RuntimesPath[..1];
    }
    var t1 := PruneIfEmpty(t, RuntimesPath);
    var t2 := PruneIfEmpty(t1, ContainerdPath);
    var t3 := PruneIfEmpty(t2, ["plugins", "cri"]);
    PruneKeeps(t, RuntimesPath, q);
    PruneKeeps(t1, ContainerdPath, q);
    PruneKeeps(t2, ["plugins", "cri"], q);
    PruneKeeps(t3, ["plugins"], q);
  }

  lemma PrunedKeepsMissing(t: Tree, q: Path)
    requires GetPath(t, q) == None
    ensures GetPath(Pruned(t), q) == None
  {
    var t1 := PruneIfEmpty(t, RuntimesPath);
    var t2 := PruneIfEmpty(t1, ContainerdPath);
    var t3 := PruneIfEmpty(t2, ["plugins", "cri"]);
    DeleteKeepsMissing(t, RuntimesPath, q);
    DeleteKeepsMissing(t1, ContainerdPath, q);
    DeleteKeepsMissing(t2, ["plugins", "cri"], q);
    DeleteKeepsMissing(t3, ["plugins"], q);
  }

  /** RevertConfig removes every managed runtime entry. */
  lemma RevertRemovesManaged(t: Tree, o: Options, j: nat)
    requires j < 4
    ensures GetPath(Reverted(t, o), RuntimePath(ManagedRuntimes(o)[j].0)) == None
  {
    var rs := ManagedRuntimes(o);
    WithoutRuntimesRemoves(t, rs, j);
    PrunedKeepsMissing(WithoutRuntimes(t, rs), RuntimePath(rs[j].0));
  }

  /** RevertConfig removes a `default_runtime_name` that names a managed runtime, and keeps any other. */
  lemma RevertDefaultName(t: Tree, o: Options, name: string)
    requires GetPath(t, DefaultRuntimeNamePath) == Some(Str(name))
    ensures var rs := ManagedRuntimes(o);
      GetPath(Reverted(t, o), DefaultRuntimeNamePath)
        == if exists j | 0 <= j < 4 :: rs[j].0 == name then None else Some(Str(name))
  {
    var rs := ManagedRuntimes(o);
    var w := WithoutRuntimes(t, rs);
    if j :| 0 <= j < 4 && rs[j].0 == name {
      WithoutRuntimesDefaultName(t, rs, j);
      PrunedKeepsMissing(w, DefaultRuntimeNamePath);
    } else {
      KeepsForeignName(t, rs);
      DivergeAt(DefaultRuntimeNamePath, RuntimesPath, 3);
      PrunedKeeps(w, DefaultRuntimeNamePath);
    }
  }

  /** A `default_runtime_name` that names none of `rs` survives their removal. */
  lemma {:induction false} KeepsForeignName(t: Tree, rs: seq<(string, string)>)
    requires forall i | 0 <= i < |rs| :: GetPath(t, DefaultRuntimeNamePath) != Some(Str(rs[i].0))
    ensures GetPath(WithoutRuntimes(t, rs), DefaultRuntimeNamePath) == GetPath(t, DefaultRuntimeNamePath)
    decreases |rs|
  {
    if rs != [] {
      var n := rs[0].0;
      var d1 := DeletePath(t, RuntimePath(n));
      FixedPathsDiverge(n);
      GetDeleteOther(t, RuntimePath(n), DefaultRuntimeNamePath);
      GetDeleteOther(d1, DefaultRuntimePath, DefaultRuntimeNamePath);
      assert forall i | 0 <= i < |rs[1..]| :: rs[1..][i] == rs[i + 1];
      KeepsForeignName(WithoutRuntime(t, n, rs[0].1), rs[1..]);
    }
  }

  /** RevertConfig removes an inlined `default_runtime` running a managed binary file, and keeps any other. */
  lemma RevertDefaultRuntime(t: Tree, o: Options)
    ensures var rs := ManagedRuntimes(o);
      GetPath(Reverted(t, o), DefaultRuntimePath)
        == if exists j | 0 <= j < 4 :: DefaultRuns(t, rs[j].1) then None else GetPath(t, DefaultRuntimePath)
  {
    var rs := ManagedRuntimes(o);
    var w := WithoutRuntimes(t, rs);
    if j :| 0 <= j < 4 && DefaultRuns(t, rs[j].1) {
      WithoutRuntimesDefaultRuntime(t, rs, j);
      PrunedKeepsMissing(w, DefaultRuntimePath);
    } else {
      KeepsForeignDefault(t, rs);
      DivergeAt(DefaultRuntimePath, RuntimesPath, 3);
      PrunedKeeps(w, DefaultRuntimePath);
    }
  }

  lemma {:induction false} KeepsForeignDefault(t: Tree, rs: seq<(string, string)>)
    requires forall i | 0 <= i < |rs| :: !DefaultRuns(t, rs[i].1)
    ensures GetPath(WithoutRuntimes(t, rs), DefaultRuntimePath) == GetPath(t, DefaultRuntimePath)
    ensures GetPath(WithoutRuntimes(t, rs), DefaultBinaryPath) == GetPath(t, DefaultBinaryPath)
    decreases |rs|
  {
    if rs != [] {
      var n := rs[0].0;
      var d1 := DeletePath(t, RuntimePath(n));
      var d2 := if GetPath(d1, DefaultRuntimeNamePath) == Some(Str(n)) then DeletePath(d1, DefaultRuntimeNamePath) else d1;
      FixedPathsDiverge(n);
      RemovedPathsDiverge(n);
      GetDeleteOther(t, RuntimePath(n), DefaultRuntimePath);
      GetDeleteOther(d1, DefaultRuntimeNamePath, DefaultRuntimePath);
      GetDeleteOther(t, RuntimePath(n), DefaultBinaryPath);
      GetDeleteOther(d1, DefaultRuntimeNamePath, DefaultBinaryPath);
      assert !DefaultRuns(d2, rs[0].1);
      var t1 := WithoutRuntime(t, n, rs[0].1);
      assert t1 == d2;
      forall i | 0 <= i < |rs[1..]| ensures !DefaultRuns(t1, rs[1..][i].1) {
        assert rs[1..][i] == rs[i + 1];
      }
      KeepsForeignDefault(t1, rs[1..]);
    }
  }

  /** RevertConfig leaves alone every path outside the managed entries, the default settings,
      the tables on the way to `runtimes` and the top-level `version`. */
  lemma RevertPreservesUnrelated(t: Tree, o: Options, q: Path)
    requires |q| > 0 && q[0] != "version" && !IsPrefix(q, RuntimesPath)
    requires forall i | 0 <= i < 4 :: Diverge(RuntimePath(ManagedRuntimes(o)[i].0), q)
    requires Diverge(DefaultRuntimeNamePath, q) && Diverge(DefaultRuntimePath, q)
    ensures GetPath(Reverted(t, o), q) == GetPath(t, q)
  {
    var rs := ManagedRuntimes(o);
    WithoutRuntimesFrame(t, rs, q);
    PrunedKeeps(WithoutRuntimes(t, rs), q);
  }

  /** RevertConfig leaves an existing runc entry verbatim. */
  lemma RevertKeepsRunc(t: Tree, o: Options)
    requires o.runtimeClass != "runc"
    ensures GetPath(Reverted(t, o), RuntimePath("runc")) == GetPath(t, RuntimePath("runc"))
  {
    var rs := ManagedRuntimes(o);
    ManagedDistinct(o);
    FixedPathsDiverge("runc");
    forall i | 0 <= i < 4 ensures Diverge(RuntimePath(rs[i].0), RuntimePath("runc")) {
      RuntimePathsDiverge(rs[i].0, "runc");
    }
    RevertPreservesUnrelated(t, o, RuntimePath("runc"));
  }

  // ----- Revert after Revert -----

  /** A table that pruning looked at is not left empty. */
  lemma PruneSettles(t: Tree, p: Path)
    requires |p| > 0
    ensures GetPath(PruneIfEmpty(t, p), p) != Some(Table(map[]))
  {
    if GetPath(t, p) == Some(Table(map[])) {
      GetDeleteSame(t, p);
    }
  }

  /** Pruning at `p` cannot empty a table at or below `p`. */
  lemma PruneKeepsSettled(t: Tree, p: Path, q: Path)
    requires |p| > 0 && IsPrefix(p, q) && GetPath(t, q) != Some(Table(map[]))
    ensures GetPath(PruneIfEmpty(t, p), q) != Some(Table(map[]))
  {
    if GetPath(t, p) == Some(Table(map[])) {
      DeleteBelow(t, p, q);
    }
  }

  /** Pruning twice prunes nothing more. */
  lemma PrunedIdempotent(t: Tree)
    ensures Pruned(Pruned(t)) == Pruned(t)
  {
    var t1 := PruneIfEmpty(t, RuntimesPath);
    var t2 := PruneIfEmpty(t1, ContainerdPath);
    var t3 := PruneIfEmpty(t2, ["plugins", "cri"]);
    var t4 := PruneIfEmpty(t3, ["plugins"]);
    assert IsPrefix(ContainerdPath, RuntimesPath);
    assert IsPrefix(["plugins", "cri"], RuntimesPath) && IsPrefix(["plugins", "cri"], ContainerdPath);
    assert IsPrefix(["plugins"], RuntimesPath) && IsPrefix(["plugins"], ContainerdPath) && IsPrefix(["plugins"], ["plugins", "cri"]);
    PruneSettles(t, RuntimesPath);
    PruneSettles(t1, ContainerdPath);
    PruneKeepsSettled(t1, ContainerdPath, RuntimesPath);
    PruneSettles(t2, ["plugins", "cri"]);
    PruneKeepsSettled(t2, ["plugins", "cri"], RuntimesPath);
    PruneKeepsSettled(t2, ["plugins", "cri"], ContainerdPath);
    PruneSettles(t3, ["plugins"]);
    PruneKeepsSettled(t3, ["plugins"], RuntimesPath);
    PruneKeepsSettled(t3, ["plugins"], ContainerdPath);
    PruneKeepsSettled(t3, ["plugins"], ["plugins", "cri"]);
    if t4.Keys != {"version"} {
      assert Pruned(t) == t4;
    } else {
      assert Pruned(t) == map[];
      assert GetPath(map[], RuntimesPath) == None;
      assert GetPath(map[], ContainerdPath) == None;
      assert GetPath(map[], ["plugins", "cri"]) == None;
      assert GetPath(map[], ["plugins"]) == None;
    }
  }

  /** RemoveRuntime changes nothing when the entry, a default name for it and an inlined
      default running its binary are all absent. */
  lemma WithoutRuntimeIdle(t: Tree, n: string, f: string)
    requires GetPath(t, RuntimePath(n)) == None
    requires GetPath(t, DefaultRuntimeNamePath) != Some(Str(n))
    requires !DefaultRuns(t, f)
    ensures WithoutRuntime(t, n, f) == t
  {
    DeleteMissing(t, RuntimePath(n));
  }

  lemma {:induction false} WithoutRuntimesIdle(t: Tree, rs: seq<(string, string)>)
    requires forall i | 0 <= i < |rs| :: GetPath(t, RuntimePath(rs[i].0)) == None
    requires forall i | 0 <= i < |rs| :: GetPath(t, DefaultRuntimeNamePath) != Some(Str(rs[i].0))
    requires forall i | 0 <= i < |rs| :: !DefaultRuns(t, rs[i].1)
    ensures WithoutRuntimes(t, rs) == t
    decreases |rs|
  {
    if rs != [] {
      WithoutRuntimeIdle(t, rs[0].0, rs[0].1);
      assert forall i | 0 <= i < |rs[1..]| :: rs[1..][i] == rs[i + 1];
      WithoutRuntimesIdle(t, rs[1..]);
    }
  }

  /** After RevertConfig no default setting refers to a managed runtime. */
  lemma RevertLeavesNoManagedDefault(t: Tree, o: Options, j: nat)
    requires j < 4
    ensures var rs := ManagedRuntimes(o);
      GetPath(Reverted(t, o), DefaultRuntimeNamePath) != Some(Str(rs[j].0)) && !DefaultRuns(Reverted(t, o), rs[j].1)
  {
    var rs := ManagedRuntimes(o);
    var w := WithoutRuntimes(t, rs);
    var r := Reverted(t, o);
    DivergeAt(DefaultRuntimeNamePath, RuntimesPath, 3);
    if i :| 0 <= i < 4 && GetPath(t, DefaultRuntimeNamePath) == Some(Str(rs[i].0)) {
      WithoutRuntimesDefaultName(t, rs, i);
      PrunedKeepsMissing(w, DefaultRuntimeNamePath);
    } else {
      KeepsForeignName(t, rs);
      PrunedKeeps(w, DefaultRuntimeNamePath);
    }
    assert IsPrefix(DefaultRuntimePath, DefaultBinaryPath);
    if i :| 0 <= i < 4 && DefaultRuns(t, rs[i].1) {
      RevertDefaultRuntime(t, o);
      MissingBelow(r, DefaultRuntimePath, DefaultBinaryPath);
    } else {
      KeepsForeignDefault(t, rs);
      assert !IsPrefix(DefaultBinaryPath, RuntimesPath);
      PrunedKeeps(w, DefaultBinaryPath);
      assert !DefaultRuns(t, rs[j].1);
    }
  }

  /** Reverting an already reverted configuration changes nothing. */
  lemma RevertIdempotent(t: Tree, o: Options)
    ensures Reverted(Reverted(t, o), o) == Reverted(t, o)
  {
    var rs := ManagedRuntimes(o);
    var r := Reverted(t, o);
    forall i | 0 <= i < 4
      ensures GetPath(r, RuntimePath(rs[i].0)) == None
      ensures GetPath(r, DefaultRuntimeNamePath) != Some(Str(rs[i].0)) && !DefaultRuns(r, rs[i].1)
    {
      RevertRemovesManaged(t, o, i);
      RevertLeavesNoManagedDefault(t, o, i);
    }
    WithoutRuntimesIdle(r, rs);
    PrunedIdempotent(WithoutRuntimes(t, rs));
  }
}
