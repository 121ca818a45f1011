/**
  Version 1 of the containerd configuration, as the toolkit installer edits it:
  UpdateConfig adds the managed NVIDIA runtime entries under
  plugins.cri.containerd.runtimes (and, on request, a default-runtime setting);
  RevertConfig removes them again and prunes the tables left empty.
 */
module ContainerdV1 {
  import opened Wrappers
  import opened Toml

  const ContainerdPath: Path := ["plugins", "cri", "containerd"]
  const RuntimesPath: Path := ContainerdPath + ["runtimes"]
  const DefaultRuntimeNamePath: Path := ContainerdPath + ["default_runtime_name"]
  const DefaultRuntimePath: Path := ContainerdPath + ["default_runtime"]
  const VersionPath: Path := ["version"]

  const DefaultRuntimeClass := "nvidia"
  const ExperimentalRuntimeName := "nvidia-experimental"
  const CdiRuntimeName := "nvidia-cdi"
  const LegacyRuntimeName := "nvidia-legacy"
  const RuntimeBinary := "nvidia-container-runtime"
  const ExperimentalRuntimeBinary := "nvidia-container-runtime.experimental"
  const CdiRuntimeBinary := "nvidia-container-runtime.cdi"
  const LegacyRuntimeBinary := "nvidia-container-runtime.legacy"
  /** The annotation selector every managed entry passes through to the runtime. */
  const CdiAnnotations := "cdi.k8s.io/*"

  function RuntimePath(name: string): (p: Path)
    ensures |p| == 5 && p[..4] == RuntimesPath && p[4] == name
  {
    RuntimesPath + [name]
  }

  /** The installer's options that the V1 policy consults. */
  datatype Options = Options(runtimeClass: string, runtimeDir: string, setAsDefault: bool)

  /** The name the base `nvidia` runtime is installed under: the runtime class, unless
      it is empty or names one of the suffixed runtimes. */
  function BaseRuntimeName(runtimeClass: string): (name: string)
    ensures name == runtimeClass || name == DefaultRuntimeClass
    ensures name != ExperimentalRuntimeName && name != CdiRuntimeName && name != LegacyRuntimeName
    ensures runtimeClass == "" ==> name == DefaultRuntimeClass
    ensures runtimeClass !in {"", ExperimentalRuntimeName, CdiRuntimeName, LegacyRuntimeName} ==> name == runtimeClass
  {
    if runtimeClass == "" || runtimeClass in [ExperimentalRuntimeName, CdiRuntimeName, LegacyRuntimeName]
    then DefaultRuntimeClass
    else runtimeClass
  }

  /** The managed runtimes, in order, as (entry name, binary file name) pairs. */
  function ManagedRuntimes(o: Options): (rs: seq<(string, string)>)
    ensures |rs| == 4
  {
    [ (BaseRuntimeName(o.runtimeClass), RuntimeBinary),
      (ExperimentalRuntimeName, ExperimentalRuntimeBinary),
      (CdiRuntimeName, CdiRuntimeBinary),
      (LegacyRuntimeName, LegacyRuntimeBinary) ]
  }

  /** The entry that becomes the default runtime, if one is requested. */
  function DefaultRuntime(o: Options): (d: Option<string>)
    ensures d.Some? <==> o.setAsDefault
  {
    if !o.setAsDefault then None
    else if o.runtimeClass == "" then Some(DefaultRuntimeClass)
    else Some(o.runtimeClass)
  }

  /** The binary path of a runtime installed in `dir`. */
  function JoinPath(dir: string, file: string): string
  {
    if dir == "" then file else dir + "/" + file
  }

  /** The last component of a slash-separated path. */
  function FileName(p: string): (f: string)
    ensures |f| <= |p| && f == p[|p| - |f|..]
    ensures '/' !in f
  {
    if p == [] || p[|p| - 1] == '/' then []
    else FileName(p[..|p| - 1]) + [p[|p| - 1]]
  }

  /** The fields of an entry that neither runc nor an earlier entry provides. */
  function DefaultFields(runtimeType: string): map<string, Value>
  {
    map[ "runtime_type" := Str(runtimeType),
         "runtime_root" := Str(""),
         "runtime_engine" := Str(""),
         "privileged_without_host_devices" := Bool(false) ]
  }

  /** `entry` with options.BinaryName and options.Runtime pointing at `binary`. */
  function WithBinary(entry: map<string, Value>, binary: string): map<string, Value>
  {
    entry["options" := Table(SubTable(entry, "options")["BinaryName" := Str(binary)]["Runtime" := Str(binary)])]
  }

  /** The table at `p`, if there is one. */
  function TableAt(t: Tree, p: Path): Option<map<string, Value>>
  {
    match GetPath(t, p)
    case Some(Table(m)) => Some(m)
    case _ => None
  }

  /** What a new entry starts from: a copy of runc, else the entry already there, else defaults. */
  function BaseEntry(t: Tree, name: string, runtimeType: string): map<string, Value>
  {
    match TableAt(t, RuntimePath("runc"))
    case Some(runc) => runc
    case None =>
      match TableAt(t, RuntimePath(name))
      case Some(existing) => existing
      case None => DefaultFields(runtimeType)
  }

  function RuntimeEntry(t: Tree, name: string, binary: string, runtimeType: string): map<string, Value>
  {
    WithBinary(BaseEntry(t, name, runtimeType)["container_annotations" := StrList([CdiAnnotations])], binary)
  }

  /** The inlined V1 default runtime: the existing one (or defaults) with the new binary. */
  function DefaultEntry(t: Tree, binary: string, runtimeType: string): map<string, Value>
  {
    match TableAt(t, DefaultRuntimePath)
    case Some(existing) => WithBinary(existing, binary)
    case None => WithBinary(DefaultFields(runtimeType), binary)
  }

  /** The tree after ConfigV1.AddRuntime. */
  function WithRuntime(t: Tree, name: string, binary: string, setAsDefault: bool,
                       useDefaultRuntimeName: bool, runtimeType: string): Tree
  {
    var t1 := SetPath(t, VersionPath, Int(1));
    var t2 := SetPath(t1, RuntimePath(name), Table(RuntimeEntry(t1, name, binary, runtimeType)));
    if !setAsDefault then t2
    else if useDefaultRuntimeName then SetPath(t2, DefaultRuntimeNamePath, Str(name))
    else SetPath(t2, DefaultRuntimePath, Table(DefaultEntry(t2, binary, runtimeType)))
  }

  /** Adds each of `rs` in turn, the one named `default` as the default runtime. */
  function WithRuntimes(t: Tree, rs: seq<(string, string)>, dir: string, default: Option<string>,
                        useDefaultRuntimeName: bool, runtimeType: string): Tree
    decreases |rs|
  {
    if rs == [] then t
    else
      var t1 := WithRuntime(t, rs[0].0, JoinPath(dir, rs[0].1), default == Some(rs[0].0),
                            useDefaultRuntimeName, runtimeType);
      WithRuntimes(t1, rs[1..], dir, default, useDefaultRuntimeName, runtimeType)
  }

  /** The tree after UpdateConfig. */
  function Updated(t: Tree, o: Options, useDefaultRuntimeName: bool, runtimeType: string): Tree
  {
    WithRuntimes(t, ManagedRuntimes(o), o.runtimeDir, DefaultRuntime(o), useDefaultRuntimeName, runtimeType)
  }

  /** Whether the inlined default runtime runs the binary file `file`. */
  predicate DefaultRuns(t: Tree, file: string)
  {
    match GetPath(t, DefaultRuntimePath + ["options", "Runtime"])
    case Some(Str(b)) => FileName(b) == file
    case _ => false
  }

  /** The tree after ConfigV1.RemoveRuntime. */
  function WithoutRuntime(t: Tree, name: string, file: string): Tree
  {
    var t1 := DeletePath(t, RuntimePath(name));
    var t2 := if GetPath(t1, DefaultRuntimeNamePath) == Some(Str(name)) then DeletePath(t1, DefaultRuntimeNamePath) else t1;
    if DefaultRuns(t2, file) then DeletePath(t2, DefaultRuntimePath) else t2
  }

  function WithoutRuntimes(t: Tree, rs: seq<(string, string)>): Tree
    decreases |rs|
  {
    if rs == [] then t else WithoutRuntimes(WithoutRuntime(t, rs[0].0, rs[0].1), rs[1..])
  }

  /** Removes the table at `p` if it is empty. */
  function PruneIfEmpty(t: Tree, p: Path): Tree
    requires |p| > 0
  {
    if GetPath(t, p) == Some(Table(map[])) then DeletePath(t, p) else t
  }

  /** Removes the tables left empty, innermost first, and a `version` left on its own. */
  function Pruned(t: Tree): Tree
  {
    var t1 := PruneIfEmpty(t, RuntimesPath);
    var t2 := PruneIfEmpty(t1, ContainerdPath);
    var t3 := PruneIfEmpty(t2, ["plugins", "cri"]);
    var t4 := PruneIfEmpty(t3, ["plugins"]);
    if t4.Keys == {"version"} then map[] else t4
  }

  /** The tree after RevertConfig. */
  function Reverted(t: Tree, o: Options): Tree
  {
    Pruned(WithoutRuntimes(t, ManagedRuntimes(o)))
  }

  /** A containerd V1 configuration: the tree and the two settings the engine was built with. */
  class ConfigV1 {
    var tree: Tree
    var useDefaultRuntimeName: bool
    var runtimeType: string

    constructor (tree: Tree, useDefaultRuntimeName: bool, runtimeType: string)
      ensures this.tree == tree
      ensures this.useDefaultRuntimeName == useDefaultRuntimeName
      ensures this.runtimeType == runtimeType
    {
      this.tree := tree;
      this.useDefaultRuntimeName := useDefaultRuntimeName;
      this.runtimeType := runtimeType;
    }

    /** Adds (or overwrites) the runtime entry `name` running `binary`. */
    method AddRuntime(name: string, binary: string, setAsDefault: bool)
      modifies this`tree
      ensures tree == WithRuntime(old(tree), name, binary, setAsDefault, useDefaultRuntimeName, runtimeType)
      ensures GetPath(tree, RuntimePath(name)) == Some(Table(RuntimeEntry(old(tree), name, binary, runtimeType)))
    {
      tree := SetPath(tree, VersionPath, Int(1));
      ghost var t1 := tree;
      var entry := RuntimeEntry(tree, name, binary, runtimeType);
      tree := SetPath(tree, RuntimePath(name), Table(entry));
      if setAsDefault && useDefaultRuntimeName {
        tree := SetPath(tree, DefaultRuntimeNamePath, Str(name));
      } else if setAsDefault {
        tree := SetPath(tree, DefaultRuntimePath, Table(DefaultEntry(tree, binary, runtimeType)));
      }
      AddRuntimeEntry(old(tree), name, binary, setAsDefault, useDefaultRuntimeName, runtimeType);
    }

    /** Removes the runtime entry `name` and any default setting that refers to it. */
    method RemoveRuntime(name: string, file: string)
      modifies this`tree
      ensures tree == WithoutRuntime(old(tree), name, file)
    {
      tree := DeletePath(tree, RuntimePath(name));
      if GetPath(tree, DefaultRuntimeNamePath) == Some(Str(name)) {
        tree := DeletePath(tree, DefaultRuntimeNamePath);
      }
      if DefaultRuns(tree, file) {
        tree := DeletePath(tree, DefaultRuntimePath);
      }
    }

    /** Installs every managed runtime; the one DefaultRuntime(o) names becomes the default. */
    method UpdateConfig(o: Options)
      modifies this`tree
      ensures tree == Updated(old(tree), o, useDefaultRuntimeName, runtimeType)
    {
      var runtimes := ManagedRuntimes(o);
      var default := DefaultRuntime(o);
      var i := 0;
      while i < |runtimes|
        invariant 0 <= i <= |runtimes|
        invariant WithRuntimes(tree, runtimes[i..], o.runtimeDir, default, useDefaultRuntimeName, runtimeType)
                  == Updated(old(tree), o, useDefaultRuntimeName, runtimeType)
      {
        var (name, file) := runtimes[i];
        assert runtimes[i..][1..] == runtimes[i + 1..];
        AddRuntime(name, JoinPath(o.runtimeDir, file), default == Some(name));
        i := i + 1;
      }
    }

    /** Removes every managed runtime, then the tables and `version` left over. */
    method RevertConfig(o: Options)
      modifies this`tree
      ensures tree == Reverted(old(tree), o)
    {
      var runtimes := ManagedRuntimes(o);
      var i := 0;
      while i < |runtimes|
        invariant 0 <= i <= |runtimes|
        invariant Pruned(WithoutRuntimes(tree, runtimes[i..])) == Reverted(old(tree), o)
      {
        assert runtimes[i..][1..] == runtimes[i + 1..];
        RemoveRuntime(runtimes[i].0, runtimes[i].1);
        i := i + 1;
      }
      tree := PruneIfEmpty(tree, RuntimesPath);
      tree := PruneIfEmpty(tree, ContainerdPath);
      tree := PruneIfEmpty(tree, ["plugins", "cri"]);
      tree := PruneIfEmpty(tree, ["plugins"]);
      if tree.Keys == {"version"} {
        tree := map[];
      }
    }
  }

  // ----- Path facts -----

  lemma RuntimePathsDiverge(a: string, b: string)
    requires a != b
    ensures Diverge(RuntimePath(a), RuntimePath(b))
  {
    DivergeAt(RuntimePath(a), RuntimePath(b), 4);
  }

  /** The version key and the two default settings never overlap a runtime entry. */
  lemma FixedPathsDiverge(name: string)
    ensures Diverge(VersionPath, RuntimePath(name)) && Diverge(RuntimePath(name), VersionPath)
    ensures Diverge(DefaultRuntimeNamePath, RuntimePath(name)) && Diverge(RuntimePath(name), DefaultRuntimeNamePath)
    ensures Diverge(DefaultRuntimePath, RuntimePath(name)) && Diverge(RuntimePath(name), DefaultRuntimePath)
    ensures Diverge(VersionPath, DefaultRuntimePath) && Diverge(VersionPath, DefaultRuntimeNamePath)
    ensures Diverge(DefaultRuntimeNamePath, DefaultRuntimePath) && Diverge(DefaultRuntimePath, DefaultRuntimeNamePath)
  {
    DivergeAt(VersionPath, RuntimePath(name), 0);
    DivergeAt(RuntimePath(name), VersionPath, 0);
    DivergeAt(DefaultRuntimeNamePath, RuntimePath(name), 3);
    DivergeAt(RuntimePath(name), DefaultRuntimeNamePath, 3);
    DivergeAt(DefaultRuntimePath, RuntimePath(name), 3);
    DivergeAt(RuntimePath(name), DefaultRuntimePath, 3);
    DivergeAt(VersionPath, DefaultRuntimePath, 0);
    DivergeAt(VersionPath, DefaultRuntimeNamePath, 0);
    DivergeAt(DefaultRuntimeNamePath, DefaultRuntimePath, 3);
    DivergeAt(DefaultRuntimePath, DefaultRuntimeNamePath, 3);
  }

  // ----- AddRuntime -----

  /** AddRuntime writes the entry built from the tree as it found it. */
  lemma AddRuntimeEntry(t: Tree, name: string, binary: string, setAsDefault: bool,
                        useDefaultRuntimeName: bool, runtimeType: string)
    ensures GetPath(WithRuntime(t, name, binary, setAsDefault, useDefaultRuntimeName, runtimeType), RuntimePath(name))
            == Some(Table(RuntimeEntry(t, name, binary, runtimeType)))
  {
    var t1 := SetPath(t, VersionPath, Int(1));
    FixedPathsDiverge(name);
    FixedPathsDiverge("runc");
    GetSetOther(t, VersionPath, Int(1), RuntimePath("runc"));
    GetSetOther(t, VersionPath, Int(1), RuntimePath(name));
    assert BaseEntry(t1, name, runtimeType) == BaseEntry(t, name, runtimeType);
    var t2 := SetPath(t1, RuntimePath(name), Table(RuntimeEntry(t1, name, binary, runtimeType)));
    GetSetSame(t1, RuntimePath(name), Table(RuntimeEntry(t1, name, binary, runtimeType)));
    GetSetOther(t2, DefaultRuntimeNamePath, Str(name), RuntimePath(name));
    GetSetOther(t2, DefaultRuntimePath, Table(DefaultEntry(t2, binary, runtimeType)), RuntimePath(name));
  }
}
