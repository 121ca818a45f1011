/**
  The default-runtime and revert cases of the V1 tests, stated as lemmas about
  the model.
 */
module ContainerdV1MoreExamples {
  import opened Wrappers
  import opened Toml
  import opened ContainerdV1
  import opened ContainerdV1Section
  import opened ContainerdV1Proofs
  import opened ContainerdV1Examples

  /** defaultRuntimeV1 and runtimeMapV1: an entry with the default fields and `binary`. */
  function PlainEntry(binary: string): map<string, Value>
  {
    map["runtime_type" := Str(TestRuntimeType),
        "runtime_root" := Str(""),
        "runtime_engine" := Str(""),
        "privileged_without_host_devices" := Bool(false),
        "options" := Table(map["BinaryName" := Str(binary), "Runtime" := Str(binary)])]
  }

  /** Update of an empty tree with every combination the default-runtime test tries. */
  lemma UpdateEmptyDefaultRuntime(legacy: bool, setAsDefault: bool, runtimeClass: string)
    requires runtimeClass in ["", "NAME", "nvidia-experimental"]
    ensures var r := Updated(map[], Options(runtimeClass, TestRuntimeDir, setAsDefault), !legacy, TestRuntimeType);
      && GetPath(r, DefaultRuntimeNamePath)
           == (if setAsDefault && !legacy then Some(Str(if runtimeClass == "" then "nvidia" else runtimeClass)) else None)
      && GetPath(r, DefaultRuntimePath)
           == (if setAsDefault && legacy
               then Some(Table(PlainEntry(if runtimeClass == "nvidia-experimental"
                                          then "/test/runtime/dir/nvidia-container-runtime.experimental"
                                          else "/test/runtime/dir/nvidia-container-runtime")))
               else None)
  {
    var o := Options(runtimeClass, TestRuntimeDir, setAsDefault);
    assert GetPath(map[], DefaultRuntimeNamePath) == None && GetPath(map[], DefaultRuntimePath) == None;
    UpdateDefaultRuntime(map[], o, !legacy, TestRuntimeType);
    if setAsDefault && legacy {
      InlinedOnEmpty(runtimeClass);
    }
  }

  lemma InlinedOnEmpty(runtimeClass: string)
    requires runtimeClass in ["", "NAME", "nvidia-experimental"]
    ensures DefaultEntry(map[], JoinPath(TestRuntimeDir, DefaultBinaryFile(runtimeClass)), TestRuntimeType)
         == PlainEntry(if runtimeClass == "nvidia-experimental"
                       then "/test/runtime/dir/nvidia-container-runtime.experimental"
                       else "/test/runtime/dir/nvidia-container-runtime")
  {
    TestBinaries();
    assert TableAt(map[], DefaultRuntimePath) == None;
  }

  // ----- Revert -----

  /** A tree without a plugins table has nothing for RevertConfig to remove. */
  lemma {:induction false} WithoutRuntimesNoPlugins(t: Tree, rs: seq<(string, string)>)
    requires "plugins" !in t
    ensures WithoutRuntimes(t, rs) == t
    decreases |rs|
  {
    if rs != [] {
      assert WithoutRuntime(t, rs[0].0, rs[0].1) == t;
      WithoutRuntimesNoPlugins(t, rs[1..]);
    }
  }

  /** Revert of `{}` and of `{version = 1}` both leave an empty tree. */
  lemma RevertWithoutPlugins(t: Tree)
    requires t == map[] || t == map["version" := Int(1)]
    ensures Reverted(t, Options("nvidia", "", false)) == map[]
  {
    WithoutRuntimesNoPlugins(t, ManagedRuntimes(Options("nvidia", "", false)));
  }

  /** The managed entries as the revert test writes them (runtimeMapV1, no annotations). */
  function RevertRuntimes(): map<string, Value>
  {
    map["nvidia" := Table(PlainEntry(JoinPath(TestRuntimeDir, RuntimeBinary))),
        "nvidia-experimental" := Table(PlainEntry(JoinPath(TestRuntimeDir, ExperimentalRuntimeBinary))),
        "nvidia-cdi" := Table(PlainEntry(JoinPath(TestRuntimeDir, CdiRuntimeBinary))),
        "nvidia-legacy" := Table(PlainEntry(JoinPath(TestRuntimeDir, LegacyRuntimeBinary)))]
  }

  /** The containerd table of the revert test's inputs, with or without the default settings. */
  function RevertSection(withDefault: bool): map<string, Value>
  {
    if withDefault then
      map["runtimes" := Table(RevertRuntimes()),
          "default_runtime" := Table(PlainEntry(JoinPath(TestRuntimeDir, RuntimeBinary))),
          "default_runtime_name" := Str("nvidia")]
    else map["runtimes" := Table(RevertRuntimes())]
  }

  lemma UnrollWithout(t: Tree, rs: seq<(string, string)>)
    requires |rs| == 4
    ensures WithoutRuntimes(t, rs)
         == WithoutRuntime(WithoutRuntime(WithoutRuntime(WithoutRuntime(t,
              rs[0].0, rs[0].1), rs[1].0, rs[1].1), rs[2].0, rs[2].1), rs[3].0, rs[3].1)
  {
    var rs1, rs2, rs3 := rs[1..], rs[2..], rs[3..];
    assert rs1[0] == rs[1] && rs1[1..] == rs2 && rs2[0] == rs[2] && rs2[1..] == rs3 && rs3[0] == rs[3] && rs3[1..] == [];
    var t1 := WithoutRuntime(t, rs[0].0, rs[0].1);
    var t2 := WithoutRuntime(t1, rs[1].0, rs[1].1);
    var t3 := WithoutRuntime(t2, rs[2].0, rs[2].1);
    var t4 := WithoutRuntime(t3, rs[3].0, rs[3].1);
    assert WithoutRuntimes(t3, rs3) == t4;
    assert WithoutRuntimes(t2, rs2) == t4;
    assert WithoutRuntimes(t1, rs1) == t4;
  }

  /** Removing an entry from a table that holds only runtimes. */
  lemma StepOnlyRuntimes(r: map<string, Value>, n: string, f: string)
    ensures SectionWithout(map["runtimes" := Table(r)], n, f) == map["runtimes" := Table(r - {n})]
  {
    var d1 := map["runtimes" := Table(r - {n})];
    assert "default_runtime_name" !in d1;
    assert GetPath(d1, ["default_runtime", "options", "Runtime"]) == None;
  }

  /** Removing the entry a table's default settings refer to also drops both settings. */
  lemma StepWithDefault(r: map<string, Value>, n: string, b: string, f: string)
    requires FileName(b) == f
    ensures SectionWithout(map["runtimes" := Table(r), "default_runtime" := Table(PlainEntry(b)),
                               "default_runtime_name" := Str(n)], n, f)
         == map["runtimes" := Table(r - {n})]
  {
    var d0 := map["runtimes" := Table(r), "default_runtime" := Table(PlainEntry(b)), "default_runtime_name" := Str(n)];
    var d1 := d0["runtimes" := Table(r - {n})];
    assert "default_runtime_name" in d1 && d1["default_runtime_name"] == Str(n);
    var d2 := d1 - {"default_runtime_name"};
    assert d2 == map["runtimes" := Table(r - {n}), "default_runtime" := Table(PlainEntry(b))];
    PlainEntryRuntime(b);
    DefaultRuntimeBinary(Table(r - {n}), PlainEntry(b));
    assert d2 - {"default_runtime"} == map["runtimes" := Table(r - {n})];
  }

  lemma PlainEntryRuntime(b: string)
    ensures GetPath(PlainEntry(b), ["options", "Runtime"]) == Some(Str(b))
  {
    var o := map["BinaryName" := Str(b), "Runtime" := Str(b)];
    assert GetPath(o, ["Runtime"]) == Some(Str(b));
  }

  lemma DefaultRuntimeBinary(x: Value, e: map<string, Value>)
    ensures GetPath(map["runtimes" := x, "default_runtime" := Table(e)], ["default_runtime", "options", "Runtime"])
         == GetPath(e, ["options", "Runtime"])
  {
    assert ["default_runtime", "options", "Runtime"][1..] == ["options", "Runtime"];
  }

  /** The first removal also drops both default settings when they are present. */
  lemma FirstStep(withDefault: bool)
    ensures SectionWithout(RevertSection(withDefault), "nvidia", RuntimeBinary)
         == map["runtimes" := Table(RevertRuntimes() - {"nvidia"})]
  {
    if withDefault {
      FileNameJoin(TestRuntimeDir, RuntimeBinary);
      StepWithDefault(RevertRuntimes(), "nvidia", JoinPath(TestRuntimeDir, RuntimeBinary), RuntimeBinary);
    } else {
      StepOnlyRuntimes(RevertRuntimes(), "nvidia", RuntimeBinary);
    }
  }

  /** Revert of the four managed entries, with or without the default settings, leaves an empty tree. */
  lemma RevertManagedTree(withDefault: bool)
    ensures Reverted(V1Tree(RevertSection(withDefault)), Options("nvidia", "", false)) == map[]
  {
    var rs := ManagedRuntimes(Options("nvidia", "", false));
    assert rs == [("nvidia", RuntimeBinary), ("nvidia-experimental", ExperimentalRuntimeBinary),
                  ("nvidia-cdi", CdiRuntimeBinary), ("nvidia-legacy", LegacyRuntimeBinary)];
    var d0 := RevertSection(withDefault);
    var r1 := RevertRuntimes() - {"nvidia"};
    var r2 := r1 - {"nvidia-experimental"};
    var r3 := r2 - {"nvidia-cdi"};
    FirstStep(withDefault);
    StepOnlyRuntimes(r1, "nvidia-experimental", ExperimentalRuntimeBinary);
    StepOnlyRuntimes(r2, "nvidia-cdi", CdiRuntimeBinary);
    StepOnlyRuntimes(r3, "nvidia-legacy", LegacyRuntimeBinary);
    WithoutRuntimeV1(d0, "nvidia", RuntimeBinary);
    WithoutRuntimeV1(map["runtimes" := Table(r1)], "nvidia-experimental", ExperimentalRuntimeBinary);
    WithoutRuntimeV1(map["runtimes" := Table(r2)], "nvidia-cdi", CdiRuntimeBinary);
    WithoutRuntimeV1(map["runtimes" := Table(r3)], "nvidia-legacy", LegacyRuntimeBinary);
    UnrollWithout(V1Tree(d0), rs);
    assert r3 - {"nvidia-legacy"} == map[];
    PrunedEmptyRuntimes();
  }
}
