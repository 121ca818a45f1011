/**
  The input/output tree pairs of the V1 UpdateConfig and RevertConfig tests,
  stated as lemmas about the model.
 */
module ContainerdV1Examples {
  import opened Wrappers
  import opened Toml
  import opened ContainerdV1
  import opened ContainerdV1Section

  const TestRuntimeDir := "/test/runtime/dir"
  const TestRuntimeType := "runtime_type"

  /** runtimeMapV1 with the CDI annotation every managed entry carries. */
  function ManagedEntry(binary: string): Value
  {
    Table(map[
      "runtime_type" := Str(TestRuntimeType),
      "runtime_root" := Str(""),
      "runtime_engine" := Str(""),
      "privileged_without_host_devices" := Bool(false),
      "container_annotations" := StrList(["cdi.k8s.io/*"]),
      "options" := Table(map["BinaryName" := Str(binary), "Runtime" := Str(binary)])])
  }

  lemma TestBinaries()
    ensures JoinPath(TestRuntimeDir, RuntimeBinary) == "/test/runtime/dir/nvidia-container-runtime"
    ensures JoinPath(TestRuntimeDir, ExperimentalRuntimeBinary) == "/test/runtime/dir/nvidia-container-runtime.experimental"
    ensures JoinPath(TestRuntimeDir, CdiRuntimeBinary) == "/test/runtime/dir/nvidia-container-runtime.cdi"
    ensures JoinPath(TestRuntimeDir, LegacyRuntimeBinary) == "/test/runtime/dir/nvidia-container-runtime.legacy"
  {
  }

  lemma FreshCopy(b: string)
    ensures Copy(DefaultFields(TestRuntimeType), b) == ManagedEntry(b)
  {
  }

  /** Update of an empty tree: the base entry is named after the class, except that
      "nvidia-experimental" maps back to "nvidia" and adds no fifth entry. */
  lemma UpdateEmptyTree(runtimeClass: string, name: string)
    requires runtimeClass in ["nvidia", "NAME", "nvidia-experimental"]
    requires name == if runtimeClass == "NAME" then "NAME" else "nvidia"
    ensures Updated(map[], Options(runtimeClass, TestRuntimeDir, false), true, TestRuntimeType)
         == V1Tree(map["runtimes" := Table(map[
              name := ManagedEntry("/test/runtime/dir/nvidia-container-runtime"),
              "nvidia-experimental" := ManagedEntry("/test/runtime/dir/nvidia-container-runtime.experimental"),
              "nvidia-cdi" := ManagedEntry("/test/runtime/dir/nvidia-container-runtime.cdi"),
              "nvidia-legacy" := ManagedEntry("/test/runtime/dir/nvidia-container-runtime.legacy")])])
  {
    UpdateEmptyNamed(runtimeClass, name);
  }

  lemma UpdateEmptyNamed(runtimeClass: string, name: string)
    requires runtimeClass != "runc" && BaseRuntimeName(runtimeClass) == name
    ensures Updated(map[], Options(runtimeClass, TestRuntimeDir, false), true, TestRuntimeType)
         == V1Tree(map["runtimes" := Table(map[
              name := ManagedEntry("/test/runtime/dir/nvidia-container-runtime"),
              "nvidia-experimental" := ManagedEntry("/test/runtime/dir/nvidia-container-runtime.experimental"),
              "nvidia-cdi" := ManagedEntry("/test/runtime/dir/nvidia-container-runtime.cdi"),
              "nvidia-legacy" := ManagedEntry("/test/runtime/dir/nvidia-container-runtime.legacy")])])
  {
    var o := Options(runtimeClass, TestRuntimeDir, false);
    var base := DefaultFields(TestRuntimeType);
    UpdatedPlain(map[], o, true, TestRuntimeType, base);
    TestBinaries();
    var b0, b1, b2, b3 := JoinPath(TestRuntimeDir, RuntimeBinary), JoinPath(TestRuntimeDir, ExperimentalRuntimeBinary),
                          JoinPath(TestRuntimeDir, CdiRuntimeBinary), JoinPath(TestRuntimeDir, LegacyRuntimeBinary);
    FreshCopy(b0);
    FreshCopy(b1);
    FreshCopy(b2);
    FreshCopy(b3);
    var r := map[name := ManagedEntry(b0), "nvidia-experimental" := ManagedEntry(b1),
                 "nvidia-cdi" := ManagedEntry(b2), "nvidia-legacy" := ManagedEntry(b3)];
    assert Section(map[]) == map[];
    assert map[]["runtimes" := Table(SubTable(map[], "runtimes")[name := Copy(base, b0)]["nvidia-experimental" := Copy(base, b1)]
                 ["nvidia-cdi" := Copy(base, b2)]["nvidia-legacy" := Copy(base, b3)])] == map["runtimes" := Table(r)];
    EmptySection(map["runtimes" := Table(r)]);
  }

  /** The runc entry of runcConfigMapV1. */
  function RuncEntry(binary: string): map<string, Value>
  {
    map["runtime_type" := Str("runc_runtime_type"),
        "runtime_root" := Str("runc_runtime_root"),
        "runtime_engine" := Str("runc_runtime_engine"),
        "privileged_without_host_devices" := Bool(true),
        "options" := Table(map["runc-option" := Str("value"), "BinaryName" := Str(binary)])]
  }

  /** runcConfigMapV1: a tree holding only a runc runtime. */
  function RuncTree(binary: string): Tree
  {
    map["plugins" := Table(map["cri" := Table(map["containerd" := Table(
      map["runtimes" := Table(map["runc" := Table(RuncEntry(binary))])])])])]
  }

  /** A managed entry copied from the test's runc entry. */
  function RuncCopy(binary: string): Value
  {
    Table(RuncEntry("/runc-binary")["container_annotations" := StrList(["cdi.k8s.io/*"])][
      "options" := Table(map["runc-option" := Str("value"), "BinaryName" := Str(binary), "Runtime" := Str(binary)])])
  }

  lemma RuncCopyIs(b: string)
    ensures Copy(RuncEntry("/runc-binary"), b) == RuncCopy(b)
  {
    var opts := map["runc-option" := Str("value"), "BinaryName" := Str("/runc-binary")];
    assert SubTable(RuncEntry("/runc-binary")["container_annotations" := StrList([CdiAnnotations])], "options") == opts;
    assert opts["BinaryName" := Str(b)]["Runtime" := Str(b)]
        == map["runc-option" := Str("value"), "BinaryName" := Str(b), "Runtime" := Str(b)];
  }

  lemma RuncSection()
    ensures Section(RuncTree("/runc-binary"))
         == map["runtimes" := Table(map["runc" := Table(RuncEntry("/runc-binary"))])]
  {
  }

  lemma RuncWithSection(d: map<string, Value>)
    ensures WithSection(RuncTree("/runc-binary"), d)["version" := Int(1)] == V1Tree(d)
  {
    var t := RuncTree("/runc-binary");
    var plugins := SubTable(t, "plugins");
    var cri := SubTable(plugins, "cri");
    assert cri["containerd" := Table(d)] == map["containerd" := Table(d)];
    assert plugins["cri" := Table(map["containerd" := Table(d)])] == map["cri" := Table(map["containerd" := Table(d)])];
  }

  /** Update of a tree holding a runc runtime: runc stays verbatim and every managed entry
      copies it, with the annotations added, BinaryName replaced and Runtime added. */
  lemma UpdateWithRunc(runtimeClass: string, name: string)
    requires runtimeClass in ["nvidia", "NAME", "nvidia-experimental"]
    requires name == if runtimeClass == "NAME" then "NAME" else "nvidia"
    ensures Updated(RuncTree("/runc-binary"), Options(runtimeClass, TestRuntimeDir, false), true, TestRuntimeType)
         == V1Tree(map["runtimes" := Table(map[
              "runc" := Table(RuncEntry("/runc-binary")),
              name := RuncCopy("/test/runtime/dir/nvidia-container-runtime"),
              "nvidia-experimental" := RuncCopy("/test/runtime/dir/nvidia-container-runtime.experimental"),
              "nvidia-cdi" := RuncCopy("/test/runtime/dir/nvidia-container-runtime.cdi"),
              "nvidia-legacy" := RuncCopy("/test/runtime/dir/nvidia-container-runtime.legacy")])])
  {
    UpdateRuncNamed(runtimeClass, name);
  }

  lemma UpdateRuncNamed(runtimeClass: string, name: string)
    requires runtimeClass != "runc" && BaseRuntimeName(runtimeClass) == name
    ensures Updated(RuncTree("/runc-binary"), Options(runtimeClass, TestRuntimeDir, false), true, TestRuntimeType)
         == V1Tree(map["runtimes" := Table(map[
              "runc" := Table(RuncEntry("/runc-binary")),
              name := RuncCopy("/test/runtime/dir/nvidia-container-runtime"),
              "nvidia-experimental" := RuncCopy("/test/runtime/dir/nvidia-container-runtime.experimental"),
              "nvidia-cdi" := RuncCopy("/test/runtime/dir/nvidia-container-runtime.cdi"),
              "nvidia-legacy" := RuncCopy("/test/runtime/dir/nvidia-container-runtime.legacy")])])
  {
    var t := RuncTree("/runc-binary");
    var o := Options(runtimeClass, TestRuntimeDir, false);
    var base := RuncEntry("/runc-binary");
    RuncSection();
    assert EntryIn(SubTable(Section(t), "runtimes"), "runc") == Some(base);
    UpdatedPlain(t, o, true, TestRuntimeType, base);
    TestBinaries();
    RuncCopies(name, JoinPath(TestRuntimeDir, RuntimeBinary), JoinPath(TestRuntimeDir, ExperimentalRuntimeBinary),
               JoinPath(TestRuntimeDir, CdiRuntimeBinary), JoinPath(TestRuntimeDir, LegacyRuntimeBinary));
  }

  lemma RuncCopies(name: string, b0: string, b1: string, b2: string, b3: string)
    ensures var base := RuncEntry("/runc-binary");
      var d := Section(RuncTree("/runc-binary"));
      WithSection(RuncTree("/runc-binary"), d["runtimes" := Table(SubTable(d, "runtimes")[
          name := Copy(base, b0)]["nvidia-experimental" := Copy(base, b1)][
          "nvidia-cdi" := Copy(base, b2)]["nvidia-legacy" := Copy(base, b3)])])["version" := Int(1)]
      == V1Tree(map["runtimes" := Table(map[
              "runc" := Table(base), name := RuncCopy(b0), "nvidia-experimental" := RuncCopy(b1),
              "nvidia-cdi" := RuncCopy(b2), "nvidia-legacy" := RuncCopy(b3)])])
  {
    var base := RuncEntry("/runc-binary");
    RuncSection();
    RuncCopyIs(b0);
    RuncCopyIs(b1);
    RuncCopyIs(b2);
    RuncCopyIs(b3);
    var r := map["runc" := Table(base), name := RuncCopy(b0), "nvidia-experimental" := RuncCopy(b1),
                 "nvidia-cdi" := RuncCopy(b2), "nvidia-legacy" := RuncCopy(b3)];
    var d := Section(RuncTree("/runc-binary"));
    assert SubTable(d, "runtimes") == map["runc" := Table(base)];
    assert SubTable(d, "runtimes")[name := Copy(base, b0)]["nvidia-experimental" := Copy(base, b1)][
          "nvidia-cdi" := Copy(base, b2)]["nvidia-legacy" := Copy(base, b3)] == r;
    assert d["runtimes" := Table(r)] == map["runtimes" := Table(r)];
    RuncWithSection(map["runtimes" := Table(r)]);
  }
}
