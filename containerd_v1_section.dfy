/**
  The plugins.cri.containerd table of a version 1 configuration on its own:
  AddRuntime and UpdateConfig restated as edits of that table, used to compute
  the trees the V1 tests expect.
 */
module ContainerdV1Section {
  import opened Wrappers
  import opened Toml
  import opened ContainerdV1

  /** The plugins.cri.containerd table (empty when a level is missing or not a table). */
  function Section(t: Tree): map<string, Value>
  {
    SubTable(SubTable(SubTable(t, "plugins"), "cri"), "containerd")
  }

  /** `t` with plugins.cri.containerd replaced by `d`, the levels above kept. */
  function WithSection(t: Tree, d: map<string, Value>): Tree
  {
    var plugins := SubTable(t, "plugins");
    var cri := SubTable(plugins, "cri");
    t["plugins" := Table(plugins["cri" := Table(cri["containerd" := Table(d)])])]
  }

  lemma SetRuntimeInSection(t: Tree, n: string, v: Value)
    ensures SetPath(t, RuntimePath(n), v)
         == WithSection(t, Section(t)["runtimes" := Table(SubTable(Section(t), "runtimes")[n := v])])
  {
    var p := RuntimePath(n);
    var plugins := SubTable(t, "plugins");
    var cri := SubTable(plugins, "cri");
    var d := SubTable(cri, "containerd");
    var r := SubTable(d, "runtimes");
    assert p[1..] == ["cri", "containerd", "runtimes", n];
    assert p[1..][1..] == ["containerd", "runtimes", n];
    assert p[1..][1..][1..] == ["runtimes", n];
    assert p[1..][1..][1..][1..] == [n];
    assert SetPath(r, [n], v) == r[n := v];
    assert SetPath(d, ["runtimes", n], v) == d["runtimes" := Table(r[n := v])];
    assert SetPath(cri, ["containerd", "runtimes", n], v) == cri["containerd" := Table(d["runtimes" := Table(r[n := v])])];
    assert SetPath(plugins, p[1..], v) == plugins["cri" := Table(cri["containerd" := Table(d["runtimes" := Table(r[n := v])])])];
  }

  lemma SetKeyInSection(t: Tree, k: string, v: Value)
    ensures SetPath(t, ContainerdPath + [k], v) == WithSection(t, Section(t)[k := v])
  {
    var p := ContainerdPath + [k];
    var plugins := SubTable(t, "plugins");
    var cri := SubTable(plugins, "cri");
    var d := SubTable(cri, "containerd");
    assert p[1..] == ["cri", "containerd", k];
    assert p[1..][1..] == ["containerd", k];
    assert SetPath(d, [k], v) == d[k := v];
    assert SetPath(cri, ["containerd", k], v) == cri["containerd" := Table(d[k := v])];
    assert SetPath(plugins, p[1..], v) == plugins["cri" := Table(cri["containerd" := Table(d[k := v])])];
  }

  lemma SectionOfWithSection(t: Tree, d: map<string, Value>)
    ensures Section(WithSection(t, d)) == d
  {
  }

  lemma WithSectionTwice(t: Tree, d1: map<string, Value>, d2: map<string, Value>)
    ensures WithSection(WithSection(t, d1), d2) == WithSection(t, d2)
  {
    var plugins := SubTable(t, "plugins");
    var cri := SubTable(plugins, "cri");
    var plugins1 := plugins["cri" := Table(cri["containerd" := Table(d1)])];
    assert SubTable(WithSection(t, d1), "plugins") == plugins1;
    assert SubTable(plugins1, "cri") == cri["containerd" := Table(d1)];
    var cri2 := cri["containerd" := Table(d2)];
    assert cri["containerd" := Table(d1)]["containerd" := Table(d2)] == cri2;
    assert plugins1["cri" := Table(cri2)] == plugins["cri" := Table(cri2)];
    var t1 := WithSection(t, d1);
    assert t1 == t["plugins" := Table(plugins1)];
    assert t1["plugins" := Table(plugins["cri" := Table(cri2)])] == t["plugins" := Table(plugins["cri" := Table(cri2)])];
  }

  lemma WithSectionVersion(t: Tree, d: map<string, Value>, v: Value)
    ensures WithSection(t["version" := v], d) == WithSection(t, d)["version" := v]
    ensures Section(t["version" := v]) == Section(t)
  {
  }

  lemma GetPathStep(t: Tree, p: Path)
    requires |p| >= 2
    ensures GetPath(t, p) == GetPath(SubTable(t, p[0]), p[1..])
  {
  }

  function EntryIn(m: map<string, Value>, k: string): Option<map<string, Value>>
  {
    if k in m && m[k].Table? then Some(m[k].entries) else None
  }

  lemma TableAtRuntimeSection(t: Tree, x: string)
    ensures TableAt(t, RuntimePath(x)) == EntryIn(SubTable(Section(t), "runtimes"), x)
  {
    var p := RuntimePath(x);
    var plugins := SubTable(t, "plugins");
    var cri := SubTable(plugins, "cri");
    var d := SubTable(cri, "containerd");
    GetPathStep(t, p);
    GetPathStep(plugins, ["cri", "containerd", "runtimes", x]);
    GetPathStep(cri, ["containerd", "runtimes", x]);
    GetPathStep(d, ["runtimes", x]);
    assert p[1..] == ["cri", "containerd", "runtimes", x];
  }

  lemma TableAtDefaultSection(t: Tree)
    ensures TableAt(t, DefaultRuntimePath) == EntryIn(Section(t), "default_runtime")
  {
    var p := DefaultRuntimePath;
    var plugins := SubTable(t, "plugins");
    var cri := SubTable(plugins, "cri");
    GetPathStep(t, p);
    GetPathStep(plugins, ["cri", "containerd", "default_runtime"]);
    GetPathStep(cri, ["containerd", "default_runtime"]);
    assert p[1..] == ["cri", "containerd", "default_runtime"];
  }

  /** AddRuntime seen from the plugins.cri.containerd table. */
  function SectionStep(d: map<string, Value>, n: string, binary: string, isDefault: bool,
                       useDefaultRuntimeName: bool, runtimeType: string): map<string, Value>
  {
    var r := SubTable(d, "runtimes");
    var base := match EntryIn(r, "runc")
      case Some(runc) => runc
      case None => (match EntryIn(r, n) case Some(e) => e case None => DefaultFields(runtimeType));
    var d1 := d["runtimes" := Table(r[n := Table(WithBinary(base["container_annotations" := StrList([CdiAnnotations])], binary))])];
    if !isDefault then d1
    else if useDefaultRuntimeName then d1["default_runtime_name" := Str(n)]
    else
      var existing := match EntryIn(d1, "default_runtime") case Some(e) => e case None => DefaultFields(runtimeType);
      d1["default_runtime" := Table(WithBinary(existing, binary))]
  }

  function SectionSteps(d: map<string, Value>, rs: seq<(string, string)>, dir: string, default: Option<string>,
                        useDefaultRuntimeName: bool, runtimeType: string): map<string, Value>
    decreases |rs|
  {
    if rs == [] then d
    else SectionSteps(SectionStep(d, rs[0].0, JoinPath(dir, rs[0].1), default == Some(rs[0].0), useDefaultRuntimeName, runtimeType),
                      rs[1..], dir, default, useDefaultRuntimeName, runtimeType)
  }

  lemma WithRuntimeSection(t: Tree, n: string, binary: string, isDefault: bool, u: bool, rt: string)
    ensures WithRuntime(t, n, binary, isDefault, u, rt)
         == WithSection(t, SectionStep(Section(t), n, binary, isDefault, u, rt))["version" := Int(1)]
  {
    var t1 := SetPath(t, VersionPath, Int(1));
    assert t1 == t["version" := Int(1)];
    WithSectionVersion(t, map[], Int(1));
    TableAtRuntimeSection(t1, "runc");
    TableAtRuntimeSection(t1, n);
    var e := RuntimeEntry(t1, n, binary, rt);
    var d := Section(t);
    var d1 := d["runtimes" := Table(SubTable(d, "runtimes")[n := Table(e)])];
    SetRuntimeInSection(t1, n, Table(e));
    var t2 := WithSection(t1, d1);
    SectionOfWithSection(t1, d1);
    WithSectionVersion(t, d1, Int(1));
    if isDefault && u {
      SetKeyInSection(t2, "default_runtime_name", Str(n));
      WithSectionTwice(t1, d1, d1["default_runtime_name" := Str(n)]);
      WithSectionVersion(t, d1["default_runtime_name" := Str(n)], Int(1));
    } else if isDefault {
      TableAtDefaultSection(t2);
      var de := DefaultEntry(t2, binary, rt);
      SetKeyInSection(t2, "default_runtime", Table(de));
      WithSectionTwice(t1, d1, d1["default_runtime" := Table(de)]);
      WithSectionVersion(t, d1["default_runtime" := Table(de)], Int(1));
    }
  }

  /** Two section updates in a row, each also setting `version`, are the second one. */
  lemma ChainSection(t: Tree, d1: map<string, Value>, d2: map<string, Value>)
    ensures Section(WithSection(t, d1)["version" := Int(1)]) == d1
    ensures WithSection(WithSection(t, d1)["version" := Int(1)], d2)["version" := Int(1)]
         == WithSection(t, d2)["version" := Int(1)]
  {
    WithSectionVersion(WithSection(t, d1), d2, Int(1));
    SectionOfWithSection(t, d1);
    WithSectionTwice(t, d1, d2);
  }

  lemma {:induction false} WithRuntimesSection(t: Tree, rs: seq<(string, string)>, dir: string, default: Option<string>,
                                               u: bool, rt: string)
    requires rs != []
    ensures WithRuntimes(t, rs, dir, default, u, rt)
         == WithSection(t, SectionSteps(Section(t), rs, dir, default, u, rt))["version" := Int(1)]
    decreases |rs|
  {
    var b := JoinPath(dir, rs[0].1);
    var isDefault := default == Some(rs[0].0);
    var d1 := SectionStep(Section(t), rs[0].0, b, isDefault, u, rt);
    WithRuntimeSection(t, rs[0].0, b, isDefault, u, rt);
    var t1 := WithSection(t, d1)["version" := Int(1)];
    assert WithRuntimes(t, rs, dir, default, u, rt) == WithRuntimes(t1, rs[1..], dir, default, u, rt);
    assert SectionSteps(Section(t), rs, dir, default, u, rt) == SectionSteps(d1, rs[1..], dir, default, u, rt);
    if rs[1..] != [] {
      WithRuntimesSection(t1, rs[1..], dir, default, u, rt);
      ChainSection(t, d1, SectionSteps(d1, rs[1..], dir, default, u, rt));
    }
  }

  /** One step that copies `base` (runc, or the defaults) into entry `n`. */
  lemma StepPlain(d: map<string, Value>, n: string, b: string, u: bool, rt: string, base: map<string, Value>)
    requires (match EntryIn(SubTable(d, "runtimes"), "runc") case Some(runc) => runc == base
                case None => EntryIn(SubTable(d, "runtimes"), n) == None && base == DefaultFields(rt))
    ensures SectionStep(d, n, b, false, u, rt)
         == d["runtimes" := Table(SubTable(d, "runtimes")[n := Table(WithBinary(base["container_annotations" := StrList([CdiAnnotations])], b))])]
  {
  }

  function Copy(base: map<string, Value>, b: string): Value
  {
    Table(WithBinary(base["container_annotations" := StrList([CdiAnnotations])], b))
  }

  lemma FourPlainSteps(d0: map<string, Value>, rs: seq<(string, string)>, dir: string, u: bool, rt: string, base: map<string, Value>)
    requires |rs| == 4
    requires rs[0].0 != rs[1].0 && rs[0].0 != rs[2].0 && rs[0].0 != rs[3].0
    requires rs[1].0 != rs[2].0 && rs[1].0 != rs[3].0 && rs[2].0 != rs[3].0
    requires rs[0].0 != "runc" && rs[1].0 != "runc" && rs[2].0 != "runc" && rs[3].0 != "runc"
    requires (match EntryIn(SubTable(d0, "runtimes"), "runc") case Some(runc) => runc == base
                case None => base == DefaultFields(rt) && forall i | 0 <= i < 4 :: EntryIn(SubTable(d0, "runtimes"), rs[i].0) == None)
    ensures
      SectionStep(SectionStep(SectionStep(SectionStep(d0,
              rs[0].0, JoinPath(dir, rs[0].1), false, u, rt),
              rs[1].0, JoinPath(dir, rs[1].1), false, u, rt),
              rs[2].0, JoinPath(dir, rs[2].1), false, u, rt),
              rs[3].0, JoinPath(dir, rs[3].1), false, u, rt)
      == d0["runtimes" := Table(SubTable(d0, "runtimes")[
          rs[0].0 := Copy(base, JoinPath(dir, rs[0].1))][
          rs[1].0 := Copy(base, JoinPath(dir, rs[1].1))][
          rs[2].0 := Copy(base, JoinPath(dir, rs[2].1))][
          rs[3].0 := Copy(base, JoinPath(dir, rs[3].1))])]
  {
    var n0, n1, n2, n3 := rs[0].0, rs[1].0, rs[2].0, rs[3].0;
    var b0, b1, b2, b3 := JoinPath(dir, rs[0].1), JoinPath(dir, rs[1].1), JoinPath(dir, rs[2].1), JoinPath(dir, rs[3].1);
    var r0 := SubTable(d0, "runtimes");
    StepPlain(d0, n0, b0, u, rt, base);
    var d1 := SectionStep(d0, n0, b0, false, u, rt);
    var r1 := r0[n0 := Copy(base, b0)];
    assert d1 == d0["runtimes" := Table(r1)];
    PlainStepOthers(d0, n0, Copy(base, b0), "runc");
    PlainStepOthers(d0, n0, Copy(base, b0), n1);
    StepPlain(d1, n1, b1, u, rt, base);
    var d2 := SectionStep(d1, n1, b1, false, u, rt);
    var r2 := r1[n1 := Copy(base, b1)];
    assert d2 == d0["runtimes" := Table(r2)];
    PlainStepOthers(d1, n1, Copy(base, b1), "runc");
    PlainStepOthers(d0, n0, Copy(base, b0), n2);
    PlainStepOthers(d1, n1, Copy(base, b1), n2);
    StepPlain(d2, n2, b2, u, rt, base);
    var d3 := SectionStep(d2, n2, b2, false, u, rt);
    assert d3 == d0["runtimes" := Table(r2[n2 := Copy(base, b2)])];
    PlainStepOthers(d2, n2, Copy(base, b2), "runc");
    PlainStepOthers(d0, n0, Copy(base, b0), n3);
    PlainStepOthers(d1, n1, Copy(base, b1), n3);
    PlainStepOthers(d2, n2, Copy(base, b2), n3);
    StepPlain(d3, n3, b3, u, rt, base);
  }

  /** Writing entry `n` of the runtimes table leaves every other entry as it was. */
  lemma PlainStepOthers(d: map<string, Value>, n: string, v: Value, m: string)
    requires m != n
    ensures EntryIn(SubTable(d["runtimes" := Table(SubTable(d, "runtimes")[n := v])], "runtimes"), m)
         == EntryIn(SubTable(d, "runtimes"), m)
  {
  }

  lemma UnrollSteps(d0: map<string, Value>, rs: seq<(string, string)>, dir: string, df: Option<string>, u: bool, rt: string)
    requires |rs| == 4
    ensures SectionSteps(d0, rs, dir, df, u, rt)
         == SectionStep(SectionStep(SectionStep(SectionStep(d0,
              rs[0].0, JoinPath(dir, rs[0].1), df == Some(rs[0].0), u, rt),
              rs[1].0, JoinPath(dir, rs[1].1), df == Some(rs[1].0), u, rt),
              rs[2].0, JoinPath(dir, rs[2].1), df == Some(rs[2].0), u, rt),
              rs[3].0, JoinPath(dir, rs[3].1), df == Some(rs[3].0), u, rt)
  {
    var rs1, rs2, rs3 := rs[1..], rs[2..], rs[3..];
    assert rs1[0] == rs[1] && rs1[1..] == rs2 && rs2[0] == rs[2] && rs2[1..] == rs3 && rs3[0] == rs[3] && rs3[1..] == [];
    var d1 := SectionStep(d0, rs[0].0, JoinPath(dir, rs[0].1), df == Some(rs[0].0), u, rt);
    var d2 := SectionStep(d1, rs[1].0, JoinPath(dir, rs[1].1), df == Some(rs[1].0), u, rt);
    var d3 := SectionStep(d2, rs[2].0, JoinPath(dir, rs[2].1), df == Some(rs[2].0), u, rt);
    var d4 := SectionStep(d3, rs[3].0, JoinPath(dir, rs[3].1), df == Some(rs[3].0), u, rt);
    assert SectionSteps(d3, rs3, dir, df, u, rt) == d4;
    assert SectionSteps(d2, rs2, dir, df, u, rt) == d4;
    assert SectionSteps(d1, rs1, dir, df, u, rt) == d4;
  }

  /** The four managed names are distinct, and none is runc unless the class is. */
  lemma ManagedNames(o: Options)
    ensures var rs := ManagedRuntimes(o);
      && rs[0].0 != rs[1].0 && rs[0].0 != rs[2].0 && rs[0].0 != rs[3].0
      && rs[1].0 != rs[2].0 && rs[1].0 != rs[3].0 && rs[2].0 != rs[3].0
      && (o.runtimeClass != "runc" ==> rs[0].0 != "runc")
      && rs[1].0 != "runc" && rs[2].0 != "runc" && rs[3].0 != "runc"
  {
  }

  /** UpdateConfig without a default setting, on a tree whose runc entry (or, without one,
      the defaults) is the base of every managed entry. */
  lemma UpdatedPlain(t: Tree, o: Options, u: bool, rt: string, base: map<string, Value>)
    requires !o.setAsDefault && o.runtimeClass != "runc"
    requires var r := SubTable(Section(t), "runtimes");
      match EntryIn(r, "runc") case Some(runc) => runc == base
      case None => base == DefaultFields(rt) && forall i | 0 <= i < 4 :: EntryIn(r, ManagedRuntimes(o)[i].0) == None
    ensures var rs := ManagedRuntimes(o); var dir := o.runtimeDir; var d := Section(t);
      Updated(t, o, u, rt)
      == WithSection(t, d["runtimes" := Table(SubTable(d, "runtimes")[
          rs[0].0 := Copy(base, JoinPath(dir, rs[0].1))][
          rs[1].0 := Copy(base, JoinPath(dir, rs[1].1))][
          rs[2].0 := Copy(base, JoinPath(dir, rs[2].1))][
          rs[3].0 := Copy(base, JoinPath(dir, rs[3].1))])])["version" := Int(1)]
  {
    var rs := ManagedRuntimes(o);
    ManagedNames(o);
    WithRuntimesSection(t, rs, o.runtimeDir, None, u, rt);
    UnrollSteps(Section(t), rs, o.runtimeDir, None, u, rt);
    FourPlainSteps(Section(t), rs, o.runtimeDir, u, rt, base);
  }

  // ----- A whole version 1 tree holding one containerd table -----

  /** The tree `version = 1` with `d` as its plugins.cri.containerd table and nothing else. */
  function V1Tree(containerd: map<string, Value>): Tree
  {
    map["version" := Int(1),
        "plugins" := Table(map["cri" := Table(map["containerd" := Table(containerd)])])]
  }

  lemma EmptySection(d: map<string, Value>)
    ensures WithSection(map[], d)["version" := Int(1)] == V1Tree(d)
  {
  }

  /** RemoveRuntime seen from the plugins.cri.containerd table of a V1 tree. */
  function SectionWithout(d: map<string, Value>, n: string, f: string): map<string, Value>
    requires "runtimes" in d && d["runtimes"].Table?
  {
    var d1 := d["runtimes" := Table(d["runtimes"].entries - {n})];
    var d2 := if "default_runtime_name" in d1 && d1["default_runtime_name"] == Str(n) then d1 - {"default_runtime_name"} else d1;
    match GetPath(d2, ["default_runtime", "options", "Runtime"])
    case Some(Str(b)) => if FileName(b) == f then d2 - {"default_runtime"} else d2
    case _ => d2
  }

  lemma V1DeleteRuntime(d: map<string, Value>, n: string)
    requires "runtimes" in d && d["runtimes"].Table?
    ensures DeletePath(V1Tree(d), RuntimePath(n)) == V1Tree(d["runtimes" := Table(d["runtimes"].entries - {n})])
  {
    var p := RuntimePath(n);
    var c := map["containerd" := Table(d)];
    var pl := map["cri" := Table(c)];
    var d' := d["runtimes" := Table(d["runtimes"].entries - {n})];
    assert p[1..] == ["cri", "containerd", "runtimes", n];
    assert DeletePath(d, ["runtimes", n]) == d';
    assert DeletePath(c, ["containerd", "runtimes", n]) == map["containerd" := Table(d')];
    assert DeletePath(pl, ["cri", "containerd", "runtimes", n]) == map["cri" := Table(map["containerd" := Table(d')])];
    assert DeletePath(V1Tree(d), p) == V1Tree(d)["plugins" := Table(DeletePath(pl, p[1..]))];
  }

  lemma V1Key(d: map<string, Value>, k: string)
    ensures GetPath(V1Tree(d), ContainerdPath + [k]) == if k in d then Some(d[k]) else None
    ensures DeletePath(V1Tree(d), ContainerdPath + [k]) == V1Tree(d - {k})
  {
    var p := ContainerdPath + [k];
    var c := map["containerd" := Table(d)];
    var pl := map["cri" := Table(c)];
    assert p[1..] == ["cri", "containerd", k];
    assert GetPath(c, ["containerd", k]) == GetPath(d, [k]);
    assert GetPath(pl, ["cri", "containerd", k]) == GetPath(c, ["containerd", k]);
    assert GetPath(V1Tree(d), p) == GetPath(pl, p[1..]);
    assert DeletePath(c, ["containerd", k]) == map["containerd" := Table(d - {k})];
    assert DeletePath(pl, ["cri", "containerd", k]) == map["cri" := Table(map["containerd" := Table(d - {k})])];
    assert DeletePath(V1Tree(d), p) == V1Tree(d)["plugins" := Table(DeletePath(pl, p[1..]))];
  }

  lemma V1DefaultBinary(d: map<string, Value>)
    ensures GetPath(V1Tree(d), DefaultRuntimePath + ["options", "Runtime"]) == GetPath(d, ["default_runtime", "options", "Runtime"])
  {
    var p := DefaultRuntimePath + ["options", "Runtime"];
    var c := map["containerd" := Table(d)];
    var pl := map["cri" := Table(c)];
    assert p[1..] == ["cri", "containerd", "default_runtime", "options", "Runtime"];
    assert p[1..][1..] == ["containerd", "default_runtime", "options", "Runtime"];
    assert p[1..][1..][1..] == ["default_runtime", "options", "Runtime"];
    assert GetPath(c, p[1..][1..]) == GetPath(d, p[1..][1..][1..]);
    assert GetPath(pl, p[1..]) == GetPath(c, p[1..][1..]);
    assert GetPath(V1Tree(d), p) == GetPath(pl, p[1..]);
  }

  lemma WithoutRuntimeV1(d: map<string, Value>, n: string, f: string)
    requires "runtimes" in d && d["runtimes"].Table?
    ensures WithoutRuntime(V1Tree(d), n, f) == V1Tree(SectionWithout(d, n, f))
  {
    var d1 := d["runtimes" := Table(d["runtimes"].entries - {n})];
    V1DeleteRuntime(d, n);
    V1Key(d1, "default_runtime_name");
    var d2 := if "default_runtime_name" in d1 && d1["default_runtime_name"] == Str(n) then d1 - {"default_runtime_name"} else d1;
    V1DefaultBinary(d2);
    V1Key(d2, "default_runtime");
  }

  lemma PrunedEmptyRuntimes()
    ensures Pruned(V1Tree(map["runtimes" := Table(map[])])) == map[]
  {
    var t0 := V1Tree(map["runtimes" := Table(map[])]);
    var t1 := V1Tree(map[]);
    V1Key(map["runtimes" := Table(map[])], "runtimes");
    assert map["runtimes" := Table(map[])] - {"runtimes"} == map[];
    assert PruneIfEmpty(t0, RuntimesPath) == t1;
    var t2 := map["version" := Int(1), "plugins" := Table(map["cri" := Table(map[])])];
    var c := map["containerd" := Table(map[])];
    assert ContainerdPath[1..] == ["cri", "containerd"];
    assert GetPath(c, ["containerd"]) == Some(Table(map[]));
    assert GetPath(map["cri" := Table(c)], ["cri", "containerd"]) == Some(Table(map[]));
    assert GetPath(t1, ContainerdPath) == Some(Table(map[]));
    assert DeletePath(c, ["containerd"]) == map[];
    assert DeletePath(map["cri" := Table(c)], ["cri", "containerd"]) == map["cri" := Table(map[])];
    assert DeletePath(t1, ContainerdPath) == t2;
    var t3 := map["version" := Int(1), "plugins" := Table(map[])];
    assert GetPath(t2, ["plugins", "cri"]) == Some(Table(map[]));
    assert DeletePath(t2, ["plugins", "cri"]) == t3;
    assert DeletePath(t3, ["plugins"]) == map["version" := Int(1)];
  }
}
