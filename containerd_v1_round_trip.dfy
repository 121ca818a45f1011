/**
  RevertConfig undoes UpdateConfig: updating an empty configuration and then
  reverting it leaves an empty configuration, whatever the options.
 */
module ContainerdV1RoundTrip {
  import opened Wrappers
  import opened Toml
  import opened ContainerdV1
  import opened ContainerdV1Section
  import opened ContainerdV1Proofs

  /** The entry names of `rs`. */
  function Names(rs: seq<(string, string)>): set<string>
  {
    set i | 0 <= i < |rs| :: rs[i].0
  }

  /** The binary file names of `rs`. */
  function Files(rs: seq<(string, string)>): set<string>
  {
    set i | 0 <= i < |rs| :: rs[i].1
  }

  /** A containerd table holding only what UpdateConfig writes for runtimes named in `names`
      with binaries whose file names are in `files`. */
  predicate Managed(d: map<string, Value>, names: set<string>, files: set<string>)
  {
    && d.Keys <= {"runtimes", "default_runtime_name", "default_runtime"}
    && ("runtimes" in d ==> d["runtimes"].Table? && d["runtimes"].entries.Keys <= names)
    && ("default_runtime_name" in d ==> d["default_runtime_name"].Str? && d["default_runtime_name"].s in names)
    && ("default_runtime" in d ==>
          match GetPath(d, ["default_runtime", "options", "Runtime"])
          case Some(Str(b)) => FileName(b) in files
          case _ => false)
  }

  /** An empty table mentions nothing. */
  lemma EmptyManaged(names: set<string>, files: set<string>)
    ensures Managed(map[], names, files)
  {
  }

  /** An inlined default made with WithBinary runs its binary. */
  lemma WithBinaryRuntime(e: map<string, Value>, b: string)
    ensures GetPath(map["default_runtime" := Table(WithBinary(e, b))], ["default_runtime", "options", "Runtime"]) == Some(Str(b))
  {
    var o := SubTable(e, "options")["BinaryName" := Str(b)]["Runtime" := Str(b)];
    assert GetPath(o, ["Runtime"]) == Some(Str(b));
    assert GetPath(WithBinary(e, b), ["options", "Runtime"]) == GetPath(o, ["Runtime"]);
  }

  /** Only the `default_runtime` key decides the inlined default's binary. */
  lemma DefaultBinaryOf(d: map<string, Value>, d': map<string, Value>)
    requires ("default_runtime" in d <==> "default_runtime" in d')
    requires "default_runtime" in d ==> d["default_runtime"] == d'["default_runtime"]
    ensures GetPath(d, ["default_runtime", "options", "Runtime"]) == GetPath(d', ["default_runtime", "options", "Runtime"])
  {
    if "default_runtime" in d {
      assert GetPath(map["default_runtime" := d["default_runtime"]], ["default_runtime", "options", "Runtime"])
          == GetPath(d, ["default_runtime", "options", "Runtime"]);
    }
  }

  /** One AddRuntime keeps the table managed. */
  lemma StepManaged(d: map<string, Value>, n: string, b: string, isDefault: bool, u: bool, rt: string,
                    names: set<string>, files: set<string>)
    requires Managed(d, names, files) && n in names && FileName(b) in files
    ensures Managed(SectionStep(d, n, b, isDefault, u, rt), names, files)
    ensures "runtimes" in SectionStep(d, n, b, isDefault, u, rt)
  {
    var r := SubTable(d, "runtimes");
    var base := match EntryIn(r, "runc")
      case Some(runc) => runc
      case None => (match EntryIn(r, n) case Some(e) => e case None => DefaultFields(rt));
    var d1 := d["runtimes" := Table(r[n := Table(WithBinary(base["container_annotations" := StrList([CdiAnnotations])], b))])];
    DefaultBinaryOf(d, d1);
    assert Managed(d1, names, files);
    if isDefault && u {
      DefaultBinaryOf(d1, d1["default_runtime_name" := Str(n)]);
    } else if isDefault {
      var existing := match EntryIn(d1, "default_runtime") case Some(e) => e case None => DefaultFields(rt);
      var v := Table(WithBinary(existing, b));
      WithBinaryRuntime(existing, b);
      DefaultBinaryOf(d1[ "default_runtime" := v], map["default_runtime" := v]);
    }
  }

  lemma {:induction false} StepsManaged(d: map<string, Value>, rs: seq<(string, string)>, dir: string,
                                        df: Option<string>, u: bool, rt: string, names: set<string>, files: set<string>)
    requires Managed(d, names, files)
    requires forall i | 0 <= i < |rs| :: rs[i].0 in names && FileName(JoinPath(dir, rs[i].1)) in files
    requires rs != [] || "runtimes" in d
    ensures Managed(SectionSteps(d, rs, dir, df, u, rt), names, files)
    ensures "runtimes" in SectionSteps(d, rs, dir, df, u, rt)
    decreases |rs|
  {
    if rs != [] {
      StepManaged(d, rs[0].0, JoinPath(dir, rs[0].1), df == Some(rs[0].0), u, rt, names, files);
      assert forall i | 0 <= i < |rs[1..]| :: rs[1..][i] == rs[i + 1];
      StepsManaged(SectionStep(d, rs[0].0, JoinPath(dir, rs[0].1), df == Some(rs[0].0), u, rt),
                   rs[1..], dir, df, u, rt, names, files);
    }
  }

  /** One RemoveRuntime takes its name and its file out of the managed sets. */
  lemma WithoutManaged(d: map<string, Value>, n: string, f: string, names: set<string>, files: set<string>)
    requires "runtimes" in d && Managed(d, names, files)
    ensures "runtimes" in SectionWithout(d, n, f)
    ensures Managed(SectionWithout(d, n, f), names - {n}, files - {f})
  {
    var d1 := d["runtimes" := Table(d["runtimes"].entries - {n})];
    var d2 := if "default_runtime_name" in d1 && d1["default_runtime_name"] == Str(n) then d1 - {"default_runtime_name"} else d1;
    DefaultBinaryOf(d, d2);
    var r := SectionWithout(d, n, f);
    if "default_runtime" in r {
      assert r == d2;
    }
  }

  /** Removing every runtime that a managed table can mention leaves only an empty runtimes table. */
  lemma {:induction false} RevertManagedSection(d: map<string, Value>, rs: seq<(string, string)>)
    requires "runtimes" in d && Managed(d, Names(rs), Files(rs))
    ensures WithoutRuntimes(V1Tree(d), rs) == V1Tree(map["runtimes" := Table(map[])])
    decreases |rs|
  {
    if rs == [] {
      assert d["runtimes"].entries == map[];
      assert d == map["runtimes" := Table(map[])];
    } else {
      var d' := SectionWithout(d, rs[0].0, rs[0].1);
      WithoutRuntimeV1(d, rs[0].0, rs[0].1);
      WithoutManaged(d, rs[0].0, rs[0].1, Names(rs), Files(rs));
      assert Names(rs) - {rs[0].0} <= Names(rs[1..]) by {
        forall x | x in Names(rs) - {rs[0].0} ensures x in Names(rs[1..]) {
          var i :| 0 <= i < |rs| && rs[i].0 == x;
          assert rs[1..][i - 1] == rs[i];
        }
      }
      assert Files(rs) - {rs[0].1} <= Files(rs[1..]) by {
        forall x | x in Files(rs) - {rs[0].1} ensures x in Files(rs[1..]) {
          var i :| 0 <= i < |rs| && rs[i].1 == x;
          assert rs[1..][i - 1] == rs[i];
        }
      }
      RevertManagedSection(d', rs[1..]);
    }
  }

  /** Every managed runtime is installed under a managed name with a managed binary file. */
  lemma ManagedInSets(o: Options)
    ensures var rs := ManagedRuntimes(o);
      forall i | 0 <= i < |rs| :: rs[i].0 in Names(rs) && FileName(JoinPath(o.runtimeDir, rs[i].1)) in Files(rs)
  {
    var rs := ManagedRuntimes(o);
    forall i | 0 <= i < |rs| ensures rs[i].0 in Names(rs) && FileName(JoinPath(o.runtimeDir, rs[i].1)) in Files(rs) {
      FileNameJoin(o.runtimeDir, rs[i].1);
    }
  }

  /** Adding runtimes to an empty configuration, seen from its containerd table. */
  lemma WithRuntimesEmpty(rs: seq<(string, string)>, dir: string, df: Option<string>, u: bool, rt: string)
    requires rs != []
    ensures WithRuntimes(map[], rs, dir, df, u, rt) == V1Tree(SectionSteps(map[], rs, dir, df, u, rt))
  {
    WithRuntimesSection(map[], rs, dir, df, u, rt);
    assert Section(map[]) == map[];
    EmptySection(SectionSteps(map[], rs, dir, df, u, rt));
  }

  /** Adding runtimes to an empty containerd table gives a managed one. */
  lemma EmptyStepsManaged(rs: seq<(string, string)>, dir: string, df: Option<string>, u: bool, rt: string,
                          names: set<string>, files: set<string>)
    requires rs != [] && names == Names(rs) && files == Files(rs)
    requires forall i | 0 <= i < |rs| :: rs[i].0 in names && FileName(JoinPath(dir, rs[i].1)) in files
    ensures "runtimes" in SectionSteps(map[], rs, dir, df, u, rt)
    ensures Managed(SectionSteps(map[], rs, dir, df, u, rt), Names(rs), Files(rs))
  {
    EmptyManaged(names, files);
    StepsManaged(map[], rs, dir, df, u, rt, names, files);
  }

  /** Adding runtimes to an empty configuration and removing them again leaves only an
      empty runtimes table. */
  lemma AddRemoveEmpty(rs: seq<(string, string)>, dir: string, df: Option<string>, u: bool, rt: string,
                       names: set<string>, files: set<string>)
    requires rs != [] && names == Names(rs) && files == Files(rs)
    requires forall i | 0 <= i < |rs| :: rs[i].0 in names && FileName(JoinPath(dir, rs[i].1)) in files
    ensures WithoutRuntimes(WithRuntimes(map[], rs, dir, df, u, rt), rs) == V1Tree(map["runtimes" := Table(map[])])
  {
    EmptyStepsManaged(rs, dir, df, u, rt, names, files);
    RevertManagedSection(SectionSteps(map[], rs, dir, df, u, rt), rs);
    WithRuntimesEmpty(rs, dir, df, u, rt);
  }

  /** RevertConfig after UpdateConfig on an empty configuration leaves it empty. */
  lemma UpdateRevertEmpty(o: Options, u: bool, rt: string)
    ensures Reverted(Updated(map[], o, u, rt), o) == map[]
  {
    var rs := ManagedRuntimes(o);
    ManagedInSets(o);
    AddRemoveEmpty(rs, o.runtimeDir, DefaultRuntime(o), u, rt, Names(rs), Files(rs));
    PrunedEmptyRuntimes();
  }
}
