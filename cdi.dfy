/**
  The CDI modifier: which devices a container asks for (from its CDI
  annotations, else from NVIDIA_VISIBLE_DEVICES), whether it may have them,
  and the modifier that injects them.
 */
module Cdi {
  import opened Wrappers

  /** The configuration the modifier reads. */
  datatype CdiConfig = CdiConfig(defaultKind: string, specDirs: seq<string>, acceptEnvvarUnprivileged: bool)

  /** What the foreign helpers report about a loaded OCI spec: the devices the CDI annotations
      name (or the parse error), the devices NVIDIA_VISIBLE_DEVICES lists once the CUDA image
      is built (or the error building it), and whether the container is privileged. */
  datatype RawSpec = RawSpec(annotationDevices: Result<seq<string>, string>,
                             envDevices: Result<seq<string>, string>,
                             privileged: bool)

  datatype DevicesError =
    | LoadSpecFailed(cause: string)          // "failed to load OCI spec: ..."
    | ParseAnnotationsFailed(cause: string)  // "failed to parse container annotations: ..."
    | ImageFailed(cause: string)             // the CUDA image error, returned unwrapped

  /** A device name as requested: a bare name gets the configured kind. */
  function Qualify(name: string, defaultKind: string, isQualified: string -> bool): string
  {
    if isQualified(name) then name else defaultKind + "=" + name
  }

  /** The environment's device names, each qualified, in order and with any repeats. */
  function QualifiedNames(names: seq<string>, defaultKind: string, isQualified: string -> bool): (r: seq<string>)
    ensures |r| == |names|
  {
    if names == [] then []
    else [Qualify(names[0], defaultKind, isQualified)] + QualifiedNames(names[1..], defaultKind, isQualified)
  }

  /** The devices getDevicesFromSpec resolves; `loaded` is the outcome of loading the OCI spec. */
  function DevicesFromSpec(loaded: Result<RawSpec, string>, cfg: CdiConfig, isQualified: string -> bool)
    : Result<seq<string>, DevicesError>
  {
    match loaded
    case Err(e) => Err(LoadSpecFailed(e))
    case Ok(spec) =>
      match spec.annotationDevices
      case Err(e) => Err(ParseAnnotationsFailed(e))
      case Ok(annotated) =>
        if |annotated| > 0 then Ok(annotated)
        else match spec.envDevices
          case Err(e) => Err(ImageFailed(e))
          case Ok(names) =>
            var devices := QualifiedNames(names, cfg.defaultKind, isQualified);
            if |devices| == 0 then Ok([])
            else if cfg.acceptEnvvarUnprivileged || spec.privileged then Ok(devices)
            else Ok([])
  }

  /** A Go map lookup: a missing key reads as false. */
  function Seen(seen: map<string, bool>, name: string): bool
  {
    name in seen && seen[name]
  }

  /** The loop over the environment's device names. The `seen` map is consulted for every
      name but never written, so the duplicate check never fires. */
  method CollectDevices(names: seq<string>, defaultKind: string, isQualified: string -> bool)
    returns (devices: seq<string>)
    ensures devices == QualifiedNames(names, defaultKind, isQualified)
  {
    devices := [];
    var seen: map<string, bool> := map[];
    var i := 0;
    while i < |names|
      invariant 0 <= i <= |names|
      invariant seen == map[]
      invariant devices == QualifiedNames(names[..i], defaultKind, isQualified)
    {
      var name := names[i];
      if !isQualified(name) {
        name := defaultKind + "=" + name;
      }
      QualifiedNamesSnoc(names[..i], names[i], defaultKind, isQualified);
      assert names[..i + 1] == names[..i] + [names[i]];
      i := i + 1;
      devices := if Seen(seen, name) then devices else devices + [name];
    }
    assert names[..i] == names;
  }

  /** getDevicesFromSpec; `loaded` is the outcome of loading the OCI spec. */
  method GetDevicesFromSpec(loaded: Result<RawSpec, string>, cfg: CdiConfig, isQualified: string -> bool)
    returns (r: Result<seq<string>, DevicesError>)
    ensures r == DevicesFromSpec(loaded, cfg, isQualified)
  {
    if loaded.Err? {
      return Err(LoadSpecFailed(loaded.error));
    }
    var spec := loaded.value;
    if spec.annotationDevices.Err? {
      return Err(ParseAnnotationsFailed(spec.annotationDevices.error));
    }
    if |spec.annotationDevices.value| > 0 {
      return Ok(spec.annotationDevices.value);
    }
    if spec.envDevices.Err? {
      return Err(ImageFailed(spec.envDevices.error));
    }
    var devices := CollectDevices(spec.envDevices.value, cfg.defaultKind, isQualified);
    if |devices| == 0 {
      return Ok([]);
    }
    if cfg.acceptEnvvarUnprivileged || spec.privileged {
      return Ok(devices);
    }
    return Ok([]);
  }

  lemma {:induction false} QualifiedNamesSnoc(names: seq<string>, name: string, defaultKind: string, isQualified: string -> bool)
    ensures QualifiedNames(names + [name], defaultKind, isQualified)
         == QualifiedNames(names, defaultKind, isQualified) + [Qualify(name, defaultKind, isQualified)]
    decreases |names|
  {
    if names != [] {
      assert (names + [name])[1..] == names[1..] + [name];
      QualifiedNamesSnoc(names[1..], name, defaultKind, isQualified);
    }
  }

  /** Each environment name is kept if qualified and prefixed with `defaultKind=` otherwise,
      in the same position. */
  lemma {:induction false} QualifiedNamesElementwise(names: seq<string>, defaultKind: string, isQualified: string -> bool)
    ensures var r := QualifiedNames(names, defaultKind, isQualified);
      && |r| == |names|
      && forall i | 0 <= i < |names| ::
           r[i] == if isQualified(names[i]) then names[i] else defaultKind + "=" + names[i]
    decreases |names|
  {
    if names != [] {
      QualifiedNamesElementwise(names[1..], defaultKind, isQualified);
      var r := QualifiedNames(names, defaultKind, isQualified);
      forall i | 0 <= i < |names|
        ensures r[i] == if isQualified(names[i]) then names[i] else defaultKind + "=" + names[i]
      {
        if i > 0 {
          assert r[i] == QualifiedNames(names[1..], defaultKind, isQualified)[i - 1];
          assert names[1..][i - 1] == names[i];
        }
      }
    }
  }

  // ----- Properties of getDevicesFromSpec -----

  /** Failing to load the spec or to parse its annotations is an error. */
  lemma DevicesErrors(loaded: Result<RawSpec, string>, cfg: CdiConfig, isQualified: string -> bool)
    ensures loaded.Err? ==> DevicesFromSpec(loaded, cfg, isQualified) == Err(LoadSpecFailed(loaded.error))
    ensures loaded.Ok? && loaded.value.annotationDevices.Err? ==>
              DevicesFromSpec(loaded, cfg, isQualified) == Err(ParseAnnotationsFailed(loaded.value.annotationDevices.error))
    ensures loaded.Ok? && loaded.value.annotationDevices == Ok([]) && loaded.value.envDevices.Err? ==>
              DevicesFromSpec(loaded, cfg, isQualified) == Err(ImageFailed(loaded.value.envDevices.error))
  {
  }

  /** Annotation devices, when there are any, are the answer: the environment, the privilege
      policy and the configuration are not consulted. */
  lemma AnnotationDevicesWin(annotated: seq<string>, env: Result<seq<string>, string>, privileged: bool,
                             cfg: CdiConfig, isQualified: string -> bool)
    requires |annotated| > 0
    ensures DevicesFromSpec(Ok(RawSpec(Ok(annotated), env, privileged)), cfg, isQualified) == Ok(annotated)
  {
  }

  /** Without annotation devices, an allowed container gets every environment name qualified,
      in order and duplicates included. */
  lemma EnvDevicesAllowed(names: seq<string>, privileged: bool, cfg: CdiConfig, isQualified: string -> bool)
    requires cfg.acceptEnvvarUnprivileged || privileged
    ensures var r := DevicesFromSpec(Ok(RawSpec(Ok([]), Ok(names), privileged)), cfg, isQualified);
      && r.Ok? && |r.value| == |names|
      && forall i | 0 <= i < |names| ::
           r.value[i] == if isQualified(names[i]) then names[i] else cfg.defaultKind + "=" + names[i]
  {
    QualifiedNamesElementwise(names, cfg.defaultKind, isQualified);
  }

  /** An unprivileged container is denied environment devices unless the configuration
      accepts them: the result is empty, not an error. An empty environment list likewise. */
  lemma EnvDevicesDenied(names: seq<string>, privileged: bool, cfg: CdiConfig, isQualified: string -> bool)
    requires names == [] || (!cfg.acceptEnvvarUnprivileged && !privileged)
    ensures DevicesFromSpec(Ok(RawSpec(Ok([]), Ok(names), privileged)), cfg, isQualified) == Ok([])
  {
  }

  // ----- NewCDIModifier and Modify -----

  /** The modifier: the spec directories it scans and the devices it injects. */
  datatype CdiModifier = CdiModifier(specDirs: seq<string>, devices: seq<string>)

  /** "failed to get required devices from OCI specification: ..." */
  datatype ModifierError = DevicesFailed(cause: DevicesError)

  /** NewCDIModifier: no modifier (and no error) when no device is requested; otherwise one
      scanning the configured spec directories, or `defaultSpecDirs` when none are configured. */
  function NewCdiModifier(loaded: Result<RawSpec, string>, cfg: CdiConfig, isQualified: string -> bool,
                          defaultSpecDirs: seq<string>): (r: Result<Option<CdiModifier>, ModifierError>)
    ensures var d := DevicesFromSpec(loaded, cfg, isQualified);
      && (d.Err? ==> r == Err(DevicesFailed(d.error)))
      && (r.Err? <==> d.Err?)
      && (r == Ok(None) <==> d == Ok([]))
      && (d.Ok? && |d.value| > 0 ==> r.Ok? && r.value.Some?)
      && (r.Ok? && r.value.Some? ==>
            && d.Ok? && |d.value| > 0 && r.value.value.devices == d.value
            && r.value.value.specDirs == (if |cfg.specDirs| > 0 then cfg.specDirs else defaultSpecDirs))
  {
    match DevicesFromSpec(loaded, cfg, isQualified)
    case Err(e) => Err(DevicesFailed(e))
    case Ok(devices) =>
      if |devices| == 0 then Ok(None)
      else
        var specDirs := if |cfg.specDirs| > 0 then cfg.specDirs else defaultSpecDirs;
        Ok(Some(CdiModifier(specDirs, devices)))
  }

  /** "failed to inject CDI devices: ..." */
  datatype ModifyError = InjectFailed(cause: string)

  /** Modify: `refresh` is the outcome of refreshing the registry scoped to the modifier's spec
      directories (its error is only logged); `inject` gives the outcome of injecting a device
      list from a set of directories into a registry whose refresh ended as `refresh` did. */
  function Modify(m: CdiModifier, refresh: Option<string>,
                  inject: (Option<string>, seq<string>, seq<string>) -> Option<string>)
    : (r: Option<ModifyError>)
    ensures r.None? <==> inject(refresh, m.specDirs, m.devices).None?
    ensures r.Some? ==> r.value.cause == inject(refresh, m.specDirs, m.devices).value
  {
    match inject(refresh, m.specDirs, m.devices)
    case Some(e) => Some(InjectFailed(e))
    case None => None
  }

  /** The refresh error is never reported: a failed refresh after which injection still
      succeeds leaves Modify successful, and any error Modify reports is injection's. */
  lemma ModifyNeverReportsRefresh(m: CdiModifier, e: string,
                                  inject: (Option<string>, seq<string>, seq<string>) -> Option<string>)
    ensures inject(Some(e), m.specDirs, m.devices).None? ==> Modify(m, Some(e), inject).None?
    ensures Modify(m, Some(e), inject).Some? ==>
              Modify(m, Some(e), inject) == Some(InjectFailed(inject(Some(e), m.specDirs, m.devices).value))
  {
  }

  // ----- Duplicate device names -----

  predicate NoDuplicates(s: seq<string>)
  {
    forall i, j | 0 <= i < j < |s| :: s[i] != s[j]
  }

  /** A repeated environment name is requested twice. */
  lemma DuplicatesKept(defaultKind: string, isQualified: string -> bool)
    requires !isQualified("0")
    ensures var r := DevicesFromSpec(Ok(RawSpec(Ok([]), Ok(["0", "0"]), true)), CdiConfig(defaultKind, [], false), isQualified);
      r == Ok([defaultKind + "=0", defaultKind + "=0"]) && !NoDuplicates(r.value)
  {
    var q := Qualify("0", defaultKind, isQualified);
    assert q == defaultKind + "=0";
    assert ["0", "0"][1..] == ["0"];
    assert ["0"][1..] == [];
    assert QualifiedNames(["0"], defaultKind, isQualified) == [q];
    assert QualifiedNames(["0", "0"], defaultKind, isQualified) == [q, q];
    assert [q, q][0] == [q, q][1];
  }

  /** The position of the first occurrence of `x` in `xs`. */
  function FirstIndex(xs: seq<string>, x: string): (i: nat)
    requires x in xs
    ensures i < |xs| && xs[i] == x && x !in xs[..i]
  {
    if xs[0] == x then 0
    else
      var i := 1 + FirstIndex(xs[1..], x);
      assert xs[..i] == [xs[0]] + xs[1..][..i - 1];
      i
  }

  /** Appending an element does not move the first occurrence of an earlier one. */
  lemma FirstIndexSnoc(xs: seq<string>, z: string, y: string)
    requires y in xs
    ensures FirstIndex(xs + [z], y) == FirstIndex(xs, y)
  {
    var i0 := FirstIndex(xs, y);
    assert (xs + [z])[..i0] == xs[..i0];
    FirstIndexUnique(xs + [z], y, i0);
  }

  /** A position holding `x` with no `x` before it is the first occurrence. */
  lemma {:induction false} FirstIndexUnique(xs: seq<string>, x: string, k: nat)
    requires k < |xs| && xs[k] == x && x !in xs[..k]
    ensures FirstIndex(xs, x) == k
  {
    if k > 0 {
      assert xs[0] == xs[..k][0];
      assert xs[1..][..k - 1] == xs[..k][1..];
      FirstIndexUnique(xs[1..], x, k - 1);
    }
  }

  /** A new element first occurs at the end. */
  lemma FirstIndexLast(xs: seq<string>, z: string)
    requires z !in xs
    ensures FirstIndex(xs + [z], z) == |xs|
  {
    var i := FirstIndex(xs + [z], z);
  }

  /** `xs` with every repeat of an earlier element dropped: each element once, in the order
      of its first occurrence. */
  function Deduplicated(xs: seq<string>): (r: seq<string>)
    ensures NoDuplicates(r)
    ensures forall x :: x in r <==> x in xs
    ensures forall i, j | 0 <= i < j < |r| :: FirstIndex(xs, r[i]) < FirstIndex(xs, r[j])
    decreases |xs|
  {
    if xs == [] then []
    else
      var xs' := xs[..|xs| - 1];
      var d := Deduplicated(xs');
      var x := xs[|xs| - 1];
      assert xs == xs' + [x];
      assert forall y | y in d :: FirstIndex(xs, y) == FirstIndex(xs', y) by {
        forall y | y in d ensures FirstIndex(xs, y) == FirstIndex(xs', y) {
          FirstIndexSnoc(xs', x, y);
        }
      }
      if x in d then d
      else
        assert FirstIndex(xs, x) == |xs'| by {
          FirstIndexLast(xs', x);
        }
        d + [x]
  }

  /** Deduplicating one more element keeps it exactly when it has not occurred yet. */
  lemma DeduplicatedSnoc(xs: seq<string>, x: string)
    ensures Deduplicated(xs + [x]) == if x in Deduplicated(xs) then Deduplicated(xs) else Deduplicated(xs) + [x]
  {
    assert (xs + [x])[..|xs + [x]| - 1] == xs;
  }

  /** One step of the deduplicating loop: a name already recorded in `seen` is skipped, any other
      is appended, and the devices stay the deduplicated names seen so far. */
  lemma SeenStep(before: seq<string>, name: string, devices: seq<string>, seen: map<string, bool>)
    requires devices == Deduplicated(before)
    requires forall x :: Seen(seen, x) <==> x in devices
    ensures Deduplicated(before + [name]) == if Seen(seen, name) then devices else devices + [name]
  {
    DeduplicatedSnoc(before, name);
  }

  /** Recording a new name in `seen` keeps `seen` in step with the devices collected. */
  lemma SeenRecord(seen: map<string, bool>, devices: seq<string>, name: string)
    requires forall x :: Seen(seen, x) <==> x in devices
    ensures forall x :: Seen(seen[name := true], x) <==> x in devices + [name]
  {
  }

  /** The loop as evidently intended: each name is recorded in `seen` and later repeats are skipped. */
  method CollectDevicesDeduplicated(names: seq<string>, defaultKind: string, isQualified: string -> bool)
    returns (devices: seq<string>)
    ensures devices == Deduplicated(QualifiedNames(names, defaultKind, isQualified))
  {
    devices := [];
    var seen: map<string, bool> := map[];
    var i := 0;
    while i < |names|
      invariant 0 <= i <= |names|
      invariant forall x :: Seen(seen, x) <==> x in devices
      invariant devices == Deduplicated(QualifiedNames(names[..i], defaultKind, isQualified))
    {
      var name := names[i];
      if !isQualified(name) {
        name := defaultKind + "=" + name;
      }
      assert names[..i + 1] == names[..i] + [names[i]];
      QualifiedNamesSnoc(names[..i], names[i], defaultKind, isQualified);
      SeenStep(QualifiedNames(names[..i], defaultKind, isQualified), name, devices, seen);
      i := i + 1;
      if !Seen(seen, name) {
        SeenRecord(seen, devices, name);
        devices := devices + [name];
        seen := seen[name := true];
      }
    }
    assert names[..i] == names;
  }
}
