# NVIDIA Container Toolkit: containerd configuration and CDI device selection

This project models three pieces of decision logic of the NVIDIA Container
Toolkit and proves properties about them.

- **Building a containerd configuration engine**
  (`internal/config/engine/containerd/option.go`). A builder collects a path, a
  runtime type and a legacy flag. `build` then rejects an empty path and
  defaults the runtime type to `io.containerd.runc.v2`. It records the runtime
  type and `UseDefaultRuntimeName = !useLegacyConfig` on the loaded
  configuration. Finally it detects the configuration version and returns the V1
  view (version 1), the V2 configuration (version 2) or an error.
  - Module: `ContainerdOption`.
  - The builder is a class whose setters and `Build` update its fields.
  - `Build` is proved against the function `BuildResult`.
- **Resolving CDI devices and building the CDI modifier**
  (`internal/modifier/cdi.go`). Devices named by the container's CDI
  annotations win outright. Otherwise the names in `NVIDIA_VISIBLE_DEVICES` are
  qualified with the configured default kind. They are kept only for a
  privileged container or when unprivileged requests are accepted.
  `NewCDIModifier` returns no modifier when no device resolves. It chooses the
  configured spec directories, or the CDI defaults when none are configured.
  `Modify` fails only when injection fails.
  - Module: `Cdi`.
  - The loop over the environment names is a method proved against
    `QualifiedNames`.
- **Adding and removing the NVIDIA runtimes in a version 1 containerd
  configuration.** The behaviour is the one that
  `tools/container/containerd/config_v1_test.go` asserts.
  - `UpdateConfig` writes four runtime entries under
    `plugins.cri.containerd.runtimes`: the base one (named after the runtime
    class), `nvidia-experimental`, `nvidia-cdi` and `nvidia-legacy`.
  - Each entry copies an existing `runc` entry when there is one. It carries
    the CDI annotation selector `cdi.k8s.io/*` and its own binary in
    `options.BinaryName` and `options.Runtime`.
  - When asked, `UpdateConfig` also makes one entry the default. It does so
    by name (`default_runtime_name`), or, in legacy mode, by inlining an entry
    under `default_runtime`.
  - `RevertConfig` removes all of this again and prunes the tables left
    empty.
  - Modules:
    - `ContainerdV1`: the class `ConfigV1` and its specification functions.
    - `ContainerdV1Proofs`: the general properties.
    - `ContainerdV1Section`: a view of the `plugins.cri.containerd` table used
      to compute concrete trees.
    - `ContainerdV1RoundTrip`: RevertConfig undoes UpdateConfig.
    - `ContainerdV1Examples` and `ContainerdV1MoreExamples`: the test cases.

The configuration document is a nested map (`Toml.Tree`) with go-toml's
`GetPath`, `SetPath` and `DeletePath` modelled on it. `Toml` proves the
read-after-write and frame laws of those operations.

## Model

| member | source | states |
|---|---|---|
| `ContainerdOption.ParseVersion` | internal/config/engine/containerd/option.go:121-140 | With no `version` key, an empty document gives 2 (1 in legacy mode) and any other document gives 1. An integer `version` is returned unchanged. Any other type gives -1 together with the offending value as the error, and that is the only error case. |
| `ContainerdOption.LegacyFlagOnlyForEmpty` | internal/config/engine/containerd/option.go:122-134 | The legacy flag changes the parsed version exactly when the document is empty. |
| `ContainerdOption.EffectiveRuntimeType` | internal/config/engine/containerd/option.go:67-69 | The runtime type used is never empty. It is the configured one whenever that is non-empty, and `io.containerd.runc.v2` when it is empty. |
| `ContainerdOption.RebuildAfterDefault` | internal/config/engine/containerd/option.go:62-69 | Defaulting is idempotent. Building again from a builder whose runtime type Build has already defaulted gives the same result. |
| `ContainerdOption.BuildResult` | internal/config/engine/containerd/option.go:62-90 | An empty path fails whatever loading would give. A load failure is reported as such. A successful build carries the loaded tree, the effective runtime type and `UseDefaultRuntimeName == !useLegacyConfig`. It is V1 exactly when the version is 1 and V2 exactly when it is 2. A `version` that is not an integer fails with `VersionParseFailed` carrying that value. Any other integer fails with `UnsupportedVersion` carrying it. |
| `ContainerdOption.BuildEmptyDocument` | internal/config/engine/containerd/option.go:127-131 | An empty document builds the V1 view in legacy mode and the V2 configuration otherwise. |
| `ContainerdOption.BuildUnversionedDocument` | internal/config/engine/containerd/option.go:132-133 | A non-empty document without `version` builds the V1 view in either mode. |
| `ContainerdOption.Builder.constructor` | internal/config/engine/containerd/option.go:32-36 | A new builder holds Go's zero values. |
| `ContainerdOption.Builder.SetPath` | internal/config/engine/containerd/option.go:41-46 | WithPath sets the path and nothing else. |
| `ContainerdOption.Builder.SetRuntimeType` | internal/config/engine/containerd/option.go:48-53 | WithRuntimeType sets the runtime type and nothing else. |
| `ContainerdOption.Builder.SetUseLegacyConfig` | internal/config/engine/containerd/option.go:55-60 | WithUseLegacyConfig sets the flag and nothing else. |
| `ContainerdOption.Builder.Build` | internal/config/engine/containerd/option.go:62-90 | Returns `BuildResult` of its fields. Once the path is known to be non-empty, it also replaces an empty runtime type on the builder by the default. |
| `Cdi.QualifiedNames` | internal/modifier/cdi.go:86-89 | Qualifying keeps one name per environment entry. |
| `Cdi.QualifiedNamesElementwise` | internal/modifier/cdi.go:86-94 | Entry `i` of the result is name `i` when that name is qualified, and `defaultKind + "=" + name` otherwise. |
| `Cdi.CollectDevices` | internal/modifier/cdi.go:84-95 | The loop returns every environment name qualified, in order and with repeats. The `seen` map stays empty throughout. |
| `Cdi.GetDevicesFromSpec` | internal/modifier/cdi.go:64-108 | getDevicesFromSpec returns `DevicesFromSpec` of its inputs. |
| `Cdi.DevicesErrors` | internal/modifier/cdi.go:65-80 | A spec-load failure and an annotation-parse failure are each returned as a wrapped error. When no annotation device is requested, an image-construction failure is returned unwrapped. |
| `Cdi.AnnotationDevicesWin` | internal/modifier/cdi.go:70-76 | A non-empty annotation device list is returned unchanged. The environment, the privilege flag and the configuration do not matter. |
| `Cdi.EnvDevicesAllowed` | internal/modifier/cdi.go:82-103 | Without annotation devices, a privileged container (or any container when unprivileged requests are accepted) gets the environment names, each qualified, in order and including repeats. |
| `Cdi.EnvDevicesDenied` | internal/modifier/cdi.go:97-107 | An empty environment list, or an unprivileged container when unprivileged requests are not accepted, gives an empty list and no error. |
| `Cdi.NewCdiModifier` | internal/modifier/cdi.go:39-62 | It fails exactly when device resolution fails, and it wraps that error. There is no modifier and no error exactly when no device resolves. When at least one device resolves, a modifier is always built. Otherwise the modifier holds the resolved devices and the configured spec directories, or the default directories when none are configured. |
| `Cdi.Modify` | internal/modifier/cdi.go:111-127 | Modify fails exactly when injecting the modifier's devices from its spec directories fails, given how the registry refresh ended. It reports injection's error. |
| `Cdi.ModifyNeverReportsRefresh` | internal/modifier/cdi.go:116-123 | A refresh error is never reported. After a failed refresh, Modify succeeds when injection succeeds, and any error it returns is injection's. |
| `Cdi.DuplicatesKept` | internal/modifier/cdi.go:85-94 | For the environment list `["0", "0"]`, a privileged container is given the same qualified device twice. |
| `Cdi.Deduplicated` | internal/modifier/cdi.go:85-94 | The intended result has no repeated device and holds exactly the names of its input. They appear in the order of their first occurrence. |
| `Cdi.CollectDevicesDeduplicated` | internal/modifier/cdi.go:84-95 | The loop that records each name in `seen` returns the qualified names with every later repeat dropped. |
| `ContainerdV1.BaseRuntimeName` | tools/container/containerd/config_v1_test.go:203-317 | The base entry is named after the runtime class when that class is non-empty and not a suffixed name. It is `nvidia` when the class is empty or names a suffixed runtime, so it is never one of the suffixed names. |
| `ContainerdV1.ManagedRuntimes` | tools/container/containerd/config_v1_test.go:144-201 | There are exactly four managed runtimes. |
| `ContainerdV1.DefaultRuntime` | tools/container/containerd/config_v1_test.go:71-90 | A default runtime is chosen exactly when setAsDefault is requested. |
| `ContainerdV1.ConfigV1.constructor` | tools/container/containerd/config_v1_test.go:106-110 | The configuration holds the given tree, UseDefaultRuntimeName flag and runtime type. |
| `ContainerdV1.ConfigV1.AddRuntime` | tools/container/containerd/config_v1_test.go:355-426 | Adding a runtime writes the entry built from the tree as it was (a runc copy, else the entry it replaces, else the defaults, each with the annotations and the binary). The whole new tree is `WithRuntime` of the old one. |
| `ContainerdV1.ConfigV1.RemoveRuntime` | tools/container/containerd/config_v1_test.go:601-678 | The new tree is the old one without the entry and without a default setting that refers to it. |
| `ContainerdV1.ConfigV1.UpdateConfig` | tools/container/containerd/config_v1_test.go:320-343 | The new tree is `Updated` of the old one: the four managed runtimes added in order. |
| `ContainerdV1.ConfigV1.RevertConfig` | tools/container/containerd/config_v1_test.go:650-675 | The new tree is `Reverted` of the old one: the managed runtimes removed, then the empty tables and a lone `version` pruned. |
| `ContainerdV1.AddRuntimeEntry` | tools/container/containerd/config_v1_test.go:355-426 | A single AddRuntime writes the entry computed from the tree it found. |
| `ContainerdV1Proofs.RuntimeEntryInherits` | tools/container/containerd/config_v1_test.go:355-426 | A managed entry keeps every field and option of its base. It adds `container_annotations = ["cdi.k8s.io/*"]`, sets `BinaryName` and adds `Runtime`, both to the entry's binary. |
| `ContainerdV1Proofs.UpdateSetsVersion` | tools/container/containerd/config_v1_test.go:144-147 | After UpdateConfig, `version = 1`. |
| `ContainerdV1Proofs.UpdateWritesManagedEntries` | tools/container/containerd/config_v1_test.go:144-201 | Each of the four managed entries is present. It is derived from runc if present, else from the entry it replaces, else from the default fields, with the annotations and its own binary under the runtime directory. |
| `ContainerdV1Proofs.UpdatePreservesUnrelated` | tools/container/containerd/config_v1_test.go:355-426 | Every path outside `version`, the four entries and, when a default is requested, the two default settings reads the same after UpdateConfig. |
| `ContainerdV1Proofs.UpdateKeepsRunc` | tools/container/containerd/config_v1_test.go:360-370 | An existing runc entry is left verbatim. |
| `ContainerdV1Proofs.UpdateDefaultRuntime` | tools/container/containerd/config_v1_test.go:38-90 | Without setAsDefault neither setting changes. With it and UseDefaultRuntimeName, `default_runtime_name` is the class (or `nvidia`) and `default_runtime` is unchanged. In legacy mode `default_runtime` is inlined with the selected runtime's binary and `default_runtime_name` is unchanged. |
| `ContainerdV1Proofs.DefaultEntryShape` | tools/container/containerd/config_v1_test.go:684-695 | The inlined default keeps what it replaces (or the default fields) and sets both binary options. It carries annotations only if what it replaces had them. |
| `ContainerdV1Proofs.FileNameJoin` | tools/container/containerd/config_v1_test.go:636-645 | The last path component of a binary installed in any directory is its file name. This lets RevertConfig recognise an inlined default. |
| `ContainerdV1Proofs.RevertRemovesManaged` | tools/container/containerd/config_v1_test.go:613-648 | After RevertConfig none of the four managed entries exists. |
| `ContainerdV1Proofs.RevertDefaultName` | tools/container/containerd/config_v1_test.go:630-648 | `default_runtime_name` is removed exactly when it names a managed runtime, and kept otherwise. |
| `ContainerdV1Proofs.RevertDefaultRuntime` | tools/container/containerd/config_v1_test.go:630-648 | `default_runtime` is removed exactly when its `options.Runtime` ends in a managed binary file name, and kept otherwise. |
| `ContainerdV1Proofs.RevertPreservesUnrelated` | tools/container/containerd/config_v1_test.go:601-678 | Every path outside the managed entries, the default settings, the tables on the way to `runtimes` and `version` reads the same after RevertConfig. |
| `ContainerdV1Proofs.RevertLeavesNoManagedDefault` | tools/container/containerd/config_v1_test.go:630-648 | After RevertConfig, neither default setting refers to a managed runtime. |
| `ContainerdV1Proofs.PrunedIdempotent` | tools/container/containerd/config_v1_test.go:601-612 | Pruning a pruned tree changes nothing more. |
| `ContainerdV1Proofs.RevertIdempotent` | tools/container/containerd/config_v1_test.go:601-678 | RevertConfig on an already reverted configuration changes nothing. |
| `ContainerdV1RoundTrip.UpdateRevertEmpty` | tools/container/containerd/config_v1_test.go:601-678 | For every runtime class, runtime directory, setAsDefault, legacy flag and runtime type, RevertConfig after UpdateConfig on an empty configuration leaves an empty configuration. |
| `ContainerdV1Proofs.RevertKeepsRunc` | tools/container/containerd/config_v1_test.go:601-678 | An existing runc entry survives RevertConfig verbatim. |
| `ContainerdV1Examples.UpdateEmptyTree` | tools/container/containerd/config_v1_test.go:144-317 | For classes `nvidia`, `NAME` and `nvidia-experimental`, UpdateConfig on an empty tree yields exactly the expected tree. |
| `ContainerdV1Examples.UpdateWithRunc` | tools/container/containerd/config_v1_test.go:355-599 | For the same three classes, UpdateConfig on `runcConfigMapV1("/runc-binary")` yields exactly the expected tree, runc included. |
| `ContainerdV1MoreExamples.UpdateEmptyDefaultRuntime` | tools/container/containerd/config_v1_test.go:28-135 | For all nine default-runtime cases, the two settings are as expected. The inlined default equals `defaultRuntimeV1` of the expected binary. |
| `ContainerdV1MoreExamples.RevertWithoutPlugins` | tools/container/containerd/config_v1_test.go:607-612 | Reverting `{}` and `{version = 1}` yields `{}`. |
| `ContainerdV1MoreExamples.RevertManagedTree` | tools/container/containerd/config_v1_test.go:613-648 | Reverting the four `runtimeMapV1` entries, with or without both default settings, yields `{}`. |

## Left out

- `loadConfig` (internal/config/engine/containerd/option.go:93-118) reads the file system. The outcome of loading the path is the `loaded` parameter of `Build`.
- Error messages are datatype constructors, not the formatted Go strings. Logging has no effect and is not modelled.
- go-toml is not modelled beyond its tree operations: no parsing, no marshalling, no key order, no textual comparison. The tests' string comparisons are stated as equality of trees.
- `Int` is an unbounded integer standing for go-toml's `int64`. The model only compares versions, so wrap-around does not arise.
- The V2 configuration (its update, revert and `Get`/`Keys` internals) is not part of this model. Only the choice to return it is.
- The V1 `UpdateConfig`/`RevertConfig` implementation is not part of this model's sources. The behaviour is the one the V1 tests assert, extended in the simplest consistent way beyond them:
  - without runc, an existing entry of the same name is the base;
  - a class naming a suffixed runtime maps the base entry back to `nvidia`;
  - RevertConfig removes an inlined default whose `options.Runtime` ends in a managed binary file name;
  - pruning removes empty `runtimes`, `containerd`, `cri` and `plugins` tables and a lone `version`.
- `ContainerdV1.JoinPath` joins with a `/` and does not clean the path as Go's `filepath.Join` does.
- `ContainerdV1Proofs.UpdateWritesManagedEntries`: stated only for a runtime class other than `runc`. A class named `runc` makes the base entry overwrite the runc entry it copies from.
- `ContainerdV1Proofs.UpdateKeepsRunc`: stated only for a runtime class other than `runc`, for the same reason.
- `ContainerdV1Proofs.UpdateDefaultRuntime`: stated only for a runtime class other than `runc`, for the same reason.
- `ContainerdV1Proofs.RevertKeepsRunc`: stated only for a runtime class other than `runc`. With that class, the base managed entry is itself named `runc` and RevertConfig removes it.
- `ContainerdV1RoundTrip.UpdateRevertEmpty`: stated for an empty starting configuration. On a configuration that already has entries, RevertConfig cannot restore what UpdateConfig overwrote: a replaced managed entry, a previous default or a previous `version`.
- `ContainerdV1Proofs.RevertPreservesUnrelated`: stated for paths outside the top-level `version` key and not on the way to `runtimes`. Pruning may remove those when they become empty.
- The CDI library's functions are inputs:
  - the loaded OCI spec, the annotation parser's device list or error, the CUDA image's `NVIDIA_VISIBLE_DEVICES` list or error, and the privileged flag are fields of `RawSpec`;
  - `IsQualifiedName` is the parameter `isQualified`;
  - `cdi.DefaultSpecDirs` is the parameter `defaultSpecDirs`.
- The CDI registry is reduced to the outcomes of `Refresh` and `InjectDevices`. Injection's outcome is a parameter that may depend on whether the refresh failed; how the registry's state after a refresh affects injection is not modelled. What injection does to the OCI spec is not modelled.
- A nil device slice and an empty one are both the empty sequence.

## Findings

The duplicate check in `getDevicesFromSpec` never fires. The `seen` map is read for every name but never written. So a device listed twice is requested twice, although the code evidently means to skip it: it logs "Ignoring duplicate device" and then skips. The main model (`CollectDevices`, `GetDevicesFromSpec`, `NewCdiModifier`) follows the code as written and keeps duplicates. The corrected loop and its specification stand beside it.

| source | as written | input that shows it | evidently intended | confidence | as-written member | corrected member |
|---|---|---|---|---|---|---|
| internal/modifier/cdi.go:85-94 | `seen` is consulted but never assigned, so no name is ever skipped | `NVIDIA_VISIBLE_DEVICES` list `["0", "0"]` on a privileged container gives `[kind=0, kind=0]` | each qualified name requested once, in first-occurrence order | not executed | `Cdi.DuplicatesKept` | `Cdi.CollectDevicesDeduplicated` |
