# AGFS binding and memory extraction: a Dafny model

This project models the part of OpenViking that connects to its file system layer, AGFS.

- **The Go pybinding library** (`main.go`) is the engine the Python process loads. It keeps two process-wide tables:
  - an error buffer: error id → message;
  - a handle table: handle id → open file.

  Every exported call answers with a JSON envelope. A failure is reported as `{"error_id": n}`, and the message stays in the buffer until it is fetched, which also frees it.
- **The Python binding client** (`binding_client.py`) wraps that library. `AGFSBindingClient` turns envelopes into results or `AGFSClientError`. `FileHandle` is a stateful handle with a `closed` flag that guards every operation.
- **The client factory** (`agfs_utils.py`) builds an HTTP or binding client. It then runs the bootstrap mount plan: `/serverinfo`, then `/queue`, then the storage backend at `/local`.
- **The VLM settings** (`vlm_config.py`):
  - migrating the legacy `api_key`/`api_base` into the provider table;
  - the completeness check;
  - provider matching;
  - the effective API key;
  - the configuration dictionary handed to the model backend.
- **The deterministic parts of the memory extractor** (`memory_extractor.py`):
  - memory categories and their directories;
  - the owner space and URIs of each memory;
  - output-language detection;
  - per-tool call statistics collected from a session;
  - the candidates built from extracted memories;
  - acceptance of a merge answer;
  - merging of tool and skill statistics.

Modules:

| module | file | models |
|---|---|---|
| `Wrappers` | wrappers.dfy | `Option`, `Result` |
| `Wire` | wire.dfy | the envelope and payloads shared by the engine and the client |
| `PyBinding` | pybinding.dfy | class `Engine`: the Go library's tables and exported calls |
| `BindingClient` | binding_client.dfy | classes `AgfsBindingClient` and `FileHandle` |
| `AgfsUtils` | agfs_utils.dfy | the client factory and the mount plan |
| `VlmConfig` | vlm_config.dfy | the settings, as functions and as class `VlmSettings` |
| `MemoryExtractor` | memory_extractor.dfy | categories, language, statistics, candidates, merging |

The file system behind the engine (the mountable file system and its plugins) is not part of this model. Each engine method takes the file system's answer as a parameter. The engine appends every request it issues to the file system to a log, `fsCalls`. That log makes two things observable:
- which of the sequential or positioned calls the `has_offset` flag selects;
- that a closed `FileHandle` never reaches the engine.

The mount table is part of `Engine` (`mounts`):
- mounting fails on an occupied prefix or on a plugin error;
- unmounting fails only when the file system refuses, and is otherwise a removal.

Paths in the table below are relative to the repository root. They abbreviate as follows:
- `main.go` = `third_party/agfs/agfs-server/cmd/pybinding/main.go`
- `binding_client.py` = `third_party/agfs/agfs-sdk/python/pyagfs/binding_client.py`
- `agfs_utils.py` = `openviking/utils/agfs_utils.py`
- `vlm_config.py` = `openviking_cli/utils/config/vlm_config.py`
- `memory_extractor.py` = `openviking/session/memory_extractor.py`

The table itself spells every path out in full.

## Model

| member | source | states |
|---|---|---|
| PyBinding.Engine.constructor | third_party/agfs/agfs-server/cmd/pybinding/main.go:37-46 | the library starts with empty error and handle tables, no mounts and id counters at 0 |
| PyBinding.Engine.StoreError | third_party/agfs/agfs-server/cmd/pybinding/main.go:76-86 | no error gives id 0 and changes nothing; an error is stored under the previous counter plus one, a fresh id larger than every id issued before |
| PyBinding.Engine.Fail | third_party/agfs/agfs-server/cmd/pybinding/main.go:76-86 | the envelope is `{"error_id": id}` for the id under which the message was just stored |
| PyBinding.Engine.GetAndClearError | third_party/agfs/agfs-server/cmd/pybinding/main.go:88-97 | id 0 gives "" and leaves the buffer alone; any other id returns its message ("" if unknown) and frees exactly that entry |
| PyBinding.Engine.StoreHandle | third_party/agfs/agfs-server/cmd/pybinding/main.go:99-106 | a handle gets the previous counter plus one, an id of at least 1 never issued before; only that entry is added |
| PyBinding.Engine.GetHandle | third_party/agfs/agfs-server/cmd/pybinding/main.go:108-113 | absent (Go nil) exactly when the id is not in the table, otherwise the stored handle |
| PyBinding.Engine.RemoveHandle | third_party/agfs/agfs-server/cmd/pybinding/main.go:115-119 | only the given id leaves the table |
| PyBinding.Engine.OpenHandle | third_party/agfs/agfs-server/cmd/pybinding/main.go:467-483 | one open request reaches the file system; on failure the result is -1, the error is stored and the table is unchanged; on success a fresh id maps to the path and flags |
| PyBinding.Engine.CloseHandle | third_party/agfs/agfs-server/cmd/pybinding/main.go:485-502 | an unknown id answers error id 0 and changes nothing; a known id is removed from the table even when the file system's close fails, and that failure is stored and reported |
| PyBinding.Engine.HandleRead | third_party/agfs/agfs-server/cmd/pybinding/main.go:504-529 | as written: unknown handle → stored "handle not found" and status -1; a known handle with negative size panics; otherwise the read selected by `has_offset`, with EOF not counted as an error |
| PyBinding.Engine.HandleReadChecked | third_party/agfs/agfs-server/cmd/pybinding/main.go:504-529 | corrected: the same outcomes, but a negative size reads without panicking; the status is always 0 or -1 |
| PyBinding.Engine.ReadAfterLookup | third_party/agfs/agfs-server/cmd/pybinding/main.go:513-529 | exactly one read request, positioned iff `has_offset` is non-zero; a non-EOF error is stored and the status is -1, otherwise the bytes delivered |
| PyBinding.Engine.HandleWrite | third_party/agfs/agfs-server/cmd/pybinding/main.go:531-554 | unknown handle → "handle not found" with no file system call; otherwise one write, positioned iff `has_offset` is non-zero, answering `bytes_written` or the stored error |
| PyBinding.Engine.HandleSeek | third_party/agfs/agfs-server/cmd/pybinding/main.go:556-570 | unknown handle → "handle not found"; otherwise one seek with the given offset and whence, answering the new position or the stored error |
| PyBinding.Engine.HandleSync | third_party/agfs/agfs-server/cmd/pybinding/main.go:572-586 | unknown handle → "handle not found"; otherwise one sync, answering a message or the stored error |
| PyBinding.Engine.HandleStat | third_party/agfs/agfs-server/cmd/pybinding/main.go:588-611 | unknown handle → "handle not found"; otherwise one stat, answering the file info or the stored error |
| PyBinding.Engine.GetHandleInfo | third_party/agfs/agfs-server/cmd/pybinding/main.go:629-645 | unknown handle → "handle not found"; a known one answers its id and the path and flags it was opened with, with no file system request logged |
| PyBinding.Engine.ListHandles | third_party/agfs/agfs-server/cmd/pybinding/main.go:613-627 | the listing names every id in the table exactly once, with its path, and nothing else; no state changes |
| PyBinding.Engine.Read | third_party/agfs/agfs-server/cmd/pybinding/main.go:184-207 | one path read; a non-EOF error is stored and its id returned as the status; otherwise status 0, with no output buffer when no bytes came back |
| PyBinding.Engine.Respond | third_party/agfs/agfs-server/cmd/pybinding/main.go:227-242 | a path operation answers the stored error's id, or its success payload with no state change |
| PyBinding.Engine.Rm | third_party/agfs/agfs-server/cmd/pybinding/main.go:261-282 | exactly one removal request, recursive iff `recursive` is non-zero; "deleted" or the stored error |
| PyBinding.Engine.Mkdir | third_party/agfs/agfs-server/cmd/pybinding/main.go:244-259 | one mkdir request with the given mode; "directory created" or the stored error |
| PyBinding.Engine.Mount | third_party/agfs/agfs-server/cmd/pybinding/main.go:381-403 | fails iff the prefix is taken or the plugin fails, leaving the mount table alone; otherwise the prefix maps to the plugin type and configuration |
| PyBinding.Engine.Unmount | third_party/agfs/agfs-server/cmd/pybinding/main.go:405-420 | a refusal is stored and keeps the table; otherwise the prefix is detached and nothing else changes |
| BindingClient.Reported | third_party/agfs/agfs-sdk/python/pyagfs/binding_client.py:221-233 | the raised message is never empty: the engine's text, or "Unknown error" |
| BindingClient.ParseOctal | third_party/agfs/agfs-sdk/python/pyagfs/binding_client.py:304-310 | a mode parses iff it is a non-empty run of digits 0-7 |
| BindingClient.ParseOctalRoundTrip | third_party/agfs/agfs-sdk/python/pyagfs/binding_client.py:304-310 | parsing the octal spelling of any number gives the number back |
| BindingClient.DefaultModeIs493 | third_party/agfs/agfs-sdk/python/pyagfs/binding_client.py:304-310 | the default mode "755" is 493 |
| BindingClient.ToUint32 | third_party/agfs/agfs-sdk/python/pyagfs/binding_client.py:398-409 | `ctypes.c_uint` keeps values in [0, 2^32) and leaves those already in range unchanged |
| BindingClient.HasOffset | third_party/agfs/agfs-sdk/python/pyagfs/binding_client.py:427-430 | `has_offset` is 1 iff an offset was given, 0 iff not |
| BindingClient.OffsetValue | third_party/agfs/agfs-sdk/python/pyagfs/binding_client.py:427-430 | the offset passed on is the given one, or 0 |
| BindingClient.BytesWrittenOf | third_party/agfs/agfs-sdk/python/pyagfs/binding_client.py:448-461 | `bytes_written` when present, else 0 |
| BindingClient.PositionOf | third_party/agfs/agfs-sdk/python/pyagfs/binding_client.py:463-469 | `position` when present, else 0 |
| BindingClient.RenewHandle | third_party/agfs/agfs-sdk/python/pyagfs/binding_client.py:481-483 | the reply echoes the requested lease |
| BindingClient.Grep | third_party/agfs/agfs-sdk/python/pyagfs/binding_client.py:383-392 | always "not supported" in binding mode |
| BindingClient.Digest | third_party/agfs/agfs-sdk/python/pyagfs/binding_client.py:394-396 | always "not supported" in binding mode |
| BindingClient.CatResultAsWritten | third_party/agfs/agfs-sdk/python/pyagfs/binding_client.py:271-281 | as written: the result is a failure iff the status is negative; otherwise the bytes or b"" |
| BindingClient.CatAsWrittenMasksFailure | third_party/agfs/agfs-sdk/python/pyagfs/binding_client.py:271-281 | a failed read (positive error id, no data) reaches the caller as empty content |
| BindingClient.CString | third_party/agfs/agfs-sdk/python/pyagfs/binding_client.py:165 | a `c_char_p` result is the longest prefix of the C buffer without a zero byte: all of it when there is none, otherwise cut just before the first one |
| BindingClient.CStringCutsAtZero | third_party/agfs/agfs-sdk/python/pyagfs/binding_client.py:165 | binary data `A\0B` comes back as `A` |
| BindingClient.ErrorIdText | third_party/agfs/agfs-server/cmd/pybinding/main.go:509 | the reply text `{"error_id": id}` is a non-empty C string opening with `{` |
| BindingClient.DefaultSizeReadPanics | third_party/agfs/agfs-sdk/python/pyagfs/binding_client.py:531-535 | `FileHandle.read()` with its default size -1, on any open handle the engine holds, makes `AGFS_HandleRead` as written panic |
| BindingClient.AgfsBindingClient.constructor | third_party/agfs/agfs-sdk/python/pyagfs/binding_client.py:202-212 | the client uses the given engine library (the process-wide `BindingLib`) |
| BindingClient.AgfsBindingClient.ParseResponse | third_party/agfs/agfs-sdk/python/pyagfs/binding_client.py:221-233 | fails iff the envelope carries a non-zero error id; the failure's message is fetched and freed from the buffer; a success leaves the buffer alone |
| BindingClient.AgfsBindingClient.CatAsWritten | third_party/agfs/agfs-sdk/python/pyagfs/binding_client.py:254-281 | as written: stream → not supported; a failed read returns empty content and leaves its message in the error buffer |
| BindingClient.AgfsBindingClient.Cat | third_party/agfs/agfs-sdk/python/pyagfs/binding_client.py:254-281 | corrected: stream → not supported; a failed read raises the engine's message and leaves no entry behind; otherwise the bytes read |
| BindingClient.AgfsBindingClient.Mkdir | third_party/agfs/agfs-sdk/python/pyagfs/binding_client.py:304-310 | a mode that is not octal raises ValueError before any engine call; otherwise mkdir with the parsed mode |
| BindingClient.AgfsBindingClient.Rm | third_party/agfs/agfs-sdk/python/pyagfs/binding_client.py:312-315 | recursive removal iff `recursive`; fails iff the file system does; no error entry is left behind |
| BindingClient.AgfsBindingClient.Mount | third_party/agfs/agfs-sdk/python/pyagfs/binding_client.py:347-356 | fails iff the prefix is taken or the plugin fails; success attaches exactly that prefix |
| BindingClient.AgfsBindingClient.Unmount | third_party/agfs/agfs-sdk/python/pyagfs/binding_client.py:358-361 | fails iff the file system refuses; success detaches exactly that prefix |
| BindingClient.AgfsBindingClient.OpenHandle | third_party/agfs/agfs-sdk/python/pyagfs/binding_client.py:398-409 | the mode travels as c_uint; failure raises "Failed to open handle"; success returns a new open FileHandle whose id the engine holds; on failure the engine's message stays stored under a fresh id that nothing fetches, and on success the error buffer is unchanged |
| BindingClient.AgfsBindingClient.CloseHandle | third_party/agfs/agfs-sdk/python/pyagfs/binding_client.py:422-425 | afterwards the id is never in the table; an unknown id is a success that changes nothing |
| BindingClient.AgfsBindingClient.HandleRead | third_party/agfs/agfs-sdk/python/pyagfs/binding_client.py:427-446 | corrected: unknown id raises "handle not found"; otherwise one read, positioned iff an offset is given, returning exactly the bytes delivered or raising the engine's message; no error entry is left behind |
| BindingClient.AgfsBindingClient.HandleReadAsWritten | third_party/agfs/agfs-sdk/python/pyagfs/binding_client.py:427-437 | as written: never raises; an unknown id or a failed read returns the text `{"error_id": id}` and leaves the message stored under that id, the previous error counter plus one; a negative size (the default -1) on a held handle ends in the engine's panic, which aborts the process; a successful read returns the data cut at its first zero byte |
| BindingClient.FreshEngineReadReturnsErrorText | third_party/agfs/agfs-sdk/python/pyagfs/binding_client.py:427-437 | on a freshly loaded library, `handle_read` of an id the engine does not hold returns the bytes `{"error_id": 1}` as file content |
| BindingClient.AgfsBindingClient.HandleWrite | third_party/agfs/agfs-sdk/python/pyagfs/binding_client.py:448-461 | positioned iff an offset is given; returns the byte count or raises the engine's message |
| BindingClient.AgfsBindingClient.HandleSeek | third_party/agfs/agfs-sdk/python/pyagfs/binding_client.py:463-469 | returns the new position or raises the engine's message |
| BindingClient.AgfsBindingClient.HandleSync | third_party/agfs/agfs-sdk/python/pyagfs/binding_client.py:471-474 | one sync of a known handle; "synced" on success, otherwise raises the engine's message; unknown id → "handle not found" |
| BindingClient.AgfsBindingClient.HandleStat | third_party/agfs/agfs-sdk/python/pyagfs/binding_client.py:476-479 | the file info of a known handle, or raises the engine's message; unknown id → "handle not found" |
| BindingClient.AgfsBindingClient.GetHandleInfo | third_party/agfs/agfs-sdk/python/pyagfs/binding_client.py:417-420 | the id, path and flags of a known handle; unknown → "handle not found" |
| BindingClient.AgfsBindingClient.ListHandles | third_party/agfs/agfs-sdk/python/pyagfs/binding_client.py:411-415 | exactly the handles the engine holds, each once |
| BindingClient.FileHandle.constructor | third_party/agfs/agfs-sdk/python/pyagfs/binding_client.py:504-509 | a new handle is open and keeps its id, path and flags |
| BindingClient.FileHandle.Read | third_party/agfs/agfs-sdk/python/pyagfs/binding_client.py:531-535 | closed → "Handle is closed" with no engine call; otherwise one sequential read returning exactly the bytes delivered or raising the engine's message; an id the engine no longer holds → "handle not found"; the error buffer is left as it was, and the handle and mount tables are outside what it may change |
| BindingClient.FileHandle.ReadAt | third_party/agfs/agfs-sdk/python/pyagfs/binding_client.py:537-541 | closed → "Handle is closed"; otherwise one read at the given offset returning the bytes delivered or the engine's message; an id the engine no longer holds → "handle not found"; the error buffer is left as it was, and the handle and mount tables are outside what it may change |
| BindingClient.FileHandle.Write | third_party/agfs/agfs-sdk/python/pyagfs/binding_client.py:543-547 | closed → "Handle is closed"; otherwise one sequential write returning `bytes_written` (0 if absent) or the engine's message; an id the engine no longer holds → "handle not found"; the error buffer is left as it was, and the handle and mount tables are outside what it may change |
| BindingClient.FileHandle.WriteAt | third_party/agfs/agfs-sdk/python/pyagfs/binding_client.py:549-553 | closed → "Handle is closed"; otherwise one write at the given offset returning `bytes_written` or the engine's message; an id the engine no longer holds → "handle not found"; the error buffer is left as it was, and the handle and mount tables are outside what it may change |
| BindingClient.FileHandle.Seek | third_party/agfs/agfs-sdk/python/pyagfs/binding_client.py:555-559 | closed → "Handle is closed"; otherwise one seek with the given offset and whence, returning the new position or the engine's message; an id the engine no longer holds → "handle not found"; the error buffer is left as it was, and the handle and mount tables are outside what it may change |
| BindingClient.FileHandle.Tell | third_party/agfs/agfs-sdk/python/pyagfs/binding_client.py:561-563 | a seek by 0 from the current position (whence 1), guarded like `seek`: the position or the engine's message; the error buffer is left as it was, and the handle and mount tables are outside what it may change |
| BindingClient.FileHandle.Sync | third_party/agfs/agfs-sdk/python/pyagfs/binding_client.py:565-569 | closed → "Handle is closed"; otherwise one sync, succeeding or raising the engine's message; an id the engine no longer holds → "handle not found"; the error buffer is left as it was, and the handle and mount tables are outside what it may change |
| BindingClient.FileHandle.Stat | third_party/agfs/agfs-sdk/python/pyagfs/binding_client.py:571-575 | closed → "Handle is closed"; otherwise the handle's file info or the engine's message; an id the engine no longer holds → "handle not found"; the error buffer is left as it was, and the handle and mount tables are outside what it may change |
| BindingClient.FileHandle.Info | third_party/agfs/agfs-sdk/python/pyagfs/binding_client.py:577-581 | closed → "Handle is closed"; otherwise the handle's info; an id the engine no longer holds → "handle not found"; no file system request, and the error buffer and the tables are left as they were |
| BindingClient.FileHandle.Renew | third_party/agfs/agfs-sdk/python/pyagfs/binding_client.py:583-587 | closed → "Handle is closed"; otherwise the lease echoed, with no engine call |
| BindingClient.FileHandle.Close | third_party/agfs/agfs-sdk/python/pyagfs/binding_client.py:589-593 | closing a closed handle does nothing; otherwise the engine drops the id, and the handle is marked closed iff `close_handle` did not raise; exactly that id leaves the table, other handles stay, and the error buffer and mounts are left as they were |
| BindingClient.CloseTwice | third_party/agfs/agfs-sdk/python/pyagfs/binding_client.py:589-599 | two closes (explicit and `__exit__`) leave the handle closed and the id gone, and issue at most one file system close |
| AgfsUtils.PluginType | openviking/utils/agfs_utils.py:115-117 | the plugin type ends in "fs" and its stem is the backend name, except "mem" for "memory" |
| AgfsUtils.PluginTypeOfKnownBackends | openviking/utils/agfs_utils.py:115-117 | local → localfs, s3 → s3fs, memory → memfs |
| AgfsUtils.PluginTypeInjective | openviking/utils/agfs_utils.py:115-117 | two different backends share a plugin type only when they are "mem" and "memory" |
| AgfsUtils.BackendConfig | openviking/utils/agfs_utils.py:91-113 | local → `local_dir` (default "./data"); s3 with settings → exactly the eight S3 keys, each taken from its setting; any other backend → empty |
| AgfsUtils.MountPlan | openviking/utils/agfs_utils.py:69-126 | three steps, in the order /serverinfo, /queue, /local; the last uses the backend's plugin type |
| AgfsUtils.StepChangesOnlyItsPrefix | openviking/utils/agfs_utils.py:119-130 | one unmount-then-mount step changes only its own prefix; a successful mount installs the step's plugin and configuration; a failed one leaves the prefix mounted iff the unmount was refused, with the old mount |
| AgfsUtils.ThreeSteps | openviking/utils/agfs_utils.py:69-130 | the bootstrap's table is the three steps applied in order, and the first two alone give the table the /local step starts from |
| AgfsUtils.PlanMountsEverything | openviking/utils/agfs_utils.py:69-126 | with no faults, every step of a plan with distinct prefixes ends up mounted with its own type and configuration |
| AgfsUtils.PlanKeepsOthers | openviking/utils/agfs_utils.py:69-126 | prefixes the plan does not name keep their mounts, whatever faults occur |
| AgfsUtils.BootstrapWithoutFaults | openviking/utils/agfs_utils.py:69-126 | without faults the bootstrap mounts serverinfofs, queuefs and the backend, and keeps every other mount |
| AgfsUtils.RefusedUnmountKeepsOldMount | openviking/utils/agfs_utils.py:119-126 | if unmounting an occupied prefix is refused, the mount fails and the old mount stays |
| AgfsUtils.MountStep | openviking/utils/agfs_utils.py:119-130 | the unmount error is ignored; the mount's result is returned; the table becomes the step's result |
| AgfsUtils.MountAgfsBackend | openviking/utils/agfs_utils.py:54-130 | an HTTP client is left alone; for a binding client the mount table becomes the plan's result, and the call fails iff the /local step fails |
| AgfsUtils.CreateAgfsClient | openviking/utils/agfs_utils.py:17-51 | None → ValueError; binding mode exports `AGFS_LIB_PATH` unless unset, "1" or "default", mounts the backend, leaving the error buffer, the handle table and the file system log as they were, and fails iff the /local step fails, otherwise returns the binding client; any other mode gives an HTTP client with default url and timeout 10 |
| VlmConfig.Get | openviking_cli/utils/config/vlm_config.py:96-104 | the stored value, or None for a missing key |
| VlmConfig.Find | openviking_cli/utils/config/vlm_config.py:96-99 | a provider's configuration is found iff its name is listed |
| VlmConfig.FindListed | openviking_cli/utils/config/vlm_config.py:96-99 | what a lookup finds is the configuration of an entry listed under that name |
| VlmConfig.FindFirst | openviking_cli/utils/config/vlm_config.py:96-99 | a lookup finds the configuration of the first entry with that name |
| VlmConfig.FindAt | openviking_cli/utils/config/vlm_config.py:96-99 | with distinct names, looking up a listed provider gives its own configuration |
| VlmConfig.SyncProviderBackend | openviking_cli/utils/config/vlm_config.py:39-48 | `backend` is copied to `provider` only when provider is missing; otherwise the data is unchanged |
| VlmConfig.SyncProviderBackendProperties | openviking_cli/utils/config/vlm_config.py:39-48 | afterwards `provider` is set iff either was; an existing provider is never overwritten; the step is idempotent |
| VlmConfig.MigratedConfig | openviking_cli/utils/config/vlm_config.py:65-70 | existing keys keep their values; `api_key` is always present and filled from the legacy key when it was absent; `api_base` is added from the legacy setting when that is set and the key absent, and is otherwise present iff it was; only these two keys may be added |
| VlmConfig.Migrated | openviking_cli/utils/config/vlm_config.py:62-70 | the scalar settings are unchanged; without both a legacy key and a provider, nothing changes |
| VlmConfig.MigratedShape | openviking_cli/utils/config/vlm_config.py:62-70 | names stay distinct; with a legacy key and a provider name, the named provider is listed afterwards and its configuration has an `api_key` |
| VlmConfig.MigrationNeverOverwrites | openviking_cli/utils/config/vlm_config.py:67-70 | every key a provider already had keeps its value, and every provider other than the named one keeps its configuration exactly |
| VlmConfig.MigrationIdempotent | openviking_cli/utils/config/vlm_config.py:62-70 | migrating twice equals migrating once |
| VlmConfig.ReplaceFind | openviking_cli/utils/config/vlm_config.py:67-70 | after replacing a listed provider's configuration, looking it up gives the new one |
| VlmConfig.FirstKeyed | openviking_cli/utils/config/vlm_config.py:101-104 | the first provider, in order, that has a truthy `api_key`; none iff no provider has one |
| VlmConfig.MatchProvider | openviking_cli/utils/config/vlm_config.py:91-106 | the provider named by the `provider` field wins when it is listed with a key; otherwise the first listed provider with a key; none iff no provider has a key |
| VlmConfig.MatchIsStored | openviking_cli/utils/config/vlm_config.py:91-106 | the matched configuration is the one stored under that name |
| VlmConfig.HasAnyConfig | openviking_cli/utils/config/vlm_config.py:72-80 | with no top-level field set and no provider key, neither an effective key nor a provider match exists |
| VlmConfig.EffectiveApiKey | openviking_cli/utils/config/vlm_config.py:82-89 | the top-level key when set, else the matched provider's key; a returned key is always truthy |
| VlmConfig.AvailableIff | openviking_cli/utils/config/vlm_config.py:156-158 | available iff a top-level key is set or some provider has a key |
| VlmConfig.MigrationPreservesChecks | openviking_cli/utils/config/vlm_config.py:50-89 | migration changes neither "has any config" nor the effective key |
| VlmConfig.MigratedProviderMatches | openviking_cli/utils/config/vlm_config.py:62-106 | after migrating a legacy key into a provider without its own key, that provider is the match and carries the legacy key |
| VlmConfig.CheckComplete | openviking_cli/utils/config/vlm_config.py:55-60 | passes iff nothing is configured, or a model is set and a key is available; the failure names the missing model first, then the missing key |
| VlmConfig.EmptyConfigIsValid | openviking_cli/utils/config/vlm_config.py:50-60 | settings with nothing configured pass validation |
| VlmConfig.ValidConfigIsUsable | openviking_cli/utils/config/vlm_config.py:50-60 | configured settings that pass validation have a model and an available key |
| VlmConfig.BuildVlmConfigDict | openviking_cli/utils/config/vlm_config.py:127-144 | model, temperature, retries and thinking are copied; credentials and provider are present iff a provider matched, and the credentials' key and base are the matched provider's own values |
| VlmConfig.VlmSettings.constructor | openviking_cli/utils/config/vlm_config.py:11-27 | the given settings, with temperature 0.0, max_retries 2 and thinking off |
| VlmConfig.VlmSettings.MigrateLegacyConfig | openviking_cli/utils/config/vlm_config.py:62-70 | the new settings are the migration of the old ones |
| VlmConfig.VlmSettings.ValidateConfig | openviking_cli/utils/config/vlm_config.py:50-60 | migrates the settings, then reports the completeness check of the migrated settings |
| VlmConfig.VlmSettings.IsAvailableNow | openviking_cli/utils/config/vlm_config.py:156-158 | true iff an effective API key exists |
| MemoryExtractor.ParseCategory | openviking/session/memory_extractor.py:296-300 | the category whose value is the given string; missing or unknown → patterns |
| MemoryExtractor.ParseCategoryRoundTrip | openviking/session/memory_extractor.py:28-43 | every category parses back from its own value |
| MemoryExtractor.UnknownCategoryIsPatterns | openviking/session/memory_extractor.py:296-300 | a string that is no category's value becomes patterns |
| MemoryExtractor.CategoryDir | openviking/session/memory_extractor.py:87-97 | every directory lies under "memories/": "profile.md" for the profile, otherwise the category's value |
| MemoryExtractor.CategoryDirsDistinct | openviking/session/memory_extractor.py:87-97 | different categories have different directories |
| MemoryExtractor.OwnerSpace | openviking/session/memory_extractor.py:100-125 | profile, preferences, entities and events belong to the user space; the rest to the agent space |
| MemoryExtractor.ParentUri | openviking/session/memory_extractor.py:361-395 | a memory's parent URI is its owner's root + "/memories", plus "/" + category unless it is the profile |
| MemoryExtractor.ToolMemoryUri | openviking/session/memory_extractor.py:541 | a tool memory file is `<tool name>.md` directly under the tools parent URI of the agent space |
| MemoryExtractor.SkillMemoryUri | openviking/session/memory_extractor.py:734 | a skill memory file is `<skill name>.md` directly under the skills parent URI of the agent space |
| MemoryExtractor.StripRemovesOnlySpace | openviking/session/memory_extractor.py:506-510 | `strip` returns the contiguous slice `s[k..k+n]` of the input; everything removed before and after it is whitespace |
| MemoryExtractor.StripIdempotent | openviking/session/memory_extractor.py:506-510 | stripping twice equals stripping once |
| MemoryExtractor.Fallback | openviking/session/memory_extractor.py:134 | the stripped fallback language when that is non-blank, otherwise "en" |
| MemoryExtractor.DetectOutputLanguage | openviking/session/memory_extractor.py:127-170 | the answer is ko, ru, ar, ja, zh-CN or the fallback |
| MemoryExtractor.Dominant | openviking/session/memory_extractor.py:146-170 | the answer chosen from the five script counts is one of the five codes or the fallback |
| MemoryExtractor.DominantAnswers | openviking/session/memory_extractor.py:146-170 | for every fallback, the exact condition on the counts for each answer: ko on the largest count with ties to ko, ru when it beats ko and ties ar, ar only when strictly largest; ja when those are 0 and kana appears; zh-CN only without kana and with Han; a code is also the answer when it is the fallback and every count is 0; all counts 0 give the fallback, and any script gives one of the five codes |
| MemoryExtractor.OnlyUserTextCounts | openviking/session/memory_extractor.py:136-140 | a message that is not from the user, or that is empty, does not change the detected language, at whatever position it is inserted |
| MemoryExtractor.KoreanWinsTies | openviking/session/memory_extractor.py:146-154 | for every fallback, the answer is ko iff the user text has at least one Hangul character and no fewer Hangul than Cyrillic or Arabic characters (ties go to Korean), or the fallback is ko and none of the five scripts occurs |
| MemoryExtractor.RussianBeatsArabicOnTies | openviking/session/memory_extractor.py:146-154 | for every fallback, the answer is ru iff the user text has Cyrillic, strictly more than Hangul and no less than Arabic, or the fallback is ru and none of the five scripts occurs |
| MemoryExtractor.ArabicNeedsStrictMajority | openviking/session/memory_extractor.py:146-154 | for every fallback, the answer is ar iff the user text has strictly more Arabic than Hangul and than Cyrillic, or the fallback is ar and none of the five scripts occurs |
| MemoryExtractor.KanaMeansJapanese | openviking/session/memory_extractor.py:156-166 | for every fallback, the answer is ja iff the user text has no Hangul, Cyrillic or Arabic and has kana (kana wins over Han), or the fallback is ja and none of the five scripts occurs |
| MemoryExtractor.HanWithoutKanaMeansChinese | openviking/session/memory_extractor.py:156-168 | for every fallback, the answer is zh-CN iff the user text has none of the first three scripts, no kana and some Han, or the fallback is zh-CN and none of the five scripts occurs |
| MemoryExtractor.FallbackWithoutScripts | openviking/session/memory_extractor.py:142-170 | for every fallback, the answer is the fallback when none of the five scripts occurs in the user text, and one of the five codes otherwise |
| MemoryExtractor.NoUserTextGivesFallback | openviking/session/memory_extractor.py:142-143 | without user text the fallback is returned |
| MemoryExtractor.TallyCounts | openviking/session/memory_extractor.py:198-227 | the statistics name exactly the tools called; each tool's count is its number of calls, its success count its completed calls, and its duration and token figures the sums over its calls, a missing figure adding 0 |
| MemoryExtractor.Record | openviking/session/memory_extractor.py:206-226 | one part adds 1 to its tool's call count (creating the entry) and leaves every other tool's statistics alone |
| MemoryExtractor.Tally | openviking/session/memory_extractor.py:198-227 | every entry names a non-empty tool with at least one call |
| MemoryExtractor.TallyKeys | openviking/session/memory_extractor.py:208-218 | the tools with an entry are exactly the named tools that were called |
| MemoryExtractor.TallySums | openviking/session/memory_extractor.py:220-226 | each tool's duration and token figures are the sums of those figures over its calls |
| MemoryExtractor.TotalWithoutCalls | openviking/session/memory_extractor.py:220-226 | a tool with no calls has every figure summed to 0 |
| MemoryExtractor.MissingFiguresAddNothing | openviking/session/memory_extractor.py:220-226 | appending a call of the tool that leaves a figure out (None) leaves that figure's sum unchanged |
| MemoryExtractor.ToolAbsentIffNoCalls | openviking/session/memory_extractor.py:208-218 | a named tool has an entry iff it was called at least once |
| MemoryExtractor.SuccessesAtMostCalls | openviking/session/memory_extractor.py:220-226 | completed calls never exceed calls |
| MemoryExtractor.RecordPart | openviking/session/memory_extractor.py:206-226 | one part updates the statistics as the tally's step does |
| MemoryExtractor.CollectToolStats | openviking/session/memory_extractor.py:198-227 | the loops build the tally of every part of every message, in order |
| MemoryExtractor.ToCandidate | openviking/session/memory_extractor.py:295-337 | the category is the parsed one; abstract, overview, content, session, user and language are copied; tool/skill fields are present iff the category is tools or skills, and their statistics are the session's entry for the tool (or skill) name |
| MemoryExtractor.StatsFor | openviking/session/memory_extractor.py:306 | the session statistics under the tool name, or under the skill name when the tool name is empty; no entry gives zero calls |
| MemoryExtractor.CandidateCarriesSessionFigures | openviking/session/memory_extractor.py:303-324 | a tool candidate's calls, successes, duration and token figures are exactly the session's counts and sums for that tool |
| MemoryExtractor.BuildCandidates | openviking/session/memory_extractor.py:293-342 | one candidate per extracted memory, in order, each built by the same rule |
| MemoryExtractor.CandidateFromSessionIsConsistent | openviking/session/memory_extractor.py:303-324 | a tool candidate built from session statistics has no more successes than calls |
| MemoryExtractor.AcceptMergeBundle | openviking/session/memory_extractor.py:501-527 | accepted iff the decision is empty or "merge" and abstract and content are non-blank; the fields are returned stripped |
| MemoryExtractor.AcceptedPayloadIsClean | openviking/session/memory_extractor.py:506-520 | an accepted payload has a non-empty abstract and content with no surrounding whitespace |
| MemoryExtractor.ComputeDerived | openviking/session/memory_extractor.py:610-620 | totals kept; with no calls the averages and success rate are 0; otherwise they are the quotients; consistent totals give a rate in [0, 1] |
| MemoryExtractor.MergeToolStatistics | openviking/session/memory_extractor.py:656-672 | every total is the sum of the two, and the derived fields are recomputed from the sums |
| MemoryExtractor.MergeKeepsConsistency | openviking/session/memory_extractor.py:656-672 | merging consistent statistics gives consistent statistics with a success rate in [0, 1] |
| MemoryExtractor.MergeCommutesAndAssociates | openviking/session/memory_extractor.py:656-672 | merging is commutative and associative |
| MemoryExtractor.NewToolTotals | openviking/session/memory_extractor.py:554-572 | with session statistics: their calls and successes (fail = calls − successes), time = duration and tokens = prompt + completion; else the parsed totals, unchanged when they record calls; with none recorded, one successful call with the parsed time and tokens |
| MemoryExtractor.ToolMemoryStats | openviking/session/memory_extractor.py:532-586 | a blank tool name gives nothing; empty existing content gives the new statistics; otherwise the merge of existing and new |
| MemoryExtractor.SessionToolMemoryIsConsistent | openviking/session/memory_extractor.py:532-586 | a tool memory built from session statistics and consistent existing ones has a success rate in [0, 1] |
| MemoryExtractor.ComputeSkillDerived | openviking/session/memory_extractor.py:773-779 | success rate = successes / executions, or 0 without executions; consistent totals give a rate in [0, 1] |
| MemoryExtractor.MergeSkillStatistics | openviking/session/memory_extractor.py:801-811 | every total is the sum of the two, with the rate recomputed |
| MemoryExtractor.SkillMergeKeepsConsistency | openviking/session/memory_extractor.py:801-811 | merging consistent skill statistics stays consistent with a rate in [0, 1] |
| MemoryExtractor.NewSkillTotals | openviking/session/memory_extractor.py:747-755 | the parsed statistics when present; otherwise one execution, a failure iff the lower-cased content contains "error" or "fail" |
| MemoryExtractor.SkillMemoryStats | openviking/session/memory_extractor.py:725-771 | a blank skill name gives nothing; empty existing content gives the new statistics; otherwise the merge of existing and new |

## Left out

- Loading the shared library, ctypes signatures and C string memory (`AGFS_FreeString`) are not modelled. The engine is called directly.
- JSON encoding and decoding are left out: envelopes and payloads are datatypes.
- Go's mutexes around the two tables are left out; the model is single-threaded.
- Go's `int64` and ctypes' `c_int64` are modelled as unbounded integers, so the id counters never wrap.
- HandleWrite: `AGFS_HandleWrite` narrows the data size to `C.int` before `C.GoBytes` (main.go:539), which truncates sizes of 2^31 bytes and more; the model passes the whole data through.
- Handle leases are left out: the engine never expires a handle, and `renew_handle` has no effect on the engine (as in the source).
- The mountable file system and its plugins are abstract. Their answers are parameters, and `PrefixOccupied` stands in for the file system's message on an occupied prefix.
- Engine calls not in the core are not modelled: `AGFS_NewClient`, `AGFS_FreeClient`, `AGFS_Health`, `AGFS_GetCapabilities`, `AGFS_Ls`, `AGFS_Write`, `AGFS_Create`, `AGFS_Stat`, `AGFS_Mv`, `AGFS_Chmod`, `AGFS_Touch`, `AGFS_Mounts`, the plugin loader calls, and the matching Python methods (`health`, `ls`, `write`, `create`, `stat`, `mv`, `chmod`, `touch`, `mounts`, `load_plugin`, `unload_plugin`, `list_plugins`, `get_plugins_info`). `PyBinding.Engine.Respond` captures the shape they share.
- `read` in binding_client.py is an alias of `cat` and has no separate member.
- `FileHandle.__enter__` returns the handle itself. `__exit__` is `close`; `BindingClient.CloseTwice` covers the exit that follows an explicit close.
- The HTTP client (`AGFSClient`) is not part of this model. `CreateAgfsClient` only records its url and timeout.
- `AgfsUtils.MountAgfsBackend`: logging is left out. Fault injection per prefix stands in for the exceptions the engine may raise.
- The VLM settings' pydantic construction from a raw dictionary and its type coercion are left out, as are the backend and model factory calls.
- `VlmConfig.SyncProviderBackend`: non-dictionary input is left out, and the in-place update is returned as a new map.
- `MemoryExtractor.DetectOutputLanguage`: `str.strip` and the regex character classes are modelled on code points; Python's full Unicode whitespace set is reduced to its ten ASCII members: space, tab, line feed, carriage return, VT, FF and the separators 0x1C-0x1F. Non-ASCII whitespace such as U+0085, U+00A0 and U+2000-U+200A is not stripped by the model.
- `MemoryExtractor.Lower`: `str.lower` is modelled on ASCII letters only.
- `MemoryExtractor.ComputeDerived` and `MemoryExtractor.ComputeSkillDerived` use exact reals instead of Python floats, and return a new record instead of updating the dictionary in place.
- Parsing statistics back out of stored Markdown (`_parse_tool_statistics`, `_parse_skill_statistics`) uses regular expressions and float parsing. The parsed values are parameters.
- `_format_ms`, the Markdown generation of tool and skill memories, and the LLM prompts and calls are left out. Also left out: VikingFS reads and writes, the embedding queue, uuids and timestamps. Their results are parameters.
- ToolMemoryStats, SkillMemoryStats: both assume VikingFS is available; the early `return None` when `get_viking_fs()` is falsy (memory_extractor.py:544-546, 737-739) is not modelled, because it depends on service wiring outside the model.
- `MemoryExtractor.ToCandidate` copies the source's lookup of a skill's statistics by the skill name in the per-tool map, as written.
- MemoryExtractor.ToCandidate: a memory field is an `Option`, and a missing field and an explicit JSON `null` both read as "". In the program, `mem.get(k, "")` returns None for an explicit null, which the model does not show.
- AgfsBindingClient.HandleRead, FileHandle.Read and FileHandle.ReadAt model the corrected reading path: they call `PyBinding.Engine.HandleReadChecked`, so a negative size (the default -1 of `handle_read` and `FileHandle.read`) reads instead of panicking, and an error reply is raised instead of being handed back as bytes. The program as written is modelled by `BindingClient.DefaultSizeReadPanics` and `BindingClient.AgfsBindingClient.HandleReadAsWritten`.
- AGFS_HandleRead returns three values in Go while ctypes declares a single `c_char_p` result. That calling-convention mismatch is not modelled: the model takes the result to be the reply's C string.
- Mkdir: `int(mode, 8)` also accepts surrounding whitespace, a `0o` prefix, underscores between digits and a sign (a negative mode then wraps through `c_uint`). `BindingClient.ParseOctal` accepts only a non-empty run of the digits 0-7, so on those spellings the model raises ValueError where the program calls mkdir.
- GetHandleInfo: the engine asks the open handle for its path and flags (`handle.Path()`, `handle.Flags()`); the model takes these to be the path and flags the handle was opened with. The same holds for `ListHandles`.
- VlmSettings.constructor does not run the validators that pydantic runs on construction (`sync_provider_backend` and `validate_config`); `MigrateLegacyConfig` and `ValidateConfig` are separate calls.
- AgfsConfig's optional settings are `Option` values, so a missing attribute and an attribute set to None are the same value. In the program, `getattr` defaults then give strings such as "None" or the plugin type "Nonefs"; the model shows neither.

## Findings

| source | as written | input that shows it | evidently intended | confidence | as-written member | corrected member |
|---|---|---|---|---|---|---|
| third_party/agfs/agfs-sdk/python/pyagfs/binding_client.py:271 | `cat` treats only a negative return of `AGFS_Read` as an error, but `AGFS_Read` returns the positive id of a stored error | `cat` of a path whose read fails: `AGFS_Read` returns 1 with no data | raise the stored message and free the entry | not executed | BindingClient.AgfsBindingClient.CatAsWritten | BindingClient.AgfsBindingClient.Cat |
| third_party/agfs/agfs-sdk/python/pyagfs/binding_client.py:531 | `FileHandle.read()` defaults to size -1, which `AGFS_HandleRead` passes to `make([]byte, int(size))` (main.go:513) | `FileHandle.read()` on any open handle | read without panicking for a negative size | not executed | BindingClient.DefaultSizeReadPanics | PyBinding.Engine.HandleReadChecked |
| third_party/agfs/agfs-sdk/python/pyagfs/binding_client.py:436 | `handle_read` returns the result as data whenever it is `bytes`, and with `restype = c_char_p` (line 165) it always is, so the error check after it never runs | `handle_read` on a fresh engine with an id it does not hold: taking the single `c_char_p` result to be the reply's C string (the reading under "## Left out"; the Go function in fact returns three values), the caller receives the bytes `{"error_id": 1}` as file content (BindingClient.FreshEngineReadReturnsErrorText) | raise the engine's message, and return the data the read delivered | not executed | BindingClient.AgfsBindingClient.HandleReadAsWritten | BindingClient.AgfsBindingClient.HandleRead |
