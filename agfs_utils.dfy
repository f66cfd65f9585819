/**
 * Client construction and the mount-table bootstrap
 * (openviking/utils/agfs_utils.py): choose a transport by mode, and for the
 * in-process binding mount the standard plugins and the storage backend.
 */
module AgfsUtils {
  import opened Wrappers
  import opened Wire
  import opened PyBinding
  import opened BindingClient

  /** The S3 settings object read by the backend mapping. */
  datatype S3Config = S3Config(
    bucket: string, region: string, accessKey: string, secretKey: string,
    endpoint: string, prefix: Option<string>, useSsl: bool, usePathStyle: bool)

  /** The AGFS configuration object; `None` is an attribute it does not have. */
  datatype AgfsConfig = AgfsConfig(
    mode: Option<string>, libPath: Option<string>, url: Option<string>, timeout: Option<int>,
    backend: Option<string>, path: Option<string>, s3: Option<S3Config>)

  /** The client `create_agfs_client` returns. */
  datatype AgfsClient = HttpClient(url: string, timeout: int) | Binding(client: AgfsBindingClient)

  /** One tolerant unmount followed by a mount at `prefix`. */
  datatype Step = Step(prefix: string, fstype: string, config: Config)

  /** How the engine answers the two calls of one step: a refused unmount, a failing plugin. */
  datatype StepFault = StepFault(unmountRefusal: Option<string>, pluginErr: Option<string>)

  const BindingMode := "binding-client"
  const DefaultUrl := "http://localhost:8080"
  const DefaultTimeout := 10
  const LibPathVar := "AGFS_LIB_PATH"
  const NoFault := StepFault(None, None)

  /** The plugin type for a backend: "memfs" for memory, otherwise the backend name with "fs" appended. */
  function PluginType(backend: string): (r: string)
    ensures |r| >= 2 && r[|r| - 2..] == "fs"
    ensures r[..|r| - 2] == (if backend == "memory" then "mem" else backend)
  {
    if backend == "memory" then "memfs" else backend + "fs"
  }

  /** The named backends map to their plugins. */
  lemma PluginTypeOfKnownBackends()
    ensures PluginType("local") == "localfs"
    ensures PluginType("s3") == "s3fs"
    ensures PluginType("memory") == "memfs"
  {
  }

  /**
   * Different backends get different plugins, save the one collision the
   * memory special case creates: "mem" and "memory" both choose "memfs".
   */
  lemma PluginTypeInjective(a: string, b: string)
    requires a != b && PluginType(a) == PluginType(b)
    ensures {a, b} == {"mem", "memory"}
  {
    var ra, rb := PluginType(a), PluginType(b);
    assert ra[..|ra| - 2] == rb[..|rb| - 2];
  }

  /** The plugin configuration for the backend at /local. */
  function BackendConfig(backend: string, path: Option<string>, s3: Option<S3Config>): (r: Config)
    ensures backend == "local" ==> r == map["local_dir" := Str(path.GetOr("./data"))]
    ensures backend == "s3" && s3.Some? ==>
      r.Keys == {"bucket", "region", "access_key_id", "secret_access_key", "endpoint", "prefix", "disable_ssl", "use_path_style"}
      && r["disable_ssl"] == Flag(!s3.value.useSsl)
      && r["prefix"] == Str(s3.value.prefix.GetOr(""))
      && r["bucket"] == Str(s3.value.bucket) && r["region"] == Str(s3.value.region)
      && r["access_key_id"] == Str(s3.value.accessKey) && r["secret_access_key"] == Str(s3.value.secretKey)
      && r["endpoint"] == Str(s3.value.endpoint) && r["use_path_style"] == Flag(s3.value.usePathStyle)
    ensures backend != "local" && !(backend == "s3" && s3.Some?) ==> r == map[]
  {
    if backend == "local" then
      map["local_dir" := Str(path.GetOr("./data"))]
    else if backend == "s3" && s3.Some? then
      var c := s3.value;
      map["bucket" := Str(c.bucket), "region" := Str(c.region),
          "access_key_id" := Str(c.accessKey), "secret_access_key" := Str(c.secretKey),
          "endpoint" := Str(c.endpoint), "prefix" := Str(c.prefix.GetOr("")),
          "disable_ssl" := Flag(!c.useSsl), "use_path_style" := Flag(c.usePathStyle)]
    else
      map[]
  }

  /** The three steps, in order: /serverinfo, /queue, then the backend at /local. */
  function MountPlan(config: AgfsConfig): (plan: seq<Step>)
    ensures |plan| == 3
    ensures plan[0].prefix == "/serverinfo" && plan[1].prefix == "/queue" && plan[2].prefix == "/local"
    ensures plan[2].fstype == PluginType(config.backend.GetOr("local"))
  {
    var backend := config.backend.GetOr("local");
    [ Step("/serverinfo", "serverinfofs", map["version" := Str("1.0.0")]),
      Step("/queue", "queuefs", map[]),
      Step("/local", PluginType(backend), BackendConfig(backend, config.path, config.s3)) ]
  }

  /** The fault at a prefix; a prefix without one sees both calls succeed. */
  function FaultAt(faults: map<string, StepFault>, prefix: string): StepFault {
    if prefix in faults then faults[prefix] else NoFault
  }

  /** The table after a step's unmount, refused or not. */
  function AfterUnmount(mounts: map<string, MountEntry>, s: Step, f: StepFault): map<string, MountEntry> {
    if f.unmountRefusal.Some? then mounts else mounts - {s.prefix}
  }

  /** Whether a step's mount fails: the prefix is still occupied, or the plugin fails. */
  predicate StepFails(mounts: map<string, MountEntry>, s: Step, f: StepFault) {
    s.prefix in AfterUnmount(mounts, s, f) || f.pluginErr.Some?
  }

  /** The table after one step. */
  function StepResult(mounts: map<string, MountEntry>, s: Step, f: StepFault): map<string, MountEntry>
  {
    var after := AfterUnmount(mounts, s, f);
    if StepFails(mounts, s, f) then after else after[s.prefix := MountEntry(s.fstype, s.config)]
  }

  /**
   * One step changes only its own prefix: it holds the new plugin when the
   * mount succeeds, and otherwise whatever a refused unmount left there.
   */
  lemma StepChangesOnlyItsPrefix(mounts: map<string, MountEntry>, s: Step, f: StepFault)
    ensures var r := StepResult(mounts, s, f);
      && (forall q :: q != s.prefix ==> (q in r <==> q in mounts) && (q in mounts ==> r[q] == mounts[q]))
      && (!StepFails(mounts, s, f) ==> s.prefix in r && r[s.prefix] == MountEntry(s.fstype, s.config))
      && (StepFails(mounts, s, f) ==>
            (s.prefix in r <==> s.prefix in mounts && f.unmountRefusal.Some?) && (s.prefix in r ==> r[s.prefix] == mounts[s.prefix]))
  {
  }

  /** The table after every step of `plan`, each answered as `faults` says. */
  function ApplyPlan(mounts: map<string, MountEntry>, plan: seq<Step>, faults: map<string, StepFault>): (r: map<string, MountEntry>)
    decreases |plan|
  {
    if plan == [] then mounts
    else ApplyPlan(StepResult(mounts, plan[0], FaultAt(faults, plan[0].prefix)), plan[1..], faults)
  }

  /** Without faults, every step's prefix ends up holding its plugin. */
  lemma {:induction false} PlanMountsEverything(mounts: map<string, MountEntry>, plan: seq<Step>)
    requires forall i, j :: 0 <= i < j < |plan| ==> plan[i].prefix != plan[j].prefix
    ensures forall s :: s in plan ==>
      s.prefix in ApplyPlan(mounts, plan, map[]) && ApplyPlan(mounts, plan, map[])[s.prefix] == MountEntry(s.fstype, s.config)
    decreases |plan|
  {
    if plan != [] {
      var next := StepResult(mounts, plan[0], NoFault);
      assert FaultAt(map[], plan[0].prefix) == NoFault;
      PlanMountsEverything(next, plan[1..]);
      PlanKeepsOthers(next, plan[1..], map[]);
      forall s | s in plan
        ensures s.prefix in ApplyPlan(mounts, plan, map[])
        ensures ApplyPlan(mounts, plan, map[])[s.prefix] == MountEntry(s.fstype, s.config)
      {
        if s != plan[0] {
          assert s in plan[1..];
        } else {
          forall t | t in plan[1..] ensures t.prefix != s.prefix {
            var j :| 0 <= j < |plan[1..]| && plan[1..][j] == t;
            assert plan[j + 1] == t;
          }
        }
      }
    }
  }

  /** No step of `plan` is at prefix `p`. */
  predicate Untouched(plan: seq<Step>, p: string) {
    forall s :: s in plan ==> s.prefix != p
  }

  /** A prefix no step touches keeps what it held, whatever the faults. */
  lemma {:induction false} PlanKeepsOthers(mounts: map<string, MountEntry>, plan: seq<Step>, faults: map<string, StepFault>)
    ensures forall p :: Untouched(plan, p) ==>
      (p in ApplyPlan(mounts, plan, faults) <==> p in mounts)
      && (p in mounts ==> ApplyPlan(mounts, plan, faults)[p] == mounts[p])
    decreases |plan|
  {
    if plan != [] {
      PlanKeepsOthers(StepResult(mounts, plan[0], FaultAt(faults, plan[0].prefix)), plan[1..], faults);
      forall p | Untouched(plan, p)
        ensures Untouched(plan[1..], p)
      {
        forall s | s in plan[1..] ensures s.prefix != p {
          assert s in plan;
        }
      }
    }
  }

  /** A plan of three steps, unrolled. */
  lemma ThreeSteps(mounts: map<string, MountEntry>, plan: seq<Step>, faults: map<string, StepFault>)
    requires |plan| == 3
    ensures var m1 := StepResult(mounts, plan[0], FaultAt(faults, plan[0].prefix));
      var m2 := StepResult(m1, plan[1], FaultAt(faults, plan[1].prefix));
      && ApplyPlan(mounts, plan[..2], faults) == m2
      && ApplyPlan(mounts, plan, faults) == StepResult(m2, plan[2], FaultAt(faults, plan[2].prefix))
  {
    var m1 := StepResult(mounts, plan[0], FaultAt(faults, plan[0].prefix));
    var m2 := StepResult(m1, plan[1], FaultAt(faults, plan[1].prefix));
    assert plan[..2][0] == plan[0] && plan[..2][1..] == [plan[1]] && [plan[1]][1..] == [];
    assert ApplyPlan(m1, [plan[1]], faults) == ApplyPlan(m2, [], faults);
    assert plan[1..][0] == plan[1] && plan[1..][1..] == [plan[2]] && [plan[2]][1..] == [];
    assert ApplyPlan(m1, plan[1..], faults) == ApplyPlan(m2, [plan[2]], faults);
    assert [plan[2]][0] == plan[2];
    assert ApplyPlan(m2, [plan[2]], faults) == ApplyPlan(StepResult(m2, plan[2], FaultAt(faults, plan[2].prefix)), [], faults);
  }

  /**
   * With every call succeeding, the bootstrap leaves /serverinfo,
   * /queue and /local holding the standard plugins and the chosen backend,
   * whatever was mounted there before, and no other prefix changes.
   */
  lemma BootstrapWithoutFaults(mounts: map<string, MountEntry>, config: AgfsConfig)
    ensures var backend := config.backend.GetOr("local");
      var result := ApplyPlan(mounts, MountPlan(config), map[]);
      && "/serverinfo" in result && "/queue" in result && "/local" in result
      && result["/serverinfo"] == MountEntry("serverinfofs", map["version" := Str("1.0.0")])
      && result["/queue"] == MountEntry("queuefs", map[])
      && result["/local"] == MountEntry(PluginType(backend), BackendConfig(backend, config.path, config.s3))
      && forall p :: p != "/serverinfo" && p != "/queue" && p != "/local" ==>
        (p in result <==> p in mounts) && (p in mounts ==> result[p] == mounts[p])
  {
    var plan := MountPlan(config);
    PlanMountsEverything(mounts, plan);
    PlanKeepsOthers(mounts, plan, map[]);
    assert plan[0] in plan && plan[1] in plan && plan[2] in plan;
    forall p | p != "/serverinfo" && p != "/queue" && p != "/local" ensures Untouched(plan, p) {
    }
  }

  /**
   * A refused unmount at an occupied prefix makes that step's mount fail
   * and leaves the previous plugin in place.
   */
  lemma RefusedUnmountKeepsOldMount(mounts: map<string, MountEntry>, s: Step, f: StepFault)
    requires s.prefix in mounts && f.unmountRefusal.Some?
    ensures StepFails(mounts, s, f)
    ensures StepResult(mounts, s, f) == mounts
  {
  }

  /**
   * One step on the binding client: the unmount's error is swallowed, the
   * mount's result is handed back.
   */
  method MountStep(client: AgfsBindingClient, s: Step, f: StepFault) returns (r: Result<Payload, ClientError>)
    requires client.lib.Valid()
    modifies client.lib`errorBuffer, client.lib`errorIdGen, client.lib`issuedErrorIds, client.lib`mounts
    ensures client.lib.Valid() && client.lib.errorBuffer == old(client.lib.errorBuffer)
    ensures client.lib.mounts == StepResult(old(client.lib.mounts), s, f)
    ensures r.Failure? <==> StepFails(old(client.lib.mounts), s, f)
  {
    var _ := client.Unmount(s.prefix, f.unmountRefusal);
    r := client.Mount(s.fstype, s.prefix, s.config, f.pluginErr);
  }

  /** The engine objects a client reaches: the binding's library, or none. */
  function Engines(agfs: AgfsClient): set<object> {
    if agfs.Binding? then {agfs.client.lib} else {}
  }

  /**
   * `mount_agfs_backend`: nothing for an HTTP client. For the binding, the
   * three steps in order; failures at /serverinfo and /queue are only
   * logged, a failure at /local is raised. Every error entry the engine
   * stores on the way is fetched and freed.
   */
  method MountAgfsBackend(agfs: AgfsClient, config: AgfsConfig, faults: map<string, StepFault>) returns (r: Result<(), ClientError>)
    requires agfs.Binding? ==> agfs.client.lib.Valid()
    modifies Engines(agfs)
    ensures agfs.HttpClient? ==> r.Success?
    ensures agfs.Binding? ==>
      var lib := agfs.client.lib;
      var plan := MountPlan(config);
      && lib.Valid()
      && lib.errorBuffer == old(lib.errorBuffer)
      && lib.handleMap == old(lib.handleMap) && lib.fsCalls == old(lib.fsCalls)
      && lib.mounts == ApplyPlan(old(lib.mounts), plan, faults)
      && (r.Failure? <==> StepFails(ApplyPlan(old(lib.mounts), plan[..2], faults), plan[2], FaultAt(faults, "/local")))
  {
    if agfs.HttpClient? {
      return Success(());
    }
    var client := agfs.client;
    var plan := MountPlan(config);
    ghost var start := client.lib.mounts;
    var _ := MountStep(client, plan[0], FaultAt(faults, plan[0].prefix));
    var _ := MountStep(client, plan[1], FaultAt(faults, plan[1].prefix));
    ghost var beforeLocal := client.lib.mounts;
    var local := MountStep(client, plan[2], FaultAt(faults, plan[2].prefix));
    ThreeSteps(start, plan, faults);
    if local.Failure? {
      return Failure(local.error);
    }
    r := Success(());
  }

  /**
   * `create_agfs_client`. A missing configuration is a ValueError. Mode
   * "binding-client" exports the library path when there is a real one,
   * builds a binding client on `lib` and bootstraps its mounts, raising what
   * the bootstrap raises; any other mode (the default is "http-client")
   * gives an HTTP client with the configured or default url and timeout.
   * The process environment is passed in and handed back.
   */
  method CreateAgfsClient(config: Option<AgfsConfig>, lib: Engine, environ: map<string, string>, faults: map<string, StepFault>)
    returns (r: Result<AgfsClient, ClientError>, environOut: map<string, string>)
    requires lib.Valid()
    modifies lib
    ensures lib.Valid()
    ensures config.None? ==> r == Failure(InvalidValue("agfs_config cannot be None")) && environOut == environ && unchanged(lib)
    ensures config.Some? && config.value.mode != Some(BindingMode) ==>
      r == Success(HttpClient(config.value.url.GetOr(DefaultUrl), config.value.timeout.GetOr(DefaultTimeout)))
      && environOut == environ && unchanged(lib)
    ensures config.Some? && config.value.mode == Some(BindingMode) ==>
      && environOut == (if config.value.libPath.Some? && config.value.libPath.value !in {"", "1", "default"} then environ[LibPathVar := config.value.libPath.value] else environ)
      && lib.mounts == ApplyPlan(old(lib.mounts), MountPlan(config.value), faults)
      && lib.errorBuffer == old(lib.errorBuffer)
      && lib.handleMap == old(lib.handleMap) && lib.fsCalls == old(lib.fsCalls)
      && (r.Failure? <==>
            StepFails(ApplyPlan(old(lib.mounts), MountPlan(config.value)[..2], faults), MountPlan(config.value)[2], FaultAt(faults, "/local")))
      && (r.Success? ==> r.value.Binding? && fresh(r.value.client) && r.value.client.lib == lib)
  {
    environOut := environ;
    if config.None? {
      return Failure(InvalidValue("agfs_config cannot be None")), environOut;
    }
    var c := config.value;
    if c.mode == Some(BindingMode) {
      if c.libPath.Some? && c.libPath.value !in {"", "1", "default"} {
        environOut := environ[LibPathVar := c.libPath.value];
      }
      var client := new AgfsBindingClient(lib);
      var mounted := MountAgfsBackend(Binding(client), c, faults);
      if mounted.Failure? {
        return Failure(mounted.error), environOut;
      }
      r := Success(Binding(client));
    } else {
      r := Success(HttpClient(c.url.GetOr(DefaultUrl), c.timeout.GetOr(DefaultTimeout)));
    }
  }
}
