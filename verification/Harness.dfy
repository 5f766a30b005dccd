/** The scenario harness: a shared active scenario, set up on demand and torn down by each test's cleanup.
    Both operations run under one lock, so they are atomic. */
module Harness {
  import opened Wrappers
  import opened ContainerRuntime
  import opened Environments
  import opened Config
  import opened Provisioning
  import opened Builders

  datatype ServiceDefinition = ServiceDefinition(name: string, defaultImage: string)

  datatype ServiceConfig = ServiceConfig(
    def: ServiceDefinition,
    imageOverride: string,
    exposePort: string,
    endpointKey: string)
  {
    /** The key of the scenario's endpoint; defaults to the service name. */
    function Key(): string {
      if endpointKey == "" then def.name else endpointKey
    }
  }

  datatype ScenarioConfig = ScenarioConfig(
    name: string,
    networkName: string,
    databases: seq<string>,
    migrations: seq<Migration>,
    topics: seq<string>,
    redisInstances: seq<string>,
    wireMock: bool,
    services: seq<ServiceConfig>)

  /** A scenario as a value. */
  datatype ScenarioState = ScenarioState(config: ScenarioConfig, rig: Rig) {
    /** An unknown key reads as the empty string. */
    function Endpoint(key: string): string {
      if key in rig.endpoints then rig.endpoints[key] else ""
    }
  }

  function NetworkName(cfg: ScenarioConfig): string {
    if cfg.networkName == "" then Strings.ReplaceAll(cfg.name, '/', '-') + "-net" else cfg.networkName
  }

  /** Without a name of its own the network is named after the scenario, character by character. */
  lemma NetworkNameIs(cfg: ScenarioConfig)
    ensures cfg.networkName != "" ==> NetworkName(cfg) == cfg.networkName
    ensures cfg.networkName == "" ==>
              && |NetworkName(cfg)| == |cfg.name| + 4
              && NetworkName(cfg)[|cfg.name|..] == "-net"
              && forall i :: 0 <= i < |cfg.name| ==>
                   NetworkName(cfg)[i] == if cfg.name[i] == '/' then '-' else cfg.name[i]
  {
  }

  function BlueprintOf(cfg: ScenarioConfig): Blueprint {
    Blueprint(NetworkName(cfg),
              if |cfg.databases| > 0 then Some(MySQLConfig(cfg.databases, cfg.migrations)) else None,
              if |cfg.topics| > 0 then Some(cfg.topics) else None,
              cfg.redisInstances,
              cfg.wireMock,
              None)
  }

  function ServiceImage(h: Host, svc: ServiceConfig): string {
    if svc.imageOverride != "" then svc.imageOverride
    else if h.loaded.Some? then GetLocalImage(h.vars, svc.def.name, svc.def.defaultImage)
    else svc.def.defaultImage
  }

  function ServiceSteps(h: Host, svc: ServiceConfig): seq<Step> {
    [Launch(App(svc.def.name), svc.def.name, ServiceImage(h, svc))] +
    if svc.exposePort == "" then [] else [Expose(svc.def.name, svc.exposePort, svc.Key())]
  }

  function AppSteps(h: Host, services: seq<ServiceConfig>): seq<Step> {
    if services == [] then [] else ServiceSteps(h, services[0]) + AppSteps(h, services[1..])
  }

  /** Building the backing services and then launching the applications. */
  function Provisioned(o: Oracle, h: Host, w: World, cfg: ScenarioConfig): Outcome {
    var built := Built(o, h, w, BlueprintOf(cfg));
    if built.Failed? then built else Exec(o, built.world, built.rig, AppSteps(h, cfg.services))
  }

  datatype SetupResult = SetupResult(world: World, scenario: Option<ScenarioState>)

  predicate Reuses(active: Option<ScenarioState>, cfg: ScenarioConfig) {
    active.Some? && active.value.config.name == cfg.name
  }

  /** An active scenario of the same name is shared; any other one is ignored. */
  function SetUp(o: Oracle, h: Host, w: World, active: Option<ScenarioState>, cfg: ScenarioConfig): SetupResult {
    if Reuses(active, cfg) then SetupResult(w, active)
    else
      var out := Provisioned(o, h, w, cfg);
      SetupResult(out.world, if out.Ready? then Some(ScenarioState(cfg, out.rig)) else None)
  }

  class Scenario {
    const config: ScenarioConfig
    const env: Environment
    var endpoints: map<string, string>
    var apps: map<string, nat>

    constructor (config: ScenarioConfig, env: Environment)
      ensures this.config == config && this.env == env && endpoints == map[] && apps == map[]
    {
      this.config, this.env, endpoints, apps := config, env, map[], map[];
    }

    function Rigged(): Rig
      reads this, env
    {
      Rig(env.View(), endpoints, apps)
    }

    function View(): ScenarioState
      reads this, env
    {
      ScenarioState(config, Rigged())
    }

    method LaunchServices(rt: Runtime, h: Host) returns (ok: bool)
      requires Sound(rt.View(), env.View()) && env.network.Some?
      modifies rt, this, env
      ensures Ran(rt.oracle, old(rt.View()), old(Rigged()), AppSteps(h, config.services), ok, rt.View(), Rigged())
    {
      hide TornDown, Do, Sound;
      ghost var o, w, r, services := rt.oracle, rt.View(), Rigged(), config.services;
      ok := true;
      for i := 0 to |config.services|
        invariant ok && Sound(rt.View(), env.View()) && env.network.Some?
        invariant Exec(o, w, r, AppSteps(h, services)) == Exec(o, rt.View(), Rigged(), AppSteps(h, services[i..]))
      {
        assert services[i..][1..] == services[i+1..];
        ExecAppend(o, rt.View(), Rigged(), ServiceSteps(h, services[i]), AppSteps(h, services[i+1..]));
        ok := LaunchService(rt, h, config.services[i]);
        if !ok {
          return;
        }
      }
      assert services[|services|..] == [];
    }

    method LaunchService(rt: Runtime, h: Host, svc: ServiceConfig) returns (ok: bool)
      requires Sound(rt.View(), env.View()) && env.network.Some?
      modifies rt, this, env
      ensures env.network == old(env.network)
      ensures Ran(rt.oracle, old(rt.View()), old(Rigged()), ServiceSteps(h, svc), ok, rt.View(), Rigged())
    {
      hide TornDown, Do, Sound;
      ghost var o, w, r := rt.oracle, rt.View(), Rigged();
      ghost var launch := Launch(App(svc.def.name), svc.def.name, ServiceImage(h, svc));
      ghost var rest := if svc.exposePort == "" then [] else [Expose(svc.def.name, svc.exposePort, svc.Key())];
      var id;
      id, ok := StartService(rt, h, svc);
      StepThen(o, w, r, launch, ok, rt.View(), r.Record(App(svc.def.name), id), rest);
      if !ok {
        return;
      }
      apps := apps[svc.def.name := id];
      if svc.exposePort != "" {
        w, r := rt.View(), Rigged();
        ok := ExposePort(rt, svc);
        assert [Expose(svc.def.name, svc.exposePort, svc.Key())] + [] == rest;
        StepThen(o, w, r, Expose(svc.def.name, svc.exposePort, svc.Key()), ok, rt.View(), Rigged(), []);
      }
    }

    /** Starts an application container and records it in the environment. */
    method StartService(rt: Runtime, h: Host, svc: ServiceConfig) returns (id: nat, ok: bool)
      requires Sound(rt.View(), env.View()) && env.network.Some?
      modifies rt, env
      ensures Stepped(rt.oracle, old(rt.View()), old(Rigged()),
                      Launch(App(svc.def.name), svc.def.name, ServiceImage(h, svc)),
                      ok, rt.View(), old(Rigged()).Record(App(svc.def.name), id))
      ensures env.View() == if ok then old(env.View()).(apps := old(env.appContainers) + [id]) else old(env.View())
    {
      ghost var r, step := Rigged(), Launch(App(svc.def.name), svc.def.name, ServiceImage(h, svc));
      ghost var p := Launched(rt.oracle, rt.View(), r, App(svc.def.name), svc.def.name, ServiceImage(h, svc));
      DoSound(rt.oracle, rt.View(), r, step);
      assert env.View().Distinct() && Do(rt.oracle, rt.View(), r, step) == p;
      hide TornDown, Do, Sound;
      var image := svc.def.defaultImage;
      if svc.imageOverride != "" {
        image := svc.imageOverride;
      } else if h.loaded.Some? {
        image := GetLocalImage(h.vars, svc.def.name, svc.def.defaultImage);
      }
      id, ok := rt.StartContainer(Container(DefaultLabels(svc.def.name), image, env.network.value));
      assert rt.View() == p.world && ok == p.ok;
      if !ok {
        var _ := env.Teardown(rt);
        return;
      }
      env.appContainers := env.appContainers + [id];
    }

    method ExposePort(rt: Runtime, svc: ServiceConfig) returns (ok: bool)
      requires Sound(rt.View(), env.View())
      modifies rt, this
      ensures Stepped(rt.oracle, old(rt.View()), old(Rigged()), Expose(svc.def.name, svc.exposePort, svc.Key()),
                      ok, rt.View(), Rigged())
    {
      ghost var r, step := Rigged(), Expose(svc.def.name, svc.exposePort, svc.Key());
      ghost var q := MappedPort(svc.def.name, svc.exposePort);
      ghost var exposed := r.(endpoints := r.endpoints[svc.Key() := HostURL(Answer(rt.oracle, rt.View(), q))]);
      ghost var p := Asked(rt.oracle, rt.View(), r, q, exposed);
      DoSound(rt.oracle, rt.View(), r, step);
      assert env.View().Distinct() && Do(rt.oracle, rt.View(), r, step) == p;
      hide TornDown, Do, Sound;
      var port;
      port, ok := rt.QueryText(MappedPort(svc.def.name, svc.exposePort));
      assert rt.View() == p.world && ok == p.ok;
      if !ok {
        var _ := env.Teardown(rt);
        return;
      }
      endpoints := endpoints[svc.Key() := HostURL(port)];
    }
  }

  /** The package state: the scenario shared by the tests of one process. */
  class Suite {
    const rt: Runtime
    const host: Host
    var active: Option<Scenario>

    constructor (rt: Runtime, host: Host)
      ensures this.rt == rt && this.host == host && active.None?
    {
      this.rt, this.host, active := rt, host, None;
    }

    ghost function Active(): Option<ScenarioState>
      reads this, if active.Some? then {active.value, active.value.env} else {}
    {
      if active.Some? then Some(active.value.View()) else None
    }

    method Configure(cfg: ScenarioConfig) returns (builder: Builder)
      ensures fresh(builder) && builder.View() == BlueprintOf(cfg)
    {
      builder := new Builder();
      builder.WithNetwork(
        if cfg.networkName == "" then Strings.ReplaceAll(cfg.name, '/', '-') + "-net" else cfg.networkName);
      if |cfg.databases| > 0 {
        builder.WithMySQL(MySQLConfig(cfg.databases, cfg.migrations));
      }
      if |cfg.topics| > 0 {
        builder.WithKafka(cfg.topics);
      }
      ghost var partial := builder.View();
      for i := 0 to |cfg.redisInstances|
        invariant builder.View() == partial.(redis := cfg.redisInstances[..i])
      {
        builder.WithRedisInstance(cfg.redisInstances[i]);
      }
      if cfg.wireMock {
        builder.WithWireMock();
      }
    }

    /** Builds the backing services and launches the applications of a fresh scenario. */
    method Provision(cfg: ScenarioConfig) returns (s: Option<Scenario>)
      modifies rt
      ensures s.Some? ==> fresh(s.value) && fresh(s.value.env) && s.value.config == cfg
      ensures s.Some? ==> Sound(rt.View(), s.value.env.View())
      ensures Provisioned(rt.oracle, host, old(rt.View()), cfg) ==
              if s.Some? then Ready(rt.View(), s.value.Rigged()) else Failed(rt.View())
    {
      var builder := Configure(cfg);
      var env := builder.Build(rt, host);
      if env.None? {
        return None;
      }
      BuiltHasNetwork(rt.oracle, host, old(rt.View()), BlueprintOf(cfg));
      var scenario := new Scenario(cfg, env.value);
      var ok := scenario.LaunchServices(rt, host);
      s := if ok then Some(scenario) else None;
    }

    /** Returns no scenario when provisioning failed; the calling test then stops without a cleanup. */
    method Setup(cfg: ScenarioConfig) returns (s: Option<Scenario>)
      requires active.Some? ==> Sound(rt.View(), active.value.env.View())
      modifies this, rt
      ensures var r := SetUp(rt.oracle, host, old(rt.View()), old(Active()), cfg);
              && rt.View() == r.world
              && (s.Some? <==> r.scenario.Some?)
              && (s.Some? ==> s.value.View() == r.scenario.value)
      ensures s.Some? ==> active == s && Sound(rt.View(), s.value.env.View())
      ensures s.None? ==> active == old(active)
    {
      if active.Some? && active.value.config.name == cfg.name {
        return active;
      }
      s := Provision(cfg);
      if s.Some? {
        active := s;
      }
    }

    /** The cleanup a test registers: tears its scenario down, whatever is active by then. */
    method Cleanup(s: Scenario)
      requires s.env.View().Distinct()
      modifies this, rt
      ensures rt.View() == TornDown(rt.oracle, old(rt.View()), s.env.View())
      ensures active.None?
    {
      var _ := s.env.Teardown(rt);
      active := None;
    }
  }

  lemma {:induction false} ExecKeepsNetwork(o: Oracle, w: World, r: Rig, steps: seq<Step>)
    requires Sound(w, r.env)
    ensures var out := Exec(o, w, r, steps);
            out.Ready? ==> Sound(out.world, out.rig.env) && out.rig.env.network == r.env.network
    decreases |steps|
  {
    if steps != [] {
      DoSound(o, w, r, steps[0]);
      var p := Do(o, w, r, steps[0]);
      if p.ok {
        ExecKeepsNetwork(o, p.world, p.rig, steps[1..]);
      }
    }
  }

  lemma BuiltHasNetwork(o: Oracle, h: Host, w: World, b: Blueprint)
    ensures var out := Built(o, h, w, b); out.Ready? ==> out.rig.env.network.Some? && Sound(out.world, out.rig.env)
  {
    var clean := Pruned(o, w);
    var cfg := if b.cfg.Some? then b.cfg else h.loaded;
    if cfg.Some? && clean.Ok(o, CreateNetwork(clean.next)) {
      assert forall hold :: NewRig(clean.next).env.At(hold).None?;
      ExecKeepsNetwork(o, NetworkCreated(o, clean), NewRig(clean.next), BackingSteps(b, cfg.value, h));
    }
  }
}
