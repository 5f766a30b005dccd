/** What a successful setup leaves in place: which containers run, under which labels and from which images, and at
    which addresses they are found. */
module Placement {
  import opened Wrappers
  import opened Config
  import opened ContainerRuntime
  import opened Environments
  import opened Provisioning
  import opened Builders
  import opened Harness
  import opened Lifecycle
  import opened Plans
  import opened Networks
  import opened Calls
  import opened Order

  // ----- containers

  /** The scenario asks for a container in this place. */
  predicate Wants(cfg: ScenarioConfig, hold: Holder) {
    match hold
    case HeldMySQL => |cfg.databases| > 0
    case HeldRedis(alias) => alias in cfg.redisInstances
    case HeldKafka => |cfg.topics| > 0
    case HeldWireMock => cfg.wireMock
    case HeldApp(i) => i < |cfg.services|
  }

  /** Service name and image of the container in a place the scenario asks for. */
  function Expected(h: Host, c: Config, cfg: ScenarioConfig, hold: Holder): (string, string)
    requires Wants(cfg, hold)
  {
    match hold
    case HeldMySQL => ("mysql", GetImage(Some(c), h.vars, "mysql", "mysql:8.0"))
    case HeldRedis(alias) => (alias, GetImage(Some(c), h.vars, "redis", "redis:7-alpine"))
    case HeldKafka => ("kafka", GetImage(Some(c), h.vars, "kafka", "confluentinc/confluent-local:7.6.0"))
    case HeldWireMock => ("wiremock", GetImage(Some(c), h.vars, "wiremock", "docker.io/wiremock/wiremock:3.5.2"))
    case HeldApp(i) => (cfg.services[i].def.name, ServiceImage(h, cfg.services[i]))
  }

  /** What runs in a place is what belongs there. */
  predicate RightlyHeld(h: Host, c: Config, cfg: ScenarioConfig, w: World, e: Env, hold: Holder) {
    e.At(hold).Some? ==>
      && Wants(cfg, hold) && e.network.Some?
      && e.At(hold).value in w.containers
      && var (service, image) := Expected(h, c, cfg, hold);
         w.containers[e.At(hold).value] == Container(DefaultLabels(service), image, e.network.value)
  }

  ghost predicate Placed(h: Host, c: Config, cfg: ScenarioConfig, w: World, e: Env) {
    forall hold :: RightlyHeld(h, c, cfg, w, e, hold)
  }

  /** The step launches what belongs in the place that is next. */
  predicate Fitting(h: Host, c: Config, cfg: ScenarioConfig, e: Env, step: Step) {
    step.Launch? ==>
      && Wants(cfg, SlotHolder(e, step.slot))
      && Expected(h, c, cfg, SlotHolder(e, step.slot)) == (step.service, step.image)
  }

  lemma LaunchPlaced(h: Host, c: Config, cfg: ScenarioConfig, o: Oracle, w: World, r: Rig, slot: Slot, service: string,
                     image: string)
    requires w.WellFormed() && r.env.network.Some? && Placed(h, c, cfg, w, r.env)
    requires Fitting(h, c, cfg, r.env, Launch(slot, service, image))
    ensures var p := Launched(o, w, r, slot, service, image); Placed(h, c, cfg, p.world, p.rig.env)
  {
    var p := Launched(o, w, r, slot, service, image);
    RecordHolds(r, slot, w.next);
    RecordKeepsNetwork(r, slot, w.next);
    hide Env.At, Rig.Record, SlotHolder, Expected, DefaultLabels, Wants;
    forall hold
      ensures RightlyHeld(h, c, cfg, p.world, p.rig.env, hold)
    {
      assert RightlyHeld(h, c, cfg, w, r.env, hold);
    }
  }

  lemma SamePlaced(h: Host, c: Config, cfg: ScenarioConfig, w: World, v: World, e: Env, f: Env)
    requires Placed(h, c, cfg, w, e) && f.network == e.network && forall hold :: f.At(hold) == e.At(hold)
    requires forall id <- w.containers :: id in v.containers && v.containers[id] == w.containers[id]
    ensures Placed(h, c, cfg, v, f)
  {
    hide Env.At, Expected, DefaultLabels, Wants;
    forall hold
      ensures RightlyHeld(h, c, cfg, v, f, hold)
    {
      assert RightlyHeld(h, c, cfg, w, e, hold);
    }
  }

  lemma DoPlaced(h: Host, c: Config, cfg: ScenarioConfig, o: Oracle, w: World, r: Rig, step: Step)
    requires w.WellFormed() && r.env.network.Some? && Placed(h, c, cfg, w, r.env) && Fitting(h, c, cfg, r.env, step)
    ensures var p := Do(o, w, r, step); Placed(h, c, cfg, p.world, p.rig.env)
  {
    hide Placed, Fitting;
    match step
    case Launch(slot, service, image) =>
      LaunchPlaced(h, c, cfg, o, w, r, slot, service, image);
      hide Launched;
    case Migrate(database, directory, image) =>
      MigratedContainers(o, w, r, database, directory, image);
      MigratedKeepsRig(o, w, r, database, directory, image);
      hide Migrated, Strands;
      SamePlaced(h, c, cfg, w, Do(o, w, r, step).world, r.env, r.env);
    case _ =>
      LoggedOnly(o, w, r, step);
      hide Do;
      SamePlaced(h, c, cfg, w, Do(o, w, r, step).world, r.env, Do(o, w, r, step).rig.env);
  }

  // ----- addresses

  /** How a question was answered the last time. */
  function LastText(o: Oracle, v: World, q: Query): string
    requires v.log[Ask(q)] > 0
  {
    o.text(Ask(q), v.log[Ask(q)] - 1)
  }

  predicate MySQLLocated(o: Oracle, cfg: ScenarioConfig, w: World, v: World, e: Env) {
    AskedSince(w, v, Address(MySQL)) ==>
      && |cfg.databases| > 0
      && e.mysqlDSN == "root:root@tcp(127.0.0.1:" + LastText(o, v, Address(MySQL)) + ")/" + cfg.databases[0] +
                       "?multiStatements=true&parseTime=true"
  }

  predicate RedisLocated(o: Oracle, w: World, v: World, e: Env, alias: string) {
    AskedSince(w, v, Address(Redis(alias))) ==>
      && alias in e.redisAddrs
      && e.redisAddrs[alias] == "127.0.0.1:" + LastText(o, v, Address(Redis(alias)))
  }

  predicate BrokerLocated(o: Oracle, w: World, v: World, e: Env) {
    AskedSince(w, v, Address(Kafka)) ==>
      var brokers := o.brokers(Ask(Address(Kafka)), v.log[Ask(Address(Kafka))] - 1);
      |brokers| > 0 && e.kafkaBroker == brokers[0]
  }

  predicate WireMockLocated(o: Oracle, w: World, v: World, e: Env) {
    AskedSince(w, v, Address(WireMock)) ==>
      e.wireMockURL == "http://127.0.0.1:" + LastText(o, v, Address(WireMock))
  }

  /** What has been located since `w` is recorded as it was answered. */
  ghost predicate Located(o: Oracle, cfg: ScenarioConfig, w: World, v: World, e: Env) {
    && MySQLLocated(o, cfg, w, v, e)
    && (forall alias :: RedisLocated(o, w, v, e, alias))
    && BrokerLocated(o, w, v, e)
    && WireMockLocated(o, w, v, e)
  }

  /** The database a connection is made to is the first one of the scenario. */
  predicate Directed(cfg: ScenarioConfig, step: Step) {
    step.MySQLAddress? ==> |cfg.databases| > 0 && step.initialDB == cfg.databases[0]
  }

  /** The rigs agree on addresses. */
  predicate SameAddresses(e: Env, f: Env) {
    && f.mysqlDSN == e.mysqlDSN && f.redisAddrs == e.redisAddrs && f.kafkaBroker == e.kafkaBroker
    && f.wireMockURL == e.wireMockURL
  }

  lemma StillLocated(o: Oracle, cfg: ScenarioConfig, w: World, v: World, u: World, e: Env, f: Env)
    requires Located(o, cfg, w, v, e) && SameAddresses(e, f)
    requires forall slot: Slot :: u.log[Ask(Address(slot))] == v.log[Ask(Address(slot))]
    ensures Located(o, cfg, w, u, f)
  {
    forall alias
      ensures RedisLocated(o, w, u, f, alias)
    {
      assert RedisLocated(o, w, v, e, alias);
    }
  }

  lemma LaunchKeepsAddresses(o: Oracle, w: World, r: Rig, slot: Slot, service: string, image: string)
    ensures SameAddresses(r.env, Launched(o, w, r, slot, service, image).rig.env)
  {
    hide Started, DefaultLabels;
  }

  lemma NoAddressKeeps(o: Oracle, v: World, r: Rig, step: Step)
    requires !step.Launch? && !step.Migrate? && !QueryOf(step).Address?
    ensures SameAddresses(r.env, Noted(o, v, r, step).rig.env)
  {
  }

  lemma MySQLStep(o: Oracle, cfg: ScenarioConfig, w: World, v: World, r: Rig, db: string)
    requires Noted(o, v, r, MySQLAddress(db)).ok && |cfg.databases| > 0 && db == cfg.databases[0]
    requires Located(o, cfg, w, v, r.env)
    ensures var p := Noted(o, v, r, MySQLAddress(db)); Located(o, cfg, w, p.world, p.rig.env)
  {
    var p := Noted(o, v, r, MySQLAddress(db));
    assert p.rig == r.(env := r.env.(mysqlDSN := MySQLDSN(Answer(o, v, Address(MySQL)), db)));
    assert p.world == v.Logged(Ask(Address(MySQL)));
    hide Noted;
    forall alias
      ensures RedisLocated(o, w, p.world, p.rig.env, alias)
    {
      assert RedisLocated(o, w, v, r.env, alias);
    }
  }

  lemma RedisStep(o: Oracle, cfg: ScenarioConfig, w: World, v: World, r: Rig, a: string)
    requires Noted(o, v, r, RedisAddress(a)).ok && Located(o, cfg, w, v, r.env)
    ensures var p := Noted(o, v, r, RedisAddress(a)); Located(o, cfg, w, p.world, p.rig.env)
  {
    var p, q := Noted(o, v, r, RedisAddress(a)), Address(Redis(a));
    assert p.rig == r.(env := r.env.(redisAddrs := r.env.redisAddrs[a := "127.0.0.1:" + Answer(o, v, q)]));
    assert p.world == v.Logged(Ask(q));
    hide Noted;
    forall alias
      ensures RedisLocated(o, w, p.world, p.rig.env, alias)
    {
      assert RedisLocated(o, w, v, r.env, alias);
    }
  }

  lemma KafkaStep(o: Oracle, cfg: ScenarioConfig, w: World, v: World, r: Rig)
    requires Noted(o, v, r, KafkaAddress).ok && Located(o, cfg, w, v, r.env)
    ensures var p := Noted(o, v, r, KafkaAddress); Located(o, cfg, w, p.world, p.rig.env)
  {
    var p, call := Noted(o, v, r, KafkaAddress), Ask(Address(Kafka));
    assert |o.brokers(call, v.log[call])| > 0;
    assert p.rig == r.(env := r.env.(kafkaBroker := o.brokers(call, v.log[call])[0]));
    assert p.world == v.Logged(call);
    hide Noted;
    forall alias
      ensures RedisLocated(o, w, p.world, p.rig.env, alias)
    {
      assert RedisLocated(o, w, v, r.env, alias);
    }
  }

  lemma WireMockStep(o: Oracle, cfg: ScenarioConfig, w: World, v: World, r: Rig)
    requires Noted(o, v, r, WireMockAddress).ok && Located(o, cfg, w, v, r.env)
    ensures var p := Noted(o, v, r, WireMockAddress); Located(o, cfg, w, p.world, p.rig.env)
  {
    var p, q := Noted(o, v, r, WireMockAddress), Address(WireMock);
    assert p.rig == r.(env := r.env.(wireMockURL := HostURL(Answer(o, v, q))));
    assert p.world == v.Logged(Ask(q));
    hide Noted;
    forall alias
      ensures RedisLocated(o, w, p.world, p.rig.env, alias)
    {
      assert RedisLocated(o, w, v, r.env, alias);
    }
  }

  lemma NoAddressAsked(v: World, u: World, step: Step)
    requires step.Launch? || step.Migrate?
    requires forall q: Query :: v.log[Ask(q)] <= u.log[Ask(q)] <= v.log[Ask(q)] + Asks(step, q)
    ensures forall slot: Slot :: u.log[Ask(Address(slot))] == v.log[Ask(Address(slot))]
  {
  }

  lemma StartLocated(o: Oracle, cfg: ScenarioConfig, w: World, v: World, r: Rig, step: Step)
    requires (step.Launch? || step.Migrate?) && Located(o, cfg, w, v, r.env)
    ensures var p := Do(o, v, r, step); Located(o, cfg, w, p.world, p.rig.env)
  {
    var p := Do(o, v, r, step);
    DoMade(o, v, r, step);
    NoAddressAsked(v, p.world, step);
    StartKeepsAddresses(o, v, r, step);
    hide Located, Made, Granted, Do, SameAddresses, Asks;
    StillLocated(o, cfg, w, v, p.world, r.env, p.rig.env);
  }

  lemma StartKeepsAddresses(o: Oracle, v: World, r: Rig, step: Step)
    requires step.Launch? || step.Migrate?
    ensures SameAddresses(r.env, Do(o, v, r, step).rig.env)
  {
    hide Launched, Migrated, SameAddresses;
    if step.Launch? {
      LaunchKeepsAddresses(o, v, r, step.slot, step.service, step.image);
    } else {
      MigratedKeepsRig(o, v, r, step.database, step.directory, step.image);
      SameSelf(r.env);
    }
  }

  lemma NotedLocated(o: Oracle, cfg: ScenarioConfig, w: World, v: World, r: Rig, step: Step)
    requires !step.Launch? && !step.Migrate? && Directed(cfg, step) && Noted(o, v, r, step).ok
    requires Located(o, cfg, w, v, r.env)
    ensures var p := Noted(o, v, r, step); Located(o, cfg, w, p.world, p.rig.env)
  {
    var p := Noted(o, v, r, step);
    NotedAsks(o, v, r, step);
    hide Located, Noted, SameAddresses;
    if step.MySQLAddress? {
      MySQLStep(o, cfg, w, v, r, step.initialDB);
    } else if step.RedisAddress? {
      RedisStep(o, cfg, w, v, r, step.alias);
    } else if step.KafkaAddress? {
      KafkaStep(o, cfg, w, v, r);
    } else if step.WireMockAddress? {
      WireMockStep(o, cfg, w, v, r);
    } else {
      NoAddressKeeps(o, v, r, step);
      StillLocated(o, cfg, w, v, p.world, r.env, p.rig.env);
    }
  }

  lemma DoLocated(o: Oracle, cfg: ScenarioConfig, w: World, v: World, r: Rig, step: Step)
    requires Directed(cfg, step) && Do(o, v, r, step).ok && Located(o, cfg, w, v, r.env)
    ensures var p := Do(o, v, r, step); Located(o, cfg, w, p.world, p.rig.env)
  {
    hide Located, Launched, Migrated, Noted, Directed;
    if step.Launch? || step.Migrate? {
      StartLocated(o, cfg, w, v, r, step);
    } else {
      NotedLocated(o, cfg, w, v, r, step);
    }
  }

  lemma SameSelf(e: Env)
    ensures SameAddresses(e, e)
  {
  }

  // ----- the plan of the backing services

  /** A step that launches no application, launches what belongs in its place, and connects where it should. */
  predicate Proper(h: Host, c: Config, cfg: ScenarioConfig, step: Step) {
    && Directed(cfg, step)
    && (step.Launch? ==> !step.slot.App? && Fitting(h, c, cfg, EmptyEnv(), step))
  }

  /** Only applications have places that depend on how many there are. */
  lemma ProperFits(h: Host, c: Config, cfg: ScenarioConfig, e: Env, step: Step)
    requires Proper(h, c, cfg, step)
    ensures Fitting(h, c, cfg, e, step)
  {
    hide Expected;
  }

  ghost predicate AllProper(h: Host, c: Config, cfg: ScenarioConfig, steps: seq<Step>) {
    forall step <- steps :: Proper(h, c, cfg, step)
  }

  lemma {:induction false} DatabasesProper(h: Host, c: Config, cfg: ScenarioConfig, databases: seq<string>)
    ensures AllProper(h, c, cfg, DatabaseSteps(databases))
  {
    if databases != [] {
      DatabasesProper(h, c, cfg, databases[1..]);
    }
  }

  lemma {:induction false} MigrationsProper(h: Host, c: Config, cfg: ScenarioConfig, ms: seq<Migration>, image: string)
    ensures AllProper(h, c, cfg, MigrationSteps(ms, image))
  {
    if ms != [] {
      MigrationsProper(h, c, cfg, ms[1..], image);
    }
  }

  lemma {:induction false} TopicsProper(h: Host, c: Config, cfg: ScenarioConfig, topics: seq<string>)
    ensures AllProper(h, c, cfg, TopicSteps(topics))
  {
    if topics != [] {
      TopicsProper(h, c, cfg, topics[1..]);
    }
  }

  lemma {:induction false} RedisProper(h: Host, c: Config, cfg: ScenarioConfig, aliases: seq<string>)
    requires forall alias <- aliases :: alias in cfg.redisInstances
    ensures AllProper(h, c, cfg, RedisSteps(aliases, RedisImage(c, h)))
  {
    hide GetImage;
    if aliases != [] {
      assert aliases[0] in cfg.redisInstances;
      RedisProper(h, c, cfg, aliases[1..]);
    }
  }

  lemma BackingProper(h: Host, c: Config, cfg: ScenarioConfig)
    ensures AllProper(h, c, cfg, BackingSteps(BlueprintOf(cfg), c, h))
  {
    hide GetImage, Migrations, FlywayImage, DatabaseSteps, MigrationSteps, RedisSteps, TopicSteps, RedisImage;
    var b := BlueprintOf(cfg);
    if |cfg.databases| > 0 {
      DatabasesProper(h, c, cfg, cfg.databases);
      MigrationsProper(h, c, cfg, Migrations(h, b.mysql.value), FlywayImage(b, h));
    }
    assert AllProper(h, c, cfg, MySQLSteps(b, c, h));
    RedisProper(h, c, cfg, cfg.redisInstances);
    TopicsProper(h, c, cfg, cfg.topics);
    assert AllProper(h, c, cfg, KafkaSteps(b, c, h));
    assert AllProper(h, c, cfg, WireMockSteps(b, c, h));
    hide MySQLSteps, KafkaSteps, WireMockSteps, Proper;
  }

  /** What holds between the start of a setup and wherever it has come to. */
  ghost predicate Settled(h: Host, c: Config, cfg: ScenarioConfig, o: Oracle, w: World, v: World, r: Rig) {
    v.WellFormed() && Owns(v, r.env) && Placed(h, c, cfg, v, r.env) && Located(o, cfg, w, v, r.env)
  }

  lemma DoSettled(h: Host, c: Config, cfg: ScenarioConfig, o: Oracle, w: World, v: World, r: Rig, step: Step)
    requires Settled(h, c, cfg, o, w, v, r) && Fitting(h, c, cfg, r.env, step) && Directed(cfg, step)
    requires Do(o, v, r, step).ok
    ensures var p := Do(o, v, r, step); Settled(h, c, cfg, o, w, p.world, p.rig)
  {
    DoEvolves(o, v, r, step);
    hide Evolves, Placed, Located, Do, Fitting, Directed, Sound;
    DoPlaced(h, c, cfg, o, v, r, step);
    DoLocated(o, cfg, w, v, r, step);
  }

  lemma LaunchKeepsApps(o: Oracle, w: World, r: Rig, slot: Slot, service: string, image: string)
    ensures var p := Launched(o, w, r, slot, service, image);
            && p.rig.env.apps == (if p.ok && slot.App? then r.env.apps + [w.next] else r.env.apps)
            && p.rig.apps == (if p.ok && slot.App? then r.apps[slot.name := w.next] else r.apps)
            && p.rig.endpoints == r.endpoints
  {
    hide Started, DefaultLabels;
  }

  lemma NotedKeepsApps(o: Oracle, w: World, r: Rig, step: Step)
    requires !step.Launch? && !step.Migrate?
    ensures var p := Noted(o, w, r, step); p.rig.env.apps == r.env.apps && p.rig.apps == r.apps
  {
    hide MySQLDSN, Answer, HostURL;
  }

  lemma DoKeepsApps(o: Oracle, w: World, r: Rig, step: Step)
    ensures var p := Do(o, w, r, step);
            && p.rig.env.apps ==
               (if p.ok && step.Launch? && step.slot.App? then r.env.apps + [w.next] else r.env.apps)
            && p.rig.apps ==
               (if p.ok && step.Launch? && step.slot.App? then r.apps[step.slot.name := w.next] else r.apps)
  {
    hide Launched, Migrated, Noted;
    match step
    case Launch(slot, service, image) => LaunchKeepsApps(o, w, r, slot, service, image);
    case Migrate(database, directory, image) => MigratedKeepsRig(o, w, r, database, directory, image);
    case _ => NotedKeepsApps(o, w, r, step);
  }

  lemma NotedKeepsEndpoints(o: Oracle, w: World, r: Rig, step: Step)
    requires !step.Expose?
    ensures Do(o, w, r, step).rig.endpoints == r.endpoints
  {
    if step.Migrate? {
      MigratedKeepsRig(o, w, r, step.database, step.directory, step.image);
    }
    hide Started, DefaultLabels, Migrated;
  }

  /** No step of the plan is an application's. */
  ghost predicate NoApps(steps: seq<Step>) {
    forall step <- steps :: !step.Expose? && (step.Launch? ==> !step.slot.App?)
  }

  lemma {:induction false} ExecSettled(h: Host, c: Config, cfg: ScenarioConfig, o: Oracle, w: World, v: World, r: Rig,
                                       steps: seq<Step>)
    requires Settled(h, c, cfg, o, w, v, r) && AllProper(h, c, cfg, steps) && Exec(o, v, r, steps).Ready?
    ensures var out := Exec(o, v, r, steps); Settled(h, c, cfg, o, w, out.world, out.rig)
    ensures NoApps(steps) ==>
              var out := Exec(o, v, r, steps);
              out.rig.env.apps == r.env.apps && out.rig.apps == r.apps && out.rig.endpoints == r.endpoints
    decreases |steps|
  {
    if steps != [] {
      assert Proper(h, c, cfg, steps[0]);
      ProperFits(h, c, cfg, r.env, steps[0]);
      DoSettled(h, c, cfg, o, w, v, r, steps[0]);
      DoKeepsApps(o, v, r, steps[0]);
      if !steps[0].Expose? {
        NotedKeepsEndpoints(o, v, r, steps[0]);
      }
      hide Settled, Do, Proper, Fitting;
      var p := Do(o, v, r, steps[0]);
      assert forall step <- steps[1..] :: step in steps;
      ExecSettled(h, c, cfg, o, w, p.world, p.rig, steps[1..]);
    }
  }

  // ----- applications

  /** The key of a service's endpoint: its own, or else the service's name. */
  predicate KeyIs(svc: ServiceConfig, key: string) {
    if svc.endpointKey != "" then key == svc.endpointKey else key == svc.def.name
  }

  /** The address under a key: that of the last service exposed under it, at the port it was given when it was asked
      for its port. */
  function ExposedAt(o: Oracle, w: World, services: seq<ServiceConfig>, key: string): Option<string> {
    if services == [] then None
    else
      var front, svc := services[..|services| - 1], services[|services| - 1];
      if svc.exposePort != "" && KeyIs(svc, key) then
        var call := Ask(MappedPort(svc.def.name, svc.exposePort));
        Some("http://127.0.0.1:" + o.text(call, w.log[call] + Exposing(front, svc.def.name, svc.exposePort)))
      else ExposedAt(o, w, front, key)
  }

  /** The container of a name: that of the last service of the name. */
  function AppNamed(services: seq<ServiceConfig>, ids: seq<nat>, name: string): Option<nat>
    requires |ids| == |services|
  {
    if services == [] then None
    else if services[|services| - 1].def.name == name then Some(ids[|ids| - 1])
    else AppNamed(services[..|services| - 1], ids[..|ids| - 1], name)
  }

  predicate Holding<T(==)>(m: map<string, T>, key: string, value: Option<T>) {
    if value.Some? then key in m && m[key] == value.value else key !in m
  }

  /** The services launched so far, from world `w` on, are recorded, named and exposed. */
  ghost predicate AppsIn(o: Oracle, w: World, v: World, r: Rig, done: seq<ServiceConfig>) {
    && |r.env.apps| == |done|
    && (forall name :: Holding(r.apps, name, AppNamed(done, r.env.apps, name)))
    && (forall key :: Holding(r.endpoints, key, ExposedAt(o, w, done, key)))
    && (forall service, port :: v.log[Ask(MappedPort(service, port))] ==
                                w.log[Ask(MappedPort(service, port))] + Exposing(done, service, port))
  }

  lemma {:induction false} ExposingMore(done: seq<ServiceConfig>, svc: ServiceConfig, service: string, port: string)
    ensures Exposing(done + [svc], service, port) ==
            Exposing(done, service, port) +
            OnceIf(svc.def.name == service && svc.exposePort == port && port != "")
  {
    if done == [] {
      assert done + [svc] == [svc] && [svc][1..] == [];
    } else {
      assert (done + [svc])[1..] == done[1..] + [svc];
      ExposingMore(done[1..], svc, service, port);
    }
  }

  lemma LaunchService(o: Oracle, h: Host, v: World, r: Rig, svc: ServiceConfig)
    requires Do(o, v, r, Launch(App(svc.def.name), svc.def.name, ServiceImage(h, svc))).ok
    ensures var p := Do(o, v, r, Launch(App(svc.def.name), svc.def.name, ServiceImage(h, svc)));
            && p.rig.env.apps == r.env.apps + [v.next] && p.rig.apps == r.apps[svc.def.name := v.next]
            && p.rig.endpoints == r.endpoints
            && forall q :: p.world.log[Ask(q)] == v.log[Ask(q)]
  {
    hide DefaultLabels, ServiceImage;
  }

  lemma ExposeService(o: Oracle, v: World, r: Rig, svc: ServiceConfig)
    requires Do(o, v, r, Expose(svc.def.name, svc.exposePort, svc.Key())).ok
    ensures var p := Do(o, v, r, Expose(svc.def.name, svc.exposePort, svc.Key()));
            var call := Ask(MappedPort(svc.def.name, svc.exposePort));
            && p.rig.env == r.env && p.rig.apps == r.apps
            && p.rig.endpoints == r.endpoints[svc.Key() := "http://127.0.0.1:" + o.text(call, v.log[call])]
            && p.world == v.Logged(call)
  {
  }

  /** What launching one more service adds. */
  ghost predicate ServiceAdded(o: Oracle, v: World, r: Rig, u: World, q: Rig, svc: ServiceConfig) {
    var call := Ask(MappedPort(svc.def.name, svc.exposePort));
    && q.env.apps == r.env.apps + [v.next] && q.apps == r.apps[svc.def.name := v.next]
    && (svc.exposePort == "" ==> q.endpoints == r.endpoints)
    && (svc.exposePort != "" ==>
          q.endpoints == r.endpoints[svc.Key() := "http://127.0.0.1:" + o.text(call, v.log[call])])
    && (forall service, port ::
          u.log[Ask(MappedPort(service, port))] ==
          v.log[Ask(MappedPort(service, port))] +
          OnceIf(svc.def.name == service && svc.exposePort == port && port != ""))
  }

  lemma ServiceAddedBy(o: Oracle, h: Host, v: World, r: Rig, svc: ServiceConfig)
    requires Exec(o, v, r, ServiceSteps(h, svc)).Ready?
    ensures var out := Exec(o, v, r, ServiceSteps(h, svc)); ServiceAdded(o, v, r, out.world, out.rig, svc)
  {
    var launch := Launch(App(svc.def.name), svc.def.name, ServiceImage(h, svc));
    var p := Do(o, v, r, launch);
    if svc.exposePort == "" {
      assert ServiceSteps(h, svc) == [launch] + [];
      ExecStep(o, v, r, launch, []);
      LaunchService(o, h, v, r, svc);
    } else {
      var expose := Expose(svc.def.name, svc.exposePort, svc.Key());
      assert ServiceSteps(h, svc) == [launch] + [expose] && [expose] == [expose] + [];
      ExecStep(o, v, r, launch, [expose]);
      ExecStep(o, p.world, p.rig, expose, []);
      LaunchService(o, h, v, r, svc);
      ExposeService(o, p.world, p.rig, svc);
    }
    hide Do, ServiceImage, TornDown;
  }

  lemma OneMoreApp(o: Oracle, w: World, v: World, r: Rig, u: World, q: Rig, done: seq<ServiceConfig>,
                   svc: ServiceConfig)
    requires AppsIn(o, w, v, r, done) && ServiceAdded(o, v, r, u, q, svc)
    ensures AppsIn(o, w, u, q, done + [svc])
  {
    var all := done + [svc];
    assert all[..|all| - 1] == done && q.env.apps[..|all| - 1] == r.env.apps;
    forall name
      ensures Holding(q.apps, name, AppNamed(all, q.env.apps, name))
    {
      assert Holding(r.apps, name, AppNamed(done, r.env.apps, name));
    }
    assert KeyIs(svc, svc.Key());
    forall key
      ensures Holding(q.endpoints, key, ExposedAt(o, w, all, key))
    {
      assert Holding(r.endpoints, key, ExposedAt(o, w, done, key));
      hide AppNamed;
    }
    forall service, port
      ensures u.log[Ask(MappedPort(service, port))] ==
              w.log[Ask(MappedPort(service, port))] + Exposing(all, service, port)
    {
      ExposingMore(done, svc, service, port);
      hide AppNamed, ExposedAt;
    }
  }

  lemma ServiceSettled(h: Host, c: Config, cfg: ScenarioConfig, o: Oracle, w: World, v: World, r: Rig,
                       done: seq<ServiceConfig>, svc: ServiceConfig)
    requires Settled(h, c, cfg, o, w, v, r) && |r.env.apps| == |done|
    requires |done| < |cfg.services| && cfg.services[|done|] == svc
    requires Exec(o, v, r, ServiceSteps(h, svc)).Ready?
    ensures var out := Exec(o, v, r, ServiceSteps(h, svc)); Settled(h, c, cfg, o, w, out.world, out.rig)
  {
    var launch := Launch(App(svc.def.name), svc.def.name, ServiceImage(h, svc));
    var p := Do(o, v, r, launch);
    assert Fitting(h, c, cfg, r.env, launch);
    hide Settled, Do, Fitting, ServiceImage, TornDown;
    if svc.exposePort == "" {
      assert ServiceSteps(h, svc) == [launch] + [];
      ExecStep(o, v, r, launch, []);
      DoSettled(h, c, cfg, o, w, v, r, launch);
    } else {
      var expose := Expose(svc.def.name, svc.exposePort, svc.Key());
      assert ServiceSteps(h, svc) == [launch] + [expose] && [expose] == [expose] + [];
      ExecStep(o, v, r, launch, [expose]);
      ExecStep(o, p.world, p.rig, expose, []);
      DoSettled(h, c, cfg, o, w, v, r, launch);
      NoLaunchFits(h, c, cfg, p.rig.env, expose);
      DoSettled(h, c, cfg, o, w, p.world, p.rig, expose);
    }
  }

  lemma NoLaunchFits(h: Host, c: Config, cfg: ScenarioConfig, e: Env, step: Step)
    requires !step.Launch?
    ensures Fitting(h, c, cfg, e, step)
  {
  }

  lemma {:induction false} AppsSettled(h: Host, c: Config, cfg: ScenarioConfig, o: Oracle, w: World, v: World, r: Rig,
                                       done: seq<ServiceConfig>, rest: seq<ServiceConfig>)
    requires Settled(h, c, cfg, o, w, v, r) && AppsIn(o, w, v, r, done) && cfg.services == done + rest
    requires Exec(o, v, r, AppSteps(h, rest)).Ready?
    ensures var out := Exec(o, v, r, AppSteps(h, rest));
            Settled(h, c, cfg, o, w, out.world, out.rig) && AppsIn(o, w, out.world, out.rig, cfg.services)
    decreases |rest|
  {
    if rest == [] {
      assert done + rest == done;
    } else {
      var svc := rest[0];
      assert |r.env.apps| == |done| && cfg.services[|done|] == svc;
      hide Holding, Expected;
      var first, later := ServiceSteps(h, svc), AppSteps(h, rest[1..]);
      assert AppSteps(h, rest) == first + later;
      hide Settled, AppsIn, ServiceSteps, AppSteps, Exec, ServiceAdded;
      ExecAppend(o, v, r, first, later);
      var mid := Exec(o, v, r, first);
      ServiceAddedBy(o, h, v, r, svc);
      ServiceSettled(h, c, cfg, o, w, v, r, done, svc);
      OneMoreApp(o, w, v, r, mid.world, mid.rig, done, svc);
      OneShifted(done, rest);
      AppsSettled(h, c, cfg, o, w, mid.world, mid.rig, done + [svc], rest[1..]);
    }
  }

  lemma OneShifted(done: seq<ServiceConfig>, rest: seq<ServiceConfig>)
    requires rest != []
    ensures done + [rest[0]] + rest[1..] == done + rest
  {
  }

  // ----- a whole setup

  lemma BackingNoApps(h: Host, c: Config, cfg: ScenarioConfig)
    ensures NoApps(BackingSteps(BlueprintOf(cfg), c, h))
  {
    var steps := BackingSteps(BlueprintOf(cfg), c, h);
    BackingProper(h, c, cfg);
    hide BackingSteps;
    forall step | step in steps
      ensures !step.Expose? && (step.Launch? ==> !step.slot.App?)
    {
      assert Proper(h, c, cfg, step);
      hide Fitting;
      if step.Expose? {
        AskedBy(steps, MappedPort(step.service, step.port));
        BackingExposesNothing(h, c, cfg, step.service, step.port);
      }
    }
  }

  lemma BackingExposesNothing(h: Host, c: Config, cfg: ScenarioConfig, service: string, port: string)
    ensures AsksAll(BackingSteps(BlueprintOf(cfg), c, h), MappedPort(service, port)) == 0
  {
    BuildAsks(h, BlueprintOf(cfg), c, MappedPort(service, port));
    hide AsksAll, BackingSteps;
  }

  lemma BackingSettled(o: Oracle, h: Host, w: World, created: World, n: nat, cfg: ScenarioConfig, c: Config)
    requires created.WellFormed() && Owns(created, NewRig(n).env) && Live(created, NewRig(n).env)
    requires forall q :: created.log[Ask(q)] == w.log[Ask(q)]
    requires Exec(o, created, NewRig(n), BackingSteps(BlueprintOf(cfg), c, h)).Ready?
    ensures var out := Exec(o, created, NewRig(n), BackingSteps(BlueprintOf(cfg), c, h));
            Settled(h, c, cfg, o, w, out.world, out.rig) && AppsIn(o, w, out.world, out.rig, [])
  {
    var backing := BackingSteps(BlueprintOf(cfg), c, h);
    hide Exec, BackingSteps, Live, HasOrphan, AppsIn, AllProper, NoApps;
    FreshSettled(h, c, cfg, o, w, created, n);
    BackingProper(h, c, cfg);
    BackingNoApps(h, c, cfg);
    hide Settled;
    ExecSettled(h, c, cfg, o, w, created, NewRig(n), backing);
    BackingApps(o, h, w, created, NewRig(n), cfg, c);
  }

  lemma SetupStages(o: Oracle, h: Host, w: World, cfg: ScenarioConfig)
    requires Provisioned(o, h, w, cfg).Ready?
    ensures h.loaded.Some? && Pruned(o, w).Ok(o, CreateNetwork(Pruned(o, w).next))
    ensures var clean, b := Pruned(o, w), BlueprintOf(cfg);
            var built := Exec(o, NetworkCreated(o, clean), NewRig(clean.next), BackingSteps(b, h.loaded.value, h));
            && built.Ready?
            && Provisioned(o, h, w, cfg) == Exec(o, built.world, built.rig, AppSteps(h, cfg.services))
  {
    hide Exec, Pruned, NetworkCreated, BackingSteps, AppSteps;
  }

  lemma SetupCreates(o: Oracle, w: World)
    requires w.WellFormed() && Pruned(o, w).Ok(o, CreateNetwork(Pruned(o, w).next))
    ensures var clean := Pruned(o, w);
            var created, r := NetworkCreated(o, clean), NewRig(clean.next);
            && created.WellFormed() && Owns(created, r.env) && Live(created, r.env)
            && forall q :: created.log[Ask(q)] == w.log[Ask(q)]
  {
    PreludeCalls(o, w);
    PreludeCalls(o, Pruned(o, w));
    PrunedEvolves(o, w);
    hide Pruned, NetworkCreated, NewRig, Owns, Live, HasOrphan;
    FreshRig(o, Pruned(o, w));
  }

  /** The state a successful setup leaves, compared with the world it started from. */
  lemma SetupSettled(o: Oracle, h: Host, w: World, cfg: ScenarioConfig)
    requires w.WellFormed() && Provisioned(o, h, w, cfg).Ready?
    ensures h.loaded.Some?
    ensures var out := Provisioned(o, h, w, cfg);
            && Settled(h, h.loaded.value, cfg, o, w, out.world, out.rig)
            && AppsIn(o, w, out.world, out.rig, cfg.services)
  {
    SetupStages(o, h, w, cfg);
    SetupCreates(o, w);
    hide Exec, Pruned, NetworkCreated, Built, BackingSteps, AppSteps, Evolves, Live, HasOrphan, Owns, Settled, AppsIn,
         Provisioned, NewRig;
    var c, clean := h.loaded.value, Pruned(o, w);
    var created := NetworkCreated(o, clean);
    var built := Exec(o, created, NewRig(clean.next), BackingSteps(BlueprintOf(cfg), c, h));
    BackingSettled(o, h, w, created, clean.next, cfg, c);
    assert [] + cfg.services == cfg.services;
    AppsSettled(h, c, cfg, o, w, built.world, built.rig, [], cfg.services);
  }

  lemma FreshSettled(h: Host, c: Config, cfg: ScenarioConfig, o: Oracle, w: World, created: World, n: nat)
    requires created.WellFormed() && Owns(created, NewRig(n).env) && forall q :: created.log[Ask(q)] == w.log[Ask(q)]
    ensures Settled(h, c, cfg, o, w, created, NewRig(n))
  {
    assert forall hold :: NewRig(n).env.At(hold).None?;
    hide Owns, Expected;
  }

  lemma BackingApps(o: Oracle, h: Host, w: World, created: World, r: Rig, cfg: ScenarioConfig, c: Config)
    requires r.env.apps == [] && r.apps == map[] && r.endpoints == map[]
    requires created.WellFormed() && Owns(created, r.env) && Live(created, r.env)
    requires forall q :: created.log[Ask(q)] == w.log[Ask(q)]
    requires Exec(o, created, r, BackingSteps(BlueprintOf(cfg), c, h)).Ready?
    requires var out := Exec(o, created, r, BackingSteps(BlueprintOf(cfg), c, h));
             out.rig.env.apps == r.env.apps && out.rig.apps == r.apps && out.rig.endpoints == r.endpoints
    ensures var out := Exec(o, created, r, BackingSteps(BlueprintOf(cfg), c, h)); AppsIn(o, w, out.world, out.rig, [])
  {
    var backing := BackingSteps(BlueprintOf(cfg), c, h);
    StopStrands(o, created, r, backing);
    PlanMakes(o, created, r, backing);
    forall service, port
      ensures AsksAll(backing, MappedPort(service, port)) == 0
    {
      BackingExposesNothing(h, c, cfg, service, port);
    }
    hide Exec, Stop, BackingSteps, AsksAll, Live, HasOrphan, StrandsAny, Owns;
  }

  /** The question after the address of what is in a place; it is asked for every backing service. */
  function AddressOf(hold: Holder): Query {
    match hold
    case HeldMySQL => Address(MySQL)
    case HeldRedis(alias) => Address(Redis(alias))
    case HeldKafka => Address(Kafka)
    case HeldWireMock => Address(WireMock)
    case HeldApp(_) => Address(App(""))
  }

  lemma WantedOnce(h: Host, cfg: ScenarioConfig, hold: Holder)
    requires Wants(cfg, hold) && !hold.HeldApp?
    ensures Wanted(h, cfg, AddressOf(hold)) > 0
  {
  }

  lemma PreparedHolds(cfg: ScenarioConfig, w: World, v: World, r: Rig, hold: Holder)
    requires !hold.HeldApp? && Prepared(cfg, w, v, r, AddressOf(hold))
    ensures r.env.At(hold).Some?
  {
  }

  lemma BackingHeld(o: Oracle, h: Host, w: World, cfg: ScenarioConfig, hold: Holder)
    requires w.WellFormed() && Provisioned(o, h, w, cfg).Ready? && Wants(cfg, hold) && !hold.HeldApp?
    ensures Provisioned(o, h, w, cfg).rig.env.At(hold).Some?
  {
    var out := Provisioned(o, h, w, cfg);
    ReadyStops(o, h, w, cfg);
    SetupSequenced(o, h, w, cfg);
    SetupMakes(o, h, w, cfg, AddressOf(hold));
    WantedOnce(h, cfg, hold);
    hide Provisioned, StoppedAt, Wanted, WantedStarts, Prepared, AddressOf, Wants, Env.At;
    assert AskedSince(w, out.world, AddressOf(hold));
    PreparedHolds(cfg, w, out.world, out.rig, hold);
  }

  lemma SettledPlaced(h: Host, c: Config, cfg: ScenarioConfig, o: Oracle, w: World, v: World, r: Rig, hold: Holder)
    requires Settled(h, c, cfg, o, w, v, r)
    ensures RightlyHeld(h, c, cfg, v, r.env, hold)
  {
    hide RightlyHeld, Located, Owns;
  }

  lemma AppsHeld(o: Oracle, w: World, v: World, r: Rig, cfg: ScenarioConfig, i: nat)
    requires AppsIn(o, w, v, r, cfg.services)
    ensures r.env.At(HeldApp(i)).Some? <==> i < |cfg.services|
  {
    hide ExposedAt, AppNamed;
  }

  /** A successful setup holds a container in every place it was asked for and in no other, each with the labels of its
      service, from its image, and on the scenario's network. */
  lemma SetupHolds(o: Oracle, h: Host, w: World, cfg: ScenarioConfig, hold: Holder)
    requires w.WellFormed() && Provisioned(o, h, w, cfg).Ready?
    ensures h.loaded.Some?
    ensures var out := Provisioned(o, h, w, cfg);
            && (out.rig.env.At(hold).Some? <==> Wants(cfg, hold))
            && RightlyHeld(h, h.loaded.value, cfg, out.world, out.rig.env, hold)
  {
    var out := Provisioned(o, h, w, cfg);
    SetupSettled(o, h, w, cfg);
    hide Settled, Provisioned, AppsIn, Expected;
    SettledPlaced(h, h.loaded.value, cfg, o, w, out.world, out.rig, hold);
    match hold
    case HeldApp(i) => AppsHeld(o, w, out.world, out.rig, cfg, i);
    case _ =>
      if Wants(cfg, hold) {
        BackingHeld(o, h, w, cfg, hold);
      }
  }

  /** What runs under an identifier: a service's container, on the scenario's network. */
  predicate Runs(w: World, e: Env, id: nat, service: string) {
    && id in w.containers && e.network.Some?
    && w.containers[id].labels == DefaultLabels(service) && w.containers[id].network == e.network.value
  }

  /** A backing service runs under its own name, from the image the configuration file names, or else the one its
      variable names, or else the built-in one. */
  predicate Backed(h: Host, w: World, e: Env, id: Option<nat>, service: string, key: string, variable: string,
                   default: string)
  {
    && id.Some? && Runs(w, e, id.value, service)
    && BackingImage(w.containers[id.value].image, h.loaded, h.vars, key, variable, default)
  }

  lemma HeldBacked(h: Host, c: Config, cfg: ScenarioConfig, w: World, e: Env, hold: Holder, service: string,
                   key: string, variable: string, default: string)
    requires h.loaded == Some(c) && RightlyHeld(h, c, cfg, w, e, hold) && e.At(hold).Some?
    requires NamedAfter(variable, key, "_IMAGE")
    requires Expected(h, c, cfg, hold) == (service, GetImage(Some(c), h.vars, key, default))
    ensures Backed(h, w, e, e.At(hold), service, key, variable, default)
  {
    ImageIs(h.loaded, h.vars, key, default, variable);
    hide Expected, GetImage, BackingImage, NamedAfter, DefaultLabels, Env.At;
  }

  /** After a successful setup the database runs if it was asked for, under its own name and from its own image. */
  lemma MySQLRuns(o: Oracle, h: Host, w: World, cfg: ScenarioConfig)
    requires w.WellFormed() && Provisioned(o, h, w, cfg).Ready?
    ensures var out := Provisioned(o, h, w, cfg);
            var v, e := out.world, out.rig.env;
            && (e.mysql.Some? <==> |cfg.databases| > 0)
            && (e.mysql.Some? ==> Backed(h, v, e, e.mysql, "mysql", "mysql", "MYSQL_IMAGE", "mysql:8.0"))
  {
    var out := Provisioned(o, h, w, cfg);
    BackingVariables();
    SetupHolds(o, h, w, cfg, HeldMySQL);
    hide Provisioned, Backed, GetImage, NamedAfter, RightlyHeld;
    if |cfg.databases| > 0 {
      HeldBacked(h, h.loaded.value, cfg, out.world, out.rig.env, HeldMySQL, "mysql", "mysql", "MYSQL_IMAGE",
                 "mysql:8.0");
    }
  }

  /** After a successful setup the broker runs if it was asked for, under its own name and from its own image. */
  lemma KafkaRuns(o: Oracle, h: Host, w: World, cfg: ScenarioConfig)
    requires w.WellFormed() && Provisioned(o, h, w, cfg).Ready?
    ensures var out := Provisioned(o, h, w, cfg);
            var v, e := out.world, out.rig.env;
            && (e.kafka.Some? <==> |cfg.topics| > 0)
            && (e.kafka.Some? ==>
                  Backed(h, v, e, e.kafka, "kafka", "kafka", "KAFKA_IMAGE", "confluentinc/confluent-local:7.6.0"))
  {
    var out := Provisioned(o, h, w, cfg);
    BackingVariables();
    SetupHolds(o, h, w, cfg, HeldKafka);
    hide Provisioned, Backed, GetImage, NamedAfter, RightlyHeld;
    if |cfg.topics| > 0 {
      HeldBacked(h, h.loaded.value, cfg, out.world, out.rig.env, HeldKafka, "kafka", "kafka", "KAFKA_IMAGE",
                 "confluentinc/confluent-local:7.6.0");
    }
  }

  /** After a successful setup the mock service runs if it was asked for, under its own name and from its own image. */
  lemma WireMockRuns(o: Oracle, h: Host, w: World, cfg: ScenarioConfig)
    requires w.WellFormed() && Provisioned(o, h, w, cfg).Ready?
    ensures var out := Provisioned(o, h, w, cfg);
            var v, e := out.world, out.rig.env;
            && (e.wireMock.Some? <==> cfg.wireMock)
            && (e.wireMock.Some? ==>
                  Backed(h, v, e, e.wireMock, "wiremock", "wiremock", "WIREMOCK_IMAGE",
                         "docker.io/wiremock/wiremock:3.5.2"))
  {
    var out := Provisioned(o, h, w, cfg);
    BackingVariables();
    SetupHolds(o, h, w, cfg, HeldWireMock);
    hide Provisioned, Backed, GetImage, NamedAfter, RightlyHeld;
    if cfg.wireMock {
      HeldBacked(h, h.loaded.value, cfg, out.world, out.rig.env, HeldWireMock, "wiremock", "wiremock", "WIREMOCK_IMAGE",
                 "docker.io/wiremock/wiremock:3.5.2");
    }
  }

  /** After a successful setup every Redis alias runs, under its own name and from the Redis image. */
  lemma RedisRuns(o: Oracle, h: Host, w: World, cfg: ScenarioConfig, alias: string)
    requires w.WellFormed() && Provisioned(o, h, w, cfg).Ready?
    ensures var out := Provisioned(o, h, w, cfg);
            var v, e := out.world, out.rig.env;
            && (alias in e.redis <==> alias in cfg.redisInstances)
            && (alias in e.redis ==>
                  Backed(h, v, e, Some(e.redis[alias]), alias, "redis", "REDIS_IMAGE", "redis:7-alpine"))
  {
    var out := Provisioned(o, h, w, cfg);
    BackingVariables();
    SetupHolds(o, h, w, cfg, HeldRedis(alias));
    hide Provisioned, Backed, GetImage, NamedAfter, RightlyHeld;
    if alias in cfg.redisInstances {
      HeldBacked(h, h.loaded.value, cfg, out.world, out.rig.env, HeldRedis(alias), alias, "redis", "REDIS_IMAGE",
                 "redis:7-alpine");
    }
  }

  /** After a successful setup every application runs under its own name and from its own image: the override of the
      scenario, or else the image its variable names, or else its default, or else its latest. */
  lemma ServiceRuns(o: Oracle, h: Host, w: World, cfg: ScenarioConfig, i: nat, variable: string)
    requires w.WellFormed() && Provisioned(o, h, w, cfg).Ready? && i < |cfg.services|
    requires NamedAfter(variable, cfg.services[i].def.name, "_IMAGE")
    ensures var out, svc := Provisioned(o, h, w, cfg), cfg.services[i];
            var v, e := out.world, out.rig.env;
            && |e.apps| == |cfg.services| && Runs(v, e, e.apps[i], svc.def.name)
            && var image, named := v.containers[e.apps[i]].image, variable in h.vars && h.vars[variable] != "";
               if svc.imageOverride != "" then image == svc.imageOverride
               else if named then image == h.vars[variable]
               else if svc.def.defaultImage != "" then image == svc.def.defaultImage
               else image == svc.def.name + ":latest"
  {
    var svc := cfg.services[i];
    SetupSettled(o, h, w, cfg);
    SetupHolds(o, h, w, cfg, HeldApp(i));
    LocalImageIs(h.vars, svc.def.name, svc.def.defaultImage, variable);
    hide Provisioned, GetLocalImage, NamedAfter, DefaultLabels, Settled, ExposedAt, AppNamed;
  }

  /** How the runtime answers a question for the first time from this world on. */
  function FirstText(o: Oracle, w: World, q: Query): string {
    o.text(Ask(q), w.log[Ask(q)])
  }

  lemma OnceMore(o: Oracle, w: World, v: World, q: Query)
    requires v.log[Ask(q)] == w.log[Ask(q)] + 1
    ensures AskedSince(w, v, q) && LastText(o, v, q) == FirstText(o, w, q)
  {
  }

  /** After a successful setup the database is found where the runtime said it was, and the connection is to the first
      of the scenario's databases. */
  lemma SetupLocatesMySQL(o: Oracle, h: Host, w: World, cfg: ScenarioConfig)
    requires w.WellFormed() && Provisioned(o, h, w, cfg).Ready? && |cfg.databases| > 0
    ensures Provisioned(o, h, w, cfg).rig.env.mysqlDSN ==
            "root:root@tcp(127.0.0.1:" + FirstText(o, w, Address(MySQL)) + ")/" + cfg.databases[0] +
            "?multiStatements=true&parseTime=true"
  {
    var out := Provisioned(o, h, w, cfg);
    SetupLocated(o, h, w, cfg);
    SetupMakes(o, h, w, cfg, Address(MySQL));
    hide Provisioned, WantedStarts, FirstText, MySQLLocated, Located;
    LocatedParts(o, cfg, w, out.world, out.rig.env);
    MySQLFound(o, cfg, w, out.world, out.rig.env);
  }

  lemma OtherStepKeepsDSN(o: Oracle, w: World, r: Rig, step: Step)
    requires !step.MySQLAddress?
    ensures Do(o, w, r, step).rig.env.mysqlDSN == r.env.mysqlDSN
  {
    hide Migrated, KafkaLocated;
    if step.Migrate? {
      MigratedKeepsRig(o, w, r, step.database, step.directory, step.image);
    } else if step.KafkaAddress? {
      BrokerKeepsDSN(o, w, r);
    }
  }

  lemma BrokerKeepsDSN(o: Oracle, w: World, r: Rig)
    ensures KafkaLocated(o, w, r).rig.env.mysqlDSN == r.env.mysqlDSN
  {
  }

  lemma {:induction false} OthersKeepDSN(o: Oracle, w: World, r: Rig, steps: seq<Step>)
    requires Exec(o, w, r, steps).Ready? && forall step <- steps :: !step.MySQLAddress?
    ensures Exec(o, w, r, steps).rig.env.mysqlDSN == r.env.mysqlDSN
    decreases |steps|
  {
    hide Do, TornDown;
    if steps != [] {
      assert steps[0] in steps;
      OtherStepKeepsDSN(o, w, r, steps[0]);
      var p := Do(o, w, r, steps[0]);
      OthersKeepDSN(o, p.world, p.rig, steps[1..]);
    }
  }

  lemma {:induction false} DatabasesAddNothing(databases: seq<string>)
    ensures forall step <- DatabaseSteps(databases) :: !step.MySQLAddress?
  {
    if databases != [] {
      DatabasesAddNothing(databases[1..]);
    }
  }

  lemma {:induction false} MigrationsAddNothing(ms: seq<Migration>, image: string)
    ensures forall step <- MigrationSteps(ms, image) :: !step.MySQLAddress?
  {
    if ms != [] {
      MigrationsAddNothing(ms[1..], image);
    }
  }

  lemma {:induction false} RedisAddNothing(aliases: seq<string>, image: string)
    ensures forall step <- RedisSteps(aliases, image) :: !step.MySQLAddress?
  {
    if aliases != [] {
      RedisAddNothing(aliases[1..], image);
    }
  }

  lemma {:induction false} TopicsAddNothing(topics: seq<string>)
    ensures forall step <- TopicSteps(topics) :: !step.MySQLAddress?
  {
    if topics != [] {
      TopicsAddNothing(topics[1..]);
    }
  }

  /** What follows the three steps that start the database and connect to it. */
  function AfterConnect(b: Blueprint, c: Config, h: Host): seq<Step>
    requires b.mysql.Some?
  {
    DatabaseSteps(b.mysql.value.databases) + MigrationSteps(Migrations(h, b.mysql.value), FlywayImage(b, h)) +
    (RedisSteps(b.redis, RedisImage(c, h)) + (KafkaSteps(b, c, h) + WireMockSteps(b, c, h)))
  }

  lemma AfterConnectAddsNothing(b: Blueprint, c: Config, h: Host)
    requires b.mysql.Some?
    ensures forall step <- AfterConnect(b, c, h) :: !step.MySQLAddress?
  {
    DatabasesAddNothing(b.mysql.value.databases);
    MigrationsAddNothing(Migrations(h, b.mysql.value), FlywayImage(b, h));
    RedisAddNothing(b.redis, RedisImage(c, h));
    TopicsAddNothing(if b.kafka.Some? then b.kafka.value else []);
    hide DatabaseSteps, MigrationSteps, RedisSteps, TopicSteps, Migrations, GetImage, FlywayImage, RedisImage;
  }

  lemma AddressStep(o: Oracle, w: World, r: Rig, db: string)
    ensures Do(o, w, r, MySQLAddress(db)).rig.env.mysqlDSN ==
            if w.Ok(o, Ask(Address(MySQL)))
            then "root:root@tcp(127.0.0.1:" + FirstText(o, w, Address(MySQL)) + ")/" + db +
                 "?multiStatements=true&parseTime=true"
            else r.env.mysqlDSN
    ensures Do(o, w, r, MySQLAddress(db)).ok <==> w.Ok(o, Ask(Address(MySQL)))
  {
  }

  lemma SplitPlan(b: Blueprint, c: Config, h: Host)
    requires b.mysql.Some?
    ensures BackingSteps(b, c, h) ==
            [Launch(MySQL, "mysql", GetImage(Some(c), h.vars, "mysql", "mysql:8.0"))] +
            ([MySQLAddress(InitialDB(b.mysql.value))] + ([MySQLConnect] + AfterConnect(b, c, h)))
  {
    hide DatabaseSteps, MigrationSteps, RedisSteps, KafkaSteps, WireMockSteps, GetImage, FlywayImage, RedisImage;
  }

  lemma ConnectsOnce(o: Oracle, w: World, r: Rig, launch: Step, db: string, rest: seq<Step>)
    requires launch.Launch? && forall step <- rest :: !step.MySQLAddress?
    requires Exec(o, w, r, [launch] + ([MySQLAddress(db)] + ([MySQLConnect] + rest))).Ready?
    ensures Exec(o, w, r, [launch] + ([MySQLAddress(db)] + ([MySQLConnect] + rest))).rig.env.mysqlDSN ==
            "root:root@tcp(127.0.0.1:" + FirstText(o, w, Address(MySQL)) + ")/" + db +
            "?multiStatements=true&parseTime=true"
  {
    var p := Do(o, w, r, launch);
    var q := Do(o, p.world, p.rig, MySQLAddress(db));
    ExecStep(o, w, r, launch, [MySQLAddress(db)] + ([MySQLConnect] + rest));
    ExecStep(o, p.world, p.rig, MySQLAddress(db), [MySQLConnect] + rest);
    DoMade(o, w, r, launch);
    AddressStep(o, p.world, p.rig, db);
    hide Do, Exec, TornDown, FirstText;
    assert FirstText(o, p.world, Address(MySQL)) == FirstText(o, w, Address(MySQL)) by {
      SameFirstText(o, w, p.world, launch);
    }
    OthersKeepDSN(o, q.world, q.rig, [MySQLConnect] + rest);
  }

  lemma SameFirstText(o: Oracle, w: World, v: World, launch: Step)
    requires launch.Launch? && Made(w, v, launch)
    ensures FirstText(o, v, Address(MySQL)) == FirstText(o, w, Address(MySQL))
  {
    assert Asks(launch, Address(MySQL)) == 0;
  }

  /** Any builder that is asked for the database and succeeds connects to the first one asked for, or to the server's
      own one if none is. */
  lemma BuildLocatesMySQL(o: Oracle, h: Host, w: World, b: Blueprint)
    requires Built(o, h, w, b).Ready? && b.mysql.Some?
    ensures Built(o, h, w, b).rig.env.mysqlDSN ==
            "root:root@tcp(127.0.0.1:" + FirstText(o, w, Address(MySQL)) + ")/" +
            (if b.mysql.value.databases == [] then "mysql" else b.mysql.value.databases[0]) +
            "?multiStatements=true&parseTime=true"
  {
    var clean := Pruned(o, w);
    var c := if b.cfg.Some? then b.cfg.value else h.loaded.value;
    PreludeCalls(o, w);
    PreludeCalls(o, clean);
    SplitPlan(b, c, h);
    AfterConnectAddsNothing(b, c, h);
    hide Exec, Pruned, NetworkCreated, BackingSteps, AfterConnect, GetImage;
    ConnectsOnce(o, NetworkCreated(o, clean), NewRig(clean.next),
                 Launch(MySQL, "mysql", GetImage(Some(c), h.vars, "mysql", "mysql:8.0")), InitialDB(b.mysql.value),
                 AfterConnect(b, c, h));
  }

  /** The broker's address is the first one its lookup named. */
  lemma SetupLocatesBroker(o: Oracle, h: Host, w: World, cfg: ScenarioConfig)
    requires w.WellFormed() && Provisioned(o, h, w, cfg).Ready? && |cfg.topics| > 0
    ensures var brokers := o.brokers(Ask(Address(Kafka)), w.log[Ask(Address(Kafka))]);
            |brokers| > 0 && Provisioned(o, h, w, cfg).rig.env.kafkaBroker == brokers[0]
  {
    var out := Provisioned(o, h, w, cfg);
    SetupLocated(o, h, w, cfg);
    SetupMakes(o, h, w, cfg, Address(Kafka));
    hide Provisioned, WantedStarts, BrokerLocated, Located;
    LocatedParts(o, cfg, w, out.world, out.rig.env);
    BrokerFound(o, w, out.world, out.rig.env);
  }

  lemma SetupLocatesWireMock(o: Oracle, h: Host, w: World, cfg: ScenarioConfig)
    requires w.WellFormed() && Provisioned(o, h, w, cfg).Ready? && cfg.wireMock
    ensures Provisioned(o, h, w, cfg).rig.env.wireMockURL == "http://127.0.0.1:" + FirstText(o, w, Address(WireMock))
  {
    var out := Provisioned(o, h, w, cfg);
    SetupLocated(o, h, w, cfg);
    SetupMakes(o, h, w, cfg, Address(WireMock));
    hide Provisioned, WantedStarts, FirstText, WireMockLocated, Located;
    LocatedParts(o, cfg, w, out.world, out.rig.env);
    WireMockFound(o, w, out.world, out.rig.env);
  }

  lemma SetupLocated(o: Oracle, h: Host, w: World, cfg: ScenarioConfig)
    requires w.WellFormed() && Provisioned(o, h, w, cfg).Ready?
    ensures var out := Provisioned(o, h, w, cfg); Located(o, cfg, w, out.world, out.rig.env)
  {
    var out := Provisioned(o, h, w, cfg);
    SetupSettled(o, h, w, cfg);
    hide Provisioned, Settled, AppsIn, Located;
    SettledLocated(h, h.loaded.value, cfg, o, w, out.world, out.rig);
  }

  lemma LocatedParts(o: Oracle, cfg: ScenarioConfig, w: World, v: World, e: Env)
    requires Located(o, cfg, w, v, e)
    ensures MySQLLocated(o, cfg, w, v, e) && BrokerLocated(o, w, v, e) && WireMockLocated(o, w, v, e)
  {
  }

  lemma MySQLFound(o: Oracle, cfg: ScenarioConfig, w: World, v: World, e: Env)
    requires MySQLLocated(o, cfg, w, v, e) && v.log[Ask(Address(MySQL))] == w.log[Ask(Address(MySQL))] + 1
    ensures |cfg.databases| > 0
    ensures e.mysqlDSN == "root:root@tcp(127.0.0.1:" + FirstText(o, w, Address(MySQL)) + ")/" + cfg.databases[0] +
                          "?multiStatements=true&parseTime=true"
  {
    OnceMore(o, w, v, Address(MySQL));
  }

  lemma BrokerFound(o: Oracle, w: World, v: World, e: Env)
    requires BrokerLocated(o, w, v, e) && v.log[Ask(Address(Kafka))] == w.log[Ask(Address(Kafka))] + 1
    ensures var brokers := o.brokers(Ask(Address(Kafka)), w.log[Ask(Address(Kafka))]);
            |brokers| > 0 && e.kafkaBroker == brokers[0]
  {
  }

  lemma WireMockFound(o: Oracle, w: World, v: World, e: Env)
    requires WireMockLocated(o, w, v, e) && v.log[Ask(Address(WireMock))] == w.log[Ask(Address(WireMock))] + 1
    ensures e.wireMockURL == "http://127.0.0.1:" + FirstText(o, w, Address(WireMock))
  {
    OnceMore(o, w, v, Address(WireMock));
  }

  /** After a successful setup every alias is found where the runtime said it was when it was asked the last time. */
  lemma SetupLocatesAlias(o: Oracle, h: Host, w: World, cfg: ScenarioConfig, alias: string)
    requires w.WellFormed() && Provisioned(o, h, w, cfg).Ready? && alias in cfg.redisInstances
    ensures var e, call := Provisioned(o, h, w, cfg).rig.env, Ask(Address(Redis(alias)));
            && alias in e.redisAddrs
            && e.redisAddrs[alias] ==
               "127.0.0.1:" + o.text(call, w.log[call] + multiset(cfg.redisInstances)[alias] - 1)
  {
    var out := Provisioned(o, h, w, cfg);
    SetupLocated(o, h, w, cfg);
    SetupMakes(o, h, w, cfg, Address(Redis(alias)));
    AliasWanted(h, cfg, alias);
    hide Provisioned, Wanted, WantedStarts, RedisLocated, Located;
    AliasFound(o, cfg, w, out.world, out.rig.env, alias);
  }

  lemma AliasWanted(h: Host, cfg: ScenarioConfig, alias: string)
    requires alias in cfg.redisInstances
    ensures Wanted(h, cfg, Address(Redis(alias))) == multiset(cfg.redisInstances)[alias] > 0
  {
  }

  lemma AliasFound(o: Oracle, cfg: ScenarioConfig, w: World, v: World, e: Env, alias: string)
    requires Located(o, cfg, w, v, e) && v.log[Ask(Address(Redis(alias)))] > w.log[Ask(Address(Redis(alias)))]
    ensures alias in e.redisAddrs
    ensures e.redisAddrs[alias] ==
            "127.0.0.1:" + o.text(Ask(Address(Redis(alias))), v.log[Ask(Address(Redis(alias)))] - 1)
  {
    hide MySQLLocated, BrokerLocated, WireMockLocated;
    assert RedisLocated(o, w, v, e, alias);
  }

  lemma SettledLocated(h: Host, c: Config, cfg: ScenarioConfig, o: Oracle, w: World, v: World, r: Rig)
    requires Settled(h, c, cfg, o, w, v, r)
    ensures Located(o, cfg, w, v, r.env)
  {
    hide Located, Placed, Owns;
  }

  /** After a successful setup every endpoint key leads to the last service exposed under it, at the port the runtime
      named, and every application name to the last container of the name; there are no other keys and names. */
  lemma SetupExposes(o: Oracle, h: Host, w: World, cfg: ScenarioConfig, key: string)
    requires w.WellFormed() && Provisioned(o, h, w, cfg).Ready?
    ensures var r := Provisioned(o, h, w, cfg).rig;
            && Holding(r.endpoints, key, ExposedAt(o, w, cfg.services, key))
            && |r.env.apps| == |cfg.services|
            && Holding(r.apps, key, AppNamed(cfg.services, r.env.apps, key))
  {
    SetupSettled(o, h, w, cfg);
    hide Provisioned, Settled, ExposedAt, AppNamed, Holding;
  }
}
