/** Connectivity checks: what a fresh setup must have put in place for the checks to find something to call, and
    what it provides exactly. */
module Connectivity {
  import opened Wrappers
  import opened ContainerRuntime
  import opened Environments
  import opened Config
  import opened Provisioning
  import opened Builders
  import opened Harness

  /** Everything the connectivity checks require to be present before they make their calls. */
  predicate Connectable(s: ScenarioState) {
    && Equipped(s)
    && (|s.config.topics| > 0 || s.rig.env.kafkaBroker != "" ==> s.rig.env.kafkaBroker != "")
  }

  /** What they require apart from the broker's address. */
  predicate Equipped(s: ScenarioState) {
    var e := s.rig.env;
    && (|s.config.databases| > 0 ==> e.db)
    && (forall alias <- s.config.redisInstances :: alias in e.redisClients)
    && (s.config.wireMock ==> e.wireMockURL != "")
    && (forall svc <- s.config.services :: svc.exposePort != "" ==> s.Endpoint(svc.Key()) != "")
  }

  /** The scenario's broker address is not empty, if there is to be a broker at all. A lookup may answer a list
      whose first address is empty, and provisioning accepts it. */
  predicate BrokerNamed(s: ScenarioState) {
    |s.config.topics| > 0 ==> s.rig.env.kafkaBroker != ""
  }

  /** A broker the runtime names has a name. */
  ghost predicate NamesBrokers(o: Oracle) {
    forall call, n, i :: 0 <= i < |o.brokers(call, n)| ==> o.brokers(call, n)[i] != ""
  }

  predicate Holds(r: Rig, slot: Slot) {
    match slot
    case MySQL => r.env.mysql.Some?
    case Kafka => r.env.kafka.Some?
    case WireMock => r.env.wireMock.Some?
    case Redis(alias) => alias in r.env.redis
    case App(name) => name in r.apps
  }

  /** What a completed step leaves in place. */
  predicate InPlace(step: Step, r: Rig) {
    match step
    case Launch(slot, _, _) => Holds(r, slot)
    case MySQLConnect => r.env.db
    case RedisConnect(alias) => alias in r.env.redisClients
    case WireMockAddress => r.env.wireMockURL != ""
    case Expose(_, _, key) => key in r.endpoints && r.endpoints[key] != ""
    case _ => true
  }

  /** Nothing that is in place in `r` is missing from `q`. */
  predicate Grows(r: Rig, q: Rig) {
    && (r.env.mysql.Some? ==> q.env.mysql.Some?)
    && (r.env.kafka.Some? ==> q.env.kafka.Some?)
    && (r.env.wireMock.Some? ==> q.env.wireMock.Some?)
    && (r.env.db ==> q.env.db)
    && (r.env.wireMockURL != "" ==> q.env.wireMockURL != "")
    && r.env.redis.Keys <= q.env.redis.Keys
    && r.env.redisClients <= q.env.redisClients
    && r.apps.Keys <= q.apps.Keys
    && (forall key <- r.endpoints :: r.endpoints[key] != "" ==> key in q.endpoints && q.endpoints[key] != "")
  }

  lemma DoInPlace(o: Oracle, w: World, r: Rig, step: Step)
    requires Do(o, w, r, step).ok
    ensures InPlace(step, Do(o, w, r, step).rig)
    ensures Grows(r, Do(o, w, r, step).rig)
  {
    match step
    case Launch(slot, service, image) =>
      LaunchInPlace(o, w, r, slot, service, image);
      hide Launched;
    case Migrate(database, directory, image) =>
      MigratedKeepsRig(o, w, r, database, directory, image);
      hide Migrated;
    case _ =>
      NotedInPlace(o, w, r, step);
      hide Noted, InPlace, Grows;
  }

  lemma NotedInPlace(o: Oracle, w: World, r: Rig, step: Step)
    requires !step.Launch? && !step.Migrate? && Noted(o, w, r, step).ok
    ensures InPlace(step, Noted(o, w, r, step).rig)
    ensures Grows(r, Noted(o, w, r, step).rig)
  {
  }

  lemma LaunchInPlace(o: Oracle, w: World, r: Rig, slot: Slot, service: string, image: string)
    requires Launched(o, w, r, slot, service, image).ok
    ensures Holds(Launched(o, w, r, slot, service, image).rig, slot)
    ensures Grows(r, Launched(o, w, r, slot, service, image).rig)
  {
    hide Started;
  }

  lemma GrowsInPlace(r: Rig, q: Rig, step: Step)
    requires Grows(r, q) && InPlace(step, r)
    ensures InPlace(step, q)
  {
  }

  lemma GrowsThen(r: Rig, q: Rig, p: Rig)
    requires Grows(r, q) && Grows(q, p)
    ensures Grows(r, p)
  {
  }

  /** Once a plan has completed, everything its steps put in place is still there. */
  lemma {:induction false} ExecInPlace(o: Oracle, w: World, r: Rig, steps: seq<Step>)
    requires Exec(o, w, r, steps).Ready?
    ensures Grows(r, Exec(o, w, r, steps).rig)
    ensures AllInPlace(steps, Exec(o, w, r, steps).rig)
    decreases |steps|
  {
    if steps != [] {
      var p := Do(o, w, r, steps[0]);
      var rig := Exec(o, w, r, steps).rig;
      DoInPlace(o, w, r, steps[0]);
      ExecInPlace(o, p.world, p.rig, steps[1..]);
      hide Do, InPlace, Grows, AllInPlace;
      GrowsThen(r, p.rig, rig);
      GrowsInPlace(p.rig, rig, steps[0]);
      FirstInPlace(steps, rig);
    }
  }

  lemma FirstInPlace(steps: seq<Step>, r: Rig)
    requires steps != [] && InPlace(steps[0], r) && AllInPlace(steps[1..], r)
    ensures AllInPlace(steps, r)
  {
    hide InPlace;
    assert steps == [steps[0]] + steps[1..];
  }

  ghost predicate AllInPlace(steps: seq<Step>, r: Rig) {
    forall step <- steps :: InPlace(step, r)
  }

  lemma {:induction false} RedisConnects(aliases: seq<string>, image: string, alias: string)
    requires alias in aliases
    ensures RedisConnect(alias) in RedisSteps(aliases, image)
  {
    if alias == aliases[0] {
      assert RedisSteps(aliases, image)[2] == RedisConnect(alias);
    } else {
      RedisConnects(aliases[1..], image, alias);
    }
  }

  lemma {:induction false} AppExposes(h: Host, services: seq<ServiceConfig>, svc: ServiceConfig)
    requires svc in services && svc.exposePort != ""
    ensures Expose(svc.def.name, svc.exposePort, svc.Key()) in AppSteps(h, services)
  {
    if svc == services[0] {
      assert ServiceSteps(h, svc)[1] == Expose(svc.def.name, svc.exposePort, svc.Key());
    } else {
      AppExposes(h, services[1..], svc);
    }
  }

  lemma PlanConnects(b: Blueprint, c: Config, h: Host)
    ensures b.mysql.Some? ==> MySQLConnect in BackingSteps(b, c, h)
    ensures b.kafka.Some? ==> KafkaAddress in BackingSteps(b, c, h)
    ensures b.wireMock ==> WireMockAddress in BackingSteps(b, c, h)
    ensures forall alias <- b.redis :: RedisConnect(alias) in BackingSteps(b, c, h)
  {
    if b.mysql.Some? {
      assert MySQLSteps(b, c, h)[2] == MySQLConnect;
    }
    if b.kafka.Some? {
      assert KafkaSteps(b, c, h)[1] == KafkaAddress;
    }
    if b.wireMock {
      assert WireMockSteps(b, c, h)[1] == WireMockAddress;
    }
    forall alias | alias in b.redis
      ensures RedisConnect(alias) in BackingSteps(b, c, h)
    {
      RedisConnects(b.redis, RedisImage(c, h), alias);
    }
  }

  lemma AllGrow(steps: seq<Step>, r: Rig, q: Rig)
    requires AllInPlace(steps, r) && Grows(r, q)
    ensures AllInPlace(steps, q)
  {
    forall step | step in steps
      ensures InPlace(step, q)
    {
      GrowsInPlace(r, q, step);
    }
  }

  lemma PlanInPlace(o: Oracle, h: Host, w: World, cfg: ScenarioConfig)
    requires Provisioned(o, h, w, cfg).Ready?
    ensures h.loaded.Some?
    ensures AllInPlace(BackingSteps(BlueprintOf(cfg), h.loaded.value, h), Provisioned(o, h, w, cfg).rig)
    ensures AllInPlace(AppSteps(h, cfg.services), Provisioned(o, h, w, cfg).rig)
  {
    var built := Built(o, h, w, BlueprintOf(cfg));
    var clean := Pruned(o, w);
    ExecInPlace(o, NetworkCreated(o, clean), NewRig(clean.next), BackingSteps(BlueprintOf(cfg), h.loaded.value, h));
    ExecInPlace(o, built.world, built.rig, AppSteps(h, cfg.services));
    AllGrow(BackingSteps(BlueprintOf(cfg), h.loaded.value, h), built.rig, Provisioned(o, h, w, cfg).rig);
  }

  /** The plan holds every step the connectivity checks rely on. */
  ghost predicate Covers(cfg: ScenarioConfig, backing: seq<Step>, apps: seq<Step>) {
    && (|cfg.databases| > 0 ==> MySQLConnect in backing)
    && (cfg.wireMock ==> WireMockAddress in backing)
    && (forall alias <- cfg.redisInstances :: RedisConnect(alias) in backing)
    && (forall svc <- cfg.services ::
          svc.exposePort != "" ==> Expose(svc.def.name, svc.exposePort, svc.Key()) in apps)
  }

  lemma InPlaceConnects(cfg: ScenarioConfig, backing: seq<Step>, apps: seq<Step>, r: Rig)
    requires Covers(cfg, backing, apps) && AllInPlace(backing, r) && AllInPlace(apps, r)
    ensures Equipped(ScenarioState(cfg, r))
  {
    assert |cfg.databases| > 0 ==> InPlace(MySQLConnect, r);
    assert cfg.wireMock ==> InPlace(WireMockAddress, r);
    assert forall alias <- cfg.redisInstances :: InPlace(RedisConnect(alias), r);
    assert forall svc <- cfg.services ::
        svc.exposePort != "" ==> InPlace(Expose(svc.def.name, svc.exposePort, svc.Key()), r);
  }

  lemma PlanCovers(h: Host, c: Config, cfg: ScenarioConfig)
    ensures Covers(cfg, BackingSteps(BlueprintOf(cfg), c, h), AppSteps(h, cfg.services))
  {
    PlanConnects(BlueprintOf(cfg), c, h);
    forall svc | svc in cfg.services && svc.exposePort != ""
      ensures Expose(svc.def.name, svc.exposePort, svc.Key()) in AppSteps(h, cfg.services)
    {
      AppExposes(h, cfg.services, svc);
    }
  }

  lemma DoNames(o: Oracle, w: World, r: Rig, step: Step)
    requires NamesBrokers(o) && Do(o, w, r, step).ok && (r.env.kafkaBroker != "" || step.KafkaAddress?)
    ensures Do(o, w, r, step).rig.env.kafkaBroker != ""
  {
    match step
    case Launch(slot, service, image) =>
      LaunchSameView(o, w, r, slot, service, image);
      hide Launched;
    case Migrate(database, directory, image) =>
      MigratedKeepsRig(o, w, r, database, directory, image);
      hide Migrated;
    case _ =>
      hide Launched, Migrated;
  }

  lemma {:induction false} ExecNames(o: Oracle, w: World, r: Rig, steps: seq<Step>)
    requires NamesBrokers(o) && Exec(o, w, r, steps).Ready?
    requires r.env.kafkaBroker != "" || KafkaAddress in steps
    ensures Exec(o, w, r, steps).rig.env.kafkaBroker != ""
    decreases |steps|
  {
    if steps != [] {
      if r.env.kafkaBroker != "" || steps[0].KafkaAddress? {
        DoNames(o, w, r, steps[0]);
      }
      hide Do, NamesBrokers;
      var p := Do(o, w, r, steps[0]);
      ExecNames(o, p.world, p.rig, steps[1..]);
    }
  }

  lemma FreshSetupNames(o: Oracle, h: Host, w: World, cfg: ScenarioConfig)
    requires NamesBrokers(o) && Provisioned(o, h, w, cfg).Ready?
    ensures BrokerNamed(ScenarioState(cfg, Provisioned(o, h, w, cfg).rig))
  {
    if |cfg.topics| > 0 {
      var built, clean := Built(o, h, w, BlueprintOf(cfg)), Pruned(o, w);
      PlanConnects(BlueprintOf(cfg), h.loaded.value, h);
      ExecNames(o, NetworkCreated(o, clean), NewRig(clean.next), BackingSteps(BlueprintOf(cfg), h.loaded.value, h));
      ExecNames(o, built.world, built.rig, AppSteps(h, cfg.services));
    }
  }

  /** For every configuration, duplicate aliases and endpoint keys included, and on any runtime, a successful fresh
      setup puts in place everything the connectivity checks require, if and only if the address of a requested
      broker is not empty; it never is on a runtime whose brokers have names. */
  lemma FreshSetupConnects(o: Oracle, h: Host, w: World, cfg: ScenarioConfig)
    requires Provisioned(o, h, w, cfg).Ready?
    ensures var s := ScenarioState(cfg, Provisioned(o, h, w, cfg).rig);
            Equipped(s) && (Connectable(s) <==> BrokerNamed(s)) && (NamesBrokers(o) ==> Connectable(s))
  {
    if NamesBrokers(o) {
      FreshSetupNames(o, h, w, cfg);
    }
    PlanInPlace(o, h, w, cfg);
    PlanCovers(h, h.loaded.value, cfg);
    InPlaceConnects(cfg, BackingSteps(BlueprintOf(cfg), h.loaded.value, h), AppSteps(h, cfg.services),
                    Provisioned(o, h, w, cfg).rig);
  }

  // ----- nothing but what the plan puts in place

  predicate ExposesKey(steps: seq<Step>, key: string) {
    exists step <- steps :: step.Expose? && step.key == key
  }

  /** Everything the connectivity checks look at was put in place by one of the steps. */
  ghost predicate Planned(steps: seq<Step>, r: Rig) {
    && (r.env.db ==> MySQLConnect in steps)
    && (r.env.kafkaBroker != "" ==> KafkaAddress in steps)
    && (r.env.wireMockURL != "" ==> WireMockAddress in steps)
    && (forall alias <- r.env.redisClients :: RedisConnect(alias) in steps)
    && (forall key <- r.endpoints :: ExposesKey(steps, key))
  }

  /** The rigs agree on everything the connectivity checks look at. */
  predicate SameView(r: Rig, q: Rig) {
    && q.env.db == r.env.db && q.env.kafkaBroker == r.env.kafkaBroker && q.env.wireMockURL == r.env.wireMockURL
    && q.env.redisClients == r.env.redisClients && q.endpoints == r.endpoints
  }

  lemma LaunchSameView(o: Oracle, w: World, r: Rig, slot: Slot, service: string, image: string)
    ensures SameView(r, Launched(o, w, r, slot, service, image).rig)
  {
    hide Started;
  }

  lemma PlannedMore(r: Rig, q: Rig, step: Step, done: seq<Step>)
    requires Planned(done, r) && SameView(r, q)
    ensures Planned(done + [step], q)
  {
    forall key | key in q.endpoints
      ensures ExposesKey(done + [step], key)
    {
      StillExposes(done, step, key);
    }
  }

  lemma StillExposes(done: seq<Step>, step: Step, key: string)
    requires ExposesKey(done, key)
    ensures ExposesKey(done + [step], key)
  {
    var earlier :| earlier in done && earlier.Expose? && earlier.key == key;
    assert earlier in done + [step];
  }

  lemma NotedPlanned(o: Oracle, w: World, r: Rig, step: Step, done: seq<Step>)
    requires Planned(done, r) && !step.Launch? && !step.Migrate?
    ensures Planned(done + [step], Noted(o, w, r, step).rig)
  {
    var q := Noted(o, w, r, step).rig;
    assert step in done + [step];
    forall key | key in q.endpoints
      ensures ExposesKey(done + [step], key)
    {
      if key in r.endpoints {
        StillExposes(done, step, key);
      }
    }
    hide ExposesKey;
  }

  lemma DoPlanned(o: Oracle, w: World, r: Rig, step: Step, done: seq<Step>)
    requires Planned(done, r)
    ensures Planned(done + [step], Do(o, w, r, step).rig)
  {
    hide Planned, Launched, Migrated, Noted, SameView;
    match step
    case Launch(slot, service, image) =>
      LaunchSameView(o, w, r, slot, service, image);
      PlannedMore(r, Launched(o, w, r, slot, service, image).rig, step, done);
    case Migrate(database, directory, image) =>
      MigratedKeepsRig(o, w, r, database, directory, image);
      SameViewSelf(r);
      PlannedMore(r, r, step, done);
    case _ =>
      NotedPlanned(o, w, r, step, done);
  }

  lemma SameViewSelf(r: Rig)
    ensures SameView(r, r)
  {
  }

  lemma Shift(done: seq<Step>, steps: seq<Step>)
    requires steps != []
    ensures done + [steps[0]] + steps[1..] == done + steps
  {
  }

  lemma {:induction false} ExecPlanned(o: Oracle, w: World, r: Rig, done: seq<Step>, steps: seq<Step>)
    requires Planned(done, r) && Exec(o, w, r, steps).Ready?
    ensures Planned(done + steps, Exec(o, w, r, steps).rig)
    decreases |steps|
  {
    if steps == [] {
      assert done + steps == done;
    } else {
      DoPlanned(o, w, r, steps[0], done);
      hide Do, Planned;
      var p := Do(o, w, r, steps[0]);
      ExecPlanned(o, p.world, p.rig, done + [steps[0]], steps[1..]);
      Shift(done, steps);
    }
  }

  /** What the steps of a plan may be: those a scenario asks for. */
  predicate AskedFor(cfg: ScenarioConfig, step: Step) {
    match step
    case MySQLConnect => |cfg.databases| > 0
    case KafkaAddress => |cfg.topics| > 0
    case WireMockAddress => cfg.wireMock
    case RedisConnect(alias) => alias in cfg.redisInstances
    case Expose(_, _, key) => key in ExposedKeys(cfg)
    case _ => true
  }

  function ExposedKeys(cfg: ScenarioConfig): set<string> {
    set svc | svc in cfg.services && svc.exposePort != "" :: svc.Key()
  }

  ghost predicate AllAskedFor(cfg: ScenarioConfig, steps: seq<Step>) {
    forall step <- steps :: AskedFor(cfg, step)
  }

  lemma {:induction false} DatabasesAskedFor(cfg: ScenarioConfig, databases: seq<string>)
    ensures AllAskedFor(cfg, DatabaseSteps(databases))
  {
    if databases != [] {
      DatabasesAskedFor(cfg, databases[1..]);
    }
  }

  lemma {:induction false} MigrationsAskedFor(cfg: ScenarioConfig, migrations: seq<Migration>, image: string)
    ensures AllAskedFor(cfg, MigrationSteps(migrations, image))
  {
    if migrations != [] {
      MigrationsAskedFor(cfg, migrations[1..], image);
    }
  }

  lemma {:induction false} TopicsAskedFor(cfg: ScenarioConfig, topics: seq<string>)
    ensures AllAskedFor(cfg, TopicSteps(topics))
  {
    if topics != [] {
      TopicsAskedFor(cfg, topics[1..]);
    }
  }

  lemma {:induction false} RedisAskedFor(cfg: ScenarioConfig, aliases: seq<string>, image: string)
    requires forall alias <- aliases :: alias in cfg.redisInstances
    ensures AllAskedFor(cfg, RedisSteps(aliases, image))
  {
    if aliases != [] {
      assert aliases[0] in cfg.redisInstances;
      RedisAskedFor(cfg, aliases[1..], image);
    }
  }

  lemma {:induction false} AppsAskedFor(h: Host, cfg: ScenarioConfig, services: seq<ServiceConfig>)
    requires forall svc <- services :: svc in cfg.services
    ensures AllAskedFor(cfg, AppSteps(h, services))
  {
    if services != [] {
      assert services[0] in cfg.services;
      AppsAskedFor(h, cfg, services[1..]);
    }
  }

  lemma PlanAskedFor(h: Host, c: Config, cfg: ScenarioConfig)
    ensures AllAskedFor(cfg, BackingSteps(BlueprintOf(cfg), c, h) + AppSteps(h, cfg.services))
  {
    var b := BlueprintOf(cfg);
    hide RedisSteps, AppSteps, DatabaseSteps, MigrationSteps, TopicSteps, GetImage, FlywayImage,
         Migrations, NetworkName;
    if b.mysql.Some? {
      DatabasesAskedFor(cfg, cfg.databases);
      MigrationsAskedFor(cfg, Migrations(h, b.mysql.value), FlywayImage(b, h));
    }
    assert AllAskedFor(cfg, MySQLSteps(b, c, h));
    RedisAskedFor(cfg, cfg.redisInstances, RedisImage(c, h));
    TopicsAskedFor(cfg, cfg.topics);
    assert AllAskedFor(cfg, KafkaSteps(b, c, h));
    assert AllAskedFor(cfg, WireMockSteps(b, c, h));
    AppsAskedFor(h, cfg, cfg.services);
  }

  /** What the checks find is exactly what the scenario's configuration asks for. */
  ghost predicate Provides(s: ScenarioState) {
    var e := s.rig.env;
    && (e.db <==> |s.config.databases| > 0)
    && e.redisClients == (set alias | alias in s.config.redisInstances)
    && (e.kafkaBroker != "" ==> |s.config.topics| > 0)
    && (e.wireMockURL != "" <==> s.config.wireMock)
    && (forall key :: s.Endpoint(key) != "" <==> key in ExposedKeys(s.config))
  }

  lemma PlannedProvides(cfg: ScenarioConfig, steps: seq<Step>, r: Rig)
    requires Planned(steps, r) && AllAskedFor(cfg, steps)
    requires Equipped(ScenarioState(cfg, r))
    ensures Provides(ScenarioState(cfg, r))
  {
    var s := ScenarioState(cfg, r);
    assert r.env.db ==> AskedFor(cfg, MySQLConnect);
    assert r.env.kafkaBroker != "" ==> AskedFor(cfg, KafkaAddress);
    assert r.env.wireMockURL != "" ==> AskedFor(cfg, WireMockAddress);
    forall alias | alias in r.env.redisClients
      ensures alias in cfg.redisInstances
    {
      assert AskedFor(cfg, RedisConnect(alias));
    }
    forall key | s.Endpoint(key) != ""
      ensures key in ExposedKeys(cfg)
    {
      var step :| step in steps && step.Expose? && step.key == key;
      assert AskedFor(cfg, step);
    }
  }

  /** For every configuration and on any runtime, a successful fresh setup provides exactly what the configuration
      asks for: nothing the connectivity checks look at is there but what it asks for, and nothing is missing but
      perhaps the address of a broker that answered with an empty one. */
  lemma FreshSetupProvides(o: Oracle, h: Host, w: World, cfg: ScenarioConfig)
    requires Provisioned(o, h, w, cfg).Ready?
    ensures Provides(ScenarioState(cfg, Provisioned(o, h, w, cfg).rig))
  {
    FreshSetupConnects(o, h, w, cfg);
    var clean := Pruned(o, w);
    var backing, apps := BackingSteps(BlueprintOf(cfg), h.loaded.value, h), AppSteps(h, cfg.services);
    var built := Built(o, h, w, BlueprintOf(cfg));
    assert Planned([], NewRig(clean.next));
    assert Exec(o, NetworkCreated(o, clean), NewRig(clean.next), backing) == built;
    hide Exec, Planned, BackingSteps, AppSteps, Equipped, Connectable, Pruned, Built;
    ExecPlanned(o, NetworkCreated(o, clean), NewRig(clean.next), [], backing);
    assert [] + backing == backing;
    ExecPlanned(o, built.world, built.rig, backing, apps);
    PlanAskedFor(h, h.loaded.value, cfg);
    PlannedProvides(cfg, backing + apps, Provisioned(o, h, w, cfg).rig);
  }

  /** Whatever the first configuration needs the second one asks for. */
  predicate CoveredBy(needs: ScenarioConfig, cfg: ScenarioConfig) {
    && (|needs.databases| > 0 ==> |cfg.databases| > 0)
    && (forall alias <- needs.redisInstances :: alias in cfg.redisInstances)
    && (|needs.topics| > 0 ==> |cfg.topics| > 0)
    && (needs.wireMock ==> cfg.wireMock)
    && ExposedKeys(needs) <= ExposedKeys(cfg)
  }

  /** A scenario shared by name meets the checks of another configuration if and only if the configuration it was
      set up with covers that one, and the broker has an address if one is asked for. */
  lemma ServesIff(s: ScenarioState, cfg: ScenarioConfig)
    requires Provides(s)
    ensures Connectable(s) <==> BrokerNamed(s)
    ensures Connectable(s.(config := cfg)) <==> CoveredBy(cfg, s.config) && BrokerNamed(s.(config := cfg))
  {
    assert forall svc <- s.config.services :: svc.exposePort != "" ==> svc.Key() in ExposedKeys(s.config);
    assert forall svc <- cfg.services :: svc.exposePort != "" ==> svc.Key() in ExposedKeys(cfg);
    assert forall key :: s.(config := cfg).Endpoint(key) == s.Endpoint(key);
    if Connectable(s.(config := cfg)) {
      forall key | key in ExposedKeys(cfg)
        ensures key in ExposedKeys(s.config)
      {
        assert s.Endpoint(key) != "";
      }
    }
  }
}
