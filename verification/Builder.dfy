/** The fluent builder: staged acquisition with a rollback on every failure path, shown to do exactly
    what running its plan of steps means. */
module Builders {
  import opened Wrappers
  import opened ContainerRuntime
  import opened Environments
  import opened Config
  import opened Provisioning

  /** A successful start-up prune, configuration and network precede the plan; a failure before the
      network exists has nothing to tear down. */
  function Built(o: Oracle, h: Host, w: World, b: Blueprint): Outcome {
    var clean := Pruned(o, w);
    var cfg := if b.cfg.Some? then b.cfg else h.loaded;
    if cfg.None? then Failed(clean)
    else if !clean.Ok(o, CreateNetwork(clean.next)) then Failed(NetworkCreated(o, clean))
    else Exec(o, NetworkCreated(o, clean), NewRig(clean.next), BackingSteps(b, cfg.value, h))
  }

  /** Running `steps` ended in world `w` with rig `r`, or failed and left world `w`. */
  ghost predicate Ran(o: Oracle, w0: World, r0: Rig, steps: seq<Step>, ok: bool, w: World, r: Rig) {
    && Exec(o, w0, r0, steps) == (if ok then Ready(w, r) else Failed(w))
    && (ok ==> Sound(w, r.env))
  }

  /** One step ended in world `w` with rig `r`, or failed and everything was torn down. */
  ghost predicate Stepped(o: Oracle, w0: World, r0: Rig, step: Step, ok: bool, w: World, r: Rig) {
    var p := Do(o, w0, r0, step);
    && p.ok == ok
    && w == (if ok then p.world else TornDown(o, p.world, p.rig.env))
    && (ok ==> r == p.rig && Sound(w, r.env))
  }

  lemma StepThen(o: Oracle, w0: World, r0: Rig, step: Step, ok: bool, w: World, r: Rig, rest: seq<Step>)
    requires Stepped(o, w0, r0, step, ok, w, r)
    ensures Exec(o, w0, r0, [step] + rest) == if ok then Exec(o, w, r, rest) else Failed(w)
  {
    ExecStep(o, w0, r0, step, rest);
  }

  /** While only backing services are built there are no endpoints and no applications. */
  function BackingRig(e: Env): Rig {
    Rig(e, map[], map[])
  }

  class Builder {
    var networkName: string
    var mysqlConfig: Option<MySQLConfig>
    var kafkaConfig: Option<seq<string>>
    var redisAliases: seq<string>
    var enableWireMock: bool
    var cfg: Option<Config>

    constructor ()
      ensures View() == Blueprint("harness-net", None, None, [], false, None)
    {
      networkName, mysqlConfig, kafkaConfig := "harness-net", None, None;
      redisAliases, enableWireMock, cfg := [], false, None;
    }

    function View(): Blueprint
      reads this
    {
      Blueprint(networkName, mysqlConfig, kafkaConfig, redisAliases, enableWireMock, cfg)
    }

    method WithConfig(c: Config)
      modifies this
      ensures View() == old(View()).(cfg := Some(c))
    {
      cfg := Some(c);
    }

    method WithNetwork(name: string)
      modifies this
      ensures View() == old(View()).(networkName := name)
    {
      networkName := name;
    }

    method WithMySQL(c: MySQLConfig)
      modifies this
      ensures View() == old(View()).(mysql := Some(c))
    {
      mysqlConfig := Some(c);
    }

    method WithKafka(topics: seq<string>)
      modifies this
      ensures View() == old(View()).(kafka := Some(topics))
    {
      kafkaConfig := Some(topics);
    }

    method WithRedisInstance(alias: string)
      modifies this
      ensures View() == old(View()).(redis := old(View()).redis + [alias])
    {
      redisAliases := redisAliases + [alias];
    }

    method WithWireMock()
      modifies this
      ensures View() == old(View()).(wireMock := true)
    {
      enableWireMock := true;
    }

    /** Provisions only the requested components. On an error everything recorded has been torn down. */
    method Build(rt: Runtime, h: Host) returns (result: Option<Environment>)
      modifies rt
      ensures result.Some? ==> fresh(result.value) && Sound(rt.View(), result.value.View())
      ensures Built(rt.oracle, h, old(rt.View()), View()) ==
              if result.Some? then Ready(rt.View(), BackingRig(result.value.View())) else Failed(rt.View())
    {
      hide TornDown, Do;
      var _ := PruneManagedContainers(rt);
      var c := cfg;
      if c.None? {
        c := h.loaded;
        if c.None? {
          return None;
        }
      }
      var env := new Environment();
      var net, created := rt.NewNetwork();
      if !created {
        return None;
      }
      env.network := Some(net);
      assert forall hold :: env.View().At(hold).None?;
      assert Built(rt.oracle, h, old(rt.View()), View()) ==
             Exec(rt.oracle, rt.View(), BackingRig(env.View()), BackingSteps(View(), c.value, h));
      var ok := BuildStages(rt, env, c.value, h);
      if !ok {
        return None;
      }
      result := Some(env);
    }

    /** The stages in their order, each on top of the ones before it. */
    method BuildStages(rt: Runtime, env: Environment, c: Config, h: Host) returns (ok: bool)
      requires Sound(rt.View(), env.View()) && env.network.Some?
      modifies rt, env
      ensures Ran(rt.oracle, old(rt.View()), BackingRig(old(env.View())), BackingSteps(View(), c, h), ok,
                  rt.View(), BackingRig(env.View()))
    {
      hide TornDown, Do;
      ghost var o, w, r, b, k := rt.oracle, rt.View(), BackingRig(env.View()), View(), c;
      ghost var later := KafkaSteps(b, k, h) + WireMockSteps(b, k, h);
      ghost var afterMySQL := RedisSteps(b.redis, RedisImage(k, h)) + later;
      ExecAppend(o, w, r, MySQLSteps(b, k, h), afterMySQL);

      ok := BuildMySQL(rt, env, c, h);
      if !ok {
        return;
      }
      ExecAppend(o, rt.View(), BackingRig(env.View()), RedisSteps(b.redis, RedisImage(k, h)), later);
      ok := BuildRedis(rt, env, RedisImage(c, h));
      if !ok {
        return;
      }
      ExecAppend(o, rt.View(), BackingRig(env.View()), KafkaSteps(b, k, h), WireMockSteps(b, k, h));
      ok := BuildKafka(rt, env, c, h);
      if !ok {
        return;
      }
      ok := BuildWireMock(rt, env, c, h);
    }

    method BuildMySQL(rt: Runtime, env: Environment, c: Config, h: Host) returns (ok: bool)
      requires Sound(rt.View(), env.View()) && env.network.Some?
      modifies rt, env
      ensures env.network == old(env.network)
      ensures Ran(rt.oracle, old(rt.View()), old(BackingRig(env.View())), MySQLSteps(View(), c, h),
                  ok, rt.View(), BackingRig(env.View()))
    {
      hide TornDown, Do, Sound;
      if mysqlConfig.None? {
        return true;
      }
      var m := mysqlConfig.value;
      ghost var o, w, r, goal := rt.oracle, rt.View(), BackingRig(env.View()), MySQLSteps(View(), c, h);
      ghost var setup := [Launch(MySQL, "mysql", GetImage(Some(c), h.vars, "mysql", "mysql:8.0")),
                          MySQLAddress(InitialDB(m)), MySQLConnect];
      ghost var migrate := MigrationSteps(Migrations(h, m), FlywayImage(View(), h));
      ExecAppend(o, w, r, setup, DatabaseSteps(m.databases) + migrate);
      assert goal == setup + (DatabaseSteps(m.databases) + migrate);
      ok := StartMySQL(rt, env, c, h, InitialDB(m));
      if !ok {
        return;
      }
      ExecAppend(o, rt.View(), BackingRig(env.View()), DatabaseSteps(m.databases), migrate);
      ok := CreateDatabases(rt, env, m.databases);
      if !ok {
        return;
      }
      var migrations := m.migrations;
      if |migrations| == 0 {
        migrations := DiscoverMigrations(h, m.databases);
      }
      ok := RunMigrations(rt, env, h, migrations);
    }

    /** Starts a container on the network of the environment; the caller records it. */
    method Start(rt: Runtime, env: Environment, ghost slot: Slot, service: string, image: string)
      returns (id: nat, ok: bool)
      requires Sound(rt.View(), env.View()) && env.network.Some?
      modifies rt
      ensures Stepped(rt.oracle, old(rt.View()), BackingRig(env.View()), Launch(slot, service, image),
                      ok, rt.View(), BackingRig(env.View()).Record(slot, id))
    {
      DoSound(rt.oracle, rt.View(), BackingRig(env.View()), Launch(slot, service, image));
      id, ok := rt.StartContainer(Container(DefaultLabels(service), image, env.network.value));
      if !ok {
        var _ := env.Teardown(rt);
      }
    }

    /** A call whose failure rolls back; `step` is the step it carries out and `r` the rig when it succeeds. */
    method Call(rt: Runtime, env: Environment, q: Query, ghost step: Step, ghost r: Rig)
      returns (text: string, ok: bool)
      requires Sound(rt.View(), env.View())
      requires Do(rt.oracle, rt.View(), BackingRig(env.View()), step) ==
               Asked(rt.oracle, rt.View(), BackingRig(env.View()), q, r)
      modifies rt
      ensures text == Answer(rt.oracle, old(rt.View()), q)
      ensures Stepped(rt.oracle, old(rt.View()), BackingRig(env.View()), step, ok, rt.View(), r)
    {
      DoSound(rt.oracle, rt.View(), BackingRig(env.View()), step);
      text, ok := rt.QueryText(q);
      if !ok {
        var _ := env.Teardown(rt);
      }
    }

    method StartMySQL(rt: Runtime, env: Environment, c: Config, h: Host, initialDB: string) returns (ok: bool)
      requires Sound(rt.View(), env.View()) && env.network.Some?
      modifies rt, env
      ensures env.network == old(env.network)
      ensures Ran(rt.oracle, old(rt.View()), old(BackingRig(env.View())),
                  [Launch(MySQL, "mysql", GetImage(Some(c), h.vars, "mysql", "mysql:8.0")),
                   MySQLAddress(initialDB), MySQLConnect],
                  ok, rt.View(), BackingRig(env.View()))
    {
      hide TornDown, Do, Sound, Exec;
      var image := GetImage(Some(c), h.vars, "mysql", "mysql:8.0");
      ghost var o, w, r, launch := rt.oracle, rt.View(), BackingRig(env.View()), Launch(MySQL, "mysql", image);
      var id;
      id, ok := Start(rt, env, MySQL, "mysql", image);
      assert [launch, MySQLAddress(initialDB), MySQLConnect] == [launch] + [MySQLAddress(initialDB), MySQLConnect];
      StepThen(o, w, r, launch, ok, rt.View(), r.Record(MySQL, id), [MySQLAddress(initialDB), MySQLConnect]);
      if !ok {
        return;
      }
      env.mysqlContainer := Some(id);
      ok := ConnectMySQL(rt, env, initialDB);
    }

    method ConnectMySQL(rt: Runtime, env: Environment, initialDB: string) returns (ok: bool)
      requires Sound(rt.View(), env.View())
      modifies rt, env
      ensures env.network == old(env.network)
      ensures Ran(rt.oracle, old(rt.View()), old(BackingRig(env.View())), [MySQLAddress(initialDB), MySQLConnect],
                  ok, rt.View(), BackingRig(env.View()))
    {
      hide TornDown, Sound, Asked;
      ghost var o, w, r := rt.oracle, rt.View(), BackingRig(env.View());
      ghost var located := r.(env := r.env.(mysqlDSN := MySQLDSN(Answer(o, w, Address(MySQL)), initialDB)));
      var port;
      port, ok := Call(rt, env, Address(MySQL), MySQLAddress(initialDB), located);
      assert [MySQLAddress(initialDB), MySQLConnect] == [MySQLAddress(initialDB)] + [MySQLConnect];
      StepThen(o, w, r, MySQLAddress(initialDB), ok, rt.View(), located, [MySQLConnect]);
      if !ok {
        return;
      }
      env.mysqlHostDSN := MySQLDSN(port, initialDB);
      w := rt.View();
      var unused;
      unused, ok := Call(rt, env, Dial(MySQL), MySQLConnect, located.(env := located.env.(db := true)));
      StepThen(o, w, located, MySQLConnect, ok, rt.View(), located.(env := located.env.(db := true)), []);
      if ok {
        env.db := true;
      }
    }

    method CreateDatabases(rt: Runtime, env: Environment, databases: seq<string>) returns (ok: bool)
      requires Sound(rt.View(), env.View())
      modifies rt
      ensures Ran(rt.oracle, old(rt.View()), BackingRig(env.View()), DatabaseSteps(databases),
                  ok, rt.View(), BackingRig(env.View()))
    {
      hide TornDown, Sound, Asked;
      ghost var o, w, r := rt.oracle, rt.View(), BackingRig(env.View());
      ok := true;
      for i := 0 to |databases|
        invariant ok && Sound(rt.View(), r.env)
        invariant Exec(o, w, r, DatabaseSteps(databases)) == Exec(o, rt.View(), r, DatabaseSteps(databases[i..]))
      {
        ghost var now := rt.View();
        assert databases[i..][1..] == databases[i+1..];
        var unused;
        unused, ok := Call(rt, env, CreateDatabase(databases[i]), AddDatabase(databases[i]), r);
        StepThen(o, now, r, AddDatabase(databases[i]), ok, rt.View(), r, DatabaseSteps(databases[i+1..]));
        if !ok {
          return;
        }
      }
      assert databases[|databases|..] == [];
    }

    method DiscoverMigrations(h: Host, databases: seq<string>) returns (migrations: seq<Migration>)
      ensures migrations == Discovered(h, databases)
    {
      migrations := [];
      for i := 0 to |databases|
        invariant migrations + Discovered(h, databases[i..]) == Discovered(h, databases)
      {
        var candidate := h.migrationPath(GetLocalRepoDir(h.vars, ServiceName(databases[i]), ""));
        if h.isDir(candidate) {
          migrations := migrations + [Migration(databases[i], candidate)];
        }
      }
    }

    method RunMigrations(rt: Runtime, env: Environment, h: Host, migrations: seq<Migration>) returns (ok: bool)
      requires Sound(rt.View(), env.View()) && env.network.Some?
      modifies rt
      ensures Ran(rt.oracle, old(rt.View()), BackingRig(env.View()), MigrationSteps(migrations, FlywayImage(View(), h)),
                  ok, rt.View(), BackingRig(env.View()))
    {
      hide TornDown, Do, Sound;
      ghost var o, w, r, image := rt.oracle, rt.View(), BackingRig(env.View()), FlywayImage(View(), h);
      ok := true;
      for i := 0 to |migrations|
        invariant ok && Sound(rt.View(), r.env)
        invariant Exec(o, w, r, MigrationSteps(migrations, image)) ==
                  Exec(o, rt.View(), r, MigrationSteps(migrations[i..], image))
      {
        var mig := migrations[i];
        ghost var now := rt.View();
        assert migrations[i..][1..] == migrations[i+1..];
        if mig.directory == "" {
          assert MigrationSteps(migrations[i..], image) == MigrationSteps(migrations[i+1..], image);
          continue;
        }
        ok := MigrateOne(rt, env, h, mig);
        StepThen(o, now, r, Step.Migrate(mig.database, mig.directory, image), ok, rt.View(), r,
                 MigrationSteps(migrations[i+1..], image));
        if !ok {
          return;
        }
      }
      assert migrations[|migrations|..] == [];
    }

    method MigrateOne(rt: Runtime, env: Environment, h: Host, mig: Migration) returns (ok: bool)
      requires Sound(rt.View(), env.View()) && env.network.Some?
      modifies rt
      ensures Stepped(rt.oracle, old(rt.View()), BackingRig(env.View()),
                      Step.Migrate(mig.database, mig.directory, FlywayImage(View(), h)),
                      ok, rt.View(), BackingRig(env.View()))
    {
      ghost var r, step := BackingRig(env.View()), Step.Migrate(mig.database, mig.directory, FlywayImage(View(), h));
      DoSound(rt.oracle, rt.View(), r, step);
      ghost var p := Do(rt.oracle, rt.View(), r, step);
      ok := RunFlywayMigration(rt, h, env.network.value, mig.database, mig.directory, r);
      assert p == Progressed(rt.View(), r, ok);
      if !ok {
        var _ := env.Teardown(rt);
      }
    }

    /** Runs one ephemeral migration container. */
    method RunFlywayMigration(rt: Runtime, h: Host, network: nat, database: string, directory: string, ghost r: Rig)
      returns (ok: bool)
      requires r.Network() == network
      modifies rt
      ensures Progressed(rt.View(), r, ok) ==
              Migrated(rt.oracle, old(rt.View()), r, database, directory, FlywayImage(View(), h))
    {
      ok := rt.Query(MigrationDirectory(directory));
      if !ok {
        return;
      }
      var image := GetImage(cfg, h.vars, "flyway", DEFAULT_FLYWAY_IMAGE);
      var id, started := rt.StartContainer(Container(DefaultLabels("flyway-" + database), image, network));
      if !started {
        return false;
      }
      ok := rt.Query(ExitStatus(database));
      var _ := rt.Remove(id, false);
    }

    method BuildRedis(rt: Runtime, env: Environment, image: string) returns (ok: bool)
      requires Sound(rt.View(), env.View()) && env.network.Some?
      modifies rt, env
      ensures env.network == old(env.network)
      ensures Ran(rt.oracle, old(rt.View()), old(BackingRig(env.View())), RedisSteps(redisAliases, image),
                  ok, rt.View(), BackingRig(env.View()))
    {
      hide TornDown, Do, Sound;
      ghost var o, w, r := rt.oracle, rt.View(), BackingRig(env.View());
      for i := 0 to |redisAliases|
        invariant env.network == old(env.network)
        invariant Sound(rt.View(), env.View())
        invariant Exec(o, w, r, RedisSteps(redisAliases, image)) ==
                  Exec(o, rt.View(), BackingRig(env.View()), RedisSteps(redisAliases[i..], image))
      {
        var alias := redisAliases[i];
        ghost var first := [Launch(Redis(alias), alias, image), RedisAddress(alias), RedisConnect(alias)];
        assert RedisSteps(redisAliases[i..], image) == first + RedisSteps(redisAliases[i+1..], image);
        ExecAppend(o, rt.View(), BackingRig(env.View()), first, RedisSteps(redisAliases[i+1..], image));
        ok := StartRedis(rt, env, alias, image);
        if !ok {
          return;
        }
      }
      ok := true;
    }

    method StartRedis(rt: Runtime, env: Environment, alias: string, image: string) returns (ok: bool)
      requires Sound(rt.View(), env.View()) && env.network.Some?
      modifies rt, env
      ensures env.network == old(env.network)
      ensures Ran(rt.oracle, old(rt.View()), old(BackingRig(env.View())),
                  [Launch(Redis(alias), alias, image), RedisAddress(alias), RedisConnect(alias)],
                  ok, rt.View(), BackingRig(env.View()))
    {
      hide TornDown, Do, Sound, Exec;
      ghost var o, w, r, launch := rt.oracle, rt.View(), BackingRig(env.View()), Launch(Redis(alias), alias, image);
      var id;
      id, ok := Start(rt, env, Redis(alias), alias, image);
      assert [launch, RedisAddress(alias), RedisConnect(alias)] ==
             [launch] + [RedisAddress(alias), RedisConnect(alias)];
      StepThen(o, w, r, launch, ok, rt.View(), r.Record(Redis(alias), id), [RedisAddress(alias), RedisConnect(alias)]);
      if !ok {
        return;
      }
      env.redisContainers := env.redisContainers[alias := id];
      ok := ConnectRedis(rt, env, alias);
    }

    method ConnectRedis(rt: Runtime, env: Environment, alias: string) returns (ok: bool)
      requires Sound(rt.View(), env.View())
      modifies rt, env
      ensures env.network == old(env.network)
      ensures Ran(rt.oracle, old(rt.View()), old(BackingRig(env.View())), [RedisAddress(alias), RedisConnect(alias)],
                  ok, rt.View(), BackingRig(env.View()))
    {
      hide TornDown, Sound, Asked;
      ghost var o, w, r := rt.oracle, rt.View(), BackingRig(env.View());
      ghost var located := r.(env := r.env.(redisAddrs :=
                                r.env.redisAddrs[alias := "127.0.0.1:" + Answer(o, w, Address(Redis(alias)))]));
      var port;
      port, ok := Call(rt, env, Address(Redis(alias)), RedisAddress(alias), located);
      assert [RedisAddress(alias), RedisConnect(alias)] == [RedisAddress(alias)] + [RedisConnect(alias)];
      StepThen(o, w, r, RedisAddress(alias), ok, rt.View(), located, [RedisConnect(alias)]);
      if !ok {
        return;
      }
      env.redisAddrs := env.redisAddrs[alias := "127.0.0.1:" + port];
      w := rt.View();
      ghost var dialled := located.(env := located.env.(redisClients := located.env.redisClients + {alias}));
      var unused;
      unused, ok := Call(rt, env, Dial(Redis(alias)), RedisConnect(alias), dialled);
      StepThen(o, w, located, RedisConnect(alias), ok, rt.View(), dialled, []);
      if ok {
        env.redisClients := env.redisClients + {alias};
      }
    }

    method BuildKafka(rt: Runtime, env: Environment, c: Config, h: Host) returns (ok: bool)
      requires Sound(rt.View(), env.View()) && env.network.Some?
      modifies rt, env
      ensures env.network == old(env.network)
      ensures Ran(rt.oracle, old(rt.View()), old(BackingRig(env.View())), KafkaSteps(View(), c, h),
                  ok, rt.View(), BackingRig(env.View()))
    {
      hide TornDown, Do, Sound;
      if kafkaConfig.None? {
        return true;
      }
      var topics := kafkaConfig.value;
      var image := GetImage(Some(c), h.vars, "kafka", "confluentinc/confluent-local:7.6.0");
      ghost var o, w, r, launch := rt.oracle, rt.View(), BackingRig(env.View()), Launch(Kafka, "kafka", image);
      assert KafkaSteps(View(), c, h) == [launch] + ([KafkaAddress] + TopicSteps(topics));
      var id;
      id, ok := Start(rt, env, Kafka, "kafka", image);
      StepThen(o, w, r, launch, ok, rt.View(), r.Record(Kafka, id), [KafkaAddress] + TopicSteps(topics));
      if !ok {
        return;
      }
      env.kafkaContainer := Some(id);
      r, w := BackingRig(env.View()), rt.View();
      ok := LocateKafka(rt, env);
      StepThen(o, w, r, KafkaAddress, ok, rt.View(), BackingRig(env.View()), TopicSteps(topics));
      if ok {
        ok := ProvisionTopics(rt, env, topics);
      }
    }

    method LocateKafka(rt: Runtime, env: Environment) returns (ok: bool)
      requires Sound(rt.View(), env.View())
      modifies rt, env
      ensures env.network == old(env.network)
      ensures Stepped(rt.oracle, old(rt.View()), old(BackingRig(env.View())), KafkaAddress,
                      ok, rt.View(), BackingRig(env.View()))
    {
      ghost var r := BackingRig(env.View());
      DoSound(rt.oracle, rt.View(), r, KafkaAddress);
      assert env.View().Distinct();
      ghost var p := KafkaLocated(rt.oracle, rt.View(), r);
      assert Do(rt.oracle, rt.View(), r, KafkaAddress) == p;
      hide TornDown, Do, Sound;
      var brokers, found := rt.Brokers();
      ok := found && |brokers| > 0;
      assert rt.View() == p.world && ok == p.ok;
      if !ok {
        var _ := env.Teardown(rt);
        return;
      }
      env.kafkaBrokerAddr := brokers[0];
    }

    method ProvisionTopics(rt: Runtime, env: Environment, topics: seq<string>) returns (ok: bool)
      requires Sound(rt.View(), env.View())
      modifies rt
      ensures Ran(rt.oracle, old(rt.View()), BackingRig(env.View()), TopicSteps(topics),
                  ok, rt.View(), BackingRig(env.View()))
    {
      hide TornDown, Sound, Asked;
      ghost var o, w, r := rt.oracle, rt.View(), BackingRig(env.View());
      ok := true;
      for i := 0 to |topics|
        invariant ok && Sound(rt.View(), r.env)
        invariant Exec(o, w, r, TopicSteps(topics)) == Exec(o, rt.View(), r, TopicSteps(topics[i..]))
      {
        ghost var now := rt.View();
        assert topics[i..][1..] == topics[i+1..];
        var unused;
        unused, ok := Call(rt, env, EnsureTopic(topics[i]), AddTopic(topics[i]), r);
        StepThen(o, now, r, AddTopic(topics[i]), ok, rt.View(), r, TopicSteps(topics[i+1..]));
        if !ok {
          return;
        }
      }
      assert topics[|topics|..] == [];
    }

    method BuildWireMock(rt: Runtime, env: Environment, c: Config, h: Host) returns (ok: bool)
      requires Sound(rt.View(), env.View()) && env.network.Some?
      modifies rt, env
      ensures env.network == old(env.network)
      ensures Ran(rt.oracle, old(rt.View()), old(BackingRig(env.View())), WireMockSteps(View(), c, h),
                  ok, rt.View(), BackingRig(env.View()))
    {
      hide TornDown, Do, Sound;
      if !enableWireMock {
        return true;
      }
      var image := GetImage(Some(c), h.vars, "wiremock", "docker.io/wiremock/wiremock:3.5.2");
      ghost var o, w, r, launch := rt.oracle, rt.View(), BackingRig(env.View()), Launch(WireMock, "wiremock", image);
      assert WireMockSteps(View(), c, h) == [launch] + [WireMockAddress, WireMockStubs];
      var id;
      id, ok := Start(rt, env, WireMock, "wiremock", image);
      StepThen(o, w, r, launch, ok, rt.View(), r.Record(WireMock, id), [WireMockAddress, WireMockStubs]);
      if !ok {
        return;
      }
      env.wireMockContainer := Some(id);
      ok := StubWireMock(rt, env);
    }

    method StubWireMock(rt: Runtime, env: Environment) returns (ok: bool)
      requires Sound(rt.View(), env.View())
      modifies rt, env
      ensures env.network == old(env.network)
      ensures Ran(rt.oracle, old(rt.View()), old(BackingRig(env.View())), [WireMockAddress, WireMockStubs],
                  ok, rt.View(), BackingRig(env.View()))
    {
      hide TornDown, Sound, Asked;
      ghost var o, w, r := rt.oracle, rt.View(), BackingRig(env.View());
      ghost var located := r.(env := r.env.(wireMockURL := HostURL(Answer(o, w, Address(WireMock)))));
      var port;
      port, ok := Call(rt, env, Address(WireMock), WireMockAddress, located);
      assert [WireMockAddress, WireMockStubs] == [WireMockAddress] + [WireMockStubs];
      StepThen(o, w, r, WireMockAddress, ok, rt.View(), located, [WireMockStubs]);
      if !ok {
        return;
      }
      env.wireMockHostURL := HostURL(port);
      w := rt.View();
      var unused;
      unused, ok := Call(rt, env, RegisterStubs, WireMockStubs, located);
      StepThen(o, w, located, WireMockStubs, ok, rt.View(), located, []);
    }
  }
}
