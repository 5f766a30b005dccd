/** What the plan of a scenario consists of, and what of a scenario's configuration it ignores. */
module Plans {
  import opened Wrappers
  import opened Config
  import opened ContainerRuntime
  import opened Environments
  import opened Provisioning
  import opened Builders
  import opened Harness

  /** The plan a setup runs once the network exists. */
  function ScenarioSteps(h: Host, cfg: ScenarioConfig, c: Config): seq<Step> {
    BackingSteps(BlueprintOf(cfg), c, h) + AppSteps(h, cfg.services)
  }

  // ----- what a plan launches

  /** The Redis aliases a plan launches. */
  function Aliases(steps: seq<Step>): seq<string> {
    if steps == [] then []
    else (if steps[0].Launch? && steps[0].slot.Redis? then [steps[0].slot.alias] else []) + Aliases(steps[1..])
  }

  /** How often a plan launches one of the services recorded in a single place. */
  function Launches(steps: seq<Step>, slot: Slot): nat {
    if steps == [] then 0
    else (if steps[0].Launch? && steps[0].slot == slot then 1 else 0) + Launches(steps[1..], slot)
  }

  /** The plan launches no Redis instance and no single service. */
  predicate Plain(steps: seq<Step>) {
    Aliases(steps) == [] && Launches(steps, MySQL) == Launches(steps, Kafka) == Launches(steps, WireMock) == 0
  }

  lemma {:induction false} LaunchesAppend(a: seq<Step>, b: seq<Step>)
    ensures Aliases(a + b) == Aliases(a) + Aliases(b)
    ensures forall slot :: Launches(a + b, slot) == Launches(a, slot) + Launches(b, slot)
  {
    if a == [] {
      assert a + b == b;
    } else {
      assert (a + b)[1..] == a[1..] + b;
      LaunchesAppend(a[1..], b);
    }
  }

  /** A start followed by two steps that start nothing. */
  lemma LaunchThenTwo(s: Step, t: Step, u: Step)
    requires s.Launch? && !t.Launch? && !u.Launch?
    ensures Aliases([s, t, u]) == if s.slot.Redis? then [s.slot.alias] else []
    ensures forall slot :: Launches([s, t, u], slot) == if s.slot == slot then 1 else 0
  {
    assert [s, t, u] == [s] + ([t] + [u]);
    LaunchesAppend([s], [t] + [u]);
    LaunchesAppend([t], [u]);
  }

  lemma {:induction false} DatabasesPlain(databases: seq<string>)
    ensures Plain(DatabaseSteps(databases))
  {
    if databases != [] {
      DatabasesPlain(databases[1..]);
    }
  }

  lemma {:induction false} MigrationsPlain(migrations: seq<Migration>, image: string)
    ensures Plain(MigrationSteps(migrations, image))
  {
    if migrations != [] {
      MigrationsPlain(migrations[1..], image);
      if migrations[0].directory == "" {
        assert MigrationSteps(migrations, image) == MigrationSteps(migrations[1..], image);
      } else {
        LaunchesAppend([Step.Migrate(migrations[0].database, migrations[0].directory, image)],
                       MigrationSteps(migrations[1..], image));
      }
    }
  }

  lemma {:induction false} TopicsPlain(topics: seq<string>)
    ensures Plain(TopicSteps(topics))
  {
    if topics != [] {
      TopicsPlain(topics[1..]);
    }
  }

  lemma {:induction false} AppsPlain(h: Host, services: seq<ServiceConfig>)
    ensures Plain(AppSteps(h, services))
  {
    if services != [] {
      AppsPlain(h, services[1..]);
      LaunchesAppend(ServiceSteps(h, services[0]), AppSteps(h, services[1..]));
    }
  }

  lemma {:induction false} RedisAliases(aliases: seq<string>, image: string)
    ensures Aliases(RedisSteps(aliases, image)) == aliases
    ensures forall slot: Slot :: !slot.Redis? ==> Launches(RedisSteps(aliases, image), slot) == 0
  {
    if aliases != [] {
      RedisAliases(aliases[1..], image);
      var first := [Launch(Redis(aliases[0]), aliases[0], image), RedisAddress(aliases[0]), RedisConnect(aliases[0])];
      LaunchThenTwo(first[0], first[1], first[2]);
      LaunchesAppend(first, RedisSteps(aliases[1..], image));
    }
  }

  lemma MySQLLaunches(b: Blueprint, c: Config, h: Host)
    ensures var s := MySQLSteps(b, c, h);
            Aliases(s) == [] && Launches(s, MySQL) <= 1 && Launches(s, Kafka) == Launches(s, WireMock) == 0
  {
    if b.mysql.Some? {
      var first := [Launch(MySQL, "mysql", GetImage(Some(c), h.vars, "mysql", "mysql:8.0")),
                    MySQLAddress(InitialDB(b.mysql.value)), MySQLConnect];
      var migrate := MigrationSteps(Migrations(h, b.mysql.value), FlywayImage(b, h));
      DatabasesPlain(b.mysql.value.databases);
      MigrationsPlain(Migrations(h, b.mysql.value), FlywayImage(b, h));
      LaunchThenTwo(first[0], first[1], first[2]);
      LaunchesAppend(first + DatabaseSteps(b.mysql.value.databases), migrate);
      LaunchesAppend(first, DatabaseSteps(b.mysql.value.databases));
    }
  }

  lemma KafkaLaunches(b: Blueprint, c: Config, h: Host)
    ensures var s := KafkaSteps(b, c, h);
            Aliases(s) == [] && Launches(s, Kafka) <= 1 && Launches(s, MySQL) == Launches(s, WireMock) == 0
  {
    if b.kafka.Some? {
      var first := [Launch(Kafka, "kafka", GetImage(Some(c), h.vars, "kafka", "confluentinc/confluent-local:7.6.0")),
                    KafkaAddress];
      TopicsPlain(b.kafka.value);
      LaunchesAppend(first, TopicSteps(b.kafka.value));
    }
  }

  lemma WireMockLaunches(b: Blueprint, c: Config, h: Host)
    ensures var s := WireMockSteps(b, c, h);
            Aliases(s) == [] && Launches(s, WireMock) <= 1 && Launches(s, MySQL) == Launches(s, Kafka) == 0
  {
    if b.wireMock {
      var s := WireMockSteps(b, c, h);
      LaunchThenTwo(s[0], s[1], s[2]);
    }
  }

  lemma StagesLaunch(mysql: seq<Step>, redis: seq<Step>, kafka: seq<Step>, wireMock: seq<Step>, apps: seq<Step>)
    ensures var s := mysql + (redis + (kafka + wireMock)) + apps;
            && Aliases(s) == Aliases(mysql) + (Aliases(redis) + (Aliases(kafka) + Aliases(wireMock))) + Aliases(apps)
            && forall slot :: Launches(s, slot) == Launches(mysql, slot) + Launches(redis, slot) +
                 Launches(kafka, slot) + Launches(wireMock, slot) + Launches(apps, slot)
  {
    LaunchesAppend(kafka, wireMock);
    LaunchesAppend(redis, kafka + wireMock);
    LaunchesAppend(mysql, redis + (kafka + wireMock));
    LaunchesAppend(mysql + (redis + (kafka + wireMock)), apps);
  }

  /** A scenario's plan launches exactly its Redis aliases, in order, and each single service at most once. */
  lemma PlanLaunches(h: Host, cfg: ScenarioConfig, c: Config)
    ensures var s := ScenarioSteps(h, cfg, c);
            Aliases(s) == cfg.redisInstances &&
            Launches(s, MySQL) <= 1 && Launches(s, Kafka) <= 1 && Launches(s, WireMock) <= 1
  {
    var b := BlueprintOf(cfg);
    MySQLLaunches(b, c, h);
    RedisAliases(b.redis, RedisImage(c, h));
    KafkaLaunches(b, c, h);
    WireMockLaunches(b, c, h);
    AppsPlain(h, cfg.services);
    StagesLaunch(MySQLSteps(b, c, h), RedisSteps(b.redis, RedisImage(c, h)), KafkaSteps(b, c, h),
                 WireMockSteps(b, c, h), AppSteps(h, cfg.services));
  }

  // ----- which image migrations use

  /** Some migration of the scenario names a directory, so that its plan migrates. */
  predicate HasMigrations(h: Host, cfg: ScenarioConfig) {
    |cfg.databases| > 0 &&
    exists m <- Migrations(h, MySQLConfig(cfg.databases, cfg.migrations)) :: m.directory != ""
  }

  predicate Migrates(steps: seq<Step>) {
    exists step <- steps :: step.Migrate?
  }

  predicate MigratesWith(steps: seq<Step>, image: string) {
    forall step <- steps :: step.Migrate? ==> step.image == image
  }

  lemma MigratesAppend(a: seq<Step>, b: seq<Step>, image: string)
    ensures Migrates(a + b) <==> Migrates(a) || Migrates(b)
    ensures MigratesWith(a + b, image) <==> MigratesWith(a, image) && MigratesWith(b, image)
  {
    if Migrates(a) {
      var step :| step in a && step.Migrate?;
      assert step in a + b;
    }
    if Migrates(b) {
      var step :| step in b && step.Migrate?;
      assert step in a + b;
    }
    if MigratesWith(a + b, image) {
      assert forall step <- a :: step in a + b;
      assert forall step <- b :: step in a + b;
    }
  }

  lemma {:induction false} MigrationStepsMigrate(migrations: seq<Migration>, image: string)
    ensures Migrates(MigrationSteps(migrations, image)) <==> exists m <- migrations :: m.directory != ""
    ensures MigratesWith(MigrationSteps(migrations, image), image)
  {
    if migrations != [] {
      var first, rest := migrations[0], MigrationSteps(migrations[1..], image);
      MigrationStepsMigrate(migrations[1..], image);
      assert migrations == [first] + migrations[1..];
      if first.directory == "" {
        assert [] + rest == rest;
      } else {
        var step := Step.Migrate(first.database, first.directory, image);
        assert step in [step];
        MigratesAppend([step], rest, image);
      }
    }
  }

  lemma {:induction false} DatabasesMigrateNothing(databases: seq<string>)
    ensures !Migrates(DatabaseSteps(databases))
  {
    if databases != [] {
      DatabasesMigrateNothing(databases[1..]);
      MigratesAppend([AddDatabase(databases[0])], DatabaseSteps(databases[1..]), "");
    }
  }

  lemma {:induction false} TopicsMigrateNothing(topics: seq<string>)
    ensures !Migrates(TopicSteps(topics))
  {
    if topics != [] {
      TopicsMigrateNothing(topics[1..]);
      MigratesAppend([AddTopic(topics[0])], TopicSteps(topics[1..]), "");
    }
  }

  lemma {:induction false} RedisMigratesNothing(aliases: seq<string>, image: string)
    ensures !Migrates(RedisSteps(aliases, image))
  {
    if aliases != [] {
      RedisMigratesNothing(aliases[1..], image);
      MigratesAppend([Launch(Redis(aliases[0]), aliases[0], image), RedisAddress(aliases[0]), RedisConnect(aliases[0])],
                     RedisSteps(aliases[1..], image), "");
    }
  }

  lemma {:induction false} AppsMigrateNothing(h: Host, services: seq<ServiceConfig>)
    ensures !Migrates(AppSteps(h, services))
  {
    if services != [] {
      AppsMigrateNothing(h, services[1..]);
      MigratesAppend(ServiceSteps(h, services[0]), AppSteps(h, services[1..]), "");
    }
  }

  lemma MySQLMigrates(b: Blueprint, c: Config, h: Host)
    ensures MigratesWith(MySQLSteps(b, c, h), FlywayImage(b, h))
    ensures Migrates(MySQLSteps(b, c, h)) <==>
            b.mysql.Some? && exists m <- Migrations(h, b.mysql.value) :: m.directory != ""
  {
    hide FlywayImage, Migrations, GetImage;
    if b.mysql.Some? {
      var image, migrations := FlywayImage(b, h), Migrations(h, b.mysql.value);
      var first := [Launch(MySQL, "mysql", GetImage(Some(c), h.vars, "mysql", "mysql:8.0")),
                    MySQLAddress(InitialDB(b.mysql.value)), MySQLConnect];
      assert !Migrates(first);
      DatabasesMigrateNothing(b.mysql.value.databases);
      MigrationStepsMigrate(migrations, image);
      hide Migrates, MigratesWith;
      NothingWith(first, image);
      NothingWith(DatabaseSteps(b.mysql.value.databases), image);
      MigratesAppend(first, DatabaseSteps(b.mysql.value.databases), image);
      MigratesAppend(first + DatabaseSteps(b.mysql.value.databases), MigrationSteps(migrations, image), image);
    }
  }

  lemma NothingWith(steps: seq<Step>, image: string)
    requires !Migrates(steps)
    ensures MigratesWith(steps, image)
  {
  }

  /** The stages after MySQL migrate nothing. */
  lemma OthersMigrateNothing(b: Blueprint, c: Config, h: Host)
    ensures !Migrates(KafkaSteps(b, c, h)) && !Migrates(WireMockSteps(b, c, h))
  {
    if b.kafka.Some? {
      TopicsMigrateNothing(b.kafka.value);
      MigratesAppend([Launch(Kafka, "kafka", GetImage(Some(c), h.vars, "kafka", "confluentinc/confluent-local:7.6.0")),
                      KafkaAddress],
                     TopicSteps(b.kafka.value), "");
    }
  }

  /** A plan migrates if and only if the scenario has migrations, and all its migrations run the image that is
      resolved without looking at the configuration file. */
  lemma PlanMigrates(h: Host, cfg: ScenarioConfig, c: Config)
    ensures MigratesWith(ScenarioSteps(h, cfg, c), FlywayImage(BlueprintOf(cfg), h))
    ensures Migrates(ScenarioSteps(h, cfg, c)) <==> HasMigrations(h, cfg)
  {
    var b := BlueprintOf(cfg);
    var image := FlywayImage(b, h);
    MySQLMigrates(b, c, h);
    RedisMigratesNothing(b.redis, RedisImage(c, h));
    OthersMigrateNothing(b, c, h);
    AppsMigrateNothing(h, cfg.services);
    hide Migrates, MigratesWith, MySQLSteps, RedisSteps, KafkaSteps, WireMockSteps, AppSteps, FlywayImage, Migrations;
    var mysql, redis := MySQLSteps(b, c, h), RedisSteps(b.redis, RedisImage(c, h));
    var kafka, wireMock, apps := KafkaSteps(b, c, h), WireMockSteps(b, c, h), AppSteps(h, cfg.services);
    NothingWith(redis, image);
    NothingWith(kafka, image);
    NothingWith(wireMock, image);
    NothingWith(apps, image);
    MigratesAppend(kafka, wireMock, image);
    MigratesAppend(redis, kafka + wireMock, image);
    MigratesAppend(mysql, redis + (kafka + wireMock), image);
    MigratesAppend(mysql + (redis + (kafka + wireMock)), apps, image);
  }

  /** The image a configuration resolves for migrations. */
  function ConfiguredFlywayImage(c: Option<Config>, h: Host): string {
    GetImage(c, h.vars, "flyway", DEFAULT_FLYWAY_IMAGE)
  }

  /** Every migration of a scenario runs the image its loaded configuration resolves if and only if there are no
      migrations, or the configuration has no flyway entry, an empty one, or the one used anyway. */
  lemma MigrationsUseConfiguredImageIff(h: Host, cfg: ScenarioConfig, c: Config)
    ensures MigratesWith(ScenarioSteps(h, cfg, c), ConfiguredFlywayImage(Some(c), h)) <==>
            || !HasMigrations(h, cfg)
            || "flyway" !in c.images || c.images["flyway"] == ""
            || c.images["flyway"] == ConfiguredFlywayImage(None, h)
  {
    PlanMigrates(h, cfg, c);
    hide ScenarioSteps, HasMigrations, ServiceNameToEnvKey;
  }

  /** A configuration file that names another Flyway image, and a scenario whose migration does not run it. */
  lemma ConfiguredImageIgnored(h: Host, c: Config, cfg: ScenarioConfig)
    requires h.vars == map[] && c.images == map["flyway" := "flyway:10"]
    requires cfg.databases == ["orders"] && cfg.migrations == [Migration("orders", "db/orders")]
    ensures ConfiguredFlywayImage(Some(c), h) == "flyway:10"
    ensures Step.Migrate("orders", "db/orders", DEFAULT_FLYWAY_IMAGE) in ScenarioSteps(h, cfg, c)
  {
  }

  // ----- which migrations there are

  /** The text with a hyphen for every underscore. */
  predicate Hyphenated(service: string, database: string) {
    |service| == |database| &&
    forall i :: 0 <= i < |database| ==> service[i] == if database[i] == '_' then '-' else database[i]
  }

  /** A database is migrated from the checkout of the service named like it, if that has a migration directory. */
  lemma DiscoveredOne(h: Host, database: string, service: string, variable: string)
    requires Hyphenated(service, database) && NamedAfter(variable, service, "_DIR")
    ensures var repo := if variable in h.vars && h.vars[variable] != "" then h.vars[variable] else "../" + service;
            var dir := h.migrationPath(repo);
            Discovered(h, [database]) == if h.isDir(dir) then [Migration(database, dir)] else []
  {
    assert service == ServiceName(database);
    LocalRepoDirIs(h.vars, service, "", variable);
    var one: seq<string> := [database];
    assert one[1..] == [];
    hide GetLocalRepoDir, NamedAfter, ServiceName;
  }

  /** Databases are looked at one by one, in order. */
  lemma {:induction false} DiscoveredAppend(h: Host, a: seq<string>, b: seq<string>)
    ensures Discovered(h, a + b) == Discovered(h, a) + Discovered(h, b)
  {
    hide GetLocalRepoDir, ServiceName;
    if a == [] {
      assert a + b == b;
    } else {
      assert (a + b)[1..] == a[1..] + b;
      DiscoveredAppend(h, a[1..], b);
    }
  }

  /** Migrations given explicitly are all there are; otherwise they are discovered. */
  lemma MigrationsAre(h: Host, m: MySQLConfig)
    ensures m.migrations != [] ==> Migrations(h, m) == m.migrations
    ensures m.migrations == [] ==> Migrations(h, m) == Discovered(h, m.databases)
  {
    hide Discovered;
  }

  // ----- names

  /** Provisioning makes no use of either name. Networks carry no name here, as the source generates theirs, so this
      reads the source rather than proving something about it. */
  lemma NamesIgnored(o: Oracle, h: Host, w: World, cfg: ScenarioConfig, name: string, networkName: string)
    ensures Provisioned(o, h, w, cfg.(name := name, networkName := networkName)) == Provisioned(o, h, w, cfg)
  {
    hide Exec, Pruned, NetworkCreated;
  }
}
