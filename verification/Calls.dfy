/** Which calls a setup makes, told from its configuration alone, and what it takes for the setup to succeed. */
module Calls {
  import opened Wrappers
  import opened Config
  import opened ContainerRuntime
  import opened Environments
  import opened Provisioning
  import opened Builders
  import opened Harness
  import opened Lifecycle
  import opened Plans
  import opened Networks

  // ----- the calls of a plan

  /** How often a step that succeeds asks a question. */
  function Asks(step: Step, q: Query): nat {
    match step
    case Launch(_, _, _) => 0
    case Migrate(database, directory, _) =>
      if q == MigrationDirectory(directory) || q == ExitStatus(database) then 1 else 0
    case _ => if q == QueryOf(step) then 1 else 0
  }

  /** The one question of a step that starts and removes nothing. */
  function QueryOf(step: Step): Query
    requires !step.Launch? && !step.Migrate?
  {
    match step
    case MySQLAddress(_) => Address(MySQL)
    case MySQLConnect => Dial(MySQL)
    case AddDatabase(name) => CreateDatabase(name)
    case RedisAddress(alias) => Address(Redis(alias))
    case RedisConnect(alias) => Dial(Redis(alias))
    case KafkaAddress => Address(Kafka)
    case AddTopic(name) => EnsureTopic(name)
    case WireMockAddress => Address(WireMock)
    case WireMockStubs => RegisterStubs
    case Expose(service, port, _) => MappedPort(service, port)
  }

  function StartsOf(step: Step): nat {
    if step.Launch? || step.Migrate? then 1 else 0
  }

  function AsksAll(steps: seq<Step>, q: Query): nat {
    if steps == [] then 0 else Asks(steps[0], q) + AsksAll(steps[1..], q)
  }

  function Starts(steps: seq<Step>): nat {
    if steps == [] then 0 else StartsOf(steps[0]) + Starts(steps[1..])
  }

  lemma {:induction false} AsksAppend(a: seq<Step>, b: seq<Step>, q: Query)
    ensures AsksAll(a + b, q) == AsksAll(a, q) + AsksAll(b, q)
    ensures Starts(a + b) == Starts(a) + Starts(b)
  {
    hide Asks, StartsOf;
    if a == [] {
      assert a + b == b;
    } else {
      assert (a + b)[1..] == a[1..] + b;
      AsksAppend(a[1..], b, q);
    }
  }

  /** From `w` to `v` the step's calls have been made. */
  ghost predicate Made(w: World, v: World, step: Step) {
    && (forall q :: v.log[Ask(q)] == w.log[Ask(q)] + Asks(step, q))
    && v.next == w.next + StartsOf(step)
    && (forall id: nat :: id >= v.next ==> v.log[Start(id)] == w.log[Start(id)])
  }

  /** Every call the step makes succeeds. */
  ghost predicate Granted(o: Oracle, w: World, step: Step) {
    && (forall q :: Asks(step, q) > 0 ==> o.fate(Ask(q), w.log[Ask(q)]) == Succeeds)
    && (StartsOf(step) > 0 ==> o.fate(Start(w.next), w.log[Start(w.next)]) == Succeeds)
    && (step.KafkaAddress? ==> o.brokers(Ask(Address(Kafka)), w.log[Ask(Address(Kafka))]) != [])
  }

  lemma NotedAsks(o: Oracle, w: World, r: Rig, step: Step)
    requires !step.Launch? && !step.Migrate?
    ensures var p := Noted(o, w, r, step);
            && p.world == w.Logged(Ask(QueryOf(step)))
            && (p.ok <==> w.Ok(o, Ask(QueryOf(step))) &&
                          (step.KafkaAddress? ==> |o.brokers(Ask(Address(Kafka)), w.log[Ask(Address(Kafka))])| > 0))
  {
  }

  lemma NotedMade(o: Oracle, w: World, r: Rig, step: Step)
    requires !step.Launch? && !step.Migrate?
    ensures var p := Noted(o, w, r, step); Made(w, p.world, step) && (p.ok <==> Granted(o, w, step))
  {
    NotedAsks(o, w, r, step);
    OneQuestion(step);
    hide Noted, Asks, QueryOf;
  }

  lemma OneQuestion(step: Step)
    requires !step.Launch? && !step.Migrate?
    ensures forall q :: Asks(step, q) == if q == QueryOf(step) then 1 else 0
    ensures StartsOf(step) == 0
  {
    hide QueryOf;
  }

  lemma LaunchedMade(o: Oracle, w: World, r: Rig, slot: Slot, service: string, image: string)
    ensures var p := Launched(o, w, r, slot, service, image);
            Made(w, p.world, Launch(slot, service, image)) && (p.ok <==> Granted(o, w, Launch(slot, service, image)))
  {
    hide Rig.Record, DefaultLabels;
  }

  lemma MigratedLog(o: Oracle, w: World, r: Rig, database: string, directory: string, image: string)
    ensures var p := Migrated(o, w, r, database, directory, image);
            var asked, start, waited := Ask(MigrationDirectory(directory)), Start(w.next), Ask(ExitStatus(database));
            if o.fate(asked, w.log[asked]) != Succeeds then !p.ok && p.world.log == w.log + multiset{asked}
            else if o.fate(start, w.log[start]) != Succeeds then
              !p.ok && p.world.log == w.log + multiset{asked} + multiset{start}
            else
              && (p.ok <==> o.fate(waited, w.log[waited]) == Succeeds)
              && p.world.next == w.next + 1
              && p.world.log ==
                 w.log + multiset{asked} + multiset{start} + multiset{waited} + multiset{Terminate(w.next)}
  {
    OneTerminated(w.next);
    hide DefaultLabels, RemovalCalls;
  }

  lemma OneTerminated(id: nat)
    ensures RemovalCalls(false, {id}) == {Terminate(id)}
    ensures multiset(RemovalCalls(false, {id})) == multiset{Terminate(id)}
  {
  }

  lemma MigratedMade(o: Oracle, w: World, r: Rig, database: string, directory: string, image: string)
    ensures var p, step := Migrated(o, w, r, database, directory, image), Step.Migrate(database, directory, image);
            (p.ok ==> Made(w, p.world, step)) && (p.ok <==> Granted(o, w, step))
  {
    MigratedLog(o, w, r, database, directory, image);
    hide Migrated;
    var step := Step.Migrate(database, directory, image);
    assert Asks(step, MigrationDirectory(directory)) > 0 && Asks(step, ExitStatus(database)) > 0;
  }

  lemma MigratedBounded(o: Oracle, w: World, r: Rig, database: string, directory: string, image: string, q: Query)
    ensures var v := Migrated(o, w, r, database, directory, image).world;
            w.log[Ask(q)] <= v.log[Ask(q)] <= w.log[Ask(q)] + Asks(Step.Migrate(database, directory, image), q)
  {
    MigratedLog(o, w, r, database, directory, image);
    hide Migrated;
  }

  /** A step that succeeds makes exactly its calls; it succeeds exactly if they do; one that fails makes no others. */
  lemma DoMade(o: Oracle, w: World, r: Rig, step: Step)
    ensures var p := Do(o, w, r, step);
            && (p.ok ==> Made(w, p.world, step))
            && (p.ok <==> Granted(o, w, step))
            && (forall q: Query :: w.log[Ask(q)] <= p.world.log[Ask(q)] <= w.log[Ask(q)] + Asks(step, q))
  {
    hide Made, Granted, Launched, Migrated, Noted;
    match step
    case Launch(slot, service, image) =>
      LaunchedMade(o, w, r, slot, service, image);
      MadeAsks(w, Do(o, w, r, step).world, step);
    case Migrate(database, directory, image) =>
      MigratedMade(o, w, r, database, directory, image);
      forall q: Query
        ensures w.log[Ask(q)] <= Do(o, w, r, step).world.log[Ask(q)] <= w.log[Ask(q)] + Asks(step, q)
      {
        MigratedBounded(o, w, r, database, directory, image, q);
      }
    case _ =>
      NotedMade(o, w, r, step);
      MadeAsks(w, Do(o, w, r, step).world, step);
  }

  lemma MadeAsks(w: World, v: World, step: Step)
    requires Made(w, v, step)
    ensures forall q: Query :: v.log[Ask(q)] == w.log[Ask(q)] + Asks(step, q)
  {
  }

  // ----- when a plan succeeds

  /** Every question of the plan is answered, every start succeeds, and every broker lookup names a broker. Questions
      are counted from `w` on; containers are numbered from its next identifier on. */
  ghost predicate Willing(o: Oracle, w: World, steps: seq<Step>) {
    && (forall q, k: nat ::
          w.log[Ask(q)] <= k < w.log[Ask(q)] + AsksAll(steps, q) ==> o.fate(Ask(q), k) == Succeeds)
    && (forall id: nat :: w.next <= id < w.next + Starts(steps) ==> o.fate(Start(id), w.log[Start(id)]) == Succeeds)
    && (forall k: nat ::
          w.log[Ask(Address(Kafka))] <= k < w.log[Ask(Address(Kafka))] + AsksAll(steps, Address(Kafka)) ==>
            o.brokers(Ask(Address(Kafka)), k) != [])
  }

  lemma KafkaAsksBrokers(step: Step)
    ensures Asks(step, Address(Kafka)) > 0 <==> step.KafkaAddress?
  {
  }

  lemma WillingStep(o: Oracle, w: World, v: World, steps: seq<Step>)
    requires steps != [] && Made(w, v, steps[0])
    ensures Willing(o, w, steps) <==> Granted(o, w, steps[0]) && Willing(o, v, steps[1..])
  {
    KafkaAsksBrokers(steps[0]);
    assert forall q :: AsksAll(steps, q) == Asks(steps[0], q) + AsksAll(steps[1..], q);
    assert Starts(steps) == StartsOf(steps[0]) + Starts(steps[1..]);
    AtMostOnce(steps[0]);
    hide Asks, AsksAll, Starts;
    if Granted(o, w, steps[0]) && Willing(o, v, steps[1..]) {
      forall q, k: nat | w.log[Ask(q)] <= k < w.log[Ask(q)] + AsksAll(steps, q)
        ensures o.fate(Ask(q), k) == Succeeds
      {
        assert k == w.log[Ask(q)] || v.log[Ask(q)] <= k;
      }
      forall id: nat | w.next <= id < w.next + Starts(steps)
        ensures o.fate(Start(id), w.log[Start(id)]) == Succeeds
      {
        assert id == w.next || v.next <= id;
      }
    }
  }

  lemma AtMostOnce(step: Step)
    ensures forall q :: Asks(step, q) <= 1
    ensures StartsOf(step) <= 1
  {
  }

  lemma WillingGrants(o: Oracle, w: World, steps: seq<Step>)
    requires steps != [] && Willing(o, w, steps)
    ensures Granted(o, w, steps[0])
  {
    KafkaAsksBrokers(steps[0]);
    assert forall q :: AsksAll(steps, q) >= Asks(steps[0], q);
    hide Asks, AsksAll;
  }

  /** On any runtime: a plan succeeds if and only if all the calls it makes do. */
  lemma {:induction false} PlanSucceedsIff(o: Oracle, w: World, r: Rig, steps: seq<Step>)
    ensures Stop(o, w, r, steps).ok <==> Willing(o, w, steps)
    decreases |steps|
  {
    if steps != [] {
      DoMade(o, w, r, steps[0]);
      hide Do, Made, Granted, Willing, Asks;
      var p := Do(o, w, r, steps[0]);
      if p.ok {
        WillingStep(o, w, p.world, steps);
        PlanSucceedsIff(o, p.world, p.rig, steps[1..]);
      } else if Willing(o, w, steps) {
        WillingGrants(o, w, steps);
      }
    }
  }

  /** A plan that succeeds has made exactly its calls. */
  lemma {:induction false} PlanMakes(o: Oracle, w: World, r: Rig, steps: seq<Step>)
    requires Stop(o, w, r, steps).ok
    ensures var v := Stop(o, w, r, steps).world;
            && (forall q :: v.log[Ask(q)] == w.log[Ask(q)] + AsksAll(steps, q))
            && v.next == w.next + Starts(steps)
    decreases |steps|
  {
    if steps != [] {
      DoMade(o, w, r, steps[0]);
      hide Do, Asks;
      var p := Do(o, w, r, steps[0]);
      PlanMakes(o, p.world, p.rig, steps[1..]);
    }
  }

  // ----- the calls a configuration asks for

  /** How many migrations there are from a directory, and of a database; those without a directory do not count. */
  function FromDirectory(ms: seq<Migration>, directory: string): nat {
    if ms == [] then 0
    else (if ms[0].directory == directory && directory != "" then 1 else 0) + FromDirectory(ms[1..], directory)
  }

  function OfDatabase(ms: seq<Migration>, database: string): nat {
    if ms == [] then 0
    else (if ms[0].database == database && ms[0].directory != "" then 1 else 0) + OfDatabase(ms[1..], database)
  }

  function Effective(ms: seq<Migration>): nat {
    if ms == [] then 0 else (if ms[0].directory != "" then 1 else 0) + Effective(ms[1..])
  }

  /** How many services of a name expose a port. */
  function Exposing(services: seq<ServiceConfig>, service: string, port: string): nat {
    if services == [] then 0
    else
      (if services[0].def.name == service && services[0].exposePort == port && port != "" then 1 else 0) +
      Exposing(services[1..], service, port)
  }

  /** The migrations of a builder. */
  function BuilderMigrations(h: Host, b: Blueprint): seq<Migration> {
    if b.mysql.None? then [] else Migrations(h, b.mysql.value)
  }

  /** The migrations of a scenario. */
  function ScenarioMigrations(h: Host, cfg: ScenarioConfig): seq<Migration> {
    if |cfg.databases| == 0 then [] else Migrations(h, MySQLConfig(cfg.databases, cfg.migrations))
  }

  function OnceIf(b: bool): nat {
    if b then 1 else 0
  }

  /** How often a successful build asks a question: every topic and every database as often as it is listed, one
      address and one connection for every service it has been asked for, and so on; nothing else. */
  function BuildWanted(h: Host, b: Blueprint, q: Query): nat {
    match q
    case Address(MySQL) => OnceIf(b.mysql.Some?)
    case Dial(MySQL) => OnceIf(b.mysql.Some?)
    case CreateDatabase(name) => if b.mysql.Some? then multiset(b.mysql.value.databases)[name] else 0
    case MigrationDirectory(directory) => FromDirectory(BuilderMigrations(h, b), directory)
    case ExitStatus(database) => OfDatabase(BuilderMigrations(h, b), database)
    case Address(Redis(alias)) => multiset(b.redis)[alias]
    case Dial(Redis(alias)) => multiset(b.redis)[alias]
    case Address(Kafka) => OnceIf(b.kafka.Some?)
    case EnsureTopic(name) => if b.kafka.Some? then multiset(b.kafka.value)[name] else 0
    case Address(WireMock) => OnceIf(b.wireMock)
    case RegisterStubs => OnceIf(b.wireMock)
    case _ => 0
  }

  /** How many containers a successful build starts. */
  function BuildStarts(h: Host, b: Blueprint): nat {
    OnceIf(b.mysql.Some?) + Effective(BuilderMigrations(h, b)) + |b.redis| + OnceIf(b.kafka.Some?) + OnceIf(b.wireMock)
  }

  /** The same for a whole setup, told from its configuration. */
  function Wanted(h: Host, cfg: ScenarioConfig, q: Query): nat {
    match q
    case Address(MySQL) => OnceIf(|cfg.databases| > 0)
    case Dial(MySQL) => OnceIf(|cfg.databases| > 0)
    case CreateDatabase(name) => multiset(cfg.databases)[name]
    case MigrationDirectory(directory) => FromDirectory(ScenarioMigrations(h, cfg), directory)
    case ExitStatus(database) => OfDatabase(ScenarioMigrations(h, cfg), database)
    case Address(Redis(alias)) => multiset(cfg.redisInstances)[alias]
    case Dial(Redis(alias)) => multiset(cfg.redisInstances)[alias]
    case Address(Kafka) => OnceIf(|cfg.topics| > 0)
    case EnsureTopic(name) => multiset(cfg.topics)[name]
    case Address(WireMock) => OnceIf(cfg.wireMock)
    case RegisterStubs => OnceIf(cfg.wireMock)
    case MappedPort(service, port) => Exposing(cfg.services, service, port)
    case _ => 0
  }

  /** How many containers a successful setup starts. */
  function WantedStarts(h: Host, cfg: ScenarioConfig): nat {
    OnceIf(|cfg.databases| > 0) + Effective(ScenarioMigrations(h, cfg)) + |cfg.redisInstances| +
    OnceIf(|cfg.topics| > 0) + OnceIf(cfg.wireMock) + |cfg.services|
  }

  lemma FirstOf(s: seq<string>)
    requires s != []
    ensures multiset(s) == multiset{s[0]} + multiset(s[1..])
  {
    assert s == [s[0]] + s[1..];
  }

  lemma {:induction false} DatabasesAsk(databases: seq<string>, q: Query)
    ensures AsksAll(DatabaseSteps(databases), q) == (if q.CreateDatabase? then multiset(databases)[q.name] else 0)
    ensures Starts(DatabaseSteps(databases)) == 0
  {
    if databases != [] {
      DatabasesAsk(databases[1..], q);
      FirstOf(databases);
      AsksAppend([AddDatabase(databases[0])], DatabaseSteps(databases[1..]), q);
      OneAsks(AddDatabase(databases[0]), q);
    }
  }

  lemma OneAsks(step: Step, q: Query)
    ensures AsksAll([step], q) == Asks(step, q) && Starts([step]) == StartsOf(step)
  {
    assert [step][1..] == [];
  }

  lemma TwoAsk(s: Step, t: Step, q: Query)
    ensures AsksAll([s, t], q) == Asks(s, q) + Asks(t, q) && Starts([s, t]) == StartsOf(s) + StartsOf(t)
  {
    assert [s, t] == [s] + [t];
    hide Asks, StartsOf;
    AsksAppend([s], [t], q);
    OneAsks(s, q);
    OneAsks(t, q);
  }

  lemma ThreeAsk(s: Step, t: Step, u: Step, q: Query)
    ensures AsksAll([s, t, u], q) == Asks(s, q) + Asks(t, q) + Asks(u, q)
    ensures Starts([s, t, u]) == StartsOf(s) + StartsOf(t) + StartsOf(u)
  {
    assert [s, t, u] == [s, t] + [u];
    hide Asks, StartsOf;
    AsksAppend([s, t], [u], q);
    TwoAsk(s, t, q);
    OneAsks(u, q);
  }

  lemma {:induction false} TopicsAsk(topics: seq<string>, q: Query)
    ensures AsksAll(TopicSteps(topics), q) == (if q.EnsureTopic? then multiset(topics)[q.name] else 0)
    ensures Starts(TopicSteps(topics)) == 0
  {
    if topics != [] {
      TopicsAsk(topics[1..], q);
      FirstOf(topics);
      AsksAppend([AddTopic(topics[0])], TopicSteps(topics[1..]), q);
      OneAsks(AddTopic(topics[0]), q);
    }
  }

  lemma {:induction false} MigrationsAsk(ms: seq<Migration>, image: string, q: Query)
    ensures AsksAll(MigrationSteps(ms, image), q) ==
            (if q.MigrationDirectory? then FromDirectory(ms, q.directory)
             else if q.ExitStatus? then OfDatabase(ms, q.database)
             else 0)
    ensures Starts(MigrationSteps(ms, image)) == Effective(ms)
  {
    if ms != [] {
      var rest := MigrationSteps(ms[1..], image);
      MigrationsAsk(ms[1..], image, q);
      if ms[0].directory == "" {
        assert [] + rest == rest;
        assert MigrationSteps(ms, image) == rest;
      } else {
        var step := Step.Migrate(ms[0].database, ms[0].directory, image);
        AsksAppend([step], rest, q);
        OneAsks(step, q);
      }
    }
  }

  lemma {:induction false} RedisAsk(aliases: seq<string>, image: string, q: Query)
    ensures AsksAll(RedisSteps(aliases, image), q) ==
            (if (q.Address? || q.Dial?) && q.slot.Redis? then multiset(aliases)[q.slot.alias] else 0)
    ensures Starts(RedisSteps(aliases, image)) == |aliases|
  {
    if aliases != [] {
      var a := aliases[0];
      RedisAsk(aliases[1..], image, q);
      FirstOf(aliases);
      var first := [Launch(Redis(a), a, image), RedisAddress(a), RedisConnect(a)];
      AsksAppend(first, RedisSteps(aliases[1..], image), q);
      ThreeAsk(first[0], first[1], first[2], q);
    }
  }

  lemma {:induction false} AppsAsk(h: Host, services: seq<ServiceConfig>, q: Query)
    ensures AsksAll(AppSteps(h, services), q) ==
            (if q.MappedPort? then Exposing(services, q.service, q.port) else 0)
    ensures Starts(AppSteps(h, services)) == |services|
  {
    if services != [] {
      var svc := services[0];
      AppsAsk(h, services[1..], q);
      AsksAppend(ServiceSteps(h, svc), AppSteps(h, services[1..]), q);
      ServiceAsks(h, svc, q);
    }
  }

  lemma ServiceAsks(h: Host, svc: ServiceConfig, q: Query)
    ensures AsksAll(ServiceSteps(h, svc), q) ==
            OnceIf(q.MappedPort? && q.service == svc.def.name && q.port == svc.exposePort && svc.exposePort != "")
    ensures Starts(ServiceSteps(h, svc)) == 1
  {
    var launch := Launch(App(svc.def.name), svc.def.name, ServiceImage(h, svc));
    if svc.exposePort == "" {
      assert ServiceSteps(h, svc) == [launch];
      OneAsks(launch, q);
    } else {
      var expose := Expose(svc.def.name, svc.exposePort, svc.Key());
      assert ServiceSteps(h, svc) == [launch, expose];
      TwoAsk(launch, expose, q);
    }
  }

  lemma MySQLAsks(h: Host, b: Blueprint, c: Config, q: Query)
    ensures var ms := BuilderMigrations(h, b);
            && AsksAll(MySQLSteps(b, c, h), q) ==
               OnceIf(b.mysql.Some? && (q == Address(MySQL) || q == Dial(MySQL))) +
               (if q.CreateDatabase? && b.mysql.Some? then multiset(b.mysql.value.databases)[q.name] else 0) +
               (if q.MigrationDirectory? then FromDirectory(ms, q.directory)
                else if q.ExitStatus? then OfDatabase(ms, q.database)
                else 0)
            && Starts(MySQLSteps(b, c, h)) == OnceIf(b.mysql.Some?) + Effective(ms)
  {
    if b.mysql.Some? {
      var first := [Launch(MySQL, "mysql", GetImage(Some(c), h.vars, "mysql", "mysql:8.0")),
                    MySQLAddress(InitialDB(b.mysql.value)), MySQLConnect];
      var databases, ms := DatabaseSteps(b.mysql.value.databases), Migrations(h, b.mysql.value);
      var migrate := MigrationSteps(ms, FlywayImage(b, h));
      DatabasesAsk(b.mysql.value.databases, q);
      MigrationsAsk(ms, FlywayImage(b, h), q);
      ThreeAsk(first[0], first[1], first[2], q);
      hide AsksAll, Starts, FromDirectory, OfDatabase, Effective, Migrations, GetImage, FlywayImage;
      AsksAppend(first + databases, migrate, q);
      AsksAppend(first, databases, q);
    }
  }

  lemma KafkaAsks(h: Host, b: Blueprint, c: Config, q: Query)
    ensures AsksAll(KafkaSteps(b, c, h), q) ==
            OnceIf(b.kafka.Some? && q == Address(Kafka)) +
            (if q.EnsureTopic? && b.kafka.Some? then multiset(b.kafka.value)[q.name] else 0)
    ensures Starts(KafkaSteps(b, c, h)) == OnceIf(b.kafka.Some?)
  {
    if b.kafka.Some? {
      var first := [Launch(Kafka, "kafka", GetImage(Some(c), h.vars, "kafka", "confluentinc/confluent-local:7.6.0")),
                    KafkaAddress];
      TopicsAsk(b.kafka.value, q);
      TwoAsk(first[0], first[1], q);
      hide AsksAll, Starts, GetImage;
      AsksAppend(first, TopicSteps(b.kafka.value), q);
    }
  }

  lemma WireMockAsks(h: Host, b: Blueprint, c: Config, q: Query)
    ensures AsksAll(WireMockSteps(b, c, h), q) == OnceIf(b.wireMock && (q == Address(WireMock) || q == RegisterStubs))
    ensures Starts(WireMockSteps(b, c, h)) == OnceIf(b.wireMock)
  {
    if b.wireMock {
      var s := WireMockSteps(b, c, h);
      ThreeAsk(s[0], s[1], s[2], q);
    }
  }

  /** The plan of a builder makes exactly the calls it has been asked for. */
  lemma BuildAsks(h: Host, b: Blueprint, c: Config, q: Query)
    ensures AsksAll(BackingSteps(b, c, h), q) == BuildWanted(h, b, q)
    ensures Starts(BackingSteps(b, c, h)) == BuildStarts(h, b)
  {
    MySQLAsks(h, b, c, q);
    RedisAsk(b.redis, RedisImage(c, h), q);
    KafkaAsks(h, b, c, q);
    WireMockAsks(h, b, c, q);
    hide AsksAll, Starts, MySQLSteps, RedisSteps, KafkaSteps, WireMockSteps, RedisImage, FromDirectory,
         OfDatabase, Effective, BuilderMigrations;
    var mysql, redis := MySQLSteps(b, c, h), RedisSteps(b.redis, RedisImage(c, h));
    var kafka, wireMock := KafkaSteps(b, c, h), WireMockSteps(b, c, h);
    AsksAppend(kafka, wireMock, q);
    AsksAppend(redis, kafka + wireMock, q);
    AsksAppend(mysql, redis + (kafka + wireMock), q);
  }

  /** The plan of a scenario makes exactly the calls its configuration asks for. */
  lemma PlanAsks(h: Host, cfg: ScenarioConfig, c: Config, q: Query)
    ensures AsksAll(ScenarioSteps(h, cfg, c), q) == Wanted(h, cfg, q)
    ensures Starts(ScenarioSteps(h, cfg, c)) == WantedStarts(h, cfg)
  {
    BuildAsks(h, BlueprintOf(cfg), c, q);
    AppsAsk(h, cfg.services, q);
    hide AsksAll, Starts, BackingSteps, AppSteps, FromDirectory, OfDatabase, Effective, Exposing, Migrations;
    AsksAppend(BackingSteps(BlueprintOf(cfg), c, h), AppSteps(h, cfg.services), q);
  }

  // ----- a whole build and a whole setup

  /** Every call a build or a setup needs succeeds, counted from the world it starts in: every question as often as it
      is wanted, and the starts of the containers numbered after the network; and every broker lookup names one. */
  ghost predicate AllGranted(o: Oracle, w: World, wanted: Query -> nat, starts: nat) {
    && (forall q, k: nat :: w.log[Ask(q)] <= k < w.log[Ask(q)] + wanted(q) ==> o.fate(Ask(q), k) == Succeeds)
    && (forall id: nat :: w.next < id <= w.next + starts ==> o.fate(Start(id), w.log[Start(id)]) == Succeeds)
    && (forall k: nat ::
          w.log[Ask(Address(Kafka))] <= k < w.log[Ask(Address(Kafka))] + wanted(Address(Kafka)) ==>
            o.brokers(Ask(Address(Kafka)), k) != [])
  }

  /** Pruning and creating the network ask nothing and start nothing. */
  lemma PreludeCalls(o: Oracle, w: World)
    ensures var v := Pruned(o, w);
            && v.next == w.next
            && (forall q :: v.log[Ask(q)] == w.log[Ask(q)])
            && (forall id: nat :: v.log[Start(id)] == w.log[Start(id)])
            && (forall id: nat :: v.log[CreateNetwork(id)] == w.log[CreateNetwork(id)])
    ensures var v := NetworkCreated(o, w);
            && v.next == w.next + 1
            && (forall q :: v.log[Ask(q)] == w.log[Ask(q)])
            && (forall id: nat :: v.log[Start(id)] == w.log[Start(id)])
  {
    OnlyForced(w.Logged(OpenClient).Logged(ListManaged).ManagedIds());
    hide RemovalCalls;
  }

  lemma OnlyForced(ids: set<nat>)
    ensures forall c <- RemovalCalls(true, ids) :: c.ForceRemove?
  {
  }

  /** A plan run after the prelude of a setup is willing exactly if everything wanted is granted. */
  lemma WillingIsGranted(o: Oracle, w: World, v: World, steps: seq<Step>, wanted: Query -> nat, starts: nat)
    requires v.next == w.next + 1 && (forall q :: v.log[Ask(q)] == w.log[Ask(q)])
    requires forall id: nat :: v.log[Start(id)] == w.log[Start(id)]
    requires (forall q :: AsksAll(steps, q) == wanted(q)) && Starts(steps) == starts
    ensures Willing(o, v, steps) <==> AllGranted(o, w, wanted, starts)
  {
    hide AsksAll, Starts;
    if AllGranted(o, w, wanted, starts) {
      forall id: nat | v.next <= id < v.next + starts
        ensures o.fate(Start(id), v.log[Start(id)]) == Succeeds
      {
        assert w.next < id <= w.next + starts;
      }
      forall q, k: nat | v.log[Ask(q)] <= k < v.log[Ask(q)] + AsksAll(steps, q)
        ensures o.fate(Ask(q), k) == Succeeds
      {
        assert AsksAll(steps, q) == wanted(q) && v.log[Ask(q)] == w.log[Ask(q)];
      }
    }
  }

  lemma {:induction false} ExecIsStop(o: Oracle, w: World, r: Rig, steps: seq<Step>)
    ensures var p := Stop(o, w, r, steps);
            Exec(o, w, r, steps) == if p.ok then Ready(p.world, p.rig) else Failed(TornDown(o, p.world, p.rig.env))
    decreases |steps|
  {
    hide Do, TornDown;
    if steps != [] {
      var p := Do(o, w, r, steps[0]);
      ExecIsStop(o, p.world, p.rig, steps[1..]);
    }
  }

  /** On any runtime: a build succeeds if and only if there is a configuration, its network is created, and every call
      it needs succeeds. So a topic, a database or a migration that cannot be had makes it fail, and nothing else
      does. */
  lemma BuildSucceedsIff(o: Oracle, h: Host, w: World, b: Blueprint)
    ensures Built(o, h, w, b).Ready? <==>
            && (b.cfg.Some? || h.loaded.Some?)
            && o.fate(CreateNetwork(w.next), w.log[CreateNetwork(w.next)]) == Succeeds
            && AllGranted(o, w, q => BuildWanted(h, b, q), BuildStarts(h, b))
  {
    var clean := Pruned(o, w);
    PreludeCalls(o, w);
    PreludeCalls(o, clean);
    if b.cfg.Some? || h.loaded.Some? {
      var c := if b.cfg.Some? then b.cfg.value else h.loaded.value;
      var created, steps := NetworkCreated(o, clean), BackingSteps(b, c, h);
      BuildAsksAll(h, b, c);
      WillingIsGranted(o, w, created, steps, q => BuildWanted(h, b, q), BuildStarts(h, b));
      PlanSucceedsIff(o, created, NewRig(clean.next), steps);
      ExecIsStop(o, created, NewRig(clean.next), steps);
    }
    hide Stop, Exec, Willing, AllGranted, BackingSteps, BuildWanted, BuildStarts, Pruned, TornDown, NetworkCreated;
  }

  lemma BuildAsksAll(h: Host, b: Blueprint, c: Config)
    ensures forall q :: AsksAll(BackingSteps(b, c, h), q) == BuildWanted(h, b, q)
    ensures Starts(BackingSteps(b, c, h)) == BuildStarts(h, b)
  {
    hide *;
    forall q
      ensures AsksAll(BackingSteps(b, c, h), q) == BuildWanted(h, b, q)
    {
      BuildAsks(h, b, c, q);
    }
    BuildAsks(h, b, c, RegisterStubs);
  }

  /** A build that succeeds has made every call it was asked for, as often as it was asked for it, and no other one. */
  lemma BuildMakes(o: Oracle, h: Host, w: World, b: Blueprint, q: Query)
    requires Built(o, h, w, b).Ready?
    ensures var v := Built(o, h, w, b).world;
            v.log[Ask(q)] == w.log[Ask(q)] + BuildWanted(h, b, q) && v.next == w.next + 1 + BuildStarts(h, b)
  {
    var clean := Pruned(o, w);
    var c := if b.cfg.Some? then b.cfg.value else h.loaded.value;
    var created, steps := NetworkCreated(o, clean), BackingSteps(b, c, h);
    PreludeCalls(o, w);
    PreludeCalls(o, clean);
    ExecIsStop(o, created, NewRig(clean.next), steps);
    hide Stop, Exec, AsksAll, Starts, BackingSteps, BuildWanted, BuildStarts, Pruned, TornDown, NetworkCreated;
    PlanMakes(o, created, NewRig(clean.next), steps);
    BuildAsks(h, b, c, q);
  }

  /** A configuration given to a builder acts as the loaded one would, whatever that is, as long as the image of its
      migrations is the one used anyway. */
  lemma GivenConfigActsAsLoaded(o: Oracle, h: Host, w: World, b: Blueprint, c: Config)
    requires GetImage(Some(c), h.vars, "flyway", DEFAULT_FLYWAY_IMAGE) ==
             GetImage(None, h.vars, "flyway", DEFAULT_FLYWAY_IMAGE)
    ensures Built(o, h, w, b.(cfg := Some(c))) == Built(o, h.(loaded := Some(c)), w, b.(cfg := None))
  {
    hide Exec, Pruned, NetworkCreated, GetImage;
    var given, g := b.(cfg := Some(c)), h.(loaded := Some(c));
    SameDiscovered(h, g, if b.mysql.Some? then b.mysql.value.databases else []);
  }

  lemma {:induction false} SameDiscovered(h: Host, g: Host, databases: seq<string>)
    requires h.vars == g.vars && h.migrationPath == g.migrationPath && h.isDir == g.isDir
    ensures Discovered(h, databases) == Discovered(g, databases)
  {
    hide GetLocalRepoDir, ServiceName;
    if databases != [] {
      SameDiscovered(h, g, databases[1..]);
    }
  }

  /** On any runtime: a setup that is no reuse succeeds if and only if the configuration loads, its network is
      created, and every call it needs succeeds. So a topic, a database, a migration or a port that cannot be had
      makes it fail, and nothing else does. */
  lemma SetupSucceedsIff(o: Oracle, h: Host, w: World, cfg: ScenarioConfig)
    requires w.WellFormed()
    ensures Provisioned(o, h, w, cfg).Ready? <==>
            && h.loaded.Some?
            && o.fate(CreateNetwork(w.next), w.log[CreateNetwork(w.next)]) == Succeeds
            && AllGranted(o, w, q => Wanted(h, cfg, q), WantedStarts(h, cfg))
  {
    var clean := Pruned(o, w);
    PreludeCalls(o, w);
    PreludeCalls(o, clean);
    if h.loaded.Some? {
      var created, steps := NetworkCreated(o, clean), ScenarioSteps(h, cfg, h.loaded.value);
      PlanAsksAll(h, cfg, h.loaded.value);
      WillingIsGranted(o, w, created, steps, q => Wanted(h, cfg, q), WantedStarts(h, cfg));
      PlanSucceedsIff(o, created, NewRig(clean.next), steps);
      if StoppedAt(o, h, w, cfg).Some? {
        SetupStops(o, h, w, cfg);
      }
    }
    hide Stop, Exec, Willing, AllGranted, ScenarioSteps, BackingSteps, Wanted, WantedStarts, Pruned, TornDown,
         NetworkCreated;
  }

  lemma PlanAsksAll(h: Host, cfg: ScenarioConfig, c: Config)
    ensures forall q :: AsksAll(ScenarioSteps(h, cfg, c), q) == Wanted(h, cfg, q)
    ensures Starts(ScenarioSteps(h, cfg, c)) == WantedStarts(h, cfg)
  {
    hide *;
    forall q
      ensures AsksAll(ScenarioSteps(h, cfg, c), q) == Wanted(h, cfg, q)
    {
      PlanAsks(h, cfg, c, q);
    }
    PlanAsks(h, cfg, c, RegisterStubs);
  }

  /** A setup that succeeds has made every call its configuration asks for, as often as it asks for it, and no other
      one; and it has started as many containers as it asks for. */
  lemma SetupMakes(o: Oracle, h: Host, w: World, cfg: ScenarioConfig, q: Query)
    requires w.WellFormed() && Provisioned(o, h, w, cfg).Ready?
    ensures var v := Provisioned(o, h, w, cfg).world;
            v.log[Ask(q)] == w.log[Ask(q)] + Wanted(h, cfg, q) && v.next == w.next + 1 + WantedStarts(h, cfg)
  {
    var clean := Pruned(o, w);
    ReadyStops(o, h, w, cfg);
    PreludeCalls(o, w);
    PreludeCalls(o, clean);
    PlanMakes(o, NetworkCreated(o, clean), NewRig(clean.next), ScenarioSteps(h, cfg, h.loaded.value));
    PlanAsks(h, cfg, h.loaded.value, q);
    hide Stop, Provisioned, ScenarioSteps, AsksAll, Starts, Wanted, WantedStarts, Pruned, NetworkCreated;
  }

  /** Without a configuration a setup fails right after its prune. */
  lemma UnloadedFails(o: Oracle, h: Host, w: World, cfg: ScenarioConfig)
    requires h.loaded.None?
    ensures Provisioned(o, h, w, cfg) == Failed(Pruned(o, w))
  {
  }
}
