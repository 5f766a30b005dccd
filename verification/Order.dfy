/** In which order a setup makes its calls, wherever it stops. */
module Order {
  import opened Wrappers
  import opened Config
  import opened ContainerRuntime
  import opened Environments
  import opened Provisioning
  import opened Builders
  import opened Harness
  import opened Lifecycle
  import opened Plans
  import opened Networks
  import opened Calls
  import Connectivity

  predicate HasLaunched(done: seq<Step>, slot: Slot) {
    exists step <- done :: step.Launch? && step.slot == slot
  }

  /** All topics, databases, aliases and stubs of the scenario have been seen to. */
  ghost predicate BackingDone(cfg: ScenarioConfig, done: seq<Step>) {
    && (forall name :: multiset(cfg.databases)[name] <= AsksAll(done, CreateDatabase(name)))
    && (forall name :: multiset(cfg.topics)[name] <= AsksAll(done, EnsureTopic(name)))
    && (forall alias :: multiset(cfg.redisInstances)[alias] <= AsksAll(done, Dial(Redis(alias))))
    && (cfg.wireMock ==> AsksAll(done, RegisterStubs) > 0)
  }

  /** What has to be done before a step is made. */
  ghost predicate Enabled(cfg: ScenarioConfig, done: seq<Step>, step: Step) {
    match step
    case Launch(slot, _, _) => slot.App? ==> BackingDone(cfg, done)
    case MySQLAddress(_) => HasLaunched(done, MySQL)
    case MySQLConnect => AsksAll(done, Address(MySQL)) > 0
    case AddDatabase(_) => AsksAll(done, Dial(MySQL)) > 0
    case Migrate(_, _, _) => forall name :: multiset(cfg.databases)[name] <= AsksAll(done, CreateDatabase(name))
    case RedisAddress(alias) => HasLaunched(done, Redis(alias))
    case RedisConnect(alias) => AsksAll(done, Address(Redis(alias))) > 0
    case KafkaAddress => HasLaunched(done, Kafka)
    case AddTopic(_) => AsksAll(done, Address(Kafka)) > 0
    case WireMockAddress => HasLaunched(done, WireMock)
    case WireMockStubs => AsksAll(done, Address(WireMock)) > 0
    case Expose(service, _, _) => HasLaunched(done, App(service)) && BackingDone(cfg, done)
  }

  lemma EnabledMore(cfg: ScenarioConfig, done: seq<Step>, more: seq<Step>, step: Step)
    requires Enabled(cfg, done, step)
    ensures Enabled(cfg, done + more, step)
  {
    forall q
      ensures AsksAll(done, q) <= AsksAll(done + more, q)
    {
      AsksAppend(done, more, q);
    }
    forall slot | HasLaunched(done, slot)
      ensures HasLaunched(done + more, slot)
    {
      var launch :| launch in done && launch.Launch? && launch.slot == slot;
      assert launch in done + more;
    }
    hide AsksAll, HasLaunched;
  }

  /** Every step of a plan is enabled when its turn comes. */
  ghost predicate InOrder(cfg: ScenarioConfig, done: seq<Step>, steps: seq<Step>)
    decreases |steps|
  {
    steps == [] || (Enabled(cfg, done, steps[0]) && InOrder(cfg, done + [steps[0]], steps[1..]))
  }

  lemma {:induction false} InOrderAppend(cfg: ScenarioConfig, done: seq<Step>, a: seq<Step>, b: seq<Step>)
    requires InOrder(cfg, done, a) && InOrder(cfg, done + a, b)
    ensures InOrder(cfg, done, a + b)
    decreases |a|
  {
    hide Enabled;
    if a == [] {
      assert a + b == b && done + a == done;
    } else {
      assert (a + b)[1..] == a[1..] + b;
      assert done + [a[0]] + a[1..] == done + a;
      InOrderAppend(cfg, done + [a[0]], a[1..], b);
    }
  }

  // ----- the plan of a scenario is in order

  lemma {:induction false} DatabasesInOrder(cfg: ScenarioConfig, done: seq<Step>, databases: seq<string>)
    requires AsksAll(done, Dial(MySQL)) > 0
    ensures InOrder(cfg, done, DatabaseSteps(databases))
    decreases |databases|
  {
    if databases != [] {
      AsksAppend(done, [AddDatabase(databases[0])], Dial(MySQL));
      DatabasesInOrder(cfg, done + [AddDatabase(databases[0])], databases[1..]);
    }
  }

  lemma {:induction false} TopicsInOrder(cfg: ScenarioConfig, done: seq<Step>, topics: seq<string>)
    requires AsksAll(done, Address(Kafka)) > 0
    ensures InOrder(cfg, done, TopicSteps(topics))
    decreases |topics|
  {
    if topics != [] {
      AsksAppend(done, [AddTopic(topics[0])], Address(Kafka));
      TopicsInOrder(cfg, done + [AddTopic(topics[0])], topics[1..]);
    }
  }

  ghost predicate DatabasesDone(cfg: ScenarioConfig, done: seq<Step>) {
    forall name :: multiset(cfg.databases)[name] <= AsksAll(done, CreateDatabase(name))
  }

  lemma {:induction false} MigrationsInOrder(cfg: ScenarioConfig, done: seq<Step>, ms: seq<Migration>, image: string)
    requires DatabasesDone(cfg, done)
    ensures InOrder(cfg, done, MigrationSteps(ms, image))
    decreases |ms|
  {
    if ms != [] {
      var rest := MigrationSteps(ms[1..], image);
      if ms[0].directory == "" {
        assert [] + rest == rest;
        MigrationsInOrder(cfg, done, ms[1..], image);
      } else {
        var step := Step.Migrate(ms[0].database, ms[0].directory, image);
        assert Enabled(cfg, done, step);
        EnabledMore(cfg, done, [step], step);
        MigrationsInOrder(cfg, done + [step], ms[1..], image);
        assert MigrationSteps(ms, image) == [step] + rest;
        assert ([step] + rest)[1..] == rest;
      }
    }
  }

  lemma OneInOrder(cfg: ScenarioConfig, done: seq<Step>, step: Step)
    requires Enabled(cfg, done, step)
    ensures InOrder(cfg, done, [step])
  {
    hide Enabled;
    assert [step][1..] == [];
    assert InOrder(cfg, done + [step], []);
  }

  lemma TwoInOrder(cfg: ScenarioConfig, done: seq<Step>, a: Step, b: Step)
    requires Enabled(cfg, done, a) && Enabled(cfg, done + [a], b)
    ensures InOrder(cfg, done, [a, b])
  {
    hide Enabled, InOrder;
    OneInOrder(cfg, done, a);
    OneInOrder(cfg, done + [a], b);
    InOrderAppend(cfg, done, [a], [b]);
    assert [a] + [b] == [a, b];
  }

  /** A service that is launched, located and then made ready. */
  lemma ThreeInOrder(cfg: ScenarioConfig, done: seq<Step>, launch: Step, address: Step, ready: Step)
    requires Enabled(cfg, done, launch) && Enabled(cfg, done + [launch], address)
    requires Enabled(cfg, done + [launch] + [address], ready)
    ensures InOrder(cfg, done, [launch, address, ready])
  {
    hide Enabled, InOrder;
    TwoInOrder(cfg, done, launch, address);
    assert done + [launch] + [address] == done + [launch, address];
    OneInOrder(cfg, done + [launch, address], ready);
    InOrderAppend(cfg, done, [launch, address], [ready]);
    assert [launch, address] + [ready] == [launch, address, ready];
  }

  lemma Launching(done: seq<Step>, launch: Step)
    requires launch.Launch?
    ensures HasLaunched(done + [launch], launch.slot)
  {
    assert launch in done + [launch];
  }

  lemma Asking(done: seq<Step>, step: Step, q: Query)
    requires Asks(step, q) > 0
    ensures AsksAll(done + [step], q) > 0
  {
    AsksAppend(done, [step], q);
    OneAsks(step, q);
    hide AsksAll;
  }

  lemma {:induction false} RedisInOrder(cfg: ScenarioConfig, done: seq<Step>, aliases: seq<string>, image: string)
    ensures InOrder(cfg, done, RedisSteps(aliases, image))
    decreases |aliases|
  {
    if aliases != [] {
      var a := aliases[0];
      var launch, address, connect := Launch(Redis(a), a, image), RedisAddress(a), RedisConnect(a);
      Launching(done, launch);
      Asking(done + [launch], address, Address(Redis(a)));
      ThreeInOrder(cfg, done, launch, address, connect);
      RedisInOrder(cfg, done + [launch, address, connect], aliases[1..], image);
      hide InOrder, Enabled;
      InOrderAppend(cfg, done, [launch, address, connect], RedisSteps(aliases[1..], image));
    }
  }

  lemma MySQLInOrder(h: Host, cfg: ScenarioConfig, c: Config)
    ensures InOrder(cfg, [], MySQLSteps(BlueprintOf(cfg), c, h))
  {
    var b := BlueprintOf(cfg);
    if |cfg.databases| > 0 {
      var image := GetImage(Some(c), h.vars, "mysql", "mysql:8.0");
      var address := MySQLAddress(InitialDB(b.mysql.value));
      var ms, flyway := Migrations(h, b.mysql.value), FlywayImage(b, h);
      hide InOrder, DatabaseSteps, MigrationSteps, GetImage, FlywayImage, Migrations, InitialDB;
      DatabaseInOrder(cfg, image, address, ms, flyway);
    }
  }

  lemma DatabaseInOrder(cfg: ScenarioConfig, image: string, address: Step, ms: seq<Migration>, flyway: string)
    requires |cfg.databases| > 0 && address.MySQLAddress?
    ensures InOrder(cfg, [], [Launch(MySQL, "mysql", image), address, MySQLConnect] + DatabaseSteps(cfg.databases) +
                             MigrationSteps(ms, flyway))
  {
    var first := [Launch(MySQL, "mysql", image), address, MySQLConnect];
    var databases, migrate := DatabaseSteps(cfg.databases), MigrationSteps(ms, flyway);
    ConnectInOrder(cfg, first[0], address);
    Asking(first[..2], MySQLConnect, Dial(MySQL));
    assert first[..2] + [MySQLConnect] == first;
    DatabasesInOrder(cfg, first, cfg.databases);
    AllDatabasesDone(cfg, first);
    MigrationsInOrder(cfg, first + databases, ms, flyway);
    hide InOrder, AsksAll, DatabaseSteps, MigrationSteps, DatabasesDone;
    FromNothing(first);
    FromNothing(first + databases);
    InOrderAppend(cfg, [], first, databases);
    InOrderAppend(cfg, [], first + databases, migrate);
  }

  lemma ConnectInOrder(cfg: ScenarioConfig, launch: Step, address: Step)
    requires launch.Launch? && launch.slot == MySQL && address.MySQLAddress?
    ensures InOrder(cfg, [], [launch, address, MySQLConnect])
  {
    Launching([], launch);
    Asking([] + [launch], address, Address(MySQL));
    hide InOrder, AsksAll;
    ThreeInOrder(cfg, [], launch, address, MySQLConnect);
  }

  lemma AllDatabasesDone(cfg: ScenarioConfig, first: seq<Step>)
    ensures DatabasesDone(cfg, first + DatabaseSteps(cfg.databases))
  {
    forall name
      ensures multiset(cfg.databases)[name] <= AsksAll(first + DatabaseSteps(cfg.databases), CreateDatabase(name))
    {
      AsksAppend(first, DatabaseSteps(cfg.databases), CreateDatabase(name));
      DatabasesAsk(cfg.databases, CreateDatabase(name));
    }
  }

  lemma KafkaInOrder(h: Host, cfg: ScenarioConfig, c: Config, done: seq<Step>)
    ensures InOrder(cfg, done, KafkaSteps(BlueprintOf(cfg), c, h))
  {
    if |cfg.topics| > 0 {
      var launch := Launch(Kafka, "kafka", GetImage(Some(c), h.vars, "kafka", "confluentinc/confluent-local:7.6.0"));
      Launching(done, launch);
      Asking(done + [launch], KafkaAddress, Address(Kafka));
      assert done + [launch] + [KafkaAddress] == done + [launch, KafkaAddress];
      TopicsInOrder(cfg, done + [launch, KafkaAddress], cfg.topics);
      TwoInOrder(cfg, done, launch, KafkaAddress);
      hide InOrder, GetImage;
      InOrderAppend(cfg, done, [launch, KafkaAddress], TopicSteps(cfg.topics));
    }
  }

  lemma WireMockInOrder(h: Host, cfg: ScenarioConfig, c: Config, done: seq<Step>)
    ensures InOrder(cfg, done, WireMockSteps(BlueprintOf(cfg), c, h))
  {
    if cfg.wireMock {
      var s := WireMockSteps(BlueprintOf(cfg), c, h);
      Launching(done, s[0]);
      Asking(done + [s[0]], s[1], Address(WireMock));
      ThreeInOrder(cfg, done, s[0], s[1], s[2]);
    }
  }

  lemma {:induction false} AppsInOrder(h: Host, cfg: ScenarioConfig, done: seq<Step>, services: seq<ServiceConfig>)
    requires BackingDone(cfg, done)
    ensures InOrder(cfg, done, AppSteps(h, services))
    decreases |services|
  {
    if services != [] {
      var svc := services[0];
      ServiceInOrder(h, cfg, done, svc);
      BackingStillDone(cfg, done, ServiceSteps(h, svc));
      hide InOrder, BackingDone, ServiceSteps;
      AppsInOrder(h, cfg, done + ServiceSteps(h, svc), services[1..]);
      InOrderAppend(cfg, done, ServiceSteps(h, svc), AppSteps(h, services[1..]));
    }
  }

  lemma BackingStillDone(cfg: ScenarioConfig, done: seq<Step>, more: seq<Step>)
    requires BackingDone(cfg, done)
    ensures BackingDone(cfg, done + more)
  {
    forall q
      ensures AsksAll(done, q) <= AsksAll(done + more, q)
    {
      AsksAppend(done, more, q);
    }
    hide AsksAll;
  }

  lemma ServiceInOrder(h: Host, cfg: ScenarioConfig, done: seq<Step>, svc: ServiceConfig)
    requires BackingDone(cfg, done)
    ensures InOrder(cfg, done, ServiceSteps(h, svc))
  {
    var launch := Launch(App(svc.def.name), svc.def.name, ServiceImage(h, svc));
    Launching(done, launch);
    BackingStillDone(cfg, done, [launch]);
    hide BackingDone, HasLaunched, ServiceImage, InOrder;
    if svc.exposePort == "" {
      assert ServiceSteps(h, svc) == [launch];
      OneInOrder(cfg, done, launch);
    } else {
      var expose := Expose(svc.def.name, svc.exposePort, svc.Key());
      assert ServiceSteps(h, svc) == [launch, expose];
      TwoInOrder(cfg, done, launch, expose);
    }
  }

  lemma PlanInOrder(h: Host, cfg: ScenarioConfig, c: Config)
    ensures InOrder(cfg, [], ScenarioSteps(h, cfg, c))
  {
    var b := BlueprintOf(cfg);
    var mysql, redis := MySQLSteps(b, c, h), RedisSteps(b.redis, RedisImage(c, h));
    var kafka, wireMock, apps := KafkaSteps(b, c, h), WireMockSteps(b, c, h), AppSteps(h, cfg.services);
    MySQLInOrder(h, cfg, c);
    RedisInOrder(cfg, mysql, b.redis, RedisImage(c, h));
    KafkaInOrder(h, cfg, c, mysql + redis);
    WireMockInOrder(h, cfg, c, mysql + redis + kafka);
    BackingIsDone(h, cfg, c);
    AppsInOrder(h, cfg, BackingSteps(b, c, h), cfg.services);
    assert BackingSteps(b, c, h) == mysql + (redis + (kafka + wireMock));
    hide InOrder, MySQLSteps, RedisSteps, KafkaSteps, WireMockSteps, AppSteps, RedisImage, BackingDone, BackingSteps;
    StagesInOrder(cfg, mysql, redis, kafka, wireMock, apps);
  }

  lemma StagesInOrder(cfg: ScenarioConfig, mysql: seq<Step>, redis: seq<Step>, kafka: seq<Step>, wireMock: seq<Step>,
                      apps: seq<Step>)
    requires InOrder(cfg, [], mysql) && InOrder(cfg, mysql, redis) && InOrder(cfg, mysql + redis, kafka)
    requires InOrder(cfg, mysql + redis + kafka, wireMock)
    requires InOrder(cfg, mysql + (redis + (kafka + wireMock)), apps)
    ensures InOrder(cfg, [], mysql + (redis + (kafka + wireMock)) + apps)
  {
    hide InOrder;
    InOrderAppend(cfg, mysql + redis, kafka, wireMock);
    InOrderAppend(cfg, mysql, redis, kafka + wireMock);
    FromNothing(mysql);
    InOrderAppend(cfg, [], mysql, redis + (kafka + wireMock));
    FromNothing(mysql + (redis + (kafka + wireMock)));
    InOrderAppend(cfg, [], mysql + (redis + (kafka + wireMock)), apps);
  }

  lemma FromNothing(steps: seq<Step>)
    ensures [] + steps == steps
  {
  }

  lemma BackingIsDone(h: Host, cfg: ScenarioConfig, c: Config)
    ensures BackingDone(cfg, BackingSteps(BlueprintOf(cfg), c, h))
  {
    hide AsksAll, BackingSteps;
    var backing := BackingSteps(BlueprintOf(cfg), c, h);
    forall q: Query | !q.MappedPort?
      ensures AsksAll(backing, q) == Wanted(h, cfg, q)
    {
      BackingAsks(h, cfg, c, q);
    }
  }

  lemma BackingAsks(h: Host, cfg: ScenarioConfig, c: Config, q: Query)
    requires !q.MappedPort?
    ensures AsksAll(BackingSteps(BlueprintOf(cfg), c, h), q) == Wanted(h, cfg, q)
  {
    hide AsksAll, BackingSteps, AppSteps, Wanted;
    PlanAsks(h, cfg, c, q);
    AsksAppend(BackingSteps(BlueprintOf(cfg), c, h), AppSteps(h, cfg.services), q);
    AppsAsk(h, cfg.services, q);
  }

  // ----- wherever a setup stops

  /** A question has been asked since `w`. */
  predicate AskedSince(w: World, v: World, q: Query) {
    v.log[Ask(q)] > w.log[Ask(q)]
  }

  /** Every database of the scenario has been created, as often as it is listed. */
  ghost predicate DatabasesCreated(cfg: ScenarioConfig, w: World, v: World) {
    forall name ::
      w.log[Ask(CreateDatabase(name))] + multiset(cfg.databases)[name] <= v.log[Ask(CreateDatabase(name))]
  }

  /** All backing services of the scenario have been seen to. */
  ghost predicate BackingReady(cfg: ScenarioConfig, w: World, v: World) {
    && DatabasesCreated(cfg, w, v)
    && (forall name :: w.log[Ask(EnsureTopic(name))] + multiset(cfg.topics)[name] <= v.log[Ask(EnsureTopic(name))])
    && (forall alias ::
          w.log[Ask(Dial(Redis(alias)))] + multiset(cfg.redisInstances)[alias] <= v.log[Ask(Dial(Redis(alias)))])
    && (cfg.wireMock ==> AskedSince(w, v, RegisterStubs))
  }

  /** What has been done when a question is asked: its container is up and recorded, its connection is made, and
      migrations come after all databases, applications after all backing services. */
  ghost predicate Prepared(cfg: ScenarioConfig, w: World, v: World, r: Rig, q: Query) {
    match q
    case Address(MySQL) => r.env.mysql.Some?
    case Dial(MySQL) => AskedSince(w, v, Address(MySQL))
    case CreateDatabase(_) => AskedSince(w, v, Dial(MySQL))
    case MigrationDirectory(_) => DatabasesCreated(cfg, w, v)
    case ExitStatus(_) => DatabasesCreated(cfg, w, v)
    case Address(Redis(alias)) => alias in r.env.redis
    case Dial(Redis(alias)) => AskedSince(w, v, Address(Redis(alias)))
    case Address(Kafka) => r.env.kafka.Some?
    case EnsureTopic(_) => AskedSince(w, v, Address(Kafka))
    case Address(WireMock) => r.env.wireMock.Some?
    case RegisterStubs => AskedSince(w, v, Address(WireMock))
    case MappedPort(service, _) => service in r.apps && BackingReady(cfg, w, v)
    case _ => false
  }

  ghost predicate Sequenced(cfg: ScenarioConfig, w: World, v: World, r: Rig) {
    forall q :: AskedSince(w, v, q) ==> Prepared(cfg, w, v, r, q)
  }

  /** The steps done are those whose calls have been made, each was enabled, and what they launched is recorded. */
  ghost predicate Did(cfg: ScenarioConfig, w: World, v: World, r: Rig, done: seq<Step>) {
    && (forall q :: v.log[Ask(q)] == w.log[Ask(q)] + AsksAll(done, q))
    && (forall step <- done :: Enabled(cfg, done, step))
    && (forall slot :: HasLaunched(done, slot) ==> Connectivity.Holds(r, slot))
  }

  lemma {:induction false} AskedBy(done: seq<Step>, q: Query)
    ensures AsksAll(done, q) > 0 <==> exists step <- done :: Asks(step, q) > 0
  {
    hide Asks;
    if done != [] {
      AskedBy(done[1..], q);
      assert done == [done[0]] + done[1..];
    }
  }

  lemma DidMore(cfg: ScenarioConfig, o: Oracle, w: World, v: World, r: Rig, done: seq<Step>, step: Step)
    requires Did(cfg, w, v, r, done) && Enabled(cfg, done, step) && Do(o, v, r, step).ok
    ensures var p := Do(o, v, r, step); Did(cfg, w, p.world, p.rig, done + [step])
  {
    var p := Do(o, v, r, step);
    DoMade(o, v, r, step);
    Connectivity.DoInPlace(o, v, r, step);
    hide Do, Asks, Granted;
    forall q
      ensures p.world.log[Ask(q)] == w.log[Ask(q)] + AsksAll(done + [step], q)
    {
      AsksAppend(done, [step], q);
      OneAsks(step, q);
    }
    forall s | s in done + [step]
      ensures Enabled(cfg, done + [step], s)
    {
      EnabledMore(cfg, done, [step], s);
    }
    hide Enabled;
    forall slot | HasLaunched(done + [step], slot)
      ensures Connectivity.Holds(p.rig, slot)
    {
      var launch :| launch in done + [step] && launch.Launch? && launch.slot == slot;
      if launch in done {
        assert HasLaunched(done, slot);
        GrowsHolds(r, p.rig, slot);
      }
    }
  }

  lemma GrowsHolds(r: Rig, q: Rig, slot: Slot)
    requires Connectivity.Grows(r, q) && Connectivity.Holds(r, slot)
    ensures Connectivity.Holds(q, slot)
  {
  }

  /** A question that has been asked belongs to a step done or under way, and what that step needs has been done. */
  lemma AskedEnabled(cfg: ScenarioConfig, w: World, v: World, u: World, r: Rig, done: seq<Step>, step: Step, q: Query)
    returns (asker: Step)
    requires Did(cfg, w, v, r, done) && Enabled(cfg, done, step)
    requires v.log[Ask(q)] <= u.log[Ask(q)] <= v.log[Ask(q)] + Asks(step, q) && AskedSince(w, u, q)
    ensures Asks(asker, q) > 0 && Enabled(cfg, done, asker)
  {
    hide Asks, Enabled;
    if Asks(step, q) > 0 {
      asker := step;
    } else {
      AskedBy(done, q);
      asker :| asker in done && Asks(asker, q) > 0;
    }
  }

  lemma EnabledPrepares(cfg: ScenarioConfig, w: World, u: World, r: Rig, done: seq<Step>, asker: Step, q: Query)
    requires Asks(asker, q) > 0 && Enabled(cfg, done, asker)
    requires forall p :: w.log[Ask(p)] + AsksAll(done, p) <= u.log[Ask(p)]
    requires forall slot :: HasLaunched(done, slot) ==> Connectivity.Holds(r, slot)
    ensures Prepared(cfg, w, u, r, q)
  {
    hide AsksAll, HasLaunched;
    match asker
    case MySQLAddress(_) => assert Connectivity.Holds(r, MySQL);
    case RedisAddress(alias) => assert Connectivity.Holds(r, Redis(alias));
    case KafkaAddress => assert Connectivity.Holds(r, Kafka);
    case WireMockAddress => assert Connectivity.Holds(r, WireMock);
    case Expose(service, _, _) => assert Connectivity.Holds(r, App(service));
    case _ =>
  }

  /** The order holds while a step is under way, whether it succeeds or fails. */
  lemma StepSequenced(cfg: ScenarioConfig, w: World, v: World, u: World, r: Rig, done: seq<Step>, step: Step)
    requires Did(cfg, w, v, r, done) && Enabled(cfg, done, step)
    requires forall q: Query :: v.log[Ask(q)] <= u.log[Ask(q)] <= v.log[Ask(q)] + Asks(step, q)
    ensures Sequenced(cfg, w, u, r)
  {
    forall q | AskedSince(w, u, q)
      ensures Prepared(cfg, w, u, r, q)
    {
      var asker := AskedEnabled(cfg, w, v, u, r, done, step, q);
      hide Prepared, Enabled, Asks;
      EnabledPrepares(cfg, w, u, r, done, asker, q);
    }
  }

  lemma DidSequenced(cfg: ScenarioConfig, w: World, v: World, r: Rig, done: seq<Step>)
    requires Did(cfg, w, v, r, done)
    ensures Sequenced(cfg, w, v, r)
  {
    forall q | AskedSince(w, v, q)
      ensures Prepared(cfg, w, v, r, q)
    {
      hide Prepared, Enabled, Asks;
      AskedBy(done, q);
      var asker :| asker in done && Asks(asker, q) > 0;
      EnabledPrepares(cfg, w, v, r, done, asker, q);
    }
  }

  lemma FailedKeepsRig(o: Oracle, w: World, r: Rig, step: Step)
    requires !Do(o, w, r, step).ok
    ensures Do(o, w, r, step).rig == r
  {
    hide Started, Removed, DefaultLabels, Rig.Record;
  }

  lemma {:induction false} StopSequenced(cfg: ScenarioConfig, o: Oracle, w: World, v: World, r: Rig, done: seq<Step>,
                                         steps: seq<Step>)
    requires Did(cfg, w, v, r, done) && InOrder(cfg, done, steps)
    ensures var p := Stop(o, v, r, steps); Sequenced(cfg, w, p.world, p.rig)
    decreases |steps|
  {
    hide Did, Sequenced, Enabled, Do, Asks;
    if steps == [] {
      DidSequenced(cfg, w, v, r, done);
    } else {
      var p := Do(o, v, r, steps[0]);
      if p.ok {
        DidMore(cfg, o, w, v, r, done, steps[0]);
        StopSequenced(cfg, o, w, p.world, p.rig, done + [steps[0]], steps[1..]);
      } else {
        FailedKeepsRig(o, v, r, steps[0]);
        DoMade(o, v, r, steps[0]);
        StepSequenced(cfg, w, v, p.world, r, done, steps[0]);
      }
    }
  }

  /** Wherever a setup stops, on any runtime: what it has asked so far it has asked in order. No database is created
      before the connection is made, no migration is run before all databases are there, no topic is asked for before
      the broker is known, and no application is looked at before all backing services are ready. */
  lemma SetupSequenced(o: Oracle, h: Host, w: World, cfg: ScenarioConfig)
    requires StoppedAt(o, h, w, cfg).Some?
    ensures var p := StoppedAt(o, h, w, cfg).value; Sequenced(cfg, w, p.world, p.rig)
  {
    var clean := Pruned(o, w);
    var created, r := NetworkCreated(o, clean), NewRig(clean.next);
    var steps := ScenarioSteps(h, cfg, h.loaded.value);
    PreludeCalls(o, w);
    PreludeCalls(o, clean);
    PlanInOrder(h, cfg, h.loaded.value);
    hide Stop, ScenarioSteps, InOrder, Pruned, NetworkCreated, Sequenced, Enabled;
    assert Did(cfg, created, created, r, []);
    StopSequenced(cfg, o, created, created, r, [], steps);
    SameLog(cfg, w, created, Stop(o, created, r, steps).world, Stop(o, created, r, steps).rig);
  }

  lemma SameLog(cfg: ScenarioConfig, w: World, created: World, v: World, r: Rig)
    requires Sequenced(cfg, created, v, r) && forall q :: created.log[Ask(q)] == w.log[Ask(q)]
    ensures Sequenced(cfg, w, v, r)
  {
    forall q | AskedSince(w, v, q)
      ensures Prepared(cfg, w, v, r, q)
    {
      assert AskedSince(created, v, q);
    }
  }
}
