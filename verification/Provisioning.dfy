/** What provisioning a scenario means: a plan of steps, run until the first one fails, at which point
    everything recorded so far is torn down. */
module Provisioning {
  import opened Wrappers
  import opened ContainerRuntime
  import opened Environments
  import opened Config

  datatype Migration = Migration(database: string, directory: string)
  datatype MySQLConfig = MySQLConfig(databases: seq<string>, migrations: seq<Migration>)

  /** What a builder has been asked for. `cfg` is the configuration given to it, if any. */
  datatype Blueprint = Blueprint(
    networkName: string,
    mysql: Option<MySQLConfig>,
    kafka: Option<seq<string>>,
    redis: seq<string>,
    wireMock: bool,
    cfg: Option<Config>)

  /** What the host answers: the result of loading the configuration (absent when loading fails), the
      process environment, and the directories that exist. */
  datatype Host = Host(
    loaded: Option<Config>,
    vars: Vars,
    migrationPath: string -> string,
    isDir: string -> bool)

  datatype Step =
    | Launch(slot: Slot, service: string, image: string)
    | MySQLAddress(initialDB: string)
    | MySQLConnect
    | AddDatabase(name: string)
    | Migrate(database: string, directory: string, image: string)
    | RedisAddress(alias: string)
    | RedisConnect(alias: string)
    | KafkaAddress
    | AddTopic(name: string)
    | WireMockAddress
    | WireMockStubs
    | Expose(service: string, port: string, key: string)

  function ServiceName(database: string): string {
    Strings.ReplaceAll(database, '_', '-')
  }

  /** Without explicit migrations, those of the local checkouts that have a migration directory. */
  function Discovered(h: Host, databases: seq<string>): seq<Migration> {
    if databases == [] then []
    else
      var dir := h.migrationPath(GetLocalRepoDir(h.vars, ServiceName(databases[0]), ""));
      (if h.isDir(dir) then [Migration(databases[0], dir)] else []) + Discovered(h, databases[1..])
  }

  function Migrations(h: Host, m: MySQLConfig): seq<Migration> {
    if m.migrations == [] then Discovered(h, m.databases) else m.migrations
  }

  function InitialDB(m: MySQLConfig): string {
    if m.databases == [] then "mysql" else m.databases[0]
  }

  function DatabaseSteps(databases: seq<string>): seq<Step> {
    if databases == [] then [] else [AddDatabase(databases[0])] + DatabaseSteps(databases[1..])
  }

  function MigrationSteps(migrations: seq<Migration>, image: string): seq<Step> {
    if migrations == [] then []
    else
      (if migrations[0].directory == "" then []
       else [Migrate(migrations[0].database, migrations[0].directory, image)]) +
      MigrationSteps(migrations[1..], image)
  }

  /** The Flyway image is resolved from the builder's own configuration, not from the loaded one. */
  function FlywayImage(b: Blueprint, h: Host): string {
    GetImage(b.cfg, h.vars, "flyway", DEFAULT_FLYWAY_IMAGE)
  }

  function MySQLSteps(b: Blueprint, c: Config, h: Host): seq<Step> {
    if b.mysql.None? then []
    else
      [Launch(MySQL, "mysql", GetImage(Some(c), h.vars, "mysql", "mysql:8.0")),
       MySQLAddress(InitialDB(b.mysql.value)),
       MySQLConnect] +
      DatabaseSteps(b.mysql.value.databases) +
      MigrationSteps(Migrations(h, b.mysql.value), FlywayImage(b, h))
  }

  function RedisSteps(aliases: seq<string>, image: string): seq<Step> {
    if aliases == [] then []
    else
      [Launch(Redis(aliases[0]), aliases[0], image), RedisAddress(aliases[0]), RedisConnect(aliases[0])] +
      RedisSteps(aliases[1..], image)
  }

  function TopicSteps(topics: seq<string>): seq<Step> {
    if topics == [] then [] else [AddTopic(topics[0])] + TopicSteps(topics[1..])
  }

  function KafkaSteps(b: Blueprint, c: Config, h: Host): seq<Step> {
    if b.kafka.None? then []
    else
      [Launch(Kafka, "kafka", GetImage(Some(c), h.vars, "kafka", "confluentinc/confluent-local:7.6.0")), KafkaAddress] +
      TopicSteps(b.kafka.value)
  }

  function WireMockSteps(b: Blueprint, c: Config, h: Host): seq<Step> {
    if !b.wireMock then []
    else
      [Launch(WireMock, "wiremock", GetImage(Some(c), h.vars, "wiremock", "docker.io/wiremock/wiremock:3.5.2")),
       WireMockAddress,
       WireMockStubs]
  }

  function RedisImage(c: Config, h: Host): string {
    GetImage(Some(c), h.vars, "redis", "redis:7-alpine")
  }

  function BackingSteps(b: Blueprint, c: Config, h: Host): seq<Step> {
    MySQLSteps(b, c, h) + (RedisSteps(b.redis, RedisImage(c, h)) + (KafkaSteps(b, c, h) + WireMockSteps(b, c, h)))
  }

  /** What provisioning fills: the environment, and the scenario's endpoints and applications. */
  datatype Rig = Rig(env: Env, endpoints: map<string, string>, apps: map<string, nat>) {
    function Network(): nat {
      if env.network.Some? then env.network.value else 0
    }

    function Record(slot: Slot, id: nat): Rig {
      match slot
      case MySQL => this.(env := env.(mysql := Some(id)))
      case Kafka => this.(env := env.(kafka := Some(id)))
      case WireMock => this.(env := env.(wireMock := Some(id)))
      case Redis(alias) => this.(env := env.(redis := env.redis[alias := id]))
      case App(name) => this.(env := env.(apps := env.apps + [id]), apps := apps[name := id])
    }
  }

  function NewRig(network: nat): Rig {
    Rig(EmptyEnv().(network := Some(network)), map[], map[])
  }

  datatype Progressed = Progressed(world: World, rig: Rig, ok: bool)

  function HostURL(port: string): string {
    "http://127.0.0.1:" + port
  }

  function MySQLDSN(port: string, database: string): string {
    "root:root@tcp(127.0.0.1:" + port + ")/" + database + "?multiStatements=true&parseTime=true"
  }

  /** A call without effect on containers; `r` is the rig if it succeeds. */
  function Asked(o: Oracle, w: World, before: Rig, q: Query, r: Rig): Progressed {
    var ok := w.Ok(o, Ask(q));
    Progressed(w.Logged(Ask(q)), if ok then r else before, ok)
  }

  function Answer(o: Oracle, w: World, q: Query): string {
    o.text(Ask(q), w.log[Ask(q)])
  }

  /** The ephemeral migration container is terminated whatever became of the migration; a failure to
      terminate it is not reported. */
  function Migrated(o: Oracle, w: World, r: Rig, database: string, directory: string, image: string): Progressed {
    var found := w.Logged(Ask(MigrationDirectory(directory)));
    if !w.Ok(o, Ask(MigrationDirectory(directory))) then Progressed(found, r, false)
    else
      var id := found.next;
      var launched := Started(o, found, Container(DefaultLabels("flyway-" + database), image, r.Network()));
      if !found.Ok(o, Start(id)) then Progressed(launched, r, false)
      else
        Progressed(Removed(o, launched.Logged(Ask(ExitStatus(database))), {id}, false), r,
                   launched.Ok(o, Ask(ExitStatus(database))))
  }

  function Launched(o: Oracle, w: World, r: Rig, slot: Slot, service: string, image: string): Progressed {
    var ok := w.Ok(o, Start(w.next));
    Progressed(Started(o, w, Container(DefaultLabels(service), image, r.Network())),
               if ok then r.Record(slot, w.next) else r, ok)
  }

  function KafkaLocated(o: Oracle, w: World, r: Rig): Progressed {
    var call := Ask(Address(Kafka));
    var brokers := o.brokers(call, w.log[call]);
    var ok := w.Ok(o, call) && |brokers| > 0;
    Progressed(w.Logged(call), if ok then r.(env := r.env.(kafkaBroker := brokers[0])) else r, ok)
  }

  /** A step that starts no container and removes none. */
  function Noted(o: Oracle, w: World, r: Rig, step: Step): Progressed
    requires !step.Launch? && !step.Migrate?
  {
    var e := r.env;
    match step
    case KafkaAddress => KafkaLocated(o, w, r)
    case MySQLAddress(db) =>
      var q := Address(MySQL);
      Asked(o, w, r, q, r.(env := e.(mysqlDSN := MySQLDSN(Answer(o, w, q), db))))
    case MySQLConnect => Asked(o, w, r, Dial(MySQL), r.(env := e.(db := true)))
    case AddDatabase(name) => Asked(o, w, r, CreateDatabase(name), r)
    case RedisAddress(alias) =>
      var q := Address(Redis(alias));
      Asked(o, w, r, q, r.(env := e.(redisAddrs := e.redisAddrs[alias := "127.0.0.1:" + Answer(o, w, q)])))
    case RedisConnect(alias) =>
      Asked(o, w, r, Dial(Redis(alias)), r.(env := e.(redisClients := e.redisClients + {alias})))
    case AddTopic(name) => Asked(o, w, r, EnsureTopic(name), r)
    case WireMockAddress =>
      var q := Address(WireMock);
      Asked(o, w, r, q, r.(env := e.(wireMockURL := HostURL(Answer(o, w, q)))))
    case WireMockStubs => Asked(o, w, r, RegisterStubs, r)
    case Expose(service, port, key) =>
      var q := MappedPort(service, port);
      Asked(o, w, r, q, r.(endpoints := r.endpoints[key := HostURL(Answer(o, w, q))]))
  }

  function Do(o: Oracle, w: World, r: Rig, step: Step): Progressed {
    match step
    case Launch(slot, service, image) => Launched(o, w, r, slot, service, image)
    case Migrate(database, directory, image) => Migrated(o, w, r, database, directory, image)
    case _ => Noted(o, w, r, step)
  }

  datatype Outcome = Ready(world: World, rig: Rig) | Failed(world: World)

  /** Runs the steps in order; the first failure tears down whatever the rig has recorded by then. */
  function Exec(o: Oracle, w: World, r: Rig, steps: seq<Step>): Outcome
    decreases |steps|
  {
    if steps == [] then Ready(w, r)
    else
      var p := Do(o, w, r, steps[0]);
      if p.ok then Exec(o, p.world, p.rig, steps[1..]) else Failed(TornDown(o, p.world, p.rig.env))
  }

  /** Recorded identifiers have been handed out and are pairwise different. */
  ghost predicate Sound(w: World, e: Env) {
    && e.Distinct()
    && forall h :: e.At(h).Some? ==> e.At(h).value < w.next
  }

  lemma ExecStep(o: Oracle, w: World, r: Rig, step: Step, rest: seq<Step>)
    ensures var p := Do(o, w, r, step);
            Exec(o, w, r, [step] + rest) ==
            if p.ok then Exec(o, p.world, p.rig, rest) else Failed(TornDown(o, p.world, p.rig.env))
  {
    assert ([step] + rest)[1..] == rest;
  }

  /** Running one plan and then another is running their concatenation. */
  lemma {:induction false} ExecAppend(o: Oracle, w: World, r: Rig, first: seq<Step>, second: seq<Step>)
    ensures var out := Exec(o, w, r, first);
            Exec(o, w, r, first + second) == if out.Ready? then Exec(o, out.world, out.rig, second) else out
    decreases |first|
  {
    if first == [] {
      assert first + second == second;
    } else {
      assert first + second == [first[0]] + (first[1..] + second);
      ExecStep(o, w, r, first[0], first[1..] + second);
      var p := Do(o, w, r, first[0]);
      if p.ok {
        ExecAppend(o, p.world, p.rig, first[1..], second);
      }
    }
  }

  /** Recording a freshly started container keeps the record sound. */
  lemma RecordSound(w: World, r: Rig, slot: Slot, id: nat)
    requires Sound(w, r.env) && id == w.next
    ensures r.Record(slot, id).env.Distinct()
    ensures forall h :: r.Record(slot, id).env.At(h).Some? ==> r.Record(slot, id).env.At(h).value <= id
  {
    var e := r.Record(slot, id).env;
    forall h | e.At(h).Some? && h != SlotHolder(r.env, slot)
      ensures e.At(h) == r.env.At(h)
    {
    }
    assert e.At(SlotHolder(r.env, slot)) == Some(id);
  }

  /** The place the next container of a slot is recorded in. */
  function SlotHolder(e: Env, slot: Slot): Holder {
    match slot
    case MySQL => HeldMySQL
    case Redis(alias) => HeldRedis(alias)
    case Kafka => HeldKafka
    case WireMock => HeldWireMock
    case App(_) => HeldApp(|e.apps|)
  }

  /** A step that starts and removes nothing changes no container and keeps what is recorded. */
  lemma LoggedOnly(o: Oracle, w: World, r: Rig, step: Step)
    requires !step.Launch? && !step.Migrate?
    ensures var p := Do(o, w, r, step);
            && p.world.(log := w.log) == w
            && p.rig.env.network == r.env.network
            && p.rig.env.apps == r.env.apps && p.rig.env.redis == r.env.redis
            && (forall h :: p.rig.env.At(h) == r.env.At(h))
  {
    hide Launched, Migrated;
  }

  lemma MigratedKeepsRig(o: Oracle, w: World, r: Rig, database: string, directory: string, image: string)
    ensures var p := Migrated(o, w, r, database, directory, image);
            p.rig == r && w.next <= p.world.next && p.world.networks == w.networks
  {
    hide DefaultLabels;
  }

  lemma LaunchedSound(o: Oracle, w: World, r: Rig, slot: Slot, service: string, image: string)
    requires Sound(w, r.env)
    ensures var p := Launched(o, w, r, slot, service, image);
            Sound(p.world, p.rig.env) && p.rig.env.network == r.env.network
  {
    RecordSound(w, r, slot, w.next);
    RecordKeepsNetwork(r, slot, w.next);
    hide Rig.Record, Env.Distinct, Env.At, DefaultLabels;
  }

  lemma RecordKeepsNetwork(r: Rig, slot: Slot, id: nat)
    ensures r.Record(slot, id).env.network == r.env.network
  {
  }

  lemma DoSound(o: Oracle, w: World, r: Rig, step: Step)
    requires Sound(w, r.env)
    ensures var p := Do(o, w, r, step); Sound(p.world, p.rig.env)
    ensures Do(o, w, r, step).rig.env.network == r.env.network
  {
    match step
    case Launch(slot, service, image) =>
      LaunchedSound(o, w, r, slot, service, image);
      hide Launched, Sound;
    case Migrate(database, directory, image) =>
      MigratedKeepsRig(o, w, r, database, directory, image);
      hide Migrated, Env.Distinct;
    case _ =>
      LoggedOnly(o, w, r, step);
      hide Do;
  }
}
