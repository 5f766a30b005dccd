/** What a setup does to the containers that are there when its start-up prune is over: foreign ones, and managed
    ones which that prune failed to remove. */
module Bystanders {
  import opened Wrappers
  import Config
  import opened ContainerRuntime
  import opened Environments
  import opened Provisioning
  import opened Builders
  import opened Harness
  import opened Lifecycle
  import opened Plans
  import opened Networks

  /** Everything recorded got its identifier at `base` or later. */
  ghost predicate RecordsSince(e: Env, base: nat) {
    forall h :: e.At(h).Some? ==> base <= e.At(h).value
  }

  /** The containers of `w` are there in `v`, unchanged. */
  ghost predicate Spares(w: World, v: World) {
    forall c <- w.containers :: c in v.containers && v.containers[c] == w.containers[c]
  }

  lemma LaunchSpares(o: Oracle, w: World, r: Rig, slot: Slot, service: string, image: string, base: nat)
    requires w.WellFormed() && base <= w.next && RecordsSince(r.env, base)
    ensures var p := Launched(o, w, r, slot, service, image);
            Spares(w, p.world) && RecordsSince(p.rig.env, base)
  {
    var p := Launched(o, w, r, slot, service, image);
    forall h | p.rig.env.At(h).Some? && h != SlotHolder(r.env, slot)
      ensures p.rig.env.At(h) == r.env.At(h)
    {
    }
    if p.ok {
      assert p.rig.env.At(SlotHolder(r.env, slot)) == Some(w.next);
    }
  }

  /** A step removes nothing but a migration container it has just started. */
  lemma DoSpares(o: Oracle, w: World, r: Rig, step: Step, base: nat)
    requires w.WellFormed() && Owns(w, r.env) && base <= w.next && RecordsSince(r.env, base)
    ensures var p := Do(o, w, r, step); Spares(w, p.world) && RecordsSince(p.rig.env, base)
  {
    match step
    case Launch(slot, service, image) =>
      LaunchSpares(o, w, r, slot, service, image, base);
    case Migrate(database, directory, image) =>
      MigratedContainers(o, w, r, database, directory, image);
      MigratedKeepsRig(o, w, r, database, directory, image);
      hide Migrated, Strands;
    case _ =>
      LoggedOnly(o, w, r, step);
      hide Do;
  }

  lemma {:induction false} StopSpares(o: Oracle, w: World, r: Rig, steps: seq<Step>, base: nat)
    requires w.WellFormed() && Owns(w, r.env) && base <= w.next && RecordsSince(r.env, base)
    ensures var p := Stop(o, w, r, steps); Spares(w, p.world) && RecordsSince(p.rig.env, base)
    decreases |steps|
  {
    if steps != [] {
      DoSpares(o, w, r, steps[0], base);
      DoEvolves(o, w, r, steps[0]);
      hide Do, RecordsSince, Owns;
      var p := Do(o, w, r, steps[0]);
      if p.ok {
        StopSpares(o, p.world, p.rig, steps[1..], base);
      }
    }
  }

  lemma SetupSpares(o: Oracle, h: Host, w: World, cfg: ScenarioConfig)
    requires w.WellFormed() && StoppedAt(o, h, w, cfg).Some?
    ensures var p := StoppedAt(o, h, w, cfg).value;
            Spares(Pruned(o, w), p.world) && RecordsSince(p.rig.env, Pruned(o, w).next)
  {
    hide Stop, Pruned, Evolves, Live, ScenarioSteps, Spares, HasOrphan;
    var clean := Pruned(o, w);
    PrunedEvolves(o, w);
    FreshRig(o, clean);
    var created, r, steps := NetworkCreated(o, clean), NewRig(clean.next), ScenarioSteps(h, cfg, h.loaded.value);
    assert RecordsSince(r.env, clean.next);
    StopSpares(o, created, r, steps, clean.next);
    SparesThen(clean, created, Stop(o, created, r, steps).world);
  }

  lemma SparesThen(w: World, v: World, u: World)
    requires Spares(v, u) && v.containers == w.containers
    ensures Spares(w, u)
  {
  }

  lemma OlderUnrecorded(e: Env, base: nat, c: nat)
    requires RecordsSince(e, base) && c < base
    ensures c !in e.Recorded()
  {
    RecordsIffRecorded(e, c);
  }

  /** On any runtime: a container that is there after the start-up prune is removed by the setup if and only if it
      is managed, the setup fails after it has created its network, and the prune of its rollback takes the
      container. It makes no difference who started the container. A setup that succeeds removes none. */
  lemma SetupTakesIff(o: Oracle, h: Host, w: World, cfg: ScenarioConfig, c: nat)
    requires w.WellFormed() && c in Pruned(o, w).containers
    ensures var out, s := Provisioned(o, h, w, cfg), StoppedAt(o, h, w, cfg);
            && (c in out.world.containers ==> out.world.containers[c] == Pruned(o, w).containers[c])
            && (c !in out.world.containers <==>
                  && s.Some? && !s.value.ok
                  && Pruned(o, w).containers[c].Managed()
                  && PruneTakes(o, Disconnected(o, s.value.world, s.value.rig.env), c))
    ensures Provisioned(o, h, w, cfg).Ready? ==> c in Provisioned(o, h, w, cfg).world.containers
  {
    PrunedEvolves(o, w);
    ProvisionedEvolves(o, h, w, cfg);
    var s := StoppedAt(o, h, w, cfg);
    if s.Some? {
      hide Pruned, StoppedAt, Provisioned, TornDown, PruneTakes, Live, HasOrphan, Disconnected;
      SetupStops(o, h, w, cfg);
      SetupSpares(o, h, w, cfg);
      var p := s.value;
      OlderUnrecorded(p.rig.env, Pruned(o, w).next, c);
      TeardownSurvivors(o, p.world, p.rig.env, c);
    }
  }

  // ----- a setup that takes a container of somebody else

  /** The client opened after `n` others cannot be opened, and no container can be started. */
  function StartsNothing(n: nat): Oracle {
    Oracle((call: Call, k: nat) => if (call.OpenClient? && k == n) || call.Start? then Fails else Succeeds,
           (call: Call, k: nat) => "",
           (call: Call, k: nat) => ["broker"])
  }

  /** Every plan starts with a start. */
  lemma PlanStartsWithLaunch(h: Host, cfg: ScenarioConfig, c: Config.Config)
    ensures var steps := ScenarioSteps(h, cfg, c); steps != [] ==> steps[0].Launch?
  {
    var b := BlueprintOf(cfg);
    assert MySQLSteps(b, c, h) != [] ==> MySQLSteps(b, c, h)[0].Launch?;
    assert RedisSteps(b.redis, RedisImage(c, h)) != [] ==> RedisSteps(b.redis, RedisImage(c, h))[0].Launch?;
    assert KafkaSteps(b, c, h) != [] ==> KafkaSteps(b, c, h)[0].Launch?;
    assert WireMockSteps(b, c, h) != [] ==> WireMockSteps(b, c, h)[0].Launch?;
    assert AppSteps(h, cfg.services) != [] ==> AppSteps(h, cfg.services)[0].Launch?;
    hide MySQLSteps, RedisSteps, KafkaSteps, WireMockSteps, AppSteps;
  }

  /** Where that runtime stops a setup: after a prune that came to nothing, at its first start. */
  lemma StopsAtOnce(h: Host, w: World, cfg: ScenarioConfig)
    requires h.loaded.Some? && ScenarioSteps(h, cfg, h.loaded.value) != []
    ensures var o := StartsNothing(w.log[OpenClient]);
            && Pruned(o, w) == w.Logged(OpenClient)
            && StoppedAt(o, h, w, cfg).Some?
            && !StoppedAt(o, h, w, cfg).value.ok
            && StoppedAt(o, h, w, cfg).value.world.log[OpenClient] == w.log[OpenClient] + 1
  {
    var o := StartsNothing(w.log[OpenClient]);
    var clean := Pruned(o, w);
    assert clean == w.Logged(OpenClient);
    PlanStartsWithLaunch(h, cfg, h.loaded.value);
    hide ScenarioSteps;
    FirstStartFails(o, NetworkCreated(o, clean), NewRig(clean.next), ScenarioSteps(h, cfg, h.loaded.value));
    hide Stop;
  }

  lemma FirstStartFails(o: Oracle, w: World, r: Rig, steps: seq<Step>)
    requires steps != [] && steps[0].Launch? && w.FateOf(o, Start(w.next)) == Fails
    ensures var p := Stop(o, w, r, steps); !p.ok && p.world == w.Logged(Start(w.next)).(next := w.next + 1)
  {
    hide Noted, Migrated;
  }

  /** From the next client on, that runtime prunes reliably. */
  lemma LaterPruneTakes(n: nat, w: World, e: Env, c: nat)
    requires e.network.Some? && w.log[OpenClient] == n + 1
    ensures PruneTakes(StartsNothing(n), Disconnected(StartsNothing(n), w, e), c)
  {
    DisconnectCalls(StartsNothing(n), w, e);
    hide Disconnected;
    assert OpenClient !in multiset(set c | c in e.Recorded() :: Terminate(c));
  }

  lemma StartsNothingTakes(h: Host, w: World, cfg: ScenarioConfig, c: nat)
    requires w.WellFormed() && c in w.containers && w.containers[c].Managed()
    requires h.loaded.Some? && ScenarioSteps(h, cfg, h.loaded.value) != []
    ensures Takes(StartsNothing(w.log[OpenClient]), h, w, cfg, c)
  {
    var n := w.log[OpenClient];
    var o := StartsNothing(n);
    StopsAtOnce(h, w, cfg);
    hide StoppedAt, Provisioned, Disconnected, StartsNothing, Pruned, Owns, PruneTakes, Live, HasOrphan;
    SetupStops(o, h, w, cfg);
    SetupTakesIff(o, h, w, cfg, c);
    var p := StoppedAt(o, h, w, cfg).value;
    LaterPruneTakes(n, p.world, p.rig.env, c);
  }

  /** The setup removes a container that has outlived its start-up prune. */
  predicate Takes(o: Oracle, h: Host, w: World, cfg: ScenarioConfig, c: nat) {
    c in Pruned(o, w).containers && c !in Provisioned(o, h, w, cfg).world.containers
  }

  /** Which containers a setup may take can be told before it is made: there is a runtime on which the setup takes a
      container after its start-up prune if and only if the container is managed, the configuration loads, and the
      setup has anything to provision. It does not matter who started the container or what the setup is for. */
  lemma MayTakeIff(h: Host, w: World, cfg: ScenarioConfig, c: nat)
    requires w.WellFormed() && c in w.containers
    ensures (exists o :: Takes(o, h, w, cfg, c)) <==>
            && w.containers[c].Managed()
            && h.loaded.Some? && ScenarioSteps(h, cfg, h.loaded.value) != []
  {
    if w.containers[c].Managed() && h.loaded.Some? && ScenarioSteps(h, cfg, h.loaded.value) != [] {
      StartsNothingTakes(h, w, cfg, c);
    }
    if exists o :: Takes(o, h, w, cfg, c) {
      var o :| Takes(o, h, w, cfg, c);
      TakesOnlyIf(o, h, w, cfg, c);
    }
  }

  lemma TakesOnlyIf(o: Oracle, h: Host, w: World, cfg: ScenarioConfig, c: nat)
    requires w.WellFormed() && c in w.containers && Takes(o, h, w, cfg, c)
    ensures w.containers[c].Managed() && h.loaded.Some? && ScenarioSteps(h, cfg, h.loaded.value) != []
  {
    SetupTakesIff(o, h, w, cfg, c);
    PrunedEvolves(o, w);
    hide Exec, PruneTakes, Disconnected, ScenarioSteps;
  }

  /** A world with nothing but one managed container. */
  function OneManaged(): World {
    World(map[0 := Container(DefaultLabels(""), "", 0)], {}, 1, multiset{})
  }

  /** A setup that takes a container it never created: the start-up prune fails, so the container is still there,
      and as no container can be started the prune of the rollback removes it. */
  lemma SetupTakesBystander(h: Host, cfg: ScenarioConfig)
    requires h.loaded.Some? && cfg.wireMock
    ensures Takes(StartsNothing(0), h, OneManaged(), cfg, 0)
  {
    assert WireMockSteps(BlueprintOf(cfg), h.loaded.value, h) != [];
    StartsNothingTakes(h, OneManaged(), cfg, 0);
  }
}
