/** When a scenario's network goes away. A teardown removes the network before it prunes, so a container
    attached to it that the environment does not record keeps the network alive. */
module Networks {
  import opened Wrappers
  import opened ContainerRuntime
  import opened Environments
  import opened Provisioning
  import opened Builders
  import opened Harness
  import opened Lifecycle
  import opened Plans

  /** Every recorded container exists and is attached to the environment's network. */
  ghost predicate Live(w: World, e: Env) {
    && e.network.Some?
    && forall h :: e.At(h).Some? ==>
                     e.At(h).value in w.containers && w.containers[e.At(h).value].network == e.network.value
  }

  ghost predicate Records(e: Env, c: nat) {
    exists h :: e.At(h) == Some(c)
  }

  /** Containers attached to the environment's network that it does not record. */
  ghost predicate Orphan(w: World, e: Env, c: nat) {
    c in w.containers && e.network == Some(w.containers[c].network) && !Records(e, c)
  }

  ghost predicate HasOrphan(w: World, e: Env) {
    exists c: nat :: Orphan(w, e, c)
  }

  lemma RecordsIffRecorded(e: Env, c: nat)
    ensures Records(e, c) <==> c in e.Recorded()
  {
    if Records(e, c) {
      var h :| e.At(h) == Some(c);
      assert h in e.Holders();
    }
  }

  /** The step leaves a container on the network that the environment does not record: a start that went
      wrong halfway, a container recorded over another one, a migration container that stays. */
  predicate Strands(o: Oracle, w: World, r: Rig, step: Step) {
    match step
    case Launch(slot, _, _) =>
      || w.FateOf(o, Start(w.next)) == FailsHalfway
      || (w.Ok(o, Start(w.next)) && r.env.At(SlotHolder(r.env, slot)).Some?)
    case Migrate(database, directory, image) =>
      var found := w.Logged(Ask(MigrationDirectory(directory)));
      && w.Ok(o, Ask(MigrationDirectory(directory)))
      && (match found.FateOf(o, Start(found.next))
          case Fails => false
          case FailsHalfway => true
          case Succeeds =>
            var c := Container(DefaultLabels("flyway-" + database), image, r.Network());
            Started(o, found, c).Logged(Ask(ExitStatus(database))).FateOf(o, Terminate(found.next)) == Fails)
    case _ => false
  }

  /** Some step strands a container before the plan ends or fails. */
  predicate StrandsAny(o: Oracle, w: World, r: Rig, steps: seq<Step>)
    decreases |steps|
  {
    if steps == [] then false
    else
      var p := Do(o, w, r, steps[0]);
      Strands(o, w, r, steps[0]) || (p.ok && StrandsAny(o, p.world, p.rig, steps[1..]))
  }

  /** Recording a new container in a slot replaces what the slot's place held before and changes nothing else. */
  lemma RecordHolds(r: Rig, slot: Slot, id: nat)
    ensures var place, f := SlotHolder(r.env, slot), r.Record(slot, id).env;
            forall h :: f.At(h) == if h == place then Some(id) else r.env.At(h)
  {
  }

  lemma RecordRecords(w: World, r: Rig, slot: Slot, c: nat)
    requires Sound(w, r.env)
    ensures Records(r.Record(slot, w.next).env, c) <==>
            c == w.next || (Records(r.env, c) && r.env.At(SlotHolder(r.env, slot)) != Some(c))
  {
    var e, place, f := r.env, SlotHolder(r.env, slot), r.Record(slot, w.next).env;
    RecordHolds(r, slot, w.next);
    hide Env.At, Rig.Record, SlotHolder;
    if c != w.next && Records(f, c) {
      var h :| f.At(h) == Some(c);
      assert e.At(h) == Some(c) && h != place;
    }
    if c == w.next {
      assert f.At(place) == Some(c);
    } else if Records(e, c) && e.At(place) != Some(c) {
      var h :| e.At(h) == Some(c);
      assert f.At(h) == Some(c);
    }
  }

  lemma LaunchLive(o: Oracle, w: World, r: Rig, slot: Slot, service: string, image: string)
    requires w.WellFormed() && Live(w, r.env)
    ensures var p := Launched(o, w, r, slot, service, image); Live(p.world, p.rig.env)
  {
    RecordHolds(r, slot, w.next);
    RecordKeepsNetwork(r, slot, w.next);
    hide Env.At, Rig.Record, SlotHolder, DefaultLabels;
  }

  /** A launch makes an orphan of its own container if it goes wrong halfway, and of the one recorded in its
      place before if it succeeds. */
  lemma LaunchOrphan(o: Oracle, w: World, r: Rig, slot: Slot, service: string, image: string, c: nat)
    requires w.WellFormed() && Owns(w, r.env) && Live(w, r.env)
    ensures var p := Launched(o, w, r, slot, service, image);
            Orphan(p.world, p.rig.env, c) <==>
            || Orphan(w, r.env, c)
            || (p.ok && r.env.At(SlotHolder(r.env, slot)) == Some(c))
            || (c == w.next && w.FateOf(o, Start(w.next)) == FailsHalfway)
  {
    RecordRecords(w, r, slot, c);
    RecordKeepsNetwork(r, slot, w.next);
    var place := SlotHolder(r.env, slot);
    assert r.env.At(place) == Some(c) ==> Records(r.env, c);
    assert !Records(r.env, w.next);
    hide Env.At, Rig.Record, SlotHolder, DefaultLabels, Records;
  }

  lemma LaunchStrands(o: Oracle, w: World, r: Rig, slot: Slot, service: string, image: string)
    requires w.WellFormed() && Owns(w, r.env) && Live(w, r.env)
    ensures var p := Launched(o, w, r, slot, service, image);
            && Live(p.world, p.rig.env)
            && (HasOrphan(p.world, p.rig.env) <==>
                  HasOrphan(w, r.env) || Strands(o, w, r, Launch(slot, service, image)))
  {
    var p, e := Launched(o, w, r, slot, service, image), r.env;
    LaunchLive(o, w, r, slot, service, image);
    forall c: nat
      ensures Orphan(p.world, p.rig.env, c) <==>
              || Orphan(w, e, c)
              || (p.ok && e.At(SlotHolder(e, slot)) == Some(c))
              || (c == w.next && w.FateOf(o, Start(w.next)) == FailsHalfway)
    {
      LaunchOrphan(o, w, r, slot, service, image, c);
    }
    assert p.ok == w.Ok(o, Start(w.next));
    hide Orphan, Live, Sound, Env.At, SlotHolder, Launched;
    if HasOrphan(w, e) {
      var c :| Orphan(w, e, c);
      assert Orphan(p.world, p.rig.env, c);
    }
    if p.ok && e.At(SlotHolder(e, slot)).Some? {
      assert Orphan(p.world, p.rig.env, e.At(SlotHolder(e, slot)).value);
    }
    if w.FateOf(o, Start(w.next)) == FailsHalfway {
      assert Orphan(p.world, p.rig.env, w.next);
    }
  }

  /** A migration changes at most one container: its own, which stays exactly when it is stranded. */
  lemma MigratedContainers(o: Oracle, w: World, r: Rig, database: string, directory: string, image: string)
    requires w.WellFormed()
    ensures var c := Container(DefaultLabels("flyway-" + database), image, r.Network());
            Migrated(o, w, r, database, directory, image).world.containers ==
            if Strands(o, w, r, Step.Migrate(database, directory, image)) then w.containers[w.next := c]
            else w.containers
  {
    assert w.next !in w.containers;
    var found := w.Logged(Ask(MigrationDirectory(directory)));
    var launched := Started(o, found, Container(DefaultLabels("flyway-" + database), image, r.Network()));
    RemovedOne(o, launched.Logged(Ask(ExitStatus(database))), w.next, false);
    var c := Container(DefaultLabels("flyway-" + database), image, r.Network());
    assert w.containers[w.next := c] - {w.next} == w.containers;
    hide Removed, DefaultLabels;
  }

  lemma MigrateStrands(o: Oracle, w: World, r: Rig, database: string, directory: string, image: string)
    requires w.WellFormed() && Owns(w, r.env) && Live(w, r.env)
    ensures var p := Migrated(o, w, r, database, directory, image);
            && p.rig == r
            && Live(p.world, r.env)
            && (HasOrphan(p.world, r.env) <==>
                  HasOrphan(w, r.env) || Strands(o, w, r, Step.Migrate(database, directory, image)))
  {
    MigratedContainers(o, w, r, database, directory, image);
    var p := Migrated(o, w, r, database, directory, image);
    assert p.rig == r && !Records(r.env, w.next);
    if Strands(o, w, r, Step.Migrate(database, directory, image)) {
      hide Migrated, Strands, Sound;
      assert Orphan(p.world, r.env, w.next);
    } else {
      hide Migrated, Strands, Sound;
      SameHolders(w, p.world, r.env, r.env);
    }
  }

  /** Orphans depend only on the containers, the network and what is recorded. */
  lemma SameHolders(w: World, v: World, e: Env, f: Env)
    requires v.containers == w.containers && f.network == e.network && forall h :: f.At(h) == e.At(h)
    ensures Live(v, f) <==> Live(w, e)
    ensures HasOrphan(v, f) <==> HasOrphan(w, e)
  {
    assert forall c: nat :: Records(f, c) <==> Records(e, c);
    assert forall c: nat :: Orphan(v, f, c) <==> Orphan(w, e, c);
  }

  lemma DoStrands(o: Oracle, w: World, r: Rig, step: Step)
    requires w.WellFormed() && Owns(w, r.env) && Live(w, r.env)
    ensures var p := Do(o, w, r, step);
            Live(p.world, p.rig.env) &&
            (HasOrphan(p.world, p.rig.env) <==> HasOrphan(w, r.env) || Strands(o, w, r, step))
  {
    var p := Do(o, w, r, step);
    match step
    case Launch(slot, service, image) => LaunchStrands(o, w, r, slot, service, image);
    case Migrate(database, directory, image) => MigrateStrands(o, w, r, database, directory, image);
    case _ =>
      LoggedOnly(o, w, r, step);
      SameHolders(w, p.world, r.env, p.rig.env);
  }

  /** The state a run is in when it ends or when its failing step has been made, before any teardown. */
  function Stop(o: Oracle, w: World, r: Rig, steps: seq<Step>): Progressed
    decreases |steps|
  {
    if steps == [] then Progressed(w, r, true)
    else
      var p := Do(o, w, r, steps[0]);
      if p.ok then Stop(o, p.world, p.rig, steps[1..]) else p
  }

  lemma {:induction false} StopStrands(o: Oracle, w: World, r: Rig, steps: seq<Step>)
    requires w.WellFormed() && Owns(w, r.env) && Live(w, r.env)
    ensures var p := Stop(o, w, r, steps);
            && Exec(o, w, r, steps) ==
               (if p.ok then Ready(p.world, p.rig) else Failed(TornDown(o, p.world, p.rig.env)))
            && p.world.WellFormed() && Owns(p.world, p.rig.env) && p.rig.env.network == r.env.network
            && Live(p.world, p.rig.env)
            && (HasOrphan(p.world, p.rig.env) <==> HasOrphan(w, r.env) || StrandsAny(o, w, r, steps))
    decreases |steps|
  {
    if steps != [] {
      DoStrands(o, w, r, steps[0]);
      DoEvolves(o, w, r, steps[0]);
      var p := Do(o, w, r, steps[0]);
      if p.ok {
        StopStrands(o, p.world, p.rig, steps[1..]);
      }
    }
  }

  /** The runtime refuses no call a teardown makes before it prunes. */
  ghost predicate Releases(o: Oracle, w: World, e: Env) {
    && (forall c <- e.Recorded() :: w.FateOf(o, Terminate(c)) != Fails)
    && e.network.Some?
    && Terminated(o, w, e).FateOf(o, RemoveNetwork(e.network.value)) != Fails
  }

  /** For any runtime: a teardown removes the network if and only if the removal is not refused and nothing
      attached to the network outlives the terminations. */
  lemma NetworkGoesIff(o: Oracle, w: World, e: Env)
    requires w.WellFormed() && Owns(w, e) && e.network.value in w.networks
    ensures e.network.value !in TornDown(o, w, e).networks <==>
            && Terminated(o, w, e).FateOf(o, RemoveNetwork(e.network.value)) != Fails
            && forall c <- w.Attached(e.network.value) :: c in e.Recorded() && w.FateOf(o, Terminate(c)) != Fails
  {
    var v := Terminated(o, w, e);
    assert forall c :: c in v.Attached(e.network.value) <==>
             c in w.Attached(e.network.value) && (c !in e.Recorded() || w.FateOf(o, Terminate(c)) == Fails);
    assert v.Attached(e.network.value) == {} <==> forall c :: c !in v.Attached(e.network.value);
  }

  /** For any runtime: a teardown of a live environment leaves its network exactly when a call before the prune
      is refused or a container attached to the network is not recorded. */
  lemma NetworkStaysIff(o: Oracle, w: World, e: Env)
    requires w.WellFormed() && Owns(w, e) && Live(w, e) && e.network.value in w.networks
    ensures e.network.value in TornDown(o, w, e).networks <==> HasOrphan(w, e) || !Releases(o, w, e)
  {
    hide TornDown, Evolves, Terminated, Sound;
    NetworkGoesIff(o, w, e);
    var attached := w.Attached(e.network.value);
    forall c | c in e.Recorded()
      ensures c in attached
    {
      RecordsIffRecorded(e, c);
      var h :| e.At(h) == Some(c);
    }
    forall c: nat
      ensures Orphan(w, e, c) <==> c in attached && c !in e.Recorded()
    {
      RecordsIffRecorded(e, c);
    }
    if HasOrphan(w, e) {
      var c :| Orphan(w, e, c);
      assert c in attached && c !in e.Recorded();
    }
  }

  /** For every plan, every failure point and any runtime: the network leaks if and only if something was
      stranded on it or the rollback is refused a call before its prune. */
  lemma FailedExecLeaksNetworkIff(o: Oracle, w: World, r: Rig, steps: seq<Step>)
    requires w.WellFormed() && Owns(w, r.env) && Live(w, r.env) && r.env.network.value in w.networks
    requires Exec(o, w, r, steps).Failed?
    ensures var p := Stop(o, w, r, steps);
            r.env.network.value in Exec(o, w, r, steps).world.networks <==>
            HasOrphan(w, r.env) || StrandsAny(o, w, r, steps) || !Releases(o, p.world, p.rig.env)
  {
    StopStrands(o, w, r, steps);
    var p := Stop(o, w, r, steps);
    StopKeepsNetworks(o, w, r, steps);
    NetworkStaysIff(o, p.world, p.rig.env);
  }

  lemma {:induction false} StopKeepsNetworks(o: Oracle, w: World, r: Rig, steps: seq<Step>)
    ensures Stop(o, w, r, steps).world.networks == w.networks
    decreases |steps|
  {
    if steps != [] {
      var p := Do(o, w, r, steps[0]);
      if p.ok {
        StopKeepsNetworks(o, p.world, p.rig, steps[1..]);
      }
    }
  }

  // ----- a whole setup

  lemma FreshRig(o: Oracle, w: World)
    requires w.WellFormed() && w.Ok(o, CreateNetwork(w.next))
    ensures var v, r := NetworkCreated(o, w), NewRig(w.next);
            && Live(v, r.env) && !HasOrphan(v, r.env) && Owns(v, r.env) && v.WellFormed()
            && v.networks == w.networks + {w.next} && w.next !in w.networks
  {
    NewRigOwned(o, w);
  }

  lemma TornDownNetworks(o: Oracle, w: World, e: Env)
    requires e.network.Some?
    ensures var n := e.network.value;
            TornDown(o, w, e).networks == if n in TornDown(o, w, e).networks then w.networks else w.networks - {n}
  {
  }

  /** Where a setup stands when its plan has completed or the failing step has been made; absent if it fails
      before it has a network. */
  function StoppedAt(o: Oracle, h: Host, w: World, cfg: ScenarioConfig): Option<Progressed> {
    var clean := Pruned(o, w);
    if h.loaded.None? || !clean.Ok(o, CreateNetwork(clean.next)) then None
    else Some(Stop(o, NetworkCreated(o, clean), NewRig(clean.next), ScenarioSteps(h, cfg, h.loaded.value)))
  }

  /** Some step of the setup's plan strands a container. */
  predicate SetupStrands(o: Oracle, h: Host, w: World, cfg: ScenarioConfig) {
    var clean := Pruned(o, w);
    h.loaded.Some? &&
    StrandsAny(o, NetworkCreated(o, clean), NewRig(clean.next), ScenarioSteps(h, cfg, h.loaded.value))
  }

  /** A setup is its plan, run from a world in which only its network is new. */
  lemma SetupIsPlan(o: Oracle, h: Host, w: World, cfg: ScenarioConfig)
    requires h.loaded.Some? && Pruned(o, w).Ok(o, CreateNetwork(Pruned(o, w).next))
    ensures var clean := Pruned(o, w);
            Provisioned(o, h, w, cfg) ==
            Exec(o, NetworkCreated(o, clean), NewRig(clean.next), ScenarioSteps(h, cfg, h.loaded.value))
  {
    hide Exec, BackingSteps, AppSteps;
    var clean := Pruned(o, w);
    ExecAppend(o, NetworkCreated(o, clean), NewRig(clean.next), BackingSteps(BlueprintOf(cfg), h.loaded.value, h),
               AppSteps(h, cfg.services));
  }

  /** The state a setup has reached when it ends or rolls back. */
  lemma SetupStops(o: Oracle, h: Host, w: World, cfg: ScenarioConfig)
    requires w.WellFormed() && StoppedAt(o, h, w, cfg).Some?
    ensures var p, net := StoppedAt(o, h, w, cfg).value, Pruned(o, w).next;
            && Provisioned(o, h, w, cfg) ==
               (if p.ok then Ready(p.world, p.rig) else Failed(TornDown(o, p.world, p.rig.env)))
            && p.world.WellFormed() && Owns(p.world, p.rig.env) && p.rig.env.network == Some(net)
            && Live(p.world, p.rig.env)
            && (HasOrphan(p.world, p.rig.env) <==> SetupStrands(o, h, w, cfg))
            && p.world.networks == w.networks + {net} && net !in w.networks
  {
    hide Exec, Stop, TornDown, Live, HasOrphan, ScenarioSteps, Evolves, Provisioned, StrandsAny, Sound;
    var clean := Pruned(o, w);
    PrunedEvolves(o, w);
    PruneKeepsNetworks(o, w);
    FreshRig(o, clean);
    SetupIsPlan(o, h, w, cfg);
    StopStrands(o, NetworkCreated(o, clean), NewRig(clean.next), ScenarioSteps(h, cfg, h.loaded.value));
    StopKeepsNetworks(o, NetworkCreated(o, clean), NewRig(clean.next), ScenarioSteps(h, cfg, h.loaded.value));
  }

  lemma PruneKeepsNetworks(o: Oracle, w: World)
    ensures Pruned(o, w).networks == w.networks
  {
  }

  /** The creation of the setup's network reports an error although it took effect. Nothing records the network, so
      nothing will ever remove it. */
  predicate CreationStrands(o: Oracle, h: Host, w: World) {
    h.loaded.Some? && Pruned(o, w).FateOf(o, CreateNetwork(Pruned(o, w).next)) == FailsHalfway
  }

  /** For any runtime: a failed setup leaks a network if and only if its creation went wrong halfway, or it was
      created and either a step stranded a container on it or the rollback is refused a call before its prune; all
      other networks are as before. */
  lemma FailedSetupLeaksNetworkIff(o: Oracle, h: Host, w: World, cfg: ScenarioConfig)
    requires w.WellFormed() && Provisioned(o, h, w, cfg).Failed?
    ensures var s := StoppedAt(o, h, w, cfg);
            Provisioned(o, h, w, cfg).world.networks ==
            if || CreationStrands(o, h, w)
               || (s.Some? && (SetupStrands(o, h, w, cfg) || !Releases(o, s.value.world, s.value.rig.env)))
            then w.networks + {Pruned(o, w).next} else w.networks
  {
    PruneKeepsNetworks(o, w);
    hide Exec, Stop, TornDown, Live, Evolves, HasOrphan, SetupStrands, Releases, Pruned, Sound;
    if StoppedAt(o, h, w, cfg).Some? {
      SetupStops(o, h, w, cfg);
      var p := StoppedAt(o, h, w, cfg).value;
      hide StoppedAt, Provisioned;
      NetworkStaysIff(o, p.world, p.rig.env);
      TornDownNetworks(o, p.world, p.rig.env);
    }
  }

  // ----- setup followed by teardown

  predicate Duplicates<T(==)>(s: seq<T>) {
    exists i, j :: 0 <= i < j < |s| && s[i] == s[j]
  }

  /** The plan launches a single service no more often than there is room for. */
  ghost predicate FitsSlot(e: Env, steps: seq<Step>, slot: Slot) {
    Launches(steps, slot) + (if e.At(SlotHolder(e, slot)).Some? then 1 else 0) <= 1
  }

  ghost predicate Fits(e: Env, steps: seq<Step>) {
    FitsSlot(e, steps, MySQL) && FitsSlot(e, steps, Kafka) && FitsSlot(e, steps, WireMock)
  }

  /** Some migration container of the plan stays. */
  predicate MigrationStays(o: Oracle, w: World, r: Rig, steps: seq<Step>)
    decreases |steps|
  {
    if steps == [] then false
    else
      var p := Do(o, w, r, steps[0]);
      (steps[0].Migrate? && Strands(o, w, r, steps[0])) || (p.ok && MigrationStays(o, p.world, p.rig, steps[1..]))
  }

  /** A start that succeeds strands a container exactly when its place is taken. */
  lemma CompletedStrands(o: Oracle, w: World, r: Rig, step: Step)
    requires Do(o, w, r, step).ok && !step.Migrate?
    ensures Strands(o, w, r, step) <==> step.Launch? && r.env.At(SlotHolder(r.env, step.slot)).Some?
  {
    hide Started, Migrated;
  }

  lemma LaunchFitsSlot(r: Rig, steps: seq<Step>, id: nat, single: Slot)
    requires steps != [] && steps[0].Launch? && FitsSlot(r.env, steps, single)
    requires single.MySQL? || single.Kafka? || single.WireMock?
    ensures FitsSlot(r.Record(steps[0].slot, id).env, steps[1..], single)
  {
    RecordHolds(r, steps[0].slot, id);
    hide Env.At, Rig.Record;
  }

  lemma SameFits(e: Env, f: Env, steps: seq<Step>)
    requires steps != [] && !steps[0].Launch? && Fits(e, steps)
    requires forall h :: f.At(h) == e.At(h)
    ensures Fits(f, steps[1..])
  {
    hide Env.At;
  }

  lemma RecordFits(r: Rig, steps: seq<Step>, id: nat)
    requires steps != [] && steps[0].Launch? && Fits(r.env, steps)
    ensures var f := r.Record(steps[0].slot, id).env;
            && Fits(f, steps[1..])
            && f.redis.Keys == r.env.redis.Keys + (if steps[0].slot.Redis? then {steps[0].slot.alias} else {})
            && (r.env.At(SlotHolder(r.env, steps[0].slot)).Some? <==>
                  steps[0].slot.Redis? && steps[0].slot.alias in r.env.redis)
  {
    LaunchFitsSlot(r, steps, id, MySQL);
    LaunchFitsSlot(r, steps, id, Kafka);
    LaunchFitsSlot(r, steps, id, WireMock);
    RoomFor(r.env, steps, steps[0].slot);
    hide Fits, FitsSlot;
  }

  /** There is room for a single service that is about to be launched. */
  lemma RoomFor(e: Env, steps: seq<Step>, slot: Slot)
    requires steps != [] && steps[0].Launch? && steps[0].slot == slot && Fits(e, steps)
    ensures slot.MySQL? || slot.Kafka? || slot.WireMock? ==> e.At(SlotHolder(e, slot)).None?
  {
  }

  lemma CompletedFits(o: Oracle, w: World, r: Rig, steps: seq<Step>)
    requires steps != [] && Do(o, w, r, steps[0]).ok && Fits(r.env, steps)
    ensures var p := Do(o, w, r, steps[0]);
            && Fits(p.rig.env, steps[1..])
            && (if steps[0].Launch? && steps[0].slot.Redis? then
                  && p.rig.env.redis.Keys == r.env.redis.Keys + {steps[0].slot.alias}
                  && (Strands(o, w, r, steps[0]) <==> steps[0].slot.alias in r.env.redis)
                else
                  && p.rig.env.redis.Keys == r.env.redis.Keys
                  && (Strands(o, w, r, steps[0]) ==> steps[0].Migrate?))
  {
    match steps[0]
    case Migrate(database, directory, image) =>
      MigratedKeepsRig(o, w, r, database, directory, image);
      SameFits(r.env, r.env, steps);
      hide Migrated, Strands, Fits;
    case Launch(slot, service, image) =>
      CompletedStrands(o, w, r, steps[0]);
      RecordFits(r, steps, w.next);
      hide Strands, Started, Fits, Env.At, SlotHolder, Rig.Record;
    case _ =>
      LoggedOnly(o, w, r, steps[0]);
      CompletedStrands(o, w, r, steps[0]);
      SameFits(r.env, Do(o, w, r, steps[0]).rig.env, steps);
      hide Do, Strands, Fits;
  }

  /** A plan that completes, on any runtime, has stranded a container exactly when it launches an alias twice or
      a migration container stays. */
  lemma {:induction false} StrandsIffDuplicate(o: Oracle, w: World, r: Rig, steps: seq<Step>, before: seq<string>)
    requires Stop(o, w, r, steps).ok && Fits(r.env, steps)
    requires r.env.redis.Keys == (set a | a in before)
    requires !Duplicates(before)
    ensures StrandsAny(o, w, r, steps) <==> Duplicates(before + Aliases(steps)) || MigrationStays(o, w, r, steps)
    decreases |steps|
  {
    hide Do, Strands, Fits;
    if steps == [] {
      assert before + [] == before;
    } else {
      CompletedFits(o, w, r, steps);
      var p := Do(o, w, r, steps[0]);
      if steps[0].Launch? && steps[0].slot.Redis? {
        var alias := steps[0].slot.alias;
        assert before + Aliases(steps) == (before + [alias]) + Aliases(steps[1..]);
        if alias in before {
          var i :| 0 <= i < |before| && before[i] == alias;
          var all := before + Aliases(steps);
          assert all[i] == all[|before|];
        } else {
          StrandsIffDuplicate(o, p.world, p.rig, steps[1..], before + [alias]);
        }
      } else {
        assert Aliases(steps) == Aliases(steps[1..]);
        StrandsIffDuplicate(o, p.world, p.rig, steps[1..], before);
      }
    }
  }

  /** Whether a setup's plan leaves a migration container. */
  predicate SetupLeavesMigration(o: Oracle, h: Host, w: World, cfg: ScenarioConfig) {
    var clean := Pruned(o, w);
    h.loaded.Some? &&
    MigrationStays(o, NetworkCreated(o, clean), NewRig(clean.next), ScenarioSteps(h, cfg, h.loaded.value))
  }

  lemma ReadyStrandsIff(o: Oracle, h: Host, w: World, cfg: ScenarioConfig)
    requires StoppedAt(o, h, w, cfg).Some? && StoppedAt(o, h, w, cfg).value.ok
    ensures SetupStrands(o, h, w, cfg) <==> Duplicates(cfg.redisInstances) || SetupLeavesMigration(o, h, w, cfg)
  {
    hide Stop, StrandsAny, MigrationStays, ScenarioSteps;
    var clean := Pruned(o, w);
    PlanLaunches(h, cfg, h.loaded.value);
    assert [] + cfg.redisInstances == cfg.redisInstances;
    StrandsIffDuplicate(o, NetworkCreated(o, clean), NewRig(clean.next), ScenarioSteps(h, cfg, h.loaded.value), []);
  }

  lemma ReadyRestoresIff(o: Oracle, h: Host, w: World, cfg: ScenarioConfig)
    requires w.WellFormed() && StoppedAt(o, h, w, cfg).Some? && StoppedAt(o, h, w, cfg).value.ok
    ensures var p := StoppedAt(o, h, w, cfg).value;
            TornDown(o, p.world, p.rig.env).networks == w.networks <==>
            !SetupStrands(o, h, w, cfg) && Releases(o, p.world, p.rig.env)
  {
    hide TornDown, Live, HasOrphan, SetupStrands, StoppedAt, Releases, Provisioned, Pruned, Owns;
    SetupStops(o, h, w, cfg);
    var p := StoppedAt(o, h, w, cfg).value;
    NetworkStaysIff(o, p.world, p.rig.env);
    TornDownNetworks(o, p.world, p.rig.env);
  }

  lemma ReadyStops(o: Oracle, h: Host, w: World, cfg: ScenarioConfig)
    requires w.WellFormed() && Provisioned(o, h, w, cfg).Ready?
    ensures var s := StoppedAt(o, h, w, cfg);
            s.Some? && s.value.ok && Provisioned(o, h, w, cfg) == Ready(s.value.world, s.value.rig)
  {
    assert StoppedAt(o, h, w, cfg).Some?;
    hide StoppedAt, Provisioned, Live, HasOrphan, SetupStrands, Owns, Pruned, TornDown;
    SetupStops(o, h, w, cfg);
  }

  /** On any runtime: tearing a fresh scenario down gives back exactly the networks there were before its setup,
      if and only if its Redis aliases are distinct, no migration container stayed behind, and the teardown is
      refused no call before its prune. */
  lemma SessionRestoresNetworksIff(o: Oracle, h: Host, w: World, cfg: ScenarioConfig)
    requires w.WellFormed() && Provisioned(o, h, w, cfg).Ready?
    ensures var out := Provisioned(o, h, w, cfg);
            TornDown(o, out.world, out.rig.env).networks == w.networks <==>
            && !Duplicates(cfg.redisInstances)
            && !SetupLeavesMigration(o, h, w, cfg)
            && Releases(o, out.world, out.rig.env)
  {
    hide TornDown, SetupStrands, SetupLeavesMigration, StoppedAt, Releases, Provisioned, Duplicates;
    ReadyStops(o, h, w, cfg);
    ReadyRestoresIff(o, h, w, cfg);
    ReadyStrandsIff(o, h, w, cfg);
  }

  // ----- on a runtime that never fails

  /** Every call succeeds, except perhaps the creation of a network, and every broker lookup names a broker. */
  ghost predicate Smooth(o: Oracle) {
    && (forall call: Call, n: nat :: !call.CreateNetwork? ==> o.fate(call, n) == Succeeds)
    && (forall call, n :: |o.brokers(call, n)| > 0)
  }

  ghost predicate Flawless(o: Oracle) {
    Smooth(o) && forall call, n :: o.fate(call, n) == Succeeds
  }

  lemma SmoothMigrate(o: Oracle, w: World, r: Rig, database: string, directory: string, image: string)
    requires Smooth(o)
    ensures Migrated(o, w, r, database, directory, image).ok
    ensures !Strands(o, w, r, Step.Migrate(database, directory, image))
  {
    hide Removed, Started;
  }

  lemma SmoothNoted(o: Oracle, w: World, r: Rig, step: Step)
    requires Smooth(o) && !step.Launch? && !step.Migrate?
    ensures Noted(o, w, r, step).ok
  {
  }

  lemma SmoothStep(o: Oracle, w: World, r: Rig, step: Step)
    requires Smooth(o)
    ensures Do(o, w, r, step).ok
    ensures Strands(o, w, r, step) <==> step.Launch? && r.env.At(SlotHolder(r.env, step.slot)).Some?
  {
    assert step.Launch? ==> w.Ok(o, Start(w.next));
    hide Smooth, Noted, Migrated, Env.At, SlotHolder, Rig.Record, Started;
    match step
    case Migrate(database, directory, image) => SmoothMigrate(o, w, r, database, directory, image);
    case Launch(_, _, _) =>
    case _ => SmoothNoted(o, w, r, step);
  }

  lemma {:induction false} SmoothExec(o: Oracle, w: World, r: Rig, steps: seq<Step>)
    requires Smooth(o)
    ensures Exec(o, w, r, steps).Ready?
    ensures Stop(o, w, r, steps) == Progressed(Exec(o, w, r, steps).world, Exec(o, w, r, steps).rig, true)
    decreases |steps|
  {
    if steps != [] {
      SmoothStep(o, w, r, steps[0]);
      var p := Do(o, w, r, steps[0]);
      SmoothExec(o, p.world, p.rig, steps[1..]);
    }
  }

  lemma {:induction false} SmoothMigrations(o: Oracle, w: World, r: Rig, steps: seq<Step>)
    requires Smooth(o)
    ensures !MigrationStays(o, w, r, steps)
    decreases |steps|
  {
    hide Smooth, Strands;
    if steps != [] {
      SmoothStep(o, w, r, steps[0]);
      var p := Do(o, w, r, steps[0]);
      SmoothMigrations(o, p.world, p.rig, steps[1..]);
    }
  }

  /** On a flawless runtime every scenario whose configuration loads is provisioned, and tearing it down
      gives back exactly the networks there were before, if and only if its Redis aliases are distinct. */
  lemma FlawlessSessionRestoresNetworksIff(o: Oracle, h: Host, w: World, cfg: ScenarioConfig)
    requires Flawless(o) && h.loaded.Some? && w.WellFormed()
    ensures Provisioned(o, h, w, cfg).Ready?
    ensures var out := Provisioned(o, h, w, cfg);
            TornDown(o, out.world, out.rig.env).networks == w.networks <==> !Duplicates(cfg.redisInstances)
  {
    hide Exec, TornDown, ScenarioSteps, BackingSteps, AppSteps, Live, HasOrphan, MigrationStays, Provisioned;
    var clean := Pruned(o, w);
    var v, r, steps := NetworkCreated(o, clean), NewRig(clean.next), ScenarioSteps(h, cfg, h.loaded.value);
    SetupIsPlan(o, h, w, cfg);
    SmoothExec(o, v, r, steps);
    SmoothMigrations(o, v, r, steps);
    hide Pruned, NetworkCreated;
    SessionRestoresNetworksIff(o, h, w, cfg);
    var out := Provisioned(o, h, w, cfg);
    assert out.rig.env.network.Some? by {
      SetupStops(o, h, w, cfg);
    }
  }
}
