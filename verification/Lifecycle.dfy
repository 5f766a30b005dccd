/** What provisioning and teardown keep, for every configuration and every way the runtime can fail: foreign
    containers are never touched, nothing leaks, and a teardown's survivors are known exactly. */
module Lifecycle {
  import opened Wrappers
  import opened ContainerRuntime
  import opened Environments
  import opened Provisioning
  import opened Builders
  import opened Harness

  /** What every step of the harness keeps between two worlds: containers not labelled as managed stay as
      they are, new containers are managed and have new identifiers, identifiers are never reused, and
      networks disappear only if they are among `mine`. */
  ghost predicate Evolves(w: World, v: World, mine: set<nat>) {
    && w.next <= v.next
    && (forall c <- w.containers ::
          !w.containers[c].Managed() ==> c in v.containers && v.containers[c] == w.containers[c])
    && (forall c <- v.containers ::
          if c < w.next then c in w.containers && v.containers[c] == w.containers[c]
          else c < v.next && v.containers[c].Managed())
    && (forall n <- w.networks :: n in v.networks || n in mine)
    && (forall n <- v.networks :: n in w.networks || w.next <= n)
  }

  lemma EvolvesNot(w: World)
    requires w.WellFormed()
    ensures Evolves(w, w, {})
  {
  }

  lemma EvolvesThen(w: World, v: World, u: World, first: set<nat>, second: set<nat>, mine: set<nat>)
    requires Evolves(w, v, first) && Evolves(v, u, second)
    requires first <= mine && forall n <- second :: n in mine || w.next <= n
    requires w.WellFormed()
    ensures Evolves(w, u, mine)
  {
  }

  /** What an environment records is managed as long as it exists. */
  ghost predicate Owns(w: World, e: Env) {
    && Sound(w, e)
    && e.network.Some? && e.network.value < w.next
    && forall h :: e.At(h).Some? && e.At(h).value in w.containers ==> w.containers[e.At(h).value].Managed()
  }

  lemma OwnsStill(w: World, v: World, e: Env, mine: set<nat>)
    requires Owns(w, e) && Evolves(w, v, mine)
    ensures Owns(v, e)
  {
  }

  lemma PrunedEvolves(o: Oracle, w: World)
    requires w.WellFormed()
    ensures Evolves(w, Pruned(o, w), {}) && Pruned(o, w).WellFormed() && Pruned(o, w).next == w.next
  {
  }

  lemma RecordedAt(w: World, e: Env, c: nat)
    requires Owns(w, e) && c in e.Recorded() && c in w.containers
    ensures w.containers[c].Managed()
  {
  }

  lemma TornDownEvolves(o: Oracle, w: World, e: Env)
    requires w.WellFormed() && Owns(w, e)
    ensures Evolves(w, TornDown(o, w, e), {e.network.value}) && TornDown(o, w, e).WellFormed()
  {
    var released := Disconnected(o, w, e);
    forall c | c in w.containers && !w.containers[c].Managed()
      ensures c !in e.Recorded()
    {
      if c in e.Recorded() {
        RecordedAt(w, e, c);
      }
    }
    assert Evolves(w, released, {e.network.value});
    assert released.WellFormed();
    PrunedEvolves(o, released);
    EvolvesThen(w, released, TornDown(o, w, e), {e.network.value}, {}, {e.network.value});
  }

  lemma LoggedEvolves(w: World, call: Call)
    requires w.WellFormed()
    ensures Evolves(w, w.Logged(call), {}) && w.Logged(call).WellFormed()
  {
  }

  lemma StartedEvolves(o: Oracle, w: World, c: Container)
    requires w.WellFormed() && c.Managed() && c.network < w.next
    ensures Evolves(w, Started(o, w, c), {}) && Started(o, w, c).WellFormed()
  {
  }

  lemma RemovedEvolves(o: Oracle, w: World, ids: set<nat>, force: bool)
    requires w.WellFormed() && forall c <- ids :: c in w.containers ==> w.containers[c].Managed()
    ensures Evolves(w, Removed(o, w, ids, force), {}) && Removed(o, w, ids, force).WellFormed()
  {
  }

  lemma MigratedEvolves(o: Oracle, w: World, r: Rig, database: string, directory: string, image: string)
    requires w.WellFormed() && r.Network() < w.next
    ensures var v := Migrated(o, w, r, database, directory, image).world; Evolves(w, v, {}) && v.WellFormed()
  {
    var found := w.Logged(Ask(MigrationDirectory(directory)));
    LoggedEvolves(w, Ask(MigrationDirectory(directory)));
    if w.Ok(o, Ask(MigrationDirectory(directory))) {
      var launched := Started(o, found, Container(DefaultLabels("flyway-" + database), image, r.Network()));
      StartedEvolves(o, found, Container(DefaultLabels("flyway-" + database), image, r.Network()));
      EvolvesThen(w, found, launched, {}, {}, {});
      if found.Ok(o, Start(found.next)) {
        var stated := launched.Logged(Ask(ExitStatus(database)));
        LoggedEvolves(launched, Ask(ExitStatus(database)));
        EvolvesThen(w, launched, stated, {}, {}, {});
        RemovedEvolves(o, stated, {found.next}, false);
        EvolvesThen(w, stated, Removed(o, stated, {found.next}, false), {}, {}, {});
      }
    }
  }

  lemma LaunchedEvolves(o: Oracle, w: World, r: Rig, slot: Slot, service: string, image: string)
    requires w.WellFormed() && Owns(w, r.env)
    ensures var p := Launched(o, w, r, slot, service, image);
            Evolves(w, p.world, {}) && p.world.WellFormed() && Owns(p.world, p.rig.env)
  {
    var p := Launched(o, w, r, slot, service, image);
    StartedEvolves(o, w, Container(DefaultLabels(service), image, r.Network()));
    OwnsStill(w, p.world, r.env, {});
    RecordSound(w, r, slot, w.next);
    forall h | p.rig.env.At(h).Some? && h != SlotHolder(r.env, slot)
      ensures p.rig.env.At(h) == r.env.At(h)
    {
    }
  }

  lemma DoEvolves(o: Oracle, w: World, r: Rig, step: Step)
    requires w.WellFormed() && Owns(w, r.env)
    ensures var p := Do(o, w, r, step);
            Evolves(w, p.world, {}) && p.world.WellFormed() && Owns(p.world, p.rig.env) &&
            p.rig.env.network == r.env.network
  {
    var p := Do(o, w, r, step);
    DoSound(o, w, r, step);
    match step
    case Launch(slot, service, image) => LaunchedEvolves(o, w, r, slot, service, image);
    case Migrate(database, directory, image) =>
      MigratedEvolves(o, w, r, database, directory, image);
      OwnsStill(w, p.world, r.env, {});
    case _ =>
      LoggedOnly(o, w, r, step);
      hide Do;
  }

  lemma {:induction false} ExecEvolves(o: Oracle, w: World, r: Rig, steps: seq<Step>)
    requires w.WellFormed() && Owns(w, r.env)
    ensures var out := Exec(o, w, r, steps);
            && Evolves(w, out.world, {r.env.network.value})
            && out.world.WellFormed()
            && (out.Ready? ==>
                  Evolves(w, out.world, {}) && Owns(out.world, out.rig.env) && out.rig.env.network == r.env.network)
    decreases |steps|
  {
    if steps != [] {
      DoEvolves(o, w, r, steps[0]);
      var p := Do(o, w, r, steps[0]);
      if p.ok {
        ExecEvolves(o, p.world, p.rig, steps[1..]);
        var out := Exec(o, w, r, steps);
        EvolvesThen(w, p.world, out.world, {}, {r.env.network.value}, {r.env.network.value});
        if out.Ready? {
          EvolvesThen(w, p.world, out.world, {}, {}, {});
        }
      } else {
        TornDownEvolves(o, p.world, p.rig.env);
        EvolvesThen(w, p.world, Exec(o, w, r, steps).world, {}, {r.env.network.value}, {r.env.network.value});
      }
    }
  }

  lemma NewRigOwned(o: Oracle, w: World)
    requires w.WellFormed()
    ensures var v := NetworkCreated(o, w);
            Evolves(w, v, {}) && v.WellFormed() && Owns(v, NewRig(w.next).env)
  {
    assert forall h :: NewRig(w.next).env.At(h).None?;
  }

  lemma BuiltEvolves(o: Oracle, h: Host, w: World, b: Blueprint)
    requires w.WellFormed()
    ensures var out := Built(o, h, w, b);
            && Evolves(Pruned(o, w), out.world, {}) && out.world.WellFormed()
            && (out.Ready? ==> Owns(out.world, out.rig.env) && w.next <= out.rig.env.network.value)
  {
    var clean := Pruned(o, w);
    PrunedEvolves(o, w);
    var cfg := if b.cfg.Some? then b.cfg else h.loaded;
    if cfg.Some? {
      NewRigOwned(o, clean);
      var created := NetworkCreated(o, clean);
      if clean.Ok(o, CreateNetwork(clean.next)) {
        ExecEvolves(o, created, NewRig(clean.next), BackingSteps(b, cfg.value, h));
        EvolvesThen(clean, created, Built(o, h, w, b).world, {}, {clean.next}, {});
      }
    }
  }

  /** Provisioning a scenario starts with a prune. From its start to its end it leaves every unmanaged container
      and every network it did not create alone, and starts managed containers only, whether it succeeds or fails. */
  lemma ProvisionedEvolves(o: Oracle, h: Host, w: World, cfg: ScenarioConfig)
    requires w.WellFormed()
    ensures var out := Provisioned(o, h, w, cfg);
            && Evolves(Pruned(o, w), out.world, {}) && Evolves(w, out.world, {}) && out.world.WellFormed()
            && (out.Ready? ==> Owns(out.world, out.rig.env) && w.next <= out.rig.env.network.value)
  {
    hide Pruned, Built, Owns, Exec, BlueprintOf;
    var built, clean := Built(o, h, w, BlueprintOf(cfg)), Pruned(o, w);
    BuiltEvolves(o, h, w, BlueprintOf(cfg));
    PrunedEvolves(o, w);
    if built.Ready? {
      ExecEvolves(o, built.world, built.rig, AppSteps(h, cfg.services));
      EvolvesThen(clean, built.world, Provisioned(o, h, w, cfg).world, {}, {built.rig.env.network.value}, {});
    }
    EvolvesThen(w, clean, Provisioned(o, h, w, cfg).world, {}, {}, {});
  }

  // ----- no leaks

  /** Label pruning can be relied on: its client, its listing and its removals never fail. */
  ghost predicate PruneWorks(o: Oracle) {
    forall call: Call, n: nat ::
      call.OpenClient? || call.ListManaged? || call.ForceRemove? ==> o.fate(call, n) == Succeeds
  }

  /** The containers a world keeps when everything managed is gone. */
  function Foreign(w: World): map<nat, Container> {
    map c | c in w.containers && !w.containers[c].Managed() :: w.containers[c]
  }

  lemma PruneLeavesForeign(o: Oracle, w: World)
    requires PruneWorks(o)
    ensures Pruned(o, w).containers == Foreign(w)
  {
  }

  lemma ForeignKept(w: World, v: World, mine: set<nat>)
    requires Evolves(w, v, mine)
    ensures Foreign(v) == Foreign(w)
  {
  }

  lemma TornDownLeavesForeign(o: Oracle, w: World, e: Env)
    requires w.WellFormed() && Owns(w, e) && PruneWorks(o)
    ensures TornDown(o, w, e).containers == Foreign(w)
  {
    hide Disconnected, Pruned, Evolves, Sound;
    var released := Disconnected(o, w, e);
    PruneLeavesForeign(o, released);
    TornDownEvolves(o, w, e);
    ForeignKept(w, TornDown(o, w, e), {e.network.value});
    assert Foreign(TornDown(o, w, e)) == TornDown(o, w, e).containers;
  }

  lemma {:induction false} FailedExecLeavesForeign(o: Oracle, w: World, r: Rig, steps: seq<Step>)
    requires w.WellFormed() && Owns(w, r.env) && PruneWorks(o)
    requires Exec(o, w, r, steps).Failed?
    ensures Exec(o, w, r, steps).world.containers == Foreign(w)
    decreases |steps|
  {
    DoEvolves(o, w, r, steps[0]);
    var p := Do(o, w, r, steps[0]);
    ForeignKept(w, p.world, {});
    if p.ok {
      FailedExecLeavesForeign(o, p.world, p.rig, steps[1..]);
    } else {
      TornDownLeavesForeign(o, p.world, p.rig.env);
    }
  }

  lemma FailedBuildLeavesForeign(o: Oracle, h: Host, w: World, b: Blueprint)
    requires w.WellFormed() && PruneWorks(o)
    requires Built(o, h, w, b).Failed?
    ensures Built(o, h, w, b).world.containers == Foreign(w)
  {
    var clean := Pruned(o, w);
    PruneLeavesForeign(o, w);
    PrunedEvolves(o, w);
    NewRigOwned(o, clean);
    var created := NetworkCreated(o, clean);
    var cfg := if b.cfg.Some? then b.cfg else h.loaded;
    if cfg.Some? && clean.Ok(o, CreateNetwork(clean.next)) {
      FailedExecLeavesForeign(o, created, NewRig(clean.next), BackingSteps(b, cfg.value, h));
    }
    assert Foreign(created) == Foreign(w);
  }

  /** A failed provisioning, wherever and however it failed, leaves exactly the foreign containers it found:
      nothing it started survives, nor anything left over from before. */
  lemma FailedSetupLeavesForeign(o: Oracle, h: Host, w: World, cfg: ScenarioConfig)
    requires w.WellFormed() && PruneWorks(o)
    requires Provisioned(o, h, w, cfg).Failed?
    ensures Provisioned(o, h, w, cfg).world.containers == Foreign(w)
  {
    var built := Built(o, h, w, BlueprintOf(cfg));
    if built.Failed? {
      FailedBuildLeavesForeign(o, h, w, BlueprintOf(cfg));
    } else {
      BuiltEvolves(o, h, w, BlueprintOf(cfg));
      PrunedEvolves(o, w);
      ForeignKept(w, Pruned(o, w), {});
      ForeignKept(Pruned(o, w), built.world, {});
      FailedExecLeavesForeign(o, built.world, built.rig, AppSteps(h, cfg.services));
    }
  }

  // ----- teardown

  /** The prune gets as far as removing this container if it is managed, and the removal is not refused. */
  predicate PruneTakes(o: Oracle, w: World, c: nat) {
    PruneOk(o, w) && w.Logged(OpenClient).Logged(ListManaged).FateOf(o, ForceRemove(c)) != Fails
  }

  /** Without any assumption on the runtime: a container survives a teardown if and only if its own release
      was refused (or it was not recorded) and pruning did not reach it (or it is not managed). */
  lemma TeardownSurvivors(o: Oracle, w: World, e: Env, c: nat)
    requires w.WellFormed() && c in w.containers
    ensures var d := Disconnected(o, w, e);
            c in TornDown(o, w, e).containers <==>
            && (c in e.Recorded() ==> w.FateOf(o, Terminate(c)) == Fails)
            && !(w.containers[c].Managed() && PruneTakes(o, d, c))
  {
    DisconnectSurvivors(o, w, e, c);
    hide Disconnected, Env.Recorded, Removed;
    PruneSurvivors(o, Disconnected(o, w, e), c);
  }

  lemma DisconnectSurvivors(o: Oracle, w: World, e: Env, c: nat)
    requires c in w.containers
    ensures var d := Disconnected(o, w, e);
            && (c in d.containers <==> (c in e.Recorded() ==> w.FateOf(o, Terminate(c)) == Fails))
            && (c in d.containers ==> d.containers[c] == w.containers[c])
  {
    hide Env.Recorded;
  }

  lemma PruneSurvivors(o: Oracle, d: World, c: nat)
    ensures c in Pruned(o, d).containers <==>
            c in d.containers && !(d.containers[c].Managed() && PruneTakes(o, d, c))
  {
    var listed := d.Logged(OpenClient).Logged(ListManaged);
    assert c in d.containers ==> (c in listed.ManagedIds() <==> d.containers[c].Managed());
  }

  /** A teardown that reports nothing has removed every recorded container and the network. */
  lemma SilentTeardownReleasesAll(o: Oracle, w: World, e: Env)
    requires w.WellFormed() && Owns(w, e) && TeardownErrors(o, w, e) == {}
    ensures e.Recorded() !! TornDown(o, w, e).containers.Keys
    ensures e.network.value !in TornDown(o, w, e).networks
  {
    forall c | c in e.Recorded()
      ensures c !in TornDown(o, w, e).containers
    {
      var h :| h in e.Holders() && e.At(h).Some? && e.At(h).value == c;
      assert NotTerminated(h) !in Unterminated(o, w, e, e.Holders());
      assert w.Ok(o, Terminate(c));
      if c in w.containers {
        TeardownSurvivors(o, w, e, c);
      }
    }
    assert NetworkErrors(o, Terminated(o, w, e), e) == {};
  }

  /** Every recorded place is released once, whatever failed before it: a teardown's calls are exactly one
      termination per recorded container, one removal of the network, and those of the prune, which opens a
      client, lists if that succeeds, and removes every listed container once if that succeeds too. */
  lemma TeardownAttemptsEverything(o: Oracle, w: World, e: Env)
    requires Owns(w, e)
    ensures var d := Disconnected(o, w, e);
            && d.log ==
               w.log + multiset(set c | c in e.Recorded() :: Terminate(c)) + multiset{RemoveNetwork(e.network.value)}
            && TornDown(o, w, e).log ==
               d.log + multiset{OpenClient} +
               (if d.Ok(o, OpenClient) then multiset{ListManaged} else multiset{}) +
               (if PruneOk(o, d) then multiset(set c | c in d.ManagedIds() :: ForceRemove(c)) else multiset{})
    ensures TornDown(o, w, e).log[OpenClient] == w.log[OpenClient] + 1
  {
    var d := Disconnected(o, w, e);
    DisconnectCalls(o, w, e);
    PruneCalls(o, d);
    assert OpenClient !in multiset(set c | c in e.Recorded() :: Terminate(c));
    assert OpenClient !in multiset(set c | c in d.ManagedIds() :: ForceRemove(c));
  }

  lemma DisconnectCalls(o: Oracle, w: World, e: Env)
    requires e.network.Some?
    ensures Disconnected(o, w, e).log ==
            w.log + multiset(set c | c in e.Recorded() :: Terminate(c)) + multiset{RemoveNetwork(e.network.value)}
  {
    hide Environments.Env.Recorded;
    assert RemovalCalls(false, e.Recorded()) == set c | c in e.Recorded() :: Terminate(c);
  }

  lemma PruneCalls(o: Oracle, d: World)
    ensures Pruned(o, d).log ==
            d.log + multiset{OpenClient} +
            (if d.Ok(o, OpenClient) then multiset{ListManaged} else multiset{}) +
            (if PruneOk(o, d) then multiset(set c | c in d.ManagedIds() :: ForceRemove(c)) else multiset{})
  {
    var listed := d.Logged(OpenClient).Logged(ListManaged);
    assert listed.ManagedIds() == d.ManagedIds();
    assert RemovalCalls(true, d.ManagedIds()) == set c | c in d.ManagedIds() :: ForceRemove(c);
  }

  // ----- what a teardown reports

  /** How a call answers that is made for the first time from this world on. */
  predicate Answers(o: Oracle, w: World, call: Call) {
    o.fate(call, w.log[call]) == Succeeds
  }

  /** A teardown's calls before its prune are no calls of the prune. */
  lemma DisconnectKeepsPruneCalls(o: Oracle, w: World, e: Env)
    ensures var d := Disconnected(o, w, e);
            d.log[OpenClient] == w.log[OpenClient] && d.log[ListManaged] == w.log[ListManaged]
  {
    assert OpenClient !in RemovalCalls(false, e.Recorded()) && ListManaged !in RemovalCalls(false, e.Recorded());
    hide Env.Recorded, RemovalCalls;
  }

  /** A failed prune is reported exactly when its client cannot be opened or its listing fails. */
  lemma PruneReportedIff(o: Oracle, w: World, e: Env)
    ensures NotPruned in TeardownErrors(o, w, e) <==> !(Answers(o, w, OpenClient) && Answers(o, w, ListManaged))
  {
    DisconnectKeepsPruneCalls(o, w, e);
    hide Disconnected, Unterminated, Terminated;
    assert NotPruned !in Unterminated(o, w, e, e.Holders()) by {
      NoOtherErrors(o, w, e);
    }
  }

  lemma NoOtherErrors(o: Oracle, w: World, e: Env)
    ensures forall err <- Unterminated(o, w, e, e.Holders()) :: err.NotTerminated?
  {
  }

  lemma HoldersHold(e: Env, h: Holder)
    ensures h in e.Holders() <==> e.At(h).Some?
  {
  }

  /** A container that could not be terminated is reported for its own place, and no other one is. */
  lemma TerminationReportedIff(o: Oracle, w: World, e: Env, h: Holder)
    ensures NotTerminated(h) in TeardownErrors(o, w, e) <==>
            e.At(h).Some? && !Answers(o, w, Terminate(e.At(h).value))
  {
    HoldersHold(e, h);
    hide Env.Holders, Env.At, Terminated, Disconnected;
  }

  lemma TerminatedKeepsRemoval(o: Oracle, w: World, e: Env, n: nat)
    ensures Terminated(o, w, e).log[RemoveNetwork(n)] == w.log[RemoveNetwork(n)]
  {
    assert RemoveNetwork(n) !in RemovalCalls(false, e.Recorded());
    hide Env.Recorded, RemovalCalls;
  }

  /** What keeps a network: a container attached to it that is not recorded, or whose termination is refused. */
  ghost predicate KeepsNetwork(o: Oracle, w: World, e: Env, c: nat) {
    && c in w.containers && e.network == Some(w.containers[c].network)
    && (c in e.Recorded() ==> o.fate(Terminate(c), w.log[Terminate(c)]) == Fails)
  }

  /** A network that could not be removed is reported exactly when its removal fails or something keeps it. */
  lemma NetworkReportedIff(o: Oracle, w: World, e: Env)
    ensures NetworkNotRemoved in TeardownErrors(o, w, e) <==>
            && e.network.Some?
            && (!Answers(o, w, RemoveNetwork(e.network.value)) || exists c: nat :: KeepsNetwork(o, w, e, c))
  {
    NoOtherErrors(o, w, e);
    if e.network.Some? {
      var n, v := e.network.value, Terminated(o, w, e);
      TerminatedKeepsRemoval(o, w, e, n);
      forall c: nat
        ensures c in v.Attached(n) <==> KeepsNetwork(o, w, e, c)
      {
        hide Env.Recorded, RemovalCalls;
      }
      hide Terminated, Unterminated, Disconnected, KeepsNetwork;
      assert v.Attached(n) == {} <==> forall c: nat :: c !in v.Attached(n);
    }
  }

  /** The places whose containers could not be terminated. */
  function Refused(o: Oracle, w: World, e: Env): set<Holder> {
    set h | h in e.Holders() && e.At(h).Some? &&
            o.fate(Terminate(e.At(h).value), w.log[Terminate(e.At(h).value)]) != Succeeds
  }

  lemma {:induction false} AsManyErrors(hs: set<Holder>)
    ensures |set h | h in hs :: NotTerminated(h)| == |hs|
    decreases |hs|
  {
    if hs == {} {
      assert (set h | h in hs :: NotTerminated(h)) == {};
    } else {
      var x :| x in hs;
      var rest := hs - {x};
      AsManyErrors(rest);
      assert (set h | h in hs :: NotTerminated(h)) == (set h | h in rest :: NotTerminated(h)) + {NotTerminated(x)};
    }
  }

  /** A teardown reports exactly one error for every step that failed, and nothing else. */
  lemma AsManyErrorsAsFailures(o: Oracle, w: World, e: Env)
    ensures |TeardownErrors(o, w, e)| ==
            |Refused(o, w, e)| +
            (if NetworkNotRemoved in TeardownErrors(o, w, e) then 1 else 0) +
            (if NotPruned in TeardownErrors(o, w, e) then 1 else 0)
    ensures TeardownErrors(o, w, e) <=
            (set h | h in Refused(o, w, e) :: NotTerminated(h)) + {NetworkNotRemoved, NotPruned}
  {
    AsManyErrors(Refused(o, w, e));
    UnterminatedRefused(o, w, e);
    NoOtherErrors(o, w, e);
    hide Refused, Unterminated, Env.Holders, Terminated, Disconnected, PruneOk, NetworkReleased;
    ThreeParts(Unterminated(o, w, e, e.Holders()), NetworkErrors(o, Terminated(o, w, e), e),
               PruneErrors(o, Disconnected(o, w, e)));
  }

  lemma UnterminatedRefused(o: Oracle, w: World, e: Env)
    ensures Unterminated(o, w, e, e.Holders()) == set h | h in Refused(o, w, e) :: NotTerminated(h)
  {
    hide Env.Holders, Env.At;
  }

  lemma ThreeParts(us: set<TeardownError>, ns: set<TeardownError>, ps: set<TeardownError>)
    requires forall err <- us :: err.NotTerminated?
    requires (ns == {} || ns == {NetworkNotRemoved}) && (ps == {} || ps == {NotPruned})
    ensures |us + ns + ps| ==
            |us| + (if NetworkNotRemoved in us + ns + ps then 1 else 0) + (if NotPruned in us + ns + ps then 1 else 0)
  {
    assert us !! ns && (us + ns) !! ps;
    assert |us + ns| == |us| + |ns| && |us + ns + ps| == |us + ns| + |ps|;
  }

  /** A teardown is silent if and only if every recorded container can be terminated, the network can be removed and
      nothing keeps it, and the prune's client and listing answer. */
  lemma SilentIff(o: Oracle, w: World, e: Env)
    ensures TeardownErrors(o, w, e) == {} <==>
            && (forall h :: e.At(h).Some? ==> Answers(o, w, Terminate(e.At(h).value)))
            && (e.network.Some? ==>
                  Answers(o, w, RemoveNetwork(e.network.value)) && !exists c: nat :: KeepsNetwork(o, w, e, c))
            && Answers(o, w, OpenClient) && Answers(o, w, ListManaged)
  {
    forall h
      ensures NotTerminated(h) in TeardownErrors(o, w, e) <==>
              e.At(h).Some? && !Answers(o, w, Terminate(e.At(h).value))
    {
      TerminationReportedIff(o, w, e, h);
    }
    NetworkReportedIff(o, w, e);
    PruneReportedIff(o, w, e);
    hide TeardownErrors, Answers, KeepsNetwork, Env.At;
    if TeardownErrors(o, w, e) != {} {
      var err :| err in TeardownErrors(o, w, e);
      assert err.NotTerminated? || err == NetworkNotRemoved || err == NotPruned;
    }
  }
}
