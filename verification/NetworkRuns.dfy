/** What whole runs leave of the networks they create, once every test has cleaned up. */
module NetworkRuns {
  import opened Wrappers
  import opened ContainerRuntime
  import opened Environments
  import opened Provisioning
  import opened Builders
  import opened Harness
  import opened Lifecycle
  import opened Plans
  import opened Networks
  import opened Runs

  // ----- networks that nothing refers to any more

  /** A failed setup leaks a network. */
  ghost predicate SetupLeaks(o: Oracle, h: Host, w: World, cfg: ScenarioConfig) {
    var s := StoppedAt(o, h, w, cfg);
    || CreationStrands(o, h, w)
    || (s.Some? && (SetupStrands(o, h, w, cfg) || !Releases(o, s.value.world, s.value.rig.env)))
  }

  /** A teardown leaves the network: its removal is refused, or something attached outlives the terminations. */
  ghost predicate Outlives(o: Oracle, w: World, e: Env) {
    e.network.Some? && e.network.value in w.networks &&
    !(&& Terminated(o, w, e).FateOf(o, RemoveNetwork(e.network.value)) != Fails
      && forall c <- w.Attached(e.network.value) :: c in e.Recorded() && w.FateOf(o, Terminate(c)) != Fails)
  }

  /** The event leaves a network that no test refers to any more: a failed setup leaks one, or a cleanup leaves that
      of a scenario which no other test shares. A scenario that is shared is torn down once by every test. */
  ghost predicate Forfeits(o: Oracle, h: Host, st: State, e: Event) {
    match e
    case Begin(handle, cfg) =>
      && handle !in st.held && !Reuses(st.active, cfg)
      && Provisioned(o, h, st.world, cfg).Failed? && SetupLeaks(o, h, st.world, cfg)
    case End(handle) =>
      && handle in st.held && Outlives(o, st.world, st.held[handle].rig.env)
      && forall t <- st.held :: t != handle ==> st.held[t].rig.env.network != st.held[handle].rig.env.network
  }

  /** The network a forfeiting event leaves. */
  ghost function Forfeited(o: Oracle, h: Host, st: State, e: Event): set<nat> {
    if !Forfeits(o, h, st, e) then {}
    else
      match e
      case Begin(_, _) => {st.world.next}
      case End(handle) => {st.held[handle].rig.env.network.value}
  }

  ghost function AllForfeited(o: Oracle, h: Host, st: State, events: seq<Event>): set<nat>
    decreases |events|
  {
    if events == [] then {}
    else Forfeited(o, h, st, events[0]) + AllForfeited(o, h, Next(o, h, st, events[0]), events[1..])
  }

  ghost function Forfeitures(o: Oracle, h: Host, st: State, events: seq<Event>): nat
    decreases |events|
  {
    if events == [] then 0
    else
      (if Forfeits(o, h, st, events[0]) then 1 else 0) +
      Forfeitures(o, h, Next(o, h, st, events[0]), events[1..])
  }

  ghost predicate HeldNetwork(st: State, n: nat) {
    exists t <- st.held :: st.held[t].rig.env.network == Some(n)
  }

  /** `keep` are the networks that stay: all others there are belong to scenarios that are held. */
  ghost predicate Accounts(st: State, keep: set<nat>) {
    && keep <= st.world.networks
    && (forall n <- st.world.networks :: n in keep || HeldNetwork(st, n))
    && (forall t <- st.held :: st.held[t].rig.env.network.Some? ==> st.held[t].rig.env.network.value !in keep)
    && (st.active.Some? && st.active.value.rig.env.network.Some? ==> st.active.value.rig.env.network.value !in keep)
  }

  lemma ReadyNetworks(o: Oracle, h: Host, w: World, cfg: ScenarioConfig)
    requires w.WellFormed() && Provisioned(o, h, w, cfg).Ready?
    ensures var out := Provisioned(o, h, w, cfg);
            && out.world.networks == w.networks + {w.next} && out.rig.env.network == Some(w.next)
            && w.next !in w.networks
  {
    hide StoppedAt, Provisioned, Live, HasOrphan, SetupStrands, Owns, Pruned, TornDown;
    ReadyStops(o, h, w, cfg);
    SetupStops(o, h, w, cfg);
    PrunedEvolves(o, w);
  }

  lemma FailedNetworks(o: Oracle, h: Host, w: World, cfg: ScenarioConfig)
    requires w.WellFormed() && Provisioned(o, h, w, cfg).Failed?
    ensures Provisioned(o, h, w, cfg).world.networks ==
            if SetupLeaks(o, h, w, cfg) then w.networks + {w.next} else w.networks
  {
    hide StoppedAt, Provisioned, SetupStrands, Releases, CreationStrands, Pruned;
    FailedSetupLeaksNetworkIff(o, h, w, cfg);
    PrunedEvolves(o, w);
  }

  /** A setup that shares the active scenario, or does not take place, or fails without a leak. */
  lemma SharedAccounts(st: State, nt: State, keep: set<nat>)
    requires Accounts(st, keep) && nt.world.networks == st.world.networks && nt.active == st.active
    requires forall t <- st.held :: t in nt.held && nt.held[t] == st.held[t]
    requires forall t <- nt.held :: (t in st.held && nt.held[t] == st.held[t]) || st.active == Some(nt.held[t])
    ensures Accounts(nt, keep)
  {
    forall n | n in nt.world.networks && n !in keep
      ensures HeldNetwork(nt, n)
    {
      var t :| t in st.held && st.held[t].rig.env.network == Some(n);
      assert t in nt.held;
    }
  }

  lemma FreshAccounts(st: State, nt: State, handle: nat, keep: set<nat>, n: nat)
    requires Accounts(st, keep) && handle !in st.held && n !in st.world.networks
    requires nt.world.networks == st.world.networks + {n}
    requires nt.active.Some? && nt.active.value.rig.env.network == Some(n)
    requires nt.held == st.held[handle := nt.active.value]
    ensures Accounts(nt, keep)
  {
    forall m | m in nt.world.networks && m !in keep
      ensures HeldNetwork(nt, m)
    {
      if m == n {
        assert nt.held[handle].rig.env.network == Some(n);
      } else {
        var t :| t in st.held && st.held[t].rig.env.network == Some(m);
        assert t in nt.held && nt.held[t] == st.held[t];
      }
    }
  }

  lemma LeakAccounts(st: State, nt: State, keep: set<nat>, n: nat)
    requires Accounts(st, keep) && nt.world.networks == st.world.networks + {n}
    requires nt.active == st.active && nt.held == st.held
    requires forall t <- st.held :: st.held[t].rig.env.network != Some(n)
    requires st.active.Some? ==> st.active.value.rig.env.network != Some(n)
    ensures Accounts(nt, keep + {n})
  {
    forall m | m in nt.world.networks && m !in keep + {n}
      ensures HeldNetwork(nt, m)
    {
      var t :| t in st.held && st.held[t].rig.env.network == Some(m);
      assert t in nt.held;
    }
  }

  lemma ReadyBeginAccounts(o: Oracle, h: Host, st: State, handle: nat, cfg: ScenarioConfig, keep: set<nat>)
    requires st.world.WellFormed() && Accounts(st, keep)
    requires handle !in st.held && !Reuses(st.active, cfg) && Provisioned(o, h, st.world, cfg).Ready?
    ensures Accounts(Next(o, h, st, Begin(handle, cfg)), keep)
  {
    hide Accounts, Provisioned;
    ReadyNetworks(o, h, st.world, cfg);
    FreshAccounts(st, Next(o, h, st, Begin(handle, cfg)), handle, keep, st.world.next);
  }

  lemma FailedBeginAccounts(o: Oracle, h: Host, st: State, handle: nat, cfg: ScenarioConfig, keep: set<nat>)
    requires st.world.WellFormed() && Accounts(st, keep)
    requires handle !in st.held && !Reuses(st.active, cfg) && Provisioned(o, h, st.world, cfg).Failed?
    requires forall t <- st.held :: st.held[t].rig.env.network != Some(st.world.next)
    requires st.active.Some? ==> st.active.value.rig.env.network != Some(st.world.next)
    ensures Accounts(Next(o, h, st, Begin(handle, cfg)),
                     if SetupLeaks(o, h, st.world, cfg) then keep + {st.world.next} else keep)
  {
    hide Accounts, Provisioned, SetupLeaks;
    var nt := Next(o, h, st, Begin(handle, cfg));
    FailedNetworks(o, h, st.world, cfg);
    if SetupLeaks(o, h, st.world, cfg) {
      LeakAccounts(st, nt, keep, st.world.next);
    } else {
      SharedAccounts(st, nt, keep);
    }
  }

  lemma SharedBeginAccounts(o: Oracle, h: Host, st: State, handle: nat, cfg: ScenarioConfig, keep: set<nat>)
    requires Accounts(st, keep) && (handle in st.held || Reuses(st.active, cfg))
    ensures Accounts(Next(o, h, st, Begin(handle, cfg)), keep)
  {
    hide Accounts, Provisioned;
    SharedAccounts(st, Next(o, h, st, Begin(handle, cfg)), keep);
  }

  lemma BeginForfeited(o: Oracle, h: Host, st: State, handle: nat, cfg: ScenarioConfig)
    ensures Forfeited(o, h, st, Begin(handle, cfg)) ==
            if handle !in st.held && !Reuses(st.active, cfg) && Provisioned(o, h, st.world, cfg).Failed? &&
               SetupLeaks(o, h, st.world, cfg) then {st.world.next} else {}
  {
    hide Provisioned, SetupLeaks;
  }

  lemma BeginAccounts(o: Oracle, h: Host, st: State, handle: nat, cfg: ScenarioConfig, keep: set<nat>, base: nat)
    requires Inv(st, base) && Accounts(st, keep)
    ensures var e := Begin(handle, cfg); Accounts(Next(o, h, st, e), keep + Forfeited(o, h, st, e))
    ensures Forfeited(o, h, st, Begin(handle, cfg)) !! keep
  {
    assert forall n <- keep :: n in st.world.networks && n < st.world.next;
    assert forall t <- st.held :: st.held[t].rig.env.network != Some(st.world.next);
    assert st.active.Some? ==> st.active.value.rig.env.network != Some(st.world.next);
    assert keep + {} == keep;
    BeginForfeited(o, h, st, handle, cfg);
    WorldFormed(st, base);
    hide Inv, Accounts, Provisioned, SetupLeaks, Next, Forfeited;
    if handle in st.held || Reuses(st.active, cfg) {
      SharedBeginAccounts(o, h, st, handle, cfg, keep);
    } else if Provisioned(o, h, st.world, cfg).Ready? {
      ReadyBeginAccounts(o, h, st, handle, cfg, keep);
    } else {
      FailedBeginAccounts(o, h, st, handle, cfg, keep);
    }
  }

  lemma WorldFormed(st: State, base: nat)
    requires Inv(st, base)
    ensures st.world.WellFormed()
  {
  }

  /** A cleanup that removes the network, or leaves one that another test still refers to, or finds none. */
  lemma GoneAccounts(st: State, nt: State, handle: nat, keep: set<nat>, n: nat)
    requires Accounts(st, keep) && handle in st.held && st.held[handle].rig.env.network == Some(n)
    requires nt.held == st.held - {handle} && nt.active.None?
    requires nt.world.networks == st.world.networks - {n} || nt.world.networks == st.world.networks
    requires n in nt.world.networks ==> HeldNetwork(nt, n)
    ensures Accounts(nt, keep)
  {
    forall m | m in nt.world.networks && m !in keep
      ensures HeldNetwork(nt, m)
    {
      if m != n {
        var t :| t in st.held && st.held[t].rig.env.network == Some(m);
        assert t in nt.held && nt.held[t] == st.held[t];
      }
    }
  }

  lemma KeptAccounts(st: State, nt: State, handle: nat, keep: set<nat>, n: nat)
    requires Accounts(st, keep) && handle in st.held && st.held[handle].rig.env.network == Some(n)
    requires nt.held == st.held - {handle} && nt.active.None? && nt.world.networks == st.world.networks
    requires n in st.world.networks && forall t <- nt.held :: nt.held[t].rig.env.network != Some(n)
    ensures Accounts(nt, keep + {n})
  {
    forall m | m in nt.world.networks && m !in keep + {n}
      ensures HeldNetwork(nt, m)
    {
      var t :| t in st.held && st.held[t].rig.env.network == Some(m);
      assert t in nt.held && nt.held[t] == st.held[t];
    }
  }

  lemma TornDownOutlives(o: Oracle, w: World, e: Env)
    requires w.WellFormed() && Owns(w, e)
    ensures TornDown(o, w, e).networks ==
            if Outlives(o, w, e) || e.network.value !in w.networks then w.networks else w.networks - {e.network.value}
  {
    TornDownNetworks(o, w, e);
    if e.network.value in w.networks {
      NetworkGoesIff(o, w, e);
    }
    hide TornDown, Terminated, Sound;
  }

  lemma EndAccounts(o: Oracle, h: Host, st: State, handle: nat, keep: set<nat>, base: nat)
    requires Inv(st, base) && Accounts(st, keep) && handle in st.held
    ensures var e := End(handle); Accounts(Next(o, h, st, e), keep + Forfeited(o, h, st, e))
    ensures Forfeited(o, h, st, End(handle)) !! keep
  {
    var env, nt := st.held[handle].rig.env, Next(o, h, st, End(handle));
    var n := env.network.value;
    TornDownOutlives(o, st.world, env);
    assert env.network == Some(n) && n !in keep && keep + {} == keep;
    hide Inv, Accounts, TornDown, Owns;
    if Forfeits(o, h, st, End(handle)) {
      hide Outlives;
      KeptAccounts(st, nt, handle, keep, n);
    } else {
      if n in nt.world.networks {
        assert Outlives(o, st.world, env);
        hide Outlives;
        var t :| t in st.held && t != handle && st.held[t].rig.env.network == env.network;
        assert t in nt.held && nt.held[t] == st.held[t];
      }
      GoneAccounts(st, nt, handle, keep, n);
    }
  }

  lemma NextAccounts(o: Oracle, h: Host, st: State, e: Event, keep: set<nat>, base: nat)
    requires Inv(st, base) && Accounts(st, keep)
    ensures Accounts(Next(o, h, st, e), keep + Forfeited(o, h, st, e))
    ensures Forfeited(o, h, st, e) !! keep
  {
    match e
    case Begin(handle, cfg) => BeginAccounts(o, h, st, handle, cfg, keep, base);
    case End(handle) =>
      if handle in st.held {
        EndAccounts(o, h, st, handle, keep, base);
      }
  }

  lemma {:induction false} RunAccounts(o: Oracle, h: Host, st: State, events: seq<Event>, keep: set<nat>, base: nat)
    requires Inv(st, base) && Accounts(st, keep)
    ensures Accounts(Run(o, h, st, events), keep + AllForfeited(o, h, st, events))
    ensures |keep + AllForfeited(o, h, st, events)| == |keep| + Forfeitures(o, h, st, events)
    decreases |events|
  {
    hide Inv, Accounts, Next, Forfeits;
    if events == [] {
      assert keep + {} == keep;
    } else {
      var e, nt := events[0], Next(o, h, st, events[0]);
      NextAccounts(o, h, st, e, keep, base);
      InvNext(o, h, st, e, base);
      RunAccounts(o, h, nt, events[1..], keep + Forfeited(o, h, st, e), base);
      assert keep + AllForfeited(o, h, st, events) ==
             keep + Forfeited(o, h, st, e) + AllForfeited(o, h, nt, events[1..]);
    }
  }

  /** In every run, however tests overlap and whatever fails: once all tests have cleaned up, the networks are those
      there were before and one more for every event that forfeited one. */
  lemma RunLeavesForfeited(o: Oracle, h: Host, w: World, events: seq<Event>)
    requires w.WellFormed() && Run(o, h, Initial(w), events).held == map[]
    ensures var v := Run(o, h, Initial(w), events).world;
            && v.networks == w.networks + AllForfeited(o, h, Initial(w), events)
            && |v.networks| == |w.networks| + Forfeitures(o, h, Initial(w), events)
  {
    hide Run, AllForfeited, Forfeitures;
    RunAccounts(o, h, Initial(w), events, w.networks, w.next);
  }

  // ----- on a runtime that never fails

  /** What the events of a run tell about it: who holds a scenario, which one is active, and who shares that one. */
  datatype Ledger = Ledger(handles: set<nat>, active: Option<ScenarioConfig>, sharers: set<nat>)

  function Enter(l: Ledger, e: Event): Ledger {
    match e
    case Begin(handle, cfg) =>
      if handle in l.handles then l
      else if l.active.Some? && l.active.value.name == cfg.name then
        l.(handles := l.handles + {handle}, sharers := l.sharers + {handle})
      else Ledger(l.handles + {handle}, Some(cfg), {handle})
    case End(handle) =>
      if handle !in l.handles then l else Ledger(l.handles - {handle}, None, {})
  }

  /** A test that alone holds the active scenario cleans up, and the scenario names a Redis alias twice. */
  predicate Wastes(l: Ledger, e: Event) {
    e.End? && l.active.Some? && l.sharers == {e.handle} && Duplicates(l.active.value.redisInstances)
  }

  function Wasted(l: Ledger, events: seq<Event>): nat
    decreases |events|
  {
    if events == [] then 0 else (if Wastes(l, events[0]) then 1 else 0) + Wasted(Enter(l, events[0]), events[1..])
  }

  const OPENING := Ledger({}, None, {})

  /** No container is attached to a network of the run but managed ones to that of the active scenario. */
  ghost predicate Tidy(st: State, base: nat) {
    forall c <- st.world.containers ::
      || st.world.containers[c].network < base
      || (&& st.world.containers[c].Managed()
          && st.active.Some? && st.active.value.rig.env.network == Some(st.world.containers[c].network))
  }

  /** The active scenario is live on its network, and something is stranded there if and only if it names an alias
      twice. */
  ghost predicate ActiveInOrder(st: State) {
    st.active.Some? ==>
      var e := st.active.value.rig.env;
      && Live(st.world, e) && e.network.value in st.world.networks
      && (HasOrphan(st.world, e) <==> Duplicates(st.active.value.config.redisInstances))
  }

  ghost predicate Booked(st: State, l: Ledger) {
    && st.held.Keys == l.handles
    && (st.active.Some? <==> l.active.Some?)
    && (st.active.Some? ==> st.active.value.config == l.active.value)
    && l.sharers <= l.handles
    && (forall t <- st.held ::
          if t in l.sharers then st.active == Some(st.held[t])
          else st.active.Some? ==> st.held[t].rig.env.network != st.active.value.rig.env.network)
  }

  /** Everything a step adds is attached to the network of the setup. */
  ghost predicate Attaches(w: World, v: World, network: nat) {
    forall c <- v.containers ::
      (c in w.containers && v.containers[c] == w.containers[c]) || v.containers[c].network == network
  }

  lemma DoAttaches(o: Oracle, w: World, r: Rig, step: Step)
    requires w.WellFormed()
    ensures Attaches(w, Do(o, w, r, step).world, r.Network())
  {
    match step
    case Launch(slot, service, image) =>
      hide Rig.Record, DefaultLabels, Migrated, Noted;
    case Migrate(database, directory, image) =>
      MigratedContainers(o, w, r, database, directory, image);
      hide Migrated, Strands, Noted;
    case _ =>
      LoggedOnly(o, w, r, step);
      hide Do;
  }

  lemma {:induction false} StopAttaches(o: Oracle, w: World, r: Rig, steps: seq<Step>)
    requires w.WellFormed() && Owns(w, r.env)
    ensures Attaches(w, Stop(o, w, r, steps).world, r.Network())
    decreases |steps|
  {
    if steps != [] {
      var p := Do(o, w, r, steps[0]);
      DoAttaches(o, w, r, steps[0]);
      DoEvolves(o, w, r, steps[0]);
      hide Do, Owns;
      if p.ok {
        StopAttaches(o, p.world, p.rig, steps[1..]);
      }
    }
  }

  /** What a setup that succeeds on a flawless runtime leaves. */
  lemma FlawlessSetup(o: Oracle, h: Host, w: World, cfg: ScenarioConfig)
    requires Flawless(o) && h.loaded.Some? && w.WellFormed()
    ensures Provisioned(o, h, w, cfg).Ready?
    ensures var out := Provisioned(o, h, w, cfg);
            && Live(out.world, out.rig.env) && out.rig.env.network == Some(w.next)
            && w.next in out.world.networks
            && (HasOrphan(out.world, out.rig.env) <==> Duplicates(cfg.redisInstances))
            && Attaches(Pruned(o, w), out.world, w.next)
  {
    FlawlessSessionRestoresNetworksIff(o, h, w, cfg);
    ReadyStops(o, h, w, cfg);
    FlawlessStrandsIff(o, h, w, cfg);
    SetupAttaches(o, h, w, cfg);
    PrunedEvolves(o, w);
    hide StoppedAt, Provisioned, Live, HasOrphan, SetupStrands, Owns, Pruned, TornDown, Attaches, Duplicates, Flawless;
    SetupStops(o, h, w, cfg);
  }

  lemma FlawlessStrandsIff(o: Oracle, h: Host, w: World, cfg: ScenarioConfig)
    requires Flawless(o) && StoppedAt(o, h, w, cfg).Some? && StoppedAt(o, h, w, cfg).value.ok
    ensures SetupStrands(o, h, w, cfg) <==> Duplicates(cfg.redisInstances)
  {
    hide Stop, StrandsAny, MigrationStays, ScenarioSteps, Duplicates;
    ReadyStrandsIff(o, h, w, cfg);
    var clean := Pruned(o, w);
    SmoothMigrations(o, NetworkCreated(o, clean), NewRig(clean.next), ScenarioSteps(h, cfg, h.loaded.value));
  }

  lemma SetupAttaches(o: Oracle, h: Host, w: World, cfg: ScenarioConfig)
    requires w.WellFormed() && StoppedAt(o, h, w, cfg).Some?
    ensures Attaches(Pruned(o, w), StoppedAt(o, h, w, cfg).value.world, w.next)
  {
    hide Stop, ScenarioSteps, Evolves, Live, HasOrphan;
    var clean := Pruned(o, w);
    PrunedEvolves(o, w);
    FreshRig(o, clean);
    hide Pruned;
    StopAttaches(o, NetworkCreated(o, clean), NewRig(clean.next), ScenarioSteps(h, cfg, h.loaded.value));
  }

  lemma FlawlessPrunes(o: Oracle)
    requires Flawless(o)
    ensures PruneWorks(o)
  {
  }

  lemma TidyForeign(w: World, st: State, base: nat)
    requires Tidy(st, base) && w.containers == Foreign(st.world)
    ensures forall c <- w.containers :: w.containers[c].network < base
  {
  }

  /** A setup that starts nothing: the handle is taken, or the active scenario is shared. */
  lemma IdleBeginInOrder(o: Oracle, h: Host, st: State, handle: nat, cfg: ScenarioConfig, l: Ledger, base: nat)
    requires Tidy(st, base) && ActiveInOrder(st) && Booked(st, l)
    requires handle in st.held || Reuses(st.active, cfg)
    ensures var e := Begin(handle, cfg); var nt := Next(o, h, st, e);
            Tidy(nt, base) && ActiveInOrder(nt) && Booked(nt, Enter(l, e))
  {
    hide Provisioned, Live, HasOrphan, Duplicates;
  }

  lemma FreshBooked(o: Oracle, h: Host, st: State, handle: nat, cfg: ScenarioConfig, l: Ledger)
    requires Booked(st, l) && handle !in st.held && !Reuses(st.active, cfg)
    requires Provisioned(o, h, st.world, cfg).Ready?
    requires Provisioned(o, h, st.world, cfg).rig.env.network == Some(st.world.next)
    requires forall t <- st.held :: st.held[t].rig.env.network != Some(st.world.next)
    ensures Booked(Next(o, h, st, Begin(handle, cfg)), Enter(l, Begin(handle, cfg)))
  {
    hide Provisioned;
  }

  lemma FreshActive(o: Oracle, h: Host, st: State, handle: nat, cfg: ScenarioConfig)
    requires Flawless(o) && h.loaded.Some? && st.world.WellFormed()
    requires handle !in st.held && !Reuses(st.active, cfg)
    ensures ActiveInOrder(Next(o, h, st, Begin(handle, cfg)))
  {
    FlawlessSetup(o, h, st.world, cfg);
    hide Flawless, Provisioned, Live, HasOrphan, Duplicates, Pruned, Attaches;
  }

  lemma FreshForfeitsNothing(o: Oracle, h: Host, st: State, handle: nat, cfg: ScenarioConfig)
    requires Provisioned(o, h, st.world, cfg).Ready? || handle in st.held || Reuses(st.active, cfg)
    ensures !Forfeits(o, h, st, Begin(handle, cfg))
  {
    hide SetupLeaks, Provisioned;
  }

  lemma BeginInOrder(o: Oracle, h: Host, st: State, handle: nat, cfg: ScenarioConfig, l: Ledger, base: nat)
    requires Flawless(o) && h.loaded.Some? && Inv(st, base) && Tidy(st, base) && ActiveInOrder(st) && Booked(st, l)
    ensures var e := Begin(handle, cfg); var nt := Next(o, h, st, e);
            Tidy(nt, base) && ActiveInOrder(nt) && Booked(nt, Enter(l, e)) && !Forfeits(o, h, st, e)
  {
    assert forall t <- st.held :: st.held[t].rig.env.network != Some(st.world.next);
    hide Flawless, Provisioned, Pruned, Tidy, Booked, ActiveInOrder, Duplicates, Evolves, Attaches, Owns, Forfeits,
         Next, Enter;
    if handle !in st.held && !Reuses(st.active, cfg) {
      FlawlessSetup(o, h, st.world, cfg);
      FlawlessPrunes(o);
      PruneLeavesForeign(o, st.world);
      TidyForeign(Pruned(o, st.world), st, base);
      ProvisionedEvolves(o, h, st.world, cfg);
      FreshTidy(o, h, st, handle, cfg, base);
      FreshActive(o, h, st, handle, cfg);
      FreshBooked(o, h, st, handle, cfg, l);
    } else {
      IdleBeginInOrder(o, h, st, handle, cfg, l, base);
    }
    FreshForfeitsNothing(o, h, st, handle, cfg);
  }

  lemma FreshTidy(o: Oracle, h: Host, st: State, handle: nat, cfg: ScenarioConfig, base: nat)
    requires st.world.WellFormed() && handle !in st.held && !Reuses(st.active, cfg)
    requires Provisioned(o, h, st.world, cfg).Ready?
    requires var out := Provisioned(o, h, st.world, cfg);
             && Attaches(Pruned(o, st.world), out.world, st.world.next) && out.rig.env.network == Some(st.world.next)
             && Evolves(Pruned(o, st.world), out.world, {})
    requires forall c <- Pruned(o, st.world).containers :: Pruned(o, st.world).containers[c].network < base
    ensures Tidy(Next(o, h, st, Begin(handle, cfg)), base)
  {
    PrunedEvolves(o, st.world);
    hide Provisioned, Pruned;
  }

  lemma EndForfeitsIff(o: Oracle, h: Host, st: State, handle: nat, l: Ledger, base: nat)
    requires Flawless(o) && Inv(st, base) && Tidy(st, base) && ActiveInOrder(st) && Booked(st, l)
    ensures Forfeits(o, h, st, End(handle)) <==> Wastes(l, End(handle))
  {
    if handle in l.sharers {
      var env := st.held[handle].rig.env;
      FlawlessReleases(o, st.world, env);
      OutlivesIff(o, st.world, env);
      SharersHold(st, l, handle);
      hide Flawless, Live, HasOrphan, Duplicates, Outlives, Owns, Releases, Tidy, Booked;
    } else if handle in st.held {
      UnattachedGoes(o, st, handle, base);
      hide Flawless, ActiveInOrder, Duplicates, Outlives, Owns, Tidy;
    }
  }

  /** The tests on the network of the active scenario are its sharers. */
  lemma SharersHold(st: State, l: Ledger, handle: nat)
    requires Booked(st, l) && handle in l.sharers
    ensures handle in st.held && st.active == Some(st.held[handle]) && l.active == Some(st.held[handle].config)
    ensures (forall t <- st.held ::
               t != handle ==> st.held[t].rig.env.network != st.held[handle].rig.env.network)
            <==> l.sharers == {handle}
  {
    if l.sharers != {handle} {
      var t :| t in l.sharers && t != handle;
      assert t in st.held && st.held[t] == st.held[handle];
    }
  }

  lemma EndInOrder(o: Oracle, h: Host, st: State, handle: nat, l: Ledger, base: nat)
    requires Flawless(o) && Inv(st, base) && Tidy(st, base) && ActiveInOrder(st) && Booked(st, l)
    ensures var e := End(handle); var nt := Next(o, h, st, e);
            Tidy(nt, base) && ActiveInOrder(nt) && Booked(nt, Enter(l, e))
  {
    if handle in st.held {
      var env := st.held[handle].rig.env;
      FlawlessPrunes(o);
      TornDownLeavesForeign(o, st.world, env);
      TidyForeign(TornDown(o, st.world, env), st, base);
    }
    hide Flawless, TornDown, Live, HasOrphan, Duplicates, Sound;
  }

  lemma FlawlessReleases(o: Oracle, w: World, e: Env)
    requires Flawless(o) && e.network.Some?
    ensures Releases(o, w, e)
  {
    hide Env.Recorded, Terminated;
  }

  lemma OutlivesIff(o: Oracle, w: World, e: Env)
    requires w.WellFormed() && Owns(w, e) && Live(w, e) && e.network.value in w.networks
    ensures Outlives(o, w, e) <==> HasOrphan(w, e) || !Releases(o, w, e)
  {
    NetworkStaysIff(o, w, e);
    NetworkGoesIff(o, w, e);
    hide TornDown, Terminated, HasOrphan, Releases, Live, Sound;
  }

  /** A network with nothing attached goes. */
  lemma UnattachedGoes(o: Oracle, st: State, handle: nat, base: nat)
    requires Flawless(o) && Inv(st, base) && Tidy(st, base) && handle in st.held
    requires st.active.Some? ==> st.held[handle].rig.env.network != st.active.value.rig.env.network
    ensures !Outlives(o, st.world, st.held[handle].rig.env)
  {
    hide Env.Recorded, Terminated, Sound;
    assert st.world.Attached(st.held[handle].rig.env.network.value) == {};
  }

  lemma {:induction false} FlawlessForfeitures(o: Oracle, h: Host, st: State, events: seq<Event>, l: Ledger, base: nat)
    requires Flawless(o) && h.loaded.Some? && Inv(st, base) && Tidy(st, base) && ActiveInOrder(st) && Booked(st, l)
    ensures Forfeitures(o, h, st, events) == Wasted(l, events)
    decreases |events|
  {
    hide Flawless, Inv, Tidy, ActiveInOrder, Booked, Next, Forfeits, Wastes, Enter;
    if events != [] {
      var e := events[0];
      match e {
        case Begin(handle, cfg) =>
          BeginInOrder(o, h, st, handle, cfg, l, base);
          BeginWastesNothing(l, handle, cfg);
        case End(handle) =>
          EndInOrder(o, h, st, handle, l, base);
          EndForfeitsIff(o, h, st, handle, l, base);
      }
      InvNext(o, h, st, e, base);
      FlawlessForfeitures(o, h, Next(o, h, st, e), events[1..], Enter(l, e), base);
    }
  }

  lemma BeginWastesNothing(l: Ledger, handle: nat, cfg: ScenarioConfig)
    ensures !Wastes(l, Begin(handle, cfg))
  {
  }

  /** On a flawless runtime and however tests overlap: once all tests have cleaned up, exactly as many networks are
      left over as there were cleanups by a test that alone held the active scenario, with an alias named twice. A
      setup of another scenario in between, or a second test sharing the scenario, saves the network. */
  lemma FlawlessRunLeaves(o: Oracle, h: Host, w: World, events: seq<Event>)
    requires Flawless(o) && h.loaded.Some? && w.WellFormed()
    requires Run(o, h, Initial(w), events).held == map[]
    ensures var v := Run(o, h, Initial(w), events).world;
            && w.networks <= v.networks
            && |v.networks| == |w.networks| + Wasted(OPENING, events)
            && (v.networks == w.networks <==> Wasted(OPENING, events) == 0)
  {
    assert Inv(Initial(w), w.next) && Tidy(Initial(w), w.next) && Booked(Initial(w), OPENING);
    hide Flawless, Run, AllForfeited, Forfeitures, Wasted, Inv;
    RunLeavesForfeited(o, h, w, events);
    FlawlessForfeitures(o, h, Initial(w), events, OPENING, w.next);
    SupersetOfSize(w.networks, Run(o, h, Initial(w), events).world.networks);
  }

  lemma SupersetOfSize(a: set<nat>, b: set<nat>)
    requires a <= b
    ensures a == b <==> |a| == |b|
  {
    assert b == a + (b - a);
    if |a| == |b| {
      assert |b - a| == 0;
    }
  }
}
