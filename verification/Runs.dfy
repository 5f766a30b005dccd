/** Whole runs: any number of tests, each setting a scenario up and later cleaning it up, in any
    lock-serialised order, on any runtime. */
module Runs {
  import opened Wrappers
  import opened ContainerRuntime
  import opened Environments
  import opened Provisioning
  import opened Builders
  import opened Harness
  import opened Lifecycle
  import opened Networks
  import Connectivity

  /** A test takes a handle when it sets up; its cleanup gives the handle back. */
  datatype Event = Begin(handle: nat, cfg: ScenarioConfig) | End(handle: nat)

  /** `held` are the scenarios of the tests whose cleanup is still to come. */
  datatype State = State(world: World, active: Option<ScenarioState>, held: map<nat, ScenarioState>)

  /** A setup that fails registers no cleanup and leaves the active scenario as it was. Events about a
      handle in the wrong state do not occur. */
  function Next(o: Oracle, h: Host, st: State, e: Event): State {
    match e
    case Begin(handle, cfg) =>
      if handle in st.held then st
      else
        var r := SetUp(o, h, st.world, st.active, cfg);
        if r.scenario.None? then st.(world := r.world)
        else State(r.world, r.scenario, st.held[handle := r.scenario.value])
    case End(handle) =>
      if handle !in st.held then st
      else State(TornDown(o, st.world, st.held[handle].rig.env), None, st.held - {handle})
  }

  function Run(o: Oracle, h: Host, st: State, events: seq<Event>): State
    decreases |events|
  {
    if events == [] then st else Run(o, h, Next(o, h, st, events[0]), events[1..])
  }

  function Initial(w: World): State {
    State(w, None, map[])
  }

  lemma {:induction false} RunAppend(o: Oracle, h: Host, st: State, first: seq<Event>, second: seq<Event>)
    ensures Run(o, h, st, first + second) == Run(o, h, Run(o, h, st, first), second)
    decreases |first|
  {
    if first == [] {
      assert first + second == second;
    } else {
      assert (first + second)[1..] == first[1..] + second;
      RunAppend(o, h, Next(o, h, st, first[0]), first[1..], second);
    }
  }

  ghost predicate OwnedSince(w: World, base: nat, s: ScenarioState) {
    Owns(w, s.rig.env) && base <= s.rig.env.network.value
  }

  /** Every scenario still referred to owns what it records, on a network created after `base`. */
  ghost predicate Inv(st: State, base: nat) {
    && st.world.WellFormed()
    && base <= st.world.next
    && (st.active.Some? ==> OwnedSince(st.world, base, st.active.value))
    && (forall t <- st.held :: OwnedSince(st.world, base, st.held[t]))
  }

  lemma AllOwnedStill(st: State, v: World, base: nat, mine: set<nat>)
    requires Inv(st, base) && Evolves(st.world, v, mine) && v.WellFormed()
    ensures Inv(st.(world := v), base)
  {
    if st.active.Some? {
      OwnsStill(st.world, v, st.active.value.rig.env, mine);
    }
    forall t | t in st.held
      ensures OwnedSince(v, base, st.held[t])
    {
      OwnsStill(st.world, v, st.held[t].rig.env, mine);
    }
  }

  /** The network an event may remove. */
  function Removable(st: State, e: Event): set<nat> {
    if e.End? && e.handle in st.held && st.held[e.handle].rig.env.network.Some?
    then {st.held[e.handle].rig.env.network.value} else {}
  }

  lemma InvBegin(o: Oracle, h: Host, st: State, handle: nat, cfg: ScenarioConfig, base: nat)
    requires Inv(st, base)
    ensures var nt := Next(o, h, st, Begin(handle, cfg)); Inv(nt, base) && Evolves(st.world, nt.world, {})
  {
    hide Evolves, Provisioned, Owns;
    EvolvesNot(st.world);
    if handle !in st.held && !Reuses(st.active, cfg) {
      ProvisionedEvolves(o, h, st.world, cfg);
      AllOwnedStill(st, Provisioned(o, h, st.world, cfg).world, base, {});
    }
  }

  lemma InvEnd(o: Oracle, h: Host, st: State, handle: nat, base: nat)
    requires Inv(st, base)
    ensures var nt := Next(o, h, st, End(handle));
            Inv(nt, base) && Evolves(st.world, nt.world, Removable(st, End(handle)))
  {
    hide Evolves, TornDown;
    EvolvesNot(st.world);
    if handle in st.held {
      var env := st.held[handle].rig.env;
      TornDownEvolves(o, st.world, env);
      AllOwnedStill(st, TornDown(o, st.world, env), base, {env.network.value});
    }
  }

  lemma InvNext(o: Oracle, h: Host, st: State, e: Event, base: nat)
    requires Inv(st, base)
    ensures Inv(Next(o, h, st, e), base)
    ensures Evolves(st.world, Next(o, h, st, e).world, Removable(st, e))
  {
    hide Evolves, Inv, Next;
    match e
    case Begin(handle, cfg) => InvBegin(o, h, st, handle, cfg, base);
    case End(handle) => InvEnd(o, h, st, handle, base);
  }

  lemma NextKeeps(o: Oracle, h: Host, st: State, e: Event, w0: World)
    requires Inv(st, w0.next) && Evolves(w0, st.world, {}) && w0.WellFormed()
    ensures var nt := Next(o, h, st, e); Inv(nt, w0.next) && Evolves(w0, nt.world, {})
  {
    InvNext(o, h, st, e, w0.next);
    EvolvesThen(w0, st.world, Next(o, h, st, e).world, {}, Removable(st, e), {});
  }

  lemma {:induction false} RunKeeps(o: Oracle, h: Host, st: State, events: seq<Event>, w0: World)
    requires Inv(st, w0.next) && Evolves(w0, st.world, {}) && w0.WellFormed()
    ensures var nt := Run(o, h, st, events); Inv(nt, w0.next) && Evolves(w0, nt.world, {})
    decreases |events|
  {
    if events != [] {
      NextKeeps(o, h, st, events[0], w0);
      RunKeeps(o, h, Next(o, h, st, events[0]), events[1..], w0);
    }
  }

  /** No run ever removes or changes a container that is not managed, nor a network it did not create, and
      every container it adds is managed. */
  lemma RunLeavesForeignAlone(o: Oracle, h: Host, w: World, events: seq<Event>)
    requires w.WellFormed()
    ensures var v := Run(o, h, Initial(w), events).world;
            && Foreign(v) == Foreign(w)
            && w.networks <= v.networks
            && forall c <- v.containers :: c !in w.containers ==> v.containers[c].Managed()
  {
    RunKeeps(o, h, Initial(w), events, w);
    ForeignKept(w, Run(o, h, Initial(w), events).world, {});
  }

  // ----- the active scenario

  ghost predicate ActiveLive(st: State) {
    st.active.Some? ==> Live(st.world, st.active.value.rig.env)
  }

  lemma ProvisionedLive(o: Oracle, h: Host, w: World, cfg: ScenarioConfig)
    requires w.WellFormed() && Provisioned(o, h, w, cfg).Ready?
    ensures var out := Provisioned(o, h, w, cfg); Live(out.world, out.rig.env)
  {
    var b := BlueprintOf(cfg);
    var clean := Pruned(o, w);
    PrunedEvolves(o, w);
    FreshRig(o, clean);
    var built := Built(o, h, w, b);
    StopStrands(o, NetworkCreated(o, clean), NewRig(clean.next), BackingSteps(b, h.loaded.value, h));
    StopStrands(o, built.world, built.rig, AppSteps(h, cfg.services));
  }

  /** A setup under another name that fails while a scenario is active. */
  predicate Hijacks(o: Oracle, h: Host, st: State, e: Event) {
    && e.Begin? && e.handle !in st.held
    && st.active.Some? && st.active.value.config.name != e.cfg.name
    && SetUp(o, h, st.world, st.active, e.cfg).scenario.None?
  }

  predicate NeverHijacked(o: Oracle, h: Host, st: State, events: seq<Event>)
    decreases |events|
  {
    events == [] || (!Hijacks(o, h, st, events[0]) && NeverHijacked(o, h, Next(o, h, st, events[0]), events[1..]))
  }

  lemma NextActiveLive(o: Oracle, h: Host, st: State, e: Event, base: nat)
    requires Inv(st, base) && ActiveLive(st) && !Hijacks(o, h, st, e)
    ensures ActiveLive(Next(o, h, st, e))
  {
    if e.Begin? && e.handle !in st.held && !Reuses(st.active, e.cfg) &&
       SetUp(o, h, st.world, st.active, e.cfg).scenario.Some? {
      ProvisionedLive(o, h, st.world, e.cfg);
    }
  }

  /** In every run in which no setup of another scenario fails while one is active, the active scenario,
      if any, always has all its recorded containers. */
  lemma {:induction false} ActiveStaysLive(o: Oracle, h: Host, st: State, events: seq<Event>, base: nat)
    requires Inv(st, base) && ActiveLive(st) && NeverHijacked(o, h, st, events)
    ensures ActiveLive(Run(o, h, st, events))
    decreases |events|
  {
    if events != [] {
      NextActiveLive(o, h, st, events[0], base);
      InvNext(o, h, st, events[0], base);
      ActiveStaysLive(o, h, Next(o, h, st, events[0]), events[1..], base);
    }
  }

  // ----- what the scenarios of a run provide

  /** Every scenario still referred to provides exactly what it was set up for. */
  ghost predicate AllProvide(st: State) {
    && (st.active.Some? ==> Connectivity.Provides(st.active.value))
    && (forall t <- st.held :: Connectivity.Provides(st.held[t]))
  }

  lemma NextProvides(o: Oracle, h: Host, st: State, e: Event)
    requires AllProvide(st)
    ensures AllProvide(Next(o, h, st, e))
  {
    hide Connectivity.Provides, Provisioned, TornDown;
    match e
    case Begin(handle, cfg) =>
      if handle !in st.held && !Reuses(st.active, cfg) && Provisioned(o, h, st.world, cfg).Ready? {
        Connectivity.FreshSetupProvides(o, h, st.world, cfg);
      }
    case End(handle) =>
  }

  lemma {:induction false} RunProvides(o: Oracle, h: Host, st: State, events: seq<Event>)
    requires AllProvide(st)
    ensures AllProvide(Run(o, h, st, events))
    decreases |events|
  {
    if events != [] {
      NextProvides(o, h, st, events[0]);
      RunProvides(o, h, Next(o, h, st, events[0]), events[1..]);
    }
  }

  /** In every run, on any runtime and whatever is shared: the scenario a test holds meets the checks for a
      configuration exactly if the one it was set up with covers that one, and a requested broker has an address. */
  lemma HeldScenarioServesIff(o: Oracle, h: Host, w: World, events: seq<Event>, t: nat, cfg: ScenarioConfig)
    requires t in Run(o, h, Initial(w), events).held
    ensures var s := Run(o, h, Initial(w), events).held[t];
            Connectivity.Connectable(s.(config := cfg)) <==>
            Connectivity.CoveredBy(cfg, s.config) && Connectivity.BrokerNamed(s.(config := cfg))
  {
    hide Run;
    RunProvides(o, h, Initial(w), events);
    Connectivity.ServesIff(Run(o, h, Initial(w), events).held[t], cfg);
  }

  /** The active scenario's broker has an address, if the scenario has one. */
  predicate ActiveNamed(st: State) {
    st.active.Some? ==> Connectivity.BrokerNamed(st.active.value)
  }

  lemma {:induction false} RunNames(o: Oracle, h: Host, st: State, events: seq<Event>)
    requires Connectivity.NamesBrokers(o) && ActiveNamed(st)
    ensures ActiveNamed(Run(o, h, st, events))
    decreases |events|
  {
    hide Connectivity.NamesBrokers, Provisioned, TornDown;
    if events != [] {
      var e := events[0];
      if e.Begin? && Provisioned(o, h, st.world, e.cfg).Ready? {
        Connectivity.FreshSetupNames(o, h, st.world, e.cfg);
      }
      RunNames(o, h, Next(o, h, st, e), events[1..]);
    }
  }

  /** What a setup will give can be told before it is made: after any run, a setup that succeeds gives its test what
      `cfg` asks for, the address of a broker apart, if and only if it sets up afresh, or the configuration of the
      active scenario, which it shares, covers `cfg`. On a runtime whose brokers have names that is all. */
  lemma SetupServesIff(o: Oracle, h: Host, w: World, events: seq<Event>, cfg: ScenarioConfig)
    requires var st := Run(o, h, Initial(w), events); SetUp(o, h, st.world, st.active, cfg).scenario.Some?
    ensures var st := Run(o, h, Initial(w), events);
            var got := SetUp(o, h, st.world, st.active, cfg).scenario.value.(config := cfg);
            var covered := Reuses(st.active, cfg) ==> Connectivity.CoveredBy(cfg, st.active.value.config);
            && (Connectivity.Connectable(got) <==> covered && Connectivity.BrokerNamed(got))
            && (Connectivity.NamesBrokers(o) ==> (Connectivity.Connectable(got) <==> covered))
  {
    hide Run, Provisioned, Connectivity.Provides, Connectivity.Connectable, Connectivity.NamesBrokers;
    var st := Run(o, h, Initial(w), events);
    RunProvides(o, h, Initial(w), events);
    if Connectivity.NamesBrokers(o) {
      RunNames(o, h, Initial(w), events);
    }
    if Reuses(st.active, cfg) {
      Connectivity.ServesIff(st.active.value, cfg);
    } else {
      Connectivity.FreshSetupConnects(o, h, st.world, cfg);
    }
  }

  // ----- what ends a scenario

  /** None of the containers an environment records exists. */
  ghost predicate Dead(w: World, e: Env) {
    forall c <- e.Recorded() :: c !in w.containers
  }

  /** The event wipes every managed container there is: any cleanup, and any setup that is not a reuse. */
  predicate Wipes(st: State, e: Event) {
    match e
    case Begin(handle, cfg) => handle !in st.held && !Reuses(st.active, cfg)
    case End(handle) => handle in st.held
  }

  lemma WipedIsDead(o: Oracle, h: Host, st: State, e: Event, base: nat, env: Env)
    requires Inv(st, base) && PruneWorks(o) && Wipes(st, e) && Owns(st.world, env)
    ensures Dead(Next(o, h, st, e).world, env)
  {
    var nt := Next(o, h, st, e);
    forall c | c in env.Recorded()
      ensures c !in nt.world.containers && c < st.world.next
    {
      if c in st.world.containers {
        RecordedAt(st.world, env, c);
      }
      match e
      case Begin(handle, cfg) =>
        PruneLeavesForeign(o, st.world);
        PrunedEvolves(o, st.world);
        ProvisionedEvolves(o, h, st.world, cfg);
      case End(handle) =>
        TornDownLeavesForeign(o, st.world, st.held[handle].rig.env);
    }
  }

  /** With reliable pruning, one step breaks the active scenario if and only if it is a failed setup of
      another scenario while the active one records some container. */
  lemma StepBreaksActiveIffHijack(o: Oracle, h: Host, st: State, e: Event, base: nat)
    requires Inv(st, base) && ActiveLive(st) && PruneWorks(o)
    ensures !ActiveLive(Next(o, h, st, e)) <==>
            Hijacks(o, h, st, e) && st.active.value.rig.env.Recorded() != {}
  {
    if Hijacks(o, h, st, e) {
      var env := st.active.value.rig.env;
      WipedIsDead(o, h, st, e, base, env);
      if env.Recorded() != {} {
        var c :| c in env.Recorded();
        RecordsIffRecorded(env, c);
        var hold :| env.At(hold) == Some(c);
      } else {
        forall hold | env.At(hold).Some?
          ensures env.At(hold).value in env.Recorded()
        {
          AtIsRecorded(env, hold);
        }
      }
    } else {
      NextActiveLive(o, h, st, e, base);
    }
  }

  lemma AtIsRecorded(e: Env, h: Holder)
    requires e.At(h).Some?
    ensures e.At(h).value in e.Recorded()
  {
    assert h in e.Holders();
  }

  /** A setup under another name than that of the active scenario, which records some container. Whether an event
      is one can be told before it happens. */
  ghost predicate Threatens(st: State, e: Event) {
    && e.Begin? && e.handle !in st.held
    && st.active.Some? && st.active.value.config.name != e.cfg.name
    && st.active.value.rig.env.Recorded() != {}
  }

  /** A runtime on which networks cannot be created. */
  function NoNetworks(): Oracle {
    Oracle((call: Call, n: nat) => if call.CreateNetwork? then Fails else Succeeds,
           (call: Call, n: nat) => "",
           (call: Call, n: nat) => ["broker"])
  }

  lemma NoNetworksFails(h: Host, w: World, cfg: ScenarioConfig)
    ensures PruneWorks(NoNetworks())
    ensures Provisioned(NoNetworks(), h, w, cfg).Failed?
  {
  }

  /** An event is safe on every runtime that prunes reliably if and only if it does not threaten the scenario. */
  lemma SafeIffNotThreatening(h: Host, st: State, e: Event, base: nat)
    requires Inv(st, base) && ActiveLive(st)
    ensures (forall o :: PruneWorks(o) ==> ActiveLive(Next(o, h, st, e))) <==> !Threatens(st, e)
  {
    hide PruneWorks, ActiveLive, Provisioned, NoNetworks, Next, Inv;
    if Threatens(st, e) {
      NoNetworksFails(h, st.world, e.cfg);
      StepBreaksActiveIffHijack(NoNetworks(), h, st, e, base);
    } else {
      forall o | PruneWorks(o)
        ensures ActiveLive(Next(o, h, st, e))
      {
        StepBreaksActiveIffHijack(o, h, st, e, base);
      }
    }
  }

  /** A runtime on which only the first network can be created. */
  function OneNetwork(): Oracle {
    Oracle((call: Call, n: nat) => if call.CreateNetwork? && call.id > 0 then Fails else Succeeds,
           (call: Call, n: nat) => "",
           (call: Call, n: nat) => ["broker"])
  }

  lemma RunTwo(o: Oracle, h: Host, st: State, e: Event, f: Event)
    ensures Run(o, h, st, [e, f]) == Next(o, h, Next(o, h, st, e), f)
  {
    assert [e, f] == [e] + [f];
    RunAppend(o, h, st, [e], [f]);
  }

  lemma FirstNetwork(w: World)
    requires w == World(map[], {}, 0, multiset{})
    ensures var o := OneNetwork();
            && Smooth(o)
            && Pruned(o, w).Ok(o, CreateNetwork(Pruned(o, w).next))
  {
  }

  lemma WireMockRecorded(e: Env)
    requires e.wireMock.Some?
    ensures e.Recorded() != {}
  {
    AtIsRecorded(e, HeldWireMock);
  }

  lemma FirstSetup(o: Oracle, h: Host, w: World, cfg: ScenarioConfig)
    requires Smooth(o) && w.WellFormed()
    requires Pruned(o, w).Ok(o, CreateNetwork(Pruned(o, w).next))
    requires h.loaded.Some? && cfg.wireMock
    ensures var st := Next(o, h, Initial(w), Begin(0, cfg));
            && Inv(st, w.next) && st.world.next > 0 && st.held.Keys == {0}
            && st.active.Some? && st.active.value.config == cfg
            && st.active.value.rig.env.Recorded() != {}
  {
    hide Pruned, Provisioned, TornDown, Smooth;
    InvNext(o, h, Initial(w), Begin(0, cfg), w.next);
    SmoothProvision(o, h, w, cfg);
    WireMockRecorded(Provisioned(o, h, w, cfg).rig.env);
  }

  lemma SecondNetworkFails(h: Host, w: World, cfg: ScenarioConfig)
    requires w.next > 0
    ensures PruneWorks(OneNetwork()) && Provisioned(OneNetwork(), h, w, cfg).Failed?
  {
    hide Exec;
  }

  lemma ActiveOwned(st: State, base: nat)
    requires Inv(st, base) && st.active.Some?
    ensures Owns(st.world, st.active.value.rig.env)
  {
  }

  lemma SecondSetupFails(h: Host, st: State, cfg: ScenarioConfig)
    requires Inv(st, 0) && 1 !in st.held && st.active.Some? && st.active.value.config.name != cfg.name
    requires h.loaded.Some? && st.world.next > 0
    ensures Next(OneNetwork(), h, st, Begin(1, cfg)).active == st.active
    ensures Dead(Next(OneNetwork(), h, st, Begin(1, cfg)).world, st.active.value.rig.env)
  {
    SecondNetworkFails(h, st.world, cfg);
    hide Provisioned, OneNetwork, PruneWorks, Dead, Inv;
    assert Owns(st.world, st.active.value.rig.env) by {
      ActiveOwned(st, 0);
    }
    WipedIsDead(OneNetwork(), h, st, Begin(1, cfg), 0, st.active.value.rig.env);
  }

  /** Without the proviso the active scenario can be dead: one test holds a scenario, a second test sets up
      another one, and creating its network fails. */
  lemma HijackReachable(h: Host, first: ScenarioConfig, second: ScenarioConfig)
    requires h.loaded.Some? && first.name != second.name && first.wireMock
    ensures var w := World(map[], {}, 0, multiset{});
            var st := Run(OneNetwork(), h, Initial(w), [Begin(0, first), Begin(1, second)]);
            && st.active.Some? && st.active.value.config == first
            && st.active.value.rig.env.Recorded() != {} && Dead(st.world, st.active.value.rig.env)
  {
    hide Next, Run, Inv, Dead, OneNetwork;
    var w := World(map[], {}, 0, multiset{});
    RunTwo(OneNetwork(), h, Initial(w), Begin(0, first), Begin(1, second));
    FirstNetwork(w);
    FirstSetup(OneNetwork(), h, w, first);
    SecondSetupFails(h, Next(OneNetwork(), h, Initial(w), Begin(0, first)), second);
  }

  /** If only networks may fail and this one does not, provisioning succeeds and records what it launches. */
  lemma SmoothProvision(o: Oracle, h: Host, w: World, cfg: ScenarioConfig)
    requires Smooth(o) && w.WellFormed() && h.loaded.Some?
    requires Pruned(o, w).Ok(o, CreateNetwork(Pruned(o, w).next))
    ensures Provisioned(o, h, w, cfg).Ready?
    ensures cfg.wireMock ==> Provisioned(o, h, w, cfg).rig.env.wireMock.Some?
  {
    var b, c := BlueprintOf(cfg), h.loaded.value;
    var clean := Pruned(o, w);
    SmoothExec(o, NetworkCreated(o, clean), NewRig(clean.next), BackingSteps(b, c, h));
    var built := Built(o, h, w, b);
    SmoothExec(o, built.world, built.rig, AppSteps(h, cfg.services));
    Connectivity.PlanInPlace(o, h, w, cfg);
    if cfg.wireMock {
      assert WireMockSteps(b, c, h)[0] in BackingSteps(b, c, h);
      assert Connectivity.InPlace(WireMockSteps(b, c, h)[0], Provisioned(o, h, w, cfg).rig);
    }
  }

  /** A shared scenario can lack what the sharing test asks for: after a test has set a scenario up without a mock
      service, a second test that wants one sets up under the same name. */
  lemma SharedLacksReachable(o: Oracle, h: Host, w: World, first: ScenarioConfig, second: ScenarioConfig)
    requires Smooth(o) && w.WellFormed() && h.loaded.Some?
    requires Pruned(o, w).Ok(o, CreateNetwork(Pruned(o, w).next))
    requires first.name == second.name && !first.wireMock && second.wireMock
    ensures var st := Run(o, h, Initial(w), [Begin(0, first), Begin(1, second)]);
            && 1 in st.held && st.held[1].config == first
            && !Connectivity.Connectable(st.held[1].(config := second))
  {
    hide Smooth, Pruned, Provisioned;
    RunTwo(o, h, Initial(w), Begin(0, first), Begin(1, second));
    SmoothProvision(o, h, w, first);
    Connectivity.FreshSetupProvides(o, h, w, first);
  }

  // ----- the scenario a test holds

  /** Nothing in the run disturbs a scenario called `name`: only setups under the same name, and no cleanup
      of a test that holds a scenario. `handles` are the handles held when the run starts. */
  predicate Calm(name: string, handles: set<nat>, events: seq<Event>)
    decreases |events|
  {
    if events == [] then true
    else
      match events[0]
      case Begin(handle, cfg) =>
        (handle in handles || cfg.name == name) && Calm(name, handles + {handle}, events[1..])
      case End(handle) =>
        handle !in handles && Calm(name, handles, events[1..])
  }

  /** On any runtime: a calm run makes no call at all and leaves the scenario active. */
  lemma {:induction false} CalmChangesNothing(o: Oracle, h: Host, st: State, events: seq<Event>)
    requires st.active.Some? && Calm(st.active.value.config.name, st.held.Keys, events)
    ensures Run(o, h, st, events).world == st.world && Run(o, h, st, events).active == st.active
    decreases |events|
  {
    hide Provisioned, TornDown;
    if events != [] {
      var nt := Next(o, h, st, events[0]);
      assert events[0].Begin? ==> nt.held.Keys == st.held.Keys + {events[0].handle};
      CalmChangesNothing(o, h, nt, events[1..]);
    }
  }

  /** Identifiers are never reused, so what is dead stays dead. */
  lemma {:induction false} DeadForever(o: Oracle, h: Host, st: State, events: seq<Event>, base: nat, env: Env)
    requires Inv(st, base) && Owns(st.world, env) && Dead(st.world, env)
    ensures Dead(Run(o, h, st, events).world, env)
    decreases |events|
  {
    if events != [] {
      var nt := Next(o, h, st, events[0]);
      InvNext(o, h, st, events[0], base);
      OwnsStill(st.world, nt.world, env, Removable(st, events[0]));
      forall c | c in env.Recorded()
        ensures c !in nt.world.containers
      {
        RecordsIffRecorded(env, c);
        var hold :| env.At(hold) == Some(c);
      }
      DeadForever(o, h, nt, events[1..], base, env);
    }
  }

  /** With reliable pruning, a scenario that records some container is still live at the end of a run if and
      only if every event of the run is calm: tests that overlap must set up under the same name and none
      may clean up. Any cleanup ends the scenario for every test that shares it. */
  lemma {:induction false} LiveIffCalm(o: Oracle, h: Host, st: State, events: seq<Event>, base: nat, s: ScenarioState)
    requires Inv(st, base) && PruneWorks(o)
    requires st.active == Some(s) && Live(st.world, s.rig.env) && s.rig.env.Recorded() != {}
    ensures Live(Run(o, h, st, events).world, s.rig.env) <==> Calm(s.config.name, st.held.Keys, events)
    decreases |events|
  {
    hide Evolves, TornDown, Provisioned;
    if events != [] {
      var e, nt := events[0], Next(o, h, st, events[0]);
      InvNext(o, h, st, e, base);
      if Wipes(st, e) {
        var env := s.rig.env;
        WipedIsDead(o, h, st, e, base, env);
        OwnsStill(st.world, nt.world, env, Removable(st, e));
        DeadForever(o, h, nt, events[1..], base, env);
        var c :| c in env.Recorded();
        RecordsIffRecorded(env, c);
        var hold :| env.At(hold) == Some(c);
      } else {
        assert nt.world == st.world && nt.active == Some(s);
        assert e.Begin? ==> nt.held.Keys == st.held.Keys + {e.handle};
        LiveIffCalm(o, h, nt, events[1..], base, s);
      }
    }
  }

  // ----- tests that do not overlap

  /** One test after the other: each sets up and cleans up before the next one starts. */
  function Sessions(cfgs: seq<ScenarioConfig>): seq<Event> {
    if cfgs == [] then [] else [Begin(0, cfgs[0]), End(0)] + Sessions(cfgs[1..])
  }

  ghost predicate Idle(st: State) {
    st.active.None? && st.held == map[]
  }

  /** A setup from the idle state either fails and stays idle, or returns a live scenario. */
  ghost predicate Opened(o: Oracle, st: State, cfg: ScenarioConfig) {
    if 0 in st.held then
      && st.active == Some(st.held[0]) && st.held.Keys == {0}
      && st.held[0].config == cfg
      && Live(st.world, st.held[0].rig.env)
    else
      Idle(st) && (PruneWorks(o) ==> st.world.ManagedIds() == {})
  }

  lemma NoneManaged(w: World, v: World)
    requires w.containers == Foreign(v)
    ensures w.ManagedIds() == {}
  {
  }

  lemma SessionOpens(o: Oracle, h: Host, st: State, cfg: ScenarioConfig, base: nat)
    requires Inv(st, base) && Idle(st)
    ensures Opened(o, Next(o, h, st, Begin(0, cfg)), cfg)
  {
    if Provisioned(o, h, st.world, cfg).Ready? {
      ProvisionedLive(o, h, st.world, cfg);
    } else if PruneWorks(o) {
      FailedSetupLeavesForeign(o, h, st.world, cfg);
      NoneManaged(Next(o, h, st, Begin(0, cfg)).world, st.world);
    }
  }

  lemma SessionCloses(o: Oracle, h: Host, st: State, cfg: ScenarioConfig, base: nat)
    requires Inv(st, base) && Opened(o, st, cfg)
    ensures var nt := Next(o, h, st, End(0)); Idle(nt) && (PruneWorks(o) ==> nt.world.ManagedIds() == {})
  {
    if 0 in st.held && PruneWorks(o) {
      TornDownLeavesForeign(o, st.world, st.held[0].rig.env);
      NoneManaged(Next(o, h, st, End(0)).world, st.world);
    }
  }

  /** Tests that do not overlap: every scenario a setup returns is live until its own cleanup, and after every
      cleanup and every failed setup no scenario is active and, if pruning works, no managed container is left. */
  lemma {:induction false} SessionsStayClean(o: Oracle, h: Host, st: State, cfgs: seq<ScenarioConfig>,
                                             last: ScenarioConfig, base: nat)
    requires Inv(st, base) && Idle(st)
    ensures var nt := Run(o, h, st, Sessions(cfgs));
            Idle(nt) && (PruneWorks(o) && cfgs != [] ==> nt.world.ManagedIds() == {})
    ensures Opened(o, Run(o, h, st, Sessions(cfgs) + [Begin(0, last)]), last)
    decreases |cfgs|
  {
    if cfgs == [] {
      assert Sessions(cfgs) + [Begin(0, last)] == [Begin(0, last)];
      assert Run(o, h, st, [Begin(0, last)]) == Next(o, h, st, Begin(0, last));
      SessionOpens(o, h, st, last, base);
    } else {
      var mid := Next(o, h, st, Begin(0, cfgs[0]));
      var nt := Next(o, h, mid, End(0));
      SessionOpens(o, h, st, cfgs[0], base);
      InvNext(o, h, st, Begin(0, cfgs[0]), base);
      SessionCloses(o, h, mid, cfgs[0], base);
      InvNext(o, h, mid, End(0), base);
      SessionsStayClean(o, h, nt, cfgs[1..], last, base);
      var pair := [Begin(0, cfgs[0]), End(0)];
      RunTwo(o, h, st, pair[0], pair[1]);
      RunAppend(o, h, st, pair, Sessions(cfgs[1..]));
      RunAppend(o, h, st, pair, Sessions(cfgs[1..]) + [Begin(0, last)]);
      assert Sessions(cfgs) + [Begin(0, last)] == pair + (Sessions(cfgs[1..]) + [Begin(0, last)]);
    }
  }
}
