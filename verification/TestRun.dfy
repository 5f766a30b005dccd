/** The suite's own methods carry out the events of a run, one at a time. */
module TestRun {
  import opened Wrappers
  import opened ContainerRuntime
  import opened Environments
  import opened Provisioning
  import opened Harness
  import opened Lifecycle
  import opened Runs

  /** The scenarios held have the given values. */
  ghost predicate Holds(held: map<nat, Scenario>, values: map<nat, ScenarioState>)
    reads set t | t in held :: held[t]
    reads set t | t in held :: held[t].env
  {
    held.Keys == values.Keys && forall t <- held :: held[t].View() == values[t]
  }

  /** The suite itself is in state `st`. */
  ghost predicate Stands(suite: Suite, st: State)
    reads suite, suite.rt, if suite.active.Some? then {suite.active.value, suite.active.value.env} else {}
  {
    suite.rt.View() == st.world && suite.Active() == st.active
  }

  /** The suite and the scenarios its tests hold are in state `st`. */
  ghost predicate Matches(suite: Suite, held: map<nat, Scenario>, st: State)
    reads suite, suite.rt, if suite.active.Some? then {suite.active.value, suite.active.value.env} else {}
    reads set t | t in held :: held[t]
    reads set t | t in held :: held[t].env
  {
    Stands(suite, st) && Holds(held, st.held)
  }

  lemma HoldsMore(held: map<nat, Scenario>, values: map<nat, ScenarioState>, handle: nat, s: Scenario)
    requires Holds(held, values)
    ensures Holds(held[handle := s], values[handle := s.View()])
  {
  }

  lemma HoldsLess(held: map<nat, Scenario>, values: map<nat, ScenarioState>, handle: nat)
    requires Holds(held, values)
    ensures Holds(held - {handle}, values - {handle})
  {
  }

  /** A test that begins keeps the scenario it is given until it ends. */
  method Perform(suite: Suite, held: map<nat, Scenario>, e: Event, ghost st: State, ghost base: nat)
    returns (held': map<nat, Scenario>)
    requires Matches(suite, held, st) && Inv(st, base)
    modifies suite, suite.rt
    ensures Matches(suite, held', Next(suite.rt.oracle, suite.host, st, e))
    ensures Inv(Next(suite.rt.oracle, suite.host, st, e), base)
  {
    hide Inv, Stands, Holds, Next;
    InvNext(suite.rt.oracle, suite.host, st, e, base);
    SoundScenarios(st, base);
    match e
    case Begin(handle, cfg) =>
      held' := held;
      if handle !in held {
        HeldKeys(held, st.held);
        held' := BeginTest(suite, held, handle, cfg, st);
      } else {
        HeldKeys(held, st.held);
        IdleBegin(suite.rt.oracle, suite.host, st, handle, cfg);
      }
    case End(handle) =>
      held' := held;
      HeldKeys(held, st.held);
      if handle in held {
        held' := EndTest(suite, held, handle, st);
      } else {
        IdleEnd(suite.rt.oracle, suite.host, st, handle);
      }
  }

  lemma HeldKeys(held: map<nat, Scenario>, values: map<nat, ScenarioState>)
    requires Holds(held, values)
    ensures held.Keys == values.Keys
  {
  }

  lemma IdleBegin(o: Oracle, h: Host, st: State, handle: nat, cfg: ScenarioConfig)
    requires handle in st.held
    ensures Next(o, h, st, Begin(handle, cfg)) == st
  {
  }

  lemma IdleEnd(o: Oracle, h: Host, st: State, handle: nat)
    requires handle !in st.held
    ensures Next(o, h, st, End(handle)) == st
  {
  }

  method BeginTest(suite: Suite, held: map<nat, Scenario>, handle: nat, cfg: ScenarioConfig, ghost st: State)
    returns (held': map<nat, Scenario>)
    requires Matches(suite, held, st) && handle !in st.held
    requires st.active.Some? ==> Sound(st.world, st.active.value.rig.env)
    modifies suite, suite.rt
    ensures Matches(suite, held', Next(suite.rt.oracle, suite.host, st, Begin(handle, cfg)))
  {
    hide SetUp, Sound, Holds;
    ghost var r := SetUp(suite.rt.oracle, suite.host, st.world, st.active, cfg);
    held' := held;
    var s := suite.Setup(cfg);
    assert Holds(held, st.held);
    if s.Some? {
      HoldsMore(held, st.held, handle, s.value);
      held' := held[handle := s.value];
    }
  }

  method EndTest(suite: Suite, held: map<nat, Scenario>, handle: nat, ghost st: State)
    returns (held': map<nat, Scenario>)
    requires Matches(suite, held, st) && handle in held && handle in st.held
    requires st.held[handle].rig.env.Distinct()
    modifies suite, suite.rt
    ensures Matches(suite, held', Next(suite.rt.oracle, suite.host, st, End(handle)))
  {
    assert held[handle].View() == st.held[handle];
    hide TornDown, Env.Distinct, Holds;
    suite.Cleanup(held[handle]);
    assert Holds(held, st.held);
    HoldsLess(held, st.held, handle);
    held' := held - {handle};
  }

  lemma SoundScenarios(st: State, base: nat)
    requires Inv(st, base)
    ensures st.active.Some? ==> Sound(st.world, st.active.value.rig.env)
    ensures forall t <- st.held :: st.held[t].rig.env.Distinct()
  {
  }
}
