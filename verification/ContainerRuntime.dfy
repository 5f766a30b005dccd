/** The container runtime as the harness sees it: containers, networks and calls that may go wrong.

    A `World` is a snapshot of the runtime. Every call may succeed, be refused, or go wrong halfway,
    and an `Oracle` decides which; a statement about all oracles is a statement about every way the
    runtime can misbehave. A call is identified by what it does and by how often it was made before,
    so calls on different containers may be made in any order without changing their outcomes. */
module ContainerRuntime {

  const LABEL_MANAGED := "harness.managed"
  const LABEL_SUITE := "harness.suite"
  const LABEL_SERVICE := "harness.service"
  const MANAGED_VALUE := "true"
  const SUITE_VALUE := "integration-suite"

  type Labels = map<string, string>

  predicate HasLabel(labels: Labels, key: string, value: string) {
    key in labels && labels[key] == value
  }

  /** The labels every container of the harness is started with. */
  function DefaultLabels(service: string): (labels: Labels)
    ensures HasLabel(labels, LABEL_MANAGED, MANAGED_VALUE)
    ensures HasLabel(labels, LABEL_SUITE, SUITE_VALUE)
    ensures LABEL_SERVICE in labels <==> service != ""
    ensures service != "" ==> labels[LABEL_SERVICE] == service
  {
    var labels := map[LABEL_MANAGED := MANAGED_VALUE, LABEL_SUITE := SUITE_VALUE];
    if service != "" then labels[LABEL_SERVICE := service] else labels
  }

  datatype Container = Container(labels: Labels, image: string, network: nat) {
    predicate Managed() { HasLabel(labels, LABEL_MANAGED, MANAGED_VALUE) }
  }

  /** What holds a started container in an environment. */
  datatype Slot = MySQL | Redis(alias: string) | Kafka | WireMock | App(name: string)

  /** Calls that change no container: address lookups, connections, provisioning, inspections. */
  datatype Query =
    | Address(slot: Slot)
    | Dial(slot: Slot)
    | CreateDatabase(name: string)
    | EnsureTopic(name: string)
    | RegisterStubs
    | MigrationDirectory(directory: string)
    | ExitStatus(database: string)
    | MappedPort(service: string, port: string)

  datatype Call =
    | CreateNetwork(id: nat)
    | RemoveNetwork(id: nat)
    | Start(id: nat)
    | Terminate(id: nat)
    | Ask(query: Query)
    | OpenClient
    | ListManaged
    | ForceRemove(id: nat)

  /** `FailsHalfway` reports an error although the call took effect: a start leaves its container behind, a
      creation its network, a removal removes. */
  datatype Fate = Succeeds | Fails | FailsHalfway

  datatype Oracle = Oracle(
    fate: (Call, nat) -> Fate,
    text: (Call, nat) -> string,
    brokers: (Call, nat) -> seq<string>)

  /** Identifiers below `next` have been handed out; `log` counts the calls made so far. */
  datatype World = World(
    containers: map<nat, Container>,
    networks: set<nat>,
    next: nat,
    log: multiset<Call>)
  {
    predicate WellFormed() {
      && (forall c <- containers :: c < next && containers[c].network < next)
      && (forall n <- networks :: n < next)
    }

    function ManagedIds(): set<nat> {
      set c | c in containers && containers[c].Managed()
    }

    function Attached(network: nat): set<nat> {
      set c | c in containers && containers[c].network == network
    }

    function Logged(call: Call): World {
      this.(log := log + multiset{call})
    }

    function FateOf(o: Oracle, call: Call): Fate {
      o.fate(call, log[call])
    }

    function Ok(o: Oracle, call: Call): bool {
      FateOf(o, call) == Succeeds
    }
  }

  /** A creation that goes wrong halfway leaves the network behind. */
  function NetworkCreated(o: Oracle, w: World): World {
    var call := CreateNetwork(w.next);
    w.Logged(call).(networks := if w.FateOf(o, call) != Fails then w.networks + {w.next} else w.networks,
                    next := w.next + 1)
  }

  /** A network with containers still attached cannot be removed. */
  predicate NetworkGoes(o: Oracle, w: World, id: nat) {
    w.Attached(id) == {} && w.FateOf(o, RemoveNetwork(id)) != Fails
  }

  function NetworkRemoved(o: Oracle, w: World, id: nat): World {
    w.Logged(RemoveNetwork(id)).(networks := if NetworkGoes(o, w, id) then w.networks - {id} else w.networks)
  }

  function Started(o: Oracle, w: World, c: Container): World {
    var call := Start(w.next);
    w.Logged(call).(containers := if w.FateOf(o, call) != Fails then w.containers[w.next := c] else w.containers,
                    next := w.next + 1)
  }

  function RemovalCall(force: bool, id: nat): Call {
    if force then ForceRemove(id) else Terminate(id)
  }

  function RemovalCalls(force: bool, ids: set<nat>): set<Call> {
    set c | c in ids :: RemovalCall(force, c)
  }

  /** One removal call for every identifier of a set, in whatever order. */
  function Removed(o: Oracle, w: World, ids: set<nat>, force: bool): World {
    w.(containers := map c | c in w.containers && (c !in ids || w.FateOf(o, RemovalCall(force, c)) == Fails)
                       :: w.containers[c],
       log := w.log + multiset(RemovalCalls(force, ids)))
  }

  lemma LogOneMore(log: multiset<Call>, ids: set<nat>, id: nat, force: bool)
    requires id !in ids
    ensures RemovalCall(force, id) !in RemovalCalls(force, ids)
    ensures log + multiset(RemovalCalls(force, ids)) + multiset(RemovalCalls(force, {id}))
         == log + multiset(RemovalCalls(force, ids + {id}))
  {
    var before := RemovalCalls(force, ids);
    assert RemovalCalls(force, {id}) == {RemovalCall(force, id)};
    assert RemovalCalls(force, ids + {id}) == before + {RemovalCall(force, id)};
  }

  /** Removing one more container extends the set that has been removed: the order does not matter. */
  lemma RemovedOneMore(o: Oracle, w: World, ids: set<nat>, id: nat, force: bool)
    requires id !in ids
    ensures Removed(o, w, ids, force).FateOf(o, RemovalCall(force, id)) == w.FateOf(o, RemovalCall(force, id))
    ensures Removed(o, Removed(o, w, ids, force), {id}, force) == Removed(o, w, ids + {id}, force)
  {
    LogOneMore(w.log, ids, id, force);
    var mid := Removed(o, w, ids, force);
    assert mid.log[RemovalCall(force, id)] == w.log[RemovalCall(force, id)];
    assert Removed(o, mid, {id}, force).containers == Removed(o, w, ids + {id}, force).containers;
  }

  lemma RemovedNone(o: Oracle, w: World, force: bool)
    ensures Removed(o, w, {}, force) == w
  {
    assert RemovalCalls(force, {}) == {};
    assert Removed(o, w, {}, force).containers == w.containers;
  }

  /** Removing a single container. */
  lemma RemovedOne(o: Oracle, w: World, id: nat, force: bool)
    ensures Removed(o, w, {id}, force) ==
            w.Logged(RemovalCall(force, id)).(containers :=
              if w.FateOf(o, RemovalCall(force, id)) != Fails then w.containers - {id} else w.containers)
  {
    assert RemovalCalls(force, {id}) == {RemovalCall(force, id)};
    assert Removed(o, w, {id}, force).containers ==
           if w.FateOf(o, RemovalCall(force, id)) != Fails then w.containers - {id} else w.containers;
  }

  /** The runtime the harness drives. Its methods are the calls of the container client library. */
  class Runtime {
    const oracle: Oracle
    var containers: map<nat, Container>
    var networks: set<nat>
    var next: nat
    var log: multiset<Call>

    constructor (oracle: Oracle, w: World)
      ensures this.oracle == oracle && View() == w
    {
      this.oracle := oracle;
      containers, networks, next, log := w.containers, w.networks, w.next, w.log;
    }

    function View(): World
      reads this
    {
      World(containers, networks, next, log)
    }

    method Consult(call: Call) returns (fate: Fate)
      modifies this`log
      ensures fate == old(View()).FateOf(oracle, call)
      ensures View() == old(View()).Logged(call)
    {
      fate := oracle.fate(call, log[call]);
      log := log + multiset{call};
    }

    method NewNetwork() returns (id: nat, ok: bool)
      modifies this
      ensures id == old(next) && ok == old(View()).Ok(oracle, CreateNetwork(id))
      ensures View() == NetworkCreated(oracle, old(View()))
    {
      id := next;
      var fate := Consult(CreateNetwork(id));
      ok := fate == Succeeds;
      if fate != Fails {
        networks := networks + {id};
      }
      next := next + 1;
    }

    method RemoveNetwork(id: nat) returns (ok: bool)
      modifies this
      ensures ok == (old(View()).Attached(id) == {} && old(View()).Ok(oracle, Call.RemoveNetwork(id)))
      ensures View() == NetworkRemoved(oracle, old(View()), id)
    {
      var fate := Consult(Call.RemoveNetwork(id));
      var attached := View().Attached(id) != {};
      ok := !attached && fate == Succeeds;
      if !attached && fate != Fails {
        networks := networks - {id};
      }
    }

    method StartContainer(c: Container) returns (id: nat, ok: bool)
      modifies this
      ensures id == old(next) && ok == old(View()).Ok(oracle, Start(id))
      ensures View() == Started(oracle, old(View()), c)
    {
      id := next;
      var fate := Consult(Start(id));
      ok := fate == Succeeds;
      if fate != Fails {
        containers := containers[id := c];
      }
      next := next + 1;
    }

    method Remove(id: nat, force: bool) returns (ok: bool)
      modifies this
      ensures ok == old(View()).Ok(oracle, RemovalCall(force, id))
      ensures View() == Removed(oracle, old(View()), {id}, force)
    {
      RemovedOne(oracle, View(), id, force);
      hide Removed;
      var fate := Consult(RemovalCall(force, id));
      ok := fate == Succeeds;
      if fate != Fails {
        containers := containers - {id};
      }
    }

    method Query(query: Query) returns (ok: bool)
      modifies this`log
      ensures ok == old(View()).Ok(oracle, Ask(query))
      ensures View() == old(View()).Logged(Ask(query))
    {
      var fate := Consult(Ask(query));
      ok := fate == Succeeds;
    }

    method QueryText(query: Query) returns (text: string, ok: bool)
      modifies this`log
      ensures ok == old(View()).Ok(oracle, Ask(query))
      ensures text == oracle.text(Ask(query), old(log)[Ask(query)])
      ensures View() == old(View()).Logged(Ask(query))
    {
      text := oracle.text(Ask(query), log[Ask(query)]);
      ok := Query(query);
    }

    method Brokers() returns (brokers: seq<string>, ok: bool)
      modifies this`log
      ensures ok == old(View()).Ok(oracle, Ask(Address(Kafka)))
      ensures brokers == oracle.brokers(Ask(Address(Kafka)), old(log)[Ask(Address(Kafka))])
      ensures View() == old(View()).Logged(Ask(Address(Kafka)))
    {
      brokers := oracle.brokers(Ask(Address(Kafka)), log[Ask(Address(Kafka))]);
      ok := Query(Address(Kafka));
    }

    /** The containers carrying one label value, in whatever order the runtime lists them. */
    method List(key: string, value: string) returns (ids: seq<nat>, ok: bool)
      modifies this`log
      ensures ok == old(View()).Ok(oracle, ListManaged)
      ensures View() == old(View()).Logged(ListManaged)
      ensures multiset(ids) == multiset(set c | c in containers && HasLabel(containers[c].labels, key, value))
    {
      var fate := Consult(ListManaged);
      ok := fate == Succeeds;
      ids := [];
      var todo := containers.Keys;
      while todo != {}
        invariant todo <= containers.Keys
        invariant multiset(ids) ==
                  multiset(set c | c in containers && c !in todo && HasLabel(containers[c].labels, key, value))
      {
        var c :| c in todo;
        ghost var listed := set d | d in containers && d !in todo && HasLabel(containers[d].labels, key, value);
        todo := todo - {c};
        ghost var now := set d | d in containers && d !in todo && HasLabel(containers[d].labels, key, value);
        if HasLabel(containers[c].labels, key, value) {
          ids := ids + [c];
          assert now == listed + {c};
        } else {
          assert now == listed;
        }
      }
      assert (set c | c in containers && c !in todo && HasLabel(containers[c].labels, key, value))
          == (set c | c in containers && HasLabel(containers[c].labels, key, value));
    }
  }
}
