/** The record of owned resources and its best-effort release. */
module Environments {
  import opened Wrappers
  import opened ContainerRuntime

  /** The runtime state of a test scenario: containers, host addresses, verified clients. */
  datatype Env = Env(
    network: Option<nat>,
    mysql: Option<nat>,
    kafka: Option<nat>,
    wireMock: Option<nat>,
    redis: map<string, nat>,
    apps: seq<nat>,
    mysqlDSN: string,
    kafkaBroker: string,
    wireMockURL: string,
    redisAddrs: map<string, string>,
    db: bool,
    redisClients: set<string>)
  {
    /** The container recorded in one place. */
    function At(h: Holder): Option<nat> {
      match h
      case HeldApp(i) => if i < |apps| then Some(apps[i]) else None
      case HeldRedis(alias) => if alias in redis then Some(redis[alias]) else None
      case HeldMySQL => mysql
      case HeldKafka => kafka
      case HeldWireMock => wireMock
    }

    function AppHolders(n: nat): set<Holder> {
      set i | 0 <= i < n :: HeldApp(i)
    }

    function RedisHolders(aliases: set<string>): set<Holder> {
      set a | a in aliases :: HeldRedis(a)
    }

    function Holders(): set<Holder> {
      AppHolders(|apps|) + RedisHolders(redis.Keys) + Backing(HeldMySQL) + Backing(HeldKafka) + Backing(HeldWireMock)
    }

    function Backing(h: Holder): set<Holder> {
      if At(h).Some? then {h} else {}
    }

    function Ids(holders: set<Holder>): set<nat> {
      set h | h in holders && At(h).Some? :: At(h).value
    }

    /** Every recorded container. */
    function Recorded(): set<nat> {
      Ids(Holders())
    }

    /** No container is recorded in two places. */
    ghost predicate Distinct() {
      forall h, k :: At(h).Some? && At(k).Some? && h != k ==> At(h).value != At(k).value
    }
  }

  datatype Holder = HeldApp(index: nat) | HeldRedis(alias: string) | HeldMySQL | HeldKafka | HeldWireMock

  function EmptyEnv(): Env {
    Env(None, None, None, None, map[], [], "", "", "", map[], false, {})
  }

  datatype TeardownError = NotTerminated(holder: Holder) | NetworkNotRemoved | NotPruned

  /** Label pruning: nothing happens when the client cannot be connected or the listing fails, and a
      refused removal is not reported. */
  function Pruned(o: Oracle, w: World): World {
    var connected := w.Logged(OpenClient);
    var listed := connected.Logged(ListManaged);
    if !w.Ok(o, OpenClient) then connected
    else if !connected.Ok(o, ListManaged) then listed
    else Removed(o, listed, listed.ManagedIds(), true)
  }

  predicate PruneOk(o: Oracle, w: World) {
    w.Ok(o, OpenClient) && w.Logged(OpenClient).Ok(o, ListManaged)
  }

  /** Terminates everything recorded, whatever fails. */
  function Terminated(o: Oracle, w: World, e: Env): World {
    Removed(o, w, e.Recorded(), false)
  }

  function NetworkReleased(o: Oracle, w: World, e: Env): World {
    if e.network.Some? then NetworkRemoved(o, w, e.network.value) else w
  }

  function NetworkErrors(o: Oracle, w: World, e: Env): set<TeardownError> {
    if e.network.Some? && !(w.Attached(e.network.value) == {} && w.Ok(o, RemoveNetwork(e.network.value)))
    then {NetworkNotRemoved} else {}
  }

  function PruneErrors(o: Oracle, w: World): set<TeardownError> {
    if PruneOk(o, w) then {} else {NotPruned}
  }

  function Disconnected(o: Oracle, w: World, e: Env): World {
    NetworkReleased(o, Terminated(o, w, e), e)
  }

  function TornDown(o: Oracle, w: World, e: Env): World {
    Pruned(o, Disconnected(o, w, e))
  }

  function Unterminated(o: Oracle, w: World, e: Env, holders: set<Holder>): set<TeardownError> {
    set h | h in holders && e.At(h).Some? && !w.Ok(o, Terminate(e.At(h).value)) :: NotTerminated(h)
  }

  /** Exactly the steps that report an error. */
  function TeardownErrors(o: Oracle, w: World, e: Env): set<TeardownError> {
    Unterminated(o, w, e, e.Holders()) +
    NetworkErrors(o, Terminated(o, w, e), e) +
    PruneErrors(o, Disconnected(o, w, e))
  }

  lemma HolderOneMore(o: Oracle, w: World, e: Env, done: set<Holder>, h: Holder)
    requires e.Distinct() && e.At(h).Some? && h !in done
    ensures e.At(h).value !in e.Ids(done)
    ensures e.Ids(done + {h}) == e.Ids(done) + {e.At(h).value}
    ensures Unterminated(o, w, e, done + {h}) ==
            Unterminated(o, w, e, done) + if w.Ok(o, Terminate(e.At(h).value)) then {} else {NotTerminated(h)}
    ensures NotTerminated(h) !in Unterminated(o, w, e, done)
  {
    assert forall k :: k in done && e.At(k).Some? ==> k != h;
  }

  /** The places in `done` have been released and exactly their failures collected. */
  ghost predicate Progress(o: Oracle, w: World, e: Env, done: set<Holder>, now: World, errs: seq<TeardownError>) {
    && now == Removed(o, w, e.Ids(done), false)
    && multiset(errs) == multiset(Unterminated(o, w, e, done))
  }

  /** Releasing one more place is progress. */
  lemma ProgressMore(o: Oracle, w: World, e: Env, done: set<Holder>, h: Holder, now: World, errs: seq<TeardownError>)
    requires e.Distinct() && e.At(h).Some? && h !in done
    requires Progress(o, w, e, done, now, errs)
    ensures var id := e.At(h).value;
            Progress(o, w, e, done + {h}, Removed(o, now, {id}, false),
                     if now.Ok(o, Terminate(id)) then errs else errs + [NotTerminated(h)])
  {
    HolderOneMore(o, w, e, done, h);
    RemovedOneMore(o, w, e.Ids(done), e.At(h).value, false);
    hide Removed, Env.Ids, Unterminated, Env.Distinct;
  }

  lemma NoProgress(o: Oracle, w: World, e: Env)
    ensures Progress(o, w, e, {}, w, [])
  {
    assert e.Ids({}) == {};
    RemovedNone(o, w, false);
  }

  lemma ListedOnce(ids: seq<nat>, members: set<nat>)
    requires multiset(ids) == multiset(members)
    ensures forall i, j :: 0 <= i < j < |ids| ==> ids[i] != ids[j]
    ensures (set c | c in ids) == members
  {
    forall i, j | 0 <= i < j < |ids|
      ensures ids[i] != ids[j]
    {
      assert ids == ids[..i] + [ids[i]] + ids[i+1..j] + [ids[j]] + ids[j+1..];
      assert multiset(ids)[ids[i]] <= 1;
    }
    forall c
      ensures c in ids <==> c in members
    {
      assert c in ids <==> c in multiset(ids);
    }
  }

  /** Force-removes every container the runtime lists under the managed label. */
  method PruneManagedContainers(rt: Runtime) returns (ok: bool)
    modifies rt
    ensures ok == PruneOk(rt.oracle, old(rt.View()))
    ensures rt.View() == Pruned(rt.oracle, old(rt.View()))
  {
    var fate := rt.Consult(OpenClient);
    if fate != Succeeds {
      return false;
    }
    var ids, listed := rt.List(LABEL_MANAGED, MANAGED_VALUE);
    if !listed {
      return false;
    }
    ghost var w := rt.View();
    assert w.ManagedIds() ==
           (set c | c in rt.containers && HasLabel(rt.containers[c].labels, LABEL_MANAGED, MANAGED_VALUE));
    ForceRemoveAll(rt, ids, w.ManagedIds());
    ok := true;
  }

  method ForceRemoveAll(rt: Runtime, ids: seq<nat>, ghost members: set<nat>)
    requires multiset(ids) == multiset(members)
    modifies rt
    ensures rt.View() == Removed(rt.oracle, old(rt.View()), members, true)
  {
    hide Removed;
    ghost var w := rt.View();
    ListedOnce(ids, members);
    RemovedNone(rt.oracle, w, true);
    ghost var done: set<nat> := {};
    for i := 0 to |ids|
      invariant done == set c | c in ids[..i]
      invariant rt.View() == Removed(rt.oracle, w, done, true)
    {
      RemovedOneMore(rt.oracle, w, done, ids[i], true);
      var _ := rt.Remove(ids[i], true);
      done := done + {ids[i]};
    }
    assert ids[..|ids|] == ids;
  }

  /** The mutable environment a builder fills and a teardown releases. */
  class Environment {
    var network: Option<nat>
    var mysqlContainer: Option<nat>
    var kafkaContainer: Option<nat>
    var wireMockContainer: Option<nat>
    var redisContainers: map<string, nat>
    var appContainers: seq<nat>
    var mysqlHostDSN: string
    var kafkaBrokerAddr: string
    var wireMockHostURL: string
    var redisAddrs: map<string, string>
    var db: bool
    var redisClients: set<string>

    constructor ()
      ensures View() == EmptyEnv()
    {
      network, mysqlContainer, kafkaContainer, wireMockContainer := None, None, None, None;
      redisContainers, appContainers := map[], [];
      mysqlHostDSN, kafkaBrokerAddr, wireMockHostURL, redisAddrs := "", "", "", map[];
      db, redisClients := false, {};
    }

    function View(): Env
      reads this
    {
      Env(network, mysqlContainer, kafkaContainer, wireMockContainer, redisContainers, appContainers,
          mysqlHostDSN, kafkaBrokerAddr, wireMockHostURL, redisAddrs, db, redisClients)
    }

    /** Releases one place; `done` are the places released before it, starting from world `w`. */
    method Release(rt: Runtime, h: Holder, errs: seq<TeardownError>, ghost w: World, ghost e: Env,
                   ghost done: set<Holder>)
      returns (errs': seq<TeardownError>)
      requires e == View() && e.Distinct() && e.At(h).Some? && h !in done
      requires Progress(rt.oracle, w, e, done, rt.View(), errs)
      modifies rt
      ensures Progress(rt.oracle, w, e, done + {h}, rt.View(), errs')
    {
      hide Removed, Env.Ids, Unterminated, Env.Distinct;
      ProgressMore(rt.oracle, w, e, done, h, rt.View(), errs);
      var ok := rt.Remove(View().At(h).value, false);
      errs' := if ok then errs else errs + [NotTerminated(h)];
    }

    method ReleaseApps(rt: Runtime, errs: seq<TeardownError>, ghost w: World, ghost e: Env, ghost done: set<Holder>)
      returns (errs': seq<TeardownError>)
      requires e == View() && e.Distinct() && done == {}
      requires Progress(rt.oracle, w, e, done, rt.View(), errs)
      modifies rt
      ensures Progress(rt.oracle, w, e, e.AppHolders(|appContainers|), rt.View(), errs')
    {
      hide Progress, Env.Distinct;
      errs' := errs;
      assert e.AppHolders(0) == {};
      for i := 0 to |appContainers|
        invariant Progress(rt.oracle, w, e, e.AppHolders(i), rt.View(), errs')
      {
        assert e.AppHolders(i + 1) == e.AppHolders(i) + {HeldApp(i)};
        errs' := Release(rt, HeldApp(i), errs', w, e, e.AppHolders(i));
      }
    }

    method ReleaseRedis(rt: Runtime, errs: seq<TeardownError>, ghost w: World, ghost e: Env, ghost done: set<Holder>)
      returns (errs': seq<TeardownError>)
      requires e == View() && e.Distinct() && forall h <- done :: h.HeldApp?
      requires Progress(rt.oracle, w, e, done, rt.View(), errs)
      modifies rt
      ensures Progress(rt.oracle, w, e, done + e.RedisHolders(redisContainers.Keys), rt.View(), errs')
    {
      hide Progress, Env.Distinct;
      errs' := errs;
      var aliases := redisContainers.Keys;
      ghost var released: set<string> := {};
      assert done + e.RedisHolders({}) == done;
      while aliases != {}
        invariant aliases !! released && aliases + released == redisContainers.Keys
        invariant Progress(rt.oracle, w, e, done + e.RedisHolders(released), rt.View(), errs')
      {
        var alias :| alias in aliases;
        assert done + e.RedisHolders(released + {alias}) == done + e.RedisHolders(released) + {HeldRedis(alias)};
        errs' := Release(rt, HeldRedis(alias), errs', w, e, done + e.RedisHolders(released));
        aliases := aliases - {alias};
        released := released + {alias};
      }
    }

    method ReleaseBacking(rt: Runtime, h: Holder, errs: seq<TeardownError>, ghost w: World, ghost e: Env,
                          ghost done: set<Holder>)
      returns (errs': seq<TeardownError>)
      requires e == View() && e.Distinct() && h !in done
      requires Progress(rt.oracle, w, e, done, rt.View(), errs)
      modifies rt
      ensures Progress(rt.oracle, w, e, done + e.Backing(h), rt.View(), errs')
    {
      hide Progress, Env.Distinct;
      if View().At(h).Some? {
        errs' := Release(rt, h, errs, w, e, done);
      } else {
        errs' := errs;
        assert done + {} == done;
      }
    }

    method ReleaseCompanions(rt: Runtime, ghost w: World, ghost e: Env)
      returns (errs: seq<TeardownError>, ghost done: set<Holder>)
      requires e == View() && e.Distinct() && w == rt.View()
      modifies rt
      ensures done == e.AppHolders(|e.apps|) + e.RedisHolders(e.redis.Keys)
      ensures forall h <- done :: h.HeldApp? || h.HeldRedis?
      ensures Progress(rt.oracle, w, e, done, rt.View(), errs)
    {
      hide Progress, Env.Distinct;
      NoProgress(rt.oracle, w, e);
      errs := ReleaseApps(rt, [], w, e, {});
      done := e.AppHolders(|appContainers|);
      errs := ReleaseRedis(rt, errs, w, e, done);
      done := done + e.RedisHolders(redisContainers.Keys);
    }

    method ReleaseContainers(rt: Runtime, ghost w: World, ghost e: Env) returns (errs: seq<TeardownError>)
      requires e == View() && e.Distinct() && w == rt.View()
      modifies rt
      ensures Progress(rt.oracle, w, e, e.Holders(), rt.View(), errs)
    {
      hide Progress, Env.Distinct;
      ghost var done;
      errs, done := ReleaseCompanions(rt, w, e);
      errs := ReleaseBacking(rt, HeldMySQL, errs, w, e, done);
      done := done + e.Backing(HeldMySQL);
      assert forall h <- done :: h.HeldApp? || h.HeldRedis? || h.HeldMySQL?;
      errs := ReleaseBacking(rt, HeldKafka, errs, w, e, done);
      done := done + e.Backing(HeldKafka);
      assert forall h <- done :: h.HeldApp? || h.HeldRedis? || h.HeldMySQL? || h.HeldKafka?;
      errs := ReleaseBacking(rt, HeldWireMock, errs, w, e, done);
    }

    /** Removes the network, if there is one; its error comes on top of those collected so far. */
    method RemoveNetwork(rt: Runtime, errs: seq<TeardownError>, ghost found: set<TeardownError>)
      returns (errs': seq<TeardownError>)
      requires multiset(errs) == multiset(found) && NetworkNotRemoved !in found
      modifies rt
      ensures rt.View() == NetworkReleased(rt.oracle, old(rt.View()), View())
      ensures multiset(errs') == multiset(found + NetworkErrors(rt.oracle, old(rt.View()), View()))
    {
      errs' := errs;
      if network.Some? {
        var ok := rt.RemoveNetwork(network.value);
        if !ok {
          errs' := errs + [NetworkNotRemoved];
        }
      }
      assert found + {} == found;
    }

    method Prune(rt: Runtime, errs: seq<TeardownError>, ghost found: set<TeardownError>)
      returns (errs': seq<TeardownError>)
      requires multiset(errs) == multiset(found) && NotPruned !in found
      modifies rt
      ensures rt.View() == Pruned(rt.oracle, old(rt.View()))
      ensures multiset(errs') == multiset(found + PruneErrors(rt.oracle, old(rt.View())))
    {
      errs' := errs;
      var pruned := PruneManagedContainers(rt);
      if !pruned {
        errs' := errs + [NotPruned];
      }
      assert found + {} == found;
    }

    /** Releases everything it can. The errors collected are those of the steps that failed, one each. */
    method Teardown(rt: Runtime) returns (errs: seq<TeardownError>)
      requires View().Distinct()
      modifies rt
      ensures rt.View() == TornDown(rt.oracle, old(rt.View()), View())
      ensures multiset(errs) == multiset(TeardownErrors(rt.oracle, old(rt.View()), View()))
    {
      ghost var w, e := rt.View(), View();
      errs := ReleaseContainers(rt, w, e);
      ghost var found := Unterminated(rt.oracle, w, e, e.Holders());
      errs := RemoveNetwork(rt, errs, found);
      found := found + NetworkErrors(rt.oracle, Terminated(rt.oracle, w, e), e);
      errs := Prune(rt, errs, found);
    }
  }
}
