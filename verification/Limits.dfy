/** The file descriptor budget, and what the pools and sessions can use of it. */
module Limits {
  import opened Units
  import opened Bytes
  import opened Crypto
  import Counting
  import WsPool
  import WsPoolRuns
  import WsPoolTheorems
  import WorkerPool
  import WorkerPoolRuns
  import Routing

  newtype uint64 = x: int | 0 <= x < 0x1_0000_0000_0000_0000

  /** The configured addresses of each data centre. */
  type DCPool = map<int, seq<string>>

  // ---------------------------------------------------------------------------------------------------------------
  // Adding up over a map
  // ---------------------------------------------------------------------------------------------------------------

  ghost function Pick<T>(s: set<T>): (x: T)
    requires s != {}
    ensures x in s
  {
    var x :| x in s;
    x
  }

  ghost function IpsOf(pool: DCPool, dcs: set<int>): nat
    requires dcs <= pool.Keys
    decreases |dcs|
  {
    if dcs == {} then 0 else
    var dc := Pick(dcs);
    |pool[dc]| + IpsOf(pool, dcs - {dc})
  }

  /** The sum does not depend on the order. */
  lemma {:induction false} IpsSplit(pool: DCPool, dcs: set<int>, dc: int)
    requires dcs <= pool.Keys && dc in dcs
    ensures IpsOf(pool, dcs) == |pool[dc]| + IpsOf(pool, dcs - {dc})
    decreases |dcs|
  {
    var first := Pick(dcs);
    if first == dc {
    } else {
      IpsSplit(pool, dcs - {first}, dc);
      IpsSplit(pool, dcs - {dc}, first);
      assert dcs - {first} - {dc} == dcs - {dc} - {first};
    }
  }

  ghost function NumIps(pool: DCPool): nat {
    IpsOf(pool, pool.Keys)
  }

  /** Runtime and transient dials, four pooled sockets per address and pool slot, the workers, two sockets per
      session. */
  function Needed(poolSize: nat, ips: nat, workers: bool, maxConns: nat): nat {
    33 + 4 * poolSize * ips + (if poolSize > 0 && workers then 12 else 0) + 2 * maxConns
  }

  /** Four times the pool size, `n` times over. */
  function Cost(poolSize: nat, n: nat): nat {
    if n == 0 then 0 else Cost(poolSize, n - 1) + 4 * poolSize
  }

  lemma {:induction false} CostIs(poolSize: nat, n: nat)
    ensures Cost(poolSize, n) == 4 * poolSize * n
  {
    if n == 0 {
    } else {
      CostIs(poolSize, n - 1);
      assert 4 * poolSize * n == 4 * poolSize * (n - 1) + 4 * poolSize;
    }
  }

  lemma {:induction false} CostSum(poolSize: nat, a: nat, b: nat)
    ensures Cost(poolSize, a + b) == Cost(poolSize, a) + Cost(poolSize, b)
  {
    if b == 0 {
    } else {
      CostSum(poolSize, a, b - 1);
      assert a + b - 1 == a + (b - 1);
    }
  }

  /** The inner loop: takes four times the pool size off `remaining` for each of `n` addresses, as long as there is
      enough. */
  method TakeForIps(poolSize: uint64, n: nat, before: uint64) returns (ok: bool, remaining: uint64)
    ensures ok <==> Cost(poolSize as int, n) <= before as int
    ensures ok ==> remaining as int == before as int - Cost(poolSize as int, n)
  {
    remaining := before;
    for i := 0 to n
      invariant remaining as int + Cost(poolSize as int, i) == before as int
    {
      if poolSize > remaining / 4 {
        CostSum(poolSize as int, i + 1, n - (i + 1));
        return false, remaining;
      }
      remaining := remaining - poolSize * 4;
    }
    return true, remaining;
  }

  lemma CostSplit(pool: DCPool, poolSize: nat, dcs: set<int>, dc: int)
    requires dcs <= pool.Keys && dc in dcs
    ensures Cost(poolSize, IpsOf(pool, dcs)) == Cost(poolSize, |pool[dc]|) + Cost(poolSize, IpsOf(pool, dcs - {dc}))
  {
    IpsSplit(pool, dcs, dc);
    CostSum(poolSize, |pool[dc]|, IpsOf(pool, dcs - {dc}));
  }

  /** The loops over all addresses, in whatever order the map yields them. */
  method TakeForPool(pool: DCPool, poolSize: uint64, before: uint64) returns (ok: bool, remaining: uint64)
    ensures ok <==> Cost(poolSize as int, NumIps(pool)) <= before as int
    ensures ok ==> remaining as int == before as int - Cost(poolSize as int, NumIps(pool))
  {
    ghost var total := Cost(poolSize as int, NumIps(pool));
    remaining := before;
    var todo := pool.Keys;
    while todo != {}
      invariant todo <= pool.Keys
      invariant remaining as int + total == before as int + Cost(poolSize as int, IpsOf(pool, todo))
      decreases |todo|
    {
      var dc :| dc in todo;
      CostSplit(pool, poolSize as int, todo, dc);
      ok, remaining := TakeForIps(poolSize, |pool[dc]|, remaining);
      if !ok {
        return;
      }
      todo := todo - {dc};
    }
    ok := true;
  }

  /** fitsFDBudget: the exact comparison over unbounded integers, for every order in which the map is visited and
      with no wrap-around on the way. */
  method FitsFDBudget(pool: DCPool, poolSize: uint64, workers: bool, maxConns: uint64, limit: uint64) returns (ok: bool)
    ensures ok <==> Needed(poolSize as int, NumIps(pool), workers, maxConns as int) <= limit as int
  {
    CostIs(poolSize as int, NumIps(pool));
    if limit < 33 {
      return false;
    }
    var remaining := limit - 33;
    ok, remaining := TakeForPool(pool, poolSize, remaining);
    if !ok {
      return;
    }
    if poolSize > 0 && workers {
      if remaining < 12 {
        return false;
      }
      remaining := remaining - 12;
    }
    return maxConns <= remaining / 2;
  }

  // ---------------------------------------------------------------------------------------------------------------
  // What the pools can hold
  // ---------------------------------------------------------------------------------------------------------------

  /** The keys of the direct pool: each address for ordinary and for media traffic. */
  ghost function KeysOf(pool: DCPool, dcs: set<int>): set<WsPool.Key>
    requires dcs <= pool.Keys
  {
    set dc, media, ip | dc in dcs && media in {false, true} && ip in pool[dc] :: WsPool.Key(dc, media, ip)
  }

  ghost function DcKeys(dc: int, media: bool, ips: seq<string>): set<WsPool.Key> {
    set ip | ip in ips :: WsPool.Key(dc, media, ip)
  }

  lemma {:induction false} DcKeysBound(dc: int, media: bool, ips: seq<string>)
    ensures |DcKeys(dc, media, ips)| <= |ips|
  {
    if ips == [] {
    } else {
      DcKeysBound(dc, media, ips[1..]);
      assert DcKeys(dc, media, ips) == {WsPool.Key(dc, media, ips[0])} + DcKeys(dc, media, ips[1..]);
    }
  }

  lemma {:induction false} KeysBound(pool: DCPool, dcs: set<int>)
    requires dcs <= pool.Keys
    ensures |KeysOf(pool, dcs)| <= 2 * IpsOf(pool, dcs)
    decreases |dcs|
  {
    if dcs == {} {
      assert KeysOf(pool, dcs) == {};
    } else {
      var dc := Pick(dcs);
      IpsSplit(pool, dcs, dc);
      KeysBound(pool, dcs - {dc});
      DcKeysBound(dc, false, pool[dc]);
      DcKeysBound(dc, true, pool[dc]);
      var a, b, c := DcKeys(dc, false, pool[dc]), DcKeys(dc, true, pool[dc]), KeysOf(pool, dcs - {dc});
      assert KeysOf(pool, dcs) == a + b + c;
    }
  }

  /** The direct pool stays within the four sockets per address and pool slot that the budget sets aside. */
  lemma DirectPoolWithin(pool: DCPool, poolSize: nat, s: WsPoolRuns.State)
    requires WsPoolRuns.Reachable(WsPoolRuns.Cfg(poolSize, KeysOf(pool, pool.Keys)), s)
    ensures |WsPoolTheorems.Sockets(s)| <= 4 * poolSize * NumIps(pool)
  {
    var keys := KeysOf(pool, pool.Keys);
    WsPoolTheorems.SocketBound(WsPoolRuns.Cfg(poolSize, keys), s);
    KeysBound(pool, pool.Keys);
    TwiceTwice(poolSize, |keys|, NumIps(pool));
  }

  lemma TwiceTwice(poolSize: nat, keys: nat, ips: nat)
    requires keys <= 2 * ips
    ensures 2 * poolSize * keys <= 4 * poolSize * ips
  {
    assert poolSize * keys <= poolSize * (2 * ips);
  }

  // ---------------------------------------------------------------------------------------------------------------
  // What the worker pool can hold
  // ---------------------------------------------------------------------------------------------------------------

  const FALLBACK_IPS: map<int, string> := map[
    1 := "149.154.175.50", 2 := "149.154.167.51", 3 := "149.154.175.100",
    4 := "149.154.167.91", 5 := "149.154.171.5", 203 := "91.105.192.100"]

  const FALLBACK_DCS: set<int> := FALLBACK_IPS.Keys

  /** Where a session or the warmup reaches a data centre through a worker: its built-in address, or the first
      configured one, if there is any. */
  function Target(pool: DCPool, dc: int): string {
    if dc in FALLBACK_IPS then FALLBACK_IPS[dc]
    else if dc in pool && pool[dc] != [] then pool[dc][0]
    else ""
  }

  function WorkerKey(pool: DCPool, dc: int): WorkerPool.Key {
    WorkerPool.Key(dc, Target(pool, dc))
  }

  ghost function WorkerKeysAt(pool: DCPool, dcs: set<int>): set<WorkerPool.Key> {
    set dc | dc in dcs :: WorkerKey(pool, dc)
  }

  /** The data centres that a handshake can name and only the configuration gives an address to. */
  ghost function Beyond(pool: DCPool): set<int> {
    set dc | dc in pool.Keys && 0 <= dc <= MAX_DC && dc !in FALLBACK_DCS && Target(pool, dc) != ""
  }

  /** The worker keys of a configuration: one for each data centre that can be asked for and has a target. */
  ghost function WorkerKeys(pool: DCPool): set<WorkerPool.Key> {
    WorkerKeysAt(pool, FALLBACK_DCS + Beyond(pool))
  }

  lemma {:induction false} WorkerKeysSize(pool: DCPool, dcs: set<int>)
    ensures |WorkerKeysAt(pool, dcs)| == |dcs|
    decreases |dcs|
  {
    if dcs == {} {
      assert WorkerKeysAt(pool, dcs) == {};
    } else {
      var dc := Pick(dcs);
      WorkerKeysSize(pool, dcs - {dc});
      assert WorkerKeysAt(pool, dcs) == WorkerKeysAt(pool, dcs - {dc}) + {WorkerKey(pool, dc)};
    }
  }

  /** A key is asked for by a session, for the data centre of its handshake, or by the warmup, for a built-in one. */
  ghost predicate AskedFor(p: Primitives, secret: seq<byte>, dc: int) {
    dc in FALLBACK_DCS || exists handshake :: Names(p, secret, handshake, dc)
  }

  lemma CanBeAsked(p: Primitives, secret: seq<byte>, dc: int)
    ensures AskedFor(p, secret, dc) <==> 0 <= dc <= MAX_DC
  {
    NamedExactly(p, secret, dc);
  }

  lemma Targeted(pool: DCPool, dc: int)
    ensures 0 <= dc <= MAX_DC && Target(pool, dc) != "" <==> dc in FALLBACK_DCS + Beyond(pool)
  {
  }

  /** The worker keys are those of the data centres that can be asked for and have a target: six and the ones beyond. */
  lemma WorkerKeysAre(pool: DCPool, p: Primitives, secret: seq<byte>)
    ensures forall k :: k in WorkerKeys(pool) <==>
        AskedFor(p, secret, k.dc) && Target(pool, k.dc) != "" && k.dst == Target(pool, k.dc)
    ensures |WorkerKeys(pool)| == 6 + |Beyond(pool)|
  {
    forall k: WorkerPool.Key
      ensures k in WorkerKeys(pool) <==>
              AskedFor(p, secret, k.dc) && Target(pool, k.dc) != "" && k.dst == Target(pool, k.dc)
    {
      CanBeAsked(p, secret, k.dc);
      Targeted(pool, k.dc);
    }
    KeysCount(pool);
  }

  lemma KeysCount(pool: DCPool)
    ensures |WorkerKeys(pool)| == 6 + |Beyond(pool)|
  {
    WorkerKeysSize(pool, FALLBACK_DCS + Beyond(pool));
    Builtins();
    assert FALLBACK_DCS !! Beyond(pool);
  }

  lemma Builtins()
    ensures |FALLBACK_DCS| == 6
  {
    assert FALLBACK_DCS == {1, 2, 3, 4, 5, 203};
  }

  /** Without pooling or without worker domains the worker pool never holds anything. */
  ghost predicate NoWorkers(s: WorkerPoolRuns.State) {
    s.refills == map[] && s.sh.idle == map[] && WorkerPoolRuns.PendingOf(s.closer) == {}
  }

  lemma {:induction false} StaysWithoutWorkers(cfg: WorkerPool.Cfg, s: WorkerPoolRuns.State,
                                               steps: seq<WorkerPoolRuns.Step>, s': WorkerPoolRuns.State)
    requires !(cfg.poolSize > 0 && cfg.hasDomains) && NoWorkers(s) && WorkerPoolRuns.Run(cfg, s, steps, s')
    ensures NoWorkers(s')
    decreases |steps|
  {
    if steps == [] {
    } else {
      StaysWithoutWorkers(cfg, WorkerPoolRuns.Apply(cfg, s, steps[0]), steps[1..], s');
    }
  }

  /** An open pool at rest, with a connection for each of `keys`; connections are numbered below `n`. */
  ghost predicate AtRest(s: WorkerPoolRuns.State, keys: set<WorkerPool.Key>, n: nat) {
    && !s.sh.closed && s.sh.idle.Keys == keys && s.sh.refilling == {} && s.refills == map[]
    && forall c :: c in s.keyOf ==> c < n
  }

  lemma {:induction false} RunAppend(cfg: WorkerPool.Cfg, s: WorkerPoolRuns.State, a: seq<WorkerPoolRuns.Step>,
                                     mid: WorkerPoolRuns.State, b: seq<WorkerPoolRuns.Step>, end: WorkerPoolRuns.State)
    requires WorkerPoolRuns.Run(cfg, s, a, mid) && WorkerPoolRuns.Run(cfg, mid, b, end)
    ensures WorkerPoolRuns.Run(cfg, s, a + b, end)
    decreases |a|
  {
    if a == [] {
      assert a + b == b;
    } else {
      RunAppend(cfg, WorkerPoolRuns.Apply(cfg, s, a[0]), a[1..], mid, b, end);
      assert (a + b)[0] == a[0] && (a + b)[1..] == a[1..] + b;
    }
  }

  lemma OneStepMore(cfg: WorkerPool.Cfg, s: WorkerPoolRuns.State, step: WorkerPoolRuns.Step)
    requires WorkerPoolRuns.Reachable(cfg, s) && WorkerPoolRuns.Enabled(cfg, s, step)
    ensures WorkerPoolRuns.Reachable(cfg, WorkerPoolRuns.Apply(cfg, s, step))
  {
    var steps :| WorkerPoolRuns.Run(cfg, WorkerPoolRuns.Init(), steps, s);
    var s' := WorkerPoolRuns.Apply(cfg, s, step);
    assert [step][1..] == [];
    assert WorkerPoolRuns.Run(cfg, s', [], s');
    RunAppend(cfg, WorkerPoolRuns.Init(), steps, s, [step], s');
  }

  /** From one request to the connection in the pool: dialed, stored, and the goroutine gone. */
  lemma FillOne(cfg: WorkerPool.Cfg, s: WorkerPoolRuns.State, keys: set<WorkerPool.Key>, key: WorkerPool.Key, n: nat)
    returns (s4: WorkerPoolRuns.State)
    requires cfg.poolSize > 0 && cfg.hasDomains && key in cfg.keys && key !in keys && AtRest(s, keys, n)
    requires WorkerPoolRuns.Reachable(cfg, s)
    ensures AtRest(s4, keys + {key}, n + 1) && WorkerPoolRuns.Reachable(cfg, s4)
  {
    assert WorkerPool.Startable(s.sh, cfg, key);
    OneStepMore(cfg, s, WorkerPoolRuns.Request(key, 0));
    var s1 := WorkerPoolRuns.Apply(cfg, s, WorkerPoolRuns.Request(key, 0));
    assert s1.refills == map[0 := WorkerPoolRuns.Refill(key, WorkerPoolRuns.Connecting)];
    OneStepMore(cfg, s1, WorkerPoolRuns.Connect(0, n));
    var s2 := WorkerPoolRuns.Apply(cfg, s1, WorkerPoolRuns.Connect(0, n));
    OneStepMore(cfg, s2, WorkerPoolRuns.End(0));
    var s3 := WorkerPoolRuns.Apply(cfg, s2, WorkerPoolRuns.End(0));
    OneStepMore(cfg, s3, WorkerPoolRuns.Done(0));
    s4 := WorkerPoolRuns.Apply(cfg, s3, WorkerPoolRuns.Done(0));
    assert s4.refills == map[];
  }

  /** A connection can be pooled for each of any configured keys at once. */
  lemma {:induction false} FillAll(cfg: WorkerPool.Cfg, keys: set<WorkerPool.Key>) returns (s: WorkerPoolRuns.State,
                                                                                            n: nat)
    requires cfg.poolSize > 0 && cfg.hasDomains && keys <= cfg.keys
    ensures WorkerPoolRuns.Reachable(cfg, s) && AtRest(s, keys, n)
    decreases |keys|
  {
    if keys == {} {
      s, n := WorkerPoolRuns.Init(), 0;
      assert WorkerPoolRuns.Run(cfg, s, [], s);
    } else {
      var key := Pick(keys);
      s, n := FillAll(cfg, keys - {key});
      s := FillOne(cfg, s, keys - {key}, key, n);
      n := n + 1;
      assert keys - {key} + {key} == keys;
    }
  }

  ghost function IdleSlots(keys: set<WorkerPool.Key>): set<WorkerPoolRuns.Slot> {
    set k | k in keys :: WorkerPoolRuns.OfIdle(k)
  }

  lemma {:induction false} IdleSlotsSize(keys: set<WorkerPool.Key>)
    ensures |IdleSlots(keys)| == |keys|
    decreases |keys|
  {
    if keys == {} {
    } else {
      var key := Pick(keys);
      IdleSlotsSize(keys - {key});
      assert IdleSlots(keys) == IdleSlots(keys - {key}) + {WorkerPoolRuns.OfIdle(key)};
    }
  }

  ghost predicate WorkersWithin(cfg: WorkerPool.Cfg, bound: nat) {
    forall s :: WorkerPoolRuns.Reachable(cfg, s) ==> |WorkerPoolRuns.Slots(s)| <= bound
  }

  /** A bound on the worker pool's sockets holds in all reachable states exactly when it is a bound on the number of
      keys: a connection can be pooled for every key at once. */
  lemma WorkerBoundExact(cfg: WorkerPool.Cfg, bound: nat)
    requires cfg.poolSize > 0 && cfg.hasDomains
    ensures WorkersWithin(cfg, bound) <==> |cfg.keys| <= bound
  {
    forall s | WorkerPoolRuns.Reachable(cfg, s) ensures |WorkerPoolRuns.Slots(s)| <= |cfg.keys| {
      WorkerPoolRuns.WorkerSocketBound(cfg, s);
    }
    var s, _ := FillAll(cfg, cfg.keys);
    IdleSlotsSize(cfg.keys);
    assert WorkerPoolRuns.Slots(s) >= IdleSlots(cfg.keys);
    Counting.SubsetSize(IdleSlots(cfg.keys), WorkerPoolRuns.Slots(s));
  }

  ghost function WorkerCfg(pool: DCPool, poolSize: nat, workers: bool): WorkerPool.Cfg {
    WorkerPool.Cfg(poolSize, workers, WorkerKeys(pool))
  }

  /** For a configuration with prewarmed workers, the reserve of twelve sockets holds in all reachable states exactly
      when it gives at most six data centres beyond the built-in ones an address, not counting those that no handshake
      can name. Without prewarming none is ever needed. */
  lemma WorkerPoolWithin(pool: DCPool, poolSize: nat, workers: bool)
    ensures poolSize > 0 && workers ==> (WorkersWithin(WorkerCfg(pool, poolSize, workers), 12) <==> |Beyond(pool)| <= 6)
    ensures !(poolSize > 0 && workers) ==> WorkersWithin(WorkerCfg(pool, poolSize, workers), 0)
  {
    var cfg := WorkerCfg(pool, poolSize, workers);
    if poolSize > 0 && workers {
      KeysCount(pool);
      WorkerBoundExact(cfg, 12);
    } else {
      NeverAnyWorkers(cfg);
    }
  }

  lemma NeverAnyWorkers(cfg: WorkerPool.Cfg)
    requires !(cfg.poolSize > 0 && cfg.hasDomains)
    ensures WorkersWithin(cfg, 0)
  {
    forall s | WorkerPoolRuns.Reachable(cfg, s) ensures |WorkerPoolRuns.Slots(s)| <= 0 {
      var steps :| WorkerPoolRuns.Run(cfg, WorkerPoolRuns.Init(), steps, s);
      StaysWithoutWorkers(cfg, WorkerPoolRuns.Init(), steps, s);
      assert WorkerPoolRuns.Slots(s) == {};
    }
  }

  // ---------------------------------------------------------------------------------------------------------------
  // Sessions
  // ---------------------------------------------------------------------------------------------------------------

  /** The semaphore around client sessions: a connection that finds it full is dropped. */
  datatype ServeStep = Accept(id: nat) | Finish(id: nat)

  function Serve(active: set<nat>, maxConns: nat, step: ServeStep): set<nat> {
    match step
    case Accept(id) => if |active| < maxConns then active + {id} else active
    case Finish(id) => active - {id}
  }

  function ServeAll(active: set<nat>, maxConns: nat, steps: seq<ServeStep>): set<nat>
    decreases |steps|
  {
    if steps == [] then active else ServeAll(Serve(active, maxConns, steps[0]), maxConns, steps[1..])
  }

  lemma {:induction false} SessionsWithin(active: set<nat>, maxConns: nat, steps: seq<ServeStep>)
    requires |active| <= maxConns
    ensures |ServeAll(active, maxConns, steps)| <= maxConns
    decreases |steps|
  {
    if steps == [] {
    } else {
      Counting.SubsetSize(active - {steps[0].id}, active);
      SessionsWithin(Serve(active, maxConns, steps[0]), maxConns, steps[1..]);
    }
  }

  /** A connection is turned away exactly when as many sessions as configured are active. */
  lemma DroppedWhenFull(maxConns: nat, steps: seq<ServeStep>, id: nat)
    ensures var active := ServeAll({}, maxConns, steps);
      id !in Serve(active, maxConns, Accept(id)) <==> id !in active && |active| == maxConns
  {
    SessionsWithin({}, maxConns, steps);
  }

  /** What a session is doing: it is inside a get call of one of the pools, or dials an upstream, or neither. */
  datatype Doing = Getting(g: nat) | GettingWorker(g: nat) | Dialing | Other

  /** Where an active session stands: what it is doing, what it has done, and which get calls of the two pools have
      returned it a connection. */
  datatype Phase = Phase(doing: Doing, log: seq<Routing.Event>, direct: Option<nat>, pooled: Option<nat>) {
    /** A session takes or dials an upstream only while it has none open. */
    ghost predicate Lawful(cfFirst: bool) {
      var m := Routing.After(cfFirst, log);
      m.Some? && (doing.Other? || m.value.open.None?)
    }

    /** What the session opened by this event, it got from a pool. */
    predicate FromPool(e: Routing.Event) {
      e.Open? && (e.route == Routing.Direct || e.route == Routing.PooledWorker)
    }

    ghost predicate Uses(route: Routing.Route) {
      exists e :: Routing.StillOpen(log, e) && e.route == route
    }
  }

  /** An upstream socket that is no pool's: taken by a get call, being dialed by a session, or dialed by it, opened and
      not closed. */
  datatype Upstream = Taken(g: nat) | TakenWorker(g: nat) | Dialed(id: nat) | Opened(id: nat, e: Routing.Event)

  /** Both pools and all active sessions at one instant, and the connections that sessions have got from the pools and
      closed. */
  datatype World = World(direct: WsPoolRuns.State, worker: WorkerPoolRuns.State, active: set<nat>,
                         phases: nat -> Phase, dropped: set<WsPool.ConnId>, droppedWorkers: set<WorkerPool.ConnId>) {
    /** The get calls, under way or returned, that have taken a connection which is not closed. */
    ghost function Takers(): set<nat> {
      set g | g in direct.getters && WsPoolTheorems.TakenBy(direct, g).Some?
              && WsPoolTheorems.TakenBy(direct, g).value !in dropped
    }

    ghost function WorkerTakers(): set<nat> {
      set g | g in worker.getters && WorkerPoolRuns.TakenBy(worker, g).Some?
              && WorkerPoolRuns.TakenBy(worker, g).value !in droppedWorkers
    }

    /** Session `id` makes that call, or has its connection open. */
    ghost predicate HasTaken(id: nat, g: nat) {
      || phases(id).doing == Getting(g)
      || (phases(id).direct == Some(g) && phases(id).Uses(Routing.Direct))
    }

    ghost predicate HasTakenWorker(id: nat, g: nat) {
      || phases(id).doing == GettingWorker(g)
      || (phases(id).pooled == Some(g) && phases(id).Uses(Routing.PooledWorker))
    }

    /** The sessions are at lawful points, and have every connection that a get call has taken and nobody closed. */
    ghost predicate Lawful(cfFirst: bool) {
      && (forall id :: id in active ==> phases(id).Lawful(cfFirst))
      && (forall g :: g in Takers() ==> exists id :: id in active && HasTaken(id, g))
      && (forall g :: g in WorkerTakers() ==> exists id :: id in active && HasTakenWorker(id, g))
    }

    ghost function Upstreams(): set<Upstream> {
      (set g | g in Takers() :: Taken(g))
      + (set g | g in WorkerTakers() :: TakenWorker(g))
      + (set id | id in active && phases(id).doing.Dialing? :: Dialed(id))
      + (set id, e | id in active && e in phases(id).log && Dials(id, e) :: Opened(id, e))
    }

    predicate Dials(id: nat, e: Routing.Event) {
      Routing.StillOpen(phases(id).log, e) && !phases(id).FromPool(e)
    }

    ghost predicate OwnedBy(u: Upstream, id: nat) {
      match u
      case Taken(g) => HasTaken(id, g)
      case TakenWorker(g) => HasTakenWorker(id, g)
      case Dialed(owner) => id == owner && phases(id).doing.Dialing?
      case Opened(owner, e) => id == owner && Dials(id, e)
    }

    /** The route by which a session that is doing nothing else has `u`. */
    ghost predicate By(u: Upstream, id: nat, e: Routing.Event) {
      && Routing.StillOpen(phases(id).log, e)
      && match u
         case Taken(g) => phases(id).direct == Some(g) && e.route == Routing.Direct
         case TakenWorker(g) => phases(id).pooled == Some(g) && e.route == Routing.PooledWorker
         case Dialed(_) => false
         case Opened(owner, f) => owner == id && e == f && !phases(id).FromPool(e)
    }

    lemma ByDoing(cfFirst: bool, u: Upstream, id: nat)
      requires phases(id).Lawful(cfFirst) && OwnedBy(u, id)
      ensures if phases(id).doing.Other? then exists e :: By(u, id, e)
              else u == match phases(id).doing
                        case Getting(g) => Taken(g)
                        case GettingWorker(g) => TakenWorker(g)
                        case _ => Dialed(id)
    {
      var log := phases(id).log;
      forall e | Routing.StillOpen(log, e) ensures phases(id).doing.Other? {
        Routing.OneOpening(cfFirst, log, e, e);
      }
      if phases(id).doing.Other? {
        match u
        case Taken(_) =>
          var e :| Routing.StillOpen(log, e) && e.route == Routing.Direct;
          assert By(u, id, e);
        case TakenWorker(_) =>
          var e :| Routing.StillOpen(log, e) && e.route == Routing.PooledWorker;
          assert By(u, id, e);
        case Dialed(_) =>
        case Opened(_, e) => assert By(u, id, e);
      }
    }

    lemma OneOwned(cfFirst: bool, u: Upstream, v: Upstream, id: nat)
      requires phases(id).Lawful(cfFirst) && OwnedBy(u, id) && OwnedBy(v, id)
      ensures u == v
    {
      ByDoing(cfFirst, u, id);
      ByDoing(cfFirst, v, id);
      if phases(id).doing.Other? {
        var e, f :| By(u, id, e) && By(v, id, f);
        Routing.OneOpening(cfFirst, phases(id).log, e, f);
      }
    }

    lemma {:induction false} AtMostOneEach(cfFirst: bool, us: set<Upstream>, ids: set<nat>)
      requires forall u :: u in us ==> exists id :: id in ids && OwnedBy(u, id)
      requires forall id :: id in ids ==> phases(id).Lawful(cfFirst)
      ensures |us| <= |ids|
      decreases |us|
    {
      if us == {} {
      } else {
        var u := Pick(us);
        var id :| id in ids && OwnedBy(u, id);
        forall v | v in us - {u} ensures exists id' :: id' in ids - {id} && OwnedBy(v, id') {
          var id' :| id' in ids && OwnedBy(v, id');
          if id' == id {
            OneOwned(cfFirst, u, v, id);
          }
        }
        AtMostOneEach(cfFirst, us - {u}, ids - {id});
      }
    }

    lemma Owned(cfFirst: bool, u: Upstream) returns (id: nat)
      requires Lawful(cfFirst) && u in Upstreams()
      ensures id in active && OwnedBy(u, id)
    {
      match u
      case Taken(g) => id :| id in active && HasTaken(id, g);
      case TakenWorker(g) => id :| id in active && HasTakenWorker(id, g);
      case Dialed(owner) => id := owner;
      case Opened(owner, _) => id := owner;
    }

    /** A session has at most one upstream at a time, so that with its client's it has two sockets. */
    lemma OnePerSession(cfFirst: bool)
      requires Lawful(cfFirst)
      ensures |Upstreams()| <= |active|
    {
      var us := Upstreams();
      forall u | u in us ensures exists id :: id in active && OwnedBy(u, id) {
        var id := Owned(cfFirst, u);
      }
      AtMostOneEach(cfFirst, us, active);
    }

    /** Every pool connection that nobody has closed is counted: among the pool's sockets, or as an upstream. */
    lemma AllCounted(directCfg: WsPoolRuns.Cfg, workerCfg: WorkerPool.Cfg)
      requires WsPoolRuns.Reachable(directCfg, direct) && WorkerPoolRuns.Reachable(workerCfg, worker)
      ensures forall c :: c in direct.keyOf && c !in direct.shut && c !in dropped ==>
          || WsPoolTheorems.Established(c) in WsPoolTheorems.Sockets(direct)
          || exists g :: Taken(g) in Upstreams() && WsPoolTheorems.TakenBy(direct, g) == Some(c)
      ensures forall c :: c in worker.keyOf && c !in worker.shut && c !in droppedWorkers ==>
          || WorkerPoolRuns.Slotted(worker, c)
          || exists g :: TakenWorker(g) in Upstreams() && WorkerPoolRuns.TakenBy(worker, g) == Some(c)
    {
      forall c | c in direct.keyOf && c !in direct.shut && c !in dropped
        ensures WsPoolTheorems.Established(c) in WsPoolTheorems.Sockets(direct)
                || exists g :: Taken(g) in Upstreams() && WsPoolTheorems.TakenBy(direct, g) == Some(c)
      {
        DirectCounted(directCfg, c);
      }
      forall c | c in worker.keyOf && c !in worker.shut && c !in droppedWorkers
        ensures WorkerPoolRuns.Slotted(worker, c)
                || exists g :: TakenWorker(g) in Upstreams() && WorkerPoolRuns.TakenBy(worker, g) == Some(c)
      {
        WorkerCounted(workerCfg, c);
      }
    }

    lemma DirectCounted(cfg: WsPoolRuns.Cfg, c: WsPool.ConnId)
      requires WsPoolRuns.Reachable(cfg, direct) && c in direct.keyOf && c !in direct.shut && c !in dropped
      ensures || WsPoolTheorems.Established(c) in WsPoolTheorems.Sockets(direct)
              || exists g :: Taken(g) in Upstreams() && WsPoolTheorems.TakenBy(direct, g) == Some(c)
    {
      WsPoolTheorems.AllAnswered(cfg, direct, c);
      if g :| WsPoolTheorems.TakenBy(direct, g) == Some(c) {
        assert g in Takers();
        assert Taken(g) in Upstreams();
      }
    }

    lemma WorkerCounted(cfg: WorkerPool.Cfg, c: WorkerPool.ConnId)
      requires WorkerPoolRuns.Reachable(cfg, worker) && c in worker.keyOf && c !in worker.shut && c !in droppedWorkers
      ensures || WorkerPoolRuns.Slotted(worker, c)
              || exists g :: TakenWorker(g) in Upstreams() && WorkerPoolRuns.TakenBy(worker, g) == Some(c)
    {
      WorkerPoolRuns.WorkersAnswered(cfg, worker, c);
      if g :| WorkerPoolRuns.TakenBy(worker, g) == Some(c) {
        assert g in WorkerTakers();
        assert TakenWorker(g) in Upstreams();
      }
    }

    /** The pools' sockets, one per client, and the upstreams. */
    ghost function Total(): nat {
      |WsPoolTheorems.Sockets(direct)| + |WorkerPoolRuns.Slots(worker)| + |active| + |Upstreams()|
    }
  }

  /** When the budget check passes, the direct pool, the worker pool and the sessions, each in any state they can reach,
      together stay below the limit with 33 descriptors to spare, as long as the workers' reserve suffices. */
  lemma WithinLimit(pool: DCPool, poolSize: nat, workers: bool, maxConns: nat, limit: nat, w: World,
                    serving: seq<ServeStep>, cfFirst: bool)
    requires Needed(poolSize, NumIps(pool), workers, maxConns) <= limit
    requires WsPoolRuns.Reachable(WsPoolRuns.Cfg(poolSize, KeysOf(pool, pool.Keys)), w.direct)
    requires WorkerPoolRuns.Reachable(WorkerCfg(pool, poolSize, workers), w.worker) && |Beyond(pool)| <= 6
    requires w.active == ServeAll({}, maxConns, serving) && w.Lawful(cfFirst)
    ensures 33 + w.Total() <= limit
  {
    DirectPoolWithin(pool, poolSize, w.direct);
    WorkerPoolWithin(pool, poolSize, workers);
    SessionsWithin({}, maxConns, serving);
    w.OnePerSession(cfFirst);
  }
}
