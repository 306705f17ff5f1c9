/** The pool of pre-dialed WebSocket connections: its shared maps, and the code each goroutine runs under the mutex. */
module WsPool {
  import opened Units
  import opened Backoff

  type ConnId = nat

  datatype Key = Key(dc: int, media: bool, ip: string)

  datatype Item = Item(conn: ConnId, created: Time)

  datatype Route = Route(domains: seq<string>, retryDelay: nat, retryAfter: Time)

  /** The fields guarded by the mutex. */
  datatype Shared = Shared(
    closed: bool,
    idle: map<Key, seq<Item>>,
    refilling: set<Key>,
    routes: map<Key, Route>)

  const MAX_AGE: nat := 120 * SECOND
  const BACKOFF_MIN: nat := 5 * SECOND
  const BACKOFF_MAX: nat := MINUTE

  function Bucket(idle: map<Key, seq<Item>>, key: Key): seq<Item> {
    if key in idle then idle[key] else []
  }

  function Conns(bucket: seq<Item>): set<ConnId> {
    set item | item in bucket :: item.conn
  }

  ghost predicate Distinct(bucket: seq<Item>) {
    forall i, j :: 0 <= i < j < |bucket| ==> bucket[i].conn != bucket[j].conn
  }

  /** Too old, or its first read has already failed (`broken`). */
  predicate Stale(item: Item, now: Time, broken: set<ConnId>) {
    now - item.created >= MAX_AGE || item.conn in broken
  }

  /** What a sweep keeps, and what it pulls out, in bucket order. */
  function Ready(bucket: seq<Item>, now: Time, broken: set<ConnId>): seq<Item> {
    if bucket == [] then [] else
    var front, last := bucket[..|bucket| - 1], bucket[|bucket| - 1];
    Ready(front, now, broken) + if Stale(last, now, broken) then [] else [last]
  }

  function Expired(bucket: seq<Item>, now: Time, broken: set<ConnId>): seq<Item> {
    if bucket == [] then [] else
    var front, last := bucket[..|bucket| - 1], bucket[|bucket| - 1];
    Expired(front, now, broken) + if Stale(last, now, broken) then [last] else []
  }

  /** Whether scheduleRefill starts a goroutine for `key` once its route is known. */
  predicate Startable(sh: Shared, poolSize: nat, key: Key, now: Time) {
    && !sh.closed
    && poolSize > 0
    && key !in sh.refilling
    && |Bucket(sh.idle, key)| < poolSize
    && (key in sh.routes ==> now >= sh.routes[key].retryAfter)
  }

  function Schedule(sh: Shared, poolSize: nat, key: Key, domains: seq<string>, now: Time): Shared {
    if sh.closed || poolSize == 0 then sh else
    sh.(routes := if key in sh.routes then sh.routes else sh.routes[key := Route(domains, 0, 0)],
        refilling := if Startable(sh, poolSize, key, now) then sh.refilling + {key} else sh.refilling)
  }

  /** One pass of get's loop under the lock: pop the front of the bucket, if any, and top the bucket up. */
  function Take(sh: Shared, poolSize: nat, key: Key, domains: seq<string>, now: Time): Shared {
    if sh.closed then sh
    else if Bucket(sh.idle, key) == [] then Schedule(sh, poolSize, key, domains, now)
    else Schedule(sh.(idle := sh.idle[key := Bucket(sh.idle, key)[1..]]), poolSize, key, domains, now)
  }

  /** One key of a rotation: drop the stale connections, then top the bucket up. */
  function Sweep(sh: Shared, poolSize: nat, key: Key, now: Time, broken: set<ConnId>, clock: Time): Shared
    requires key in sh.routes
  {
    Schedule(sh.(idle := sh.idle[key := Ready(Bucket(sh.idle, key), now, broken)]), poolSize, key,
             sh.routes[key].domains, clock)
  }

  function Fail(sh: Shared, key: Key, domains: seq<string>, clock: Time): Shared {
    if sh.closed then sh else
    var delay := NextDelay(if key in sh.routes then sh.routes[key].retryDelay else 0, BACKOFF_MIN, BACKOFF_MAX);
    sh.(routes := sh.routes[key := Route(domains, delay, clock + delay)])
  }

  function Store(sh: Shared, key: Key, domains: seq<string>, item: Item): Shared {
    if sh.closed then sh else
    sh.(idle := sh.idle[key := Bucket(sh.idle, key) + [item]], routes := sh.routes[key := Route(domains, 0, 0)])
  }

  function ShutDown(sh: Shared): Shared {
    sh.(closed := true, idle := map[])
  }

  /** A key needs no new refill: it is full, refilling or backing off, or the pool does not refill at all. */
  predicate Served(sh: Shared, poolSize: nat, key: Key, clock: Time) {
    || sh.closed
    || poolSize == 0
    || |Bucket(sh.idle, key)| >= poolSize
    || key in sh.refilling
    || (key in sh.routes && clock < sh.routes[key].retryAfter)
  }

  lemma ServedKept(sh: Shared, sh': Shared, poolSize: nat, key: Key, clock: Time)
    requires Served(sh, poolSize, key, clock)
    requires Bucket(sh'.idle, key) == Bucket(sh.idle, key) && sh.refilling <= sh'.refilling
    requires sh'.routes == sh.routes && sh'.closed == sh.closed
    ensures Served(sh', poolSize, key, clock)
  {
  }

  /** Ready and Expired split a bucket: what is young enough and has not failed is ready, anything else has expired;
      nothing is lost, duplicated or reordered into both. */
  lemma {:induction false} SweepSplits(bucket: seq<Item>, now: Time, broken: set<ConnId>)
    ensures |Ready(bucket, now, broken)| + |Expired(bucket, now, broken)| == |bucket|
    ensures forall x :: x in Ready(bucket, now, broken) <==>
        x in bucket && x.conn !in broken && now - x.created < 120 * SECOND
    ensures forall x :: x in Expired(bucket, now, broken) <==>
        x in bucket && (x.conn in broken || now - x.created >= 120 * SECOND)
    ensures Distinct(bucket) ==> Distinct(Ready(bucket, now, broken))
    decreases |bucket|
  {
    if bucket == [] {
    } else {
      var front, last := bucket[..|bucket| - 1], bucket[|bucket| - 1];
      assert bucket == front + [last];
      SweepSplits(front, now, broken);
      if Distinct(bucket) {
        assert Distinct(front);
        assert forall x :: x in Ready(front, now, broken) ==> x.conn != last.conn;
      }
    }
  }

  /** In a bucket without duplicates a swept connection stays on one side only. */
  lemma SweepSeparates(bucket: seq<Item>, now: Time, broken: set<ConnId>)
    requires Distinct(bucket)
    ensures Conns(Ready(bucket, now, broken)) !! Conns(Expired(bucket, now, broken))
    ensures Conns(bucket) == Conns(Ready(bucket, now, broken)) + Conns(Expired(bucket, now, broken))
    ensures |Conns(Expired(bucket, now, broken))| <= |bucket|
  {
    SweepSplits(bucket, now, broken);
    var ready, expired := Ready(bucket, now, broken), Expired(bucket, now, broken);
    forall c | c in Conns(ready) && c in Conns(expired) ensures false {
      SameItem(bucket, ready, expired, c);
    }
    ConnsBound(expired);
  }

  lemma {:induction false} ConnsBound(bucket: seq<Item>)
    ensures |Conns(bucket)| <= |bucket|
    decreases |bucket|
  {
    if bucket == [] {
    } else {
      var front, last := bucket[..|bucket| - 1], bucket[|bucket| - 1];
      ConnsBound(front);
      assert bucket == front + [last];
      assert Conns(bucket) == Conns(front) + {last.conn};
    }
  }

  lemma SameItem(bucket: seq<Item>, a: seq<Item>, b: seq<Item>, c: ConnId)
    requires Distinct(bucket)
    requires forall x :: x in a ==> x in bucket
    requires forall x :: x in b ==> x in bucket
    requires c in Conns(a) && c in Conns(b)
    ensures exists x :: x in a && x in b && x.conn == c
  {
    var x :| x in a && x.conn == c;
    var y :| y in b && y.conn == c;
    var i :| 0 <= i < |bucket| && bucket[i] == x;
    var j :| 0 <= j < |bucket| && bucket[j] == y;
    assert !(i < j) && !(j < i);
  }

  /** `done` has been swept, and nothing else has been touched: the stale connections of those keys are gone, exactly
      the keys of `started` have begun to refill, and none of `done` is left in need of a refill. */
  ghost predicate SweptKeys(sh: Shared, sh': Shared, poolSize: nat, done: set<Key>, started: set<Key>,
                            now: Time, broken: set<ConnId>, clocks: map<Key, Time>)
  {
    && sh'.routes == sh.routes && sh'.closed == sh.closed
    && (forall k ::
          Bucket(sh'.idle, k) == if k in done then Ready(Bucket(sh.idle, k), now, broken) else Bucket(sh.idle, k))
    && (forall k :: k in sh'.refilling <==> k in sh.refilling || k in started)
    && (forall k :: k in started ==> k in done && k !in sh.refilling)
    && (forall k :: k in done ==> k in clocks && Served(sh', poolSize, k, clocks[k]))
  }

  lemma SweptMore(sh: Shared, mid: Shared, sh': Shared, poolSize: nat, done: set<Key>, started: set<Key>, start: bool,
                  key: Key, now: Time, broken: set<ConnId>, clocks: map<Key, Time>)
    requires SweptKeys(sh, mid, poolSize, done, started, now, broken, clocks) && key !in done && key in clocks
    requires sh'.routes == mid.routes && sh'.closed == mid.closed
    requires Bucket(sh'.idle, key) == Ready(Bucket(mid.idle, key), now, broken)
    requires forall k :: k != key ==> Bucket(sh'.idle, k) == Bucket(mid.idle, k)
    requires sh'.refilling == (if start then mid.refilling + {key} else mid.refilling)
    requires (start ==> key !in mid.refilling)
    requires Served(sh', poolSize, key, clocks[key])
    ensures SweptKeys(sh, sh', poolSize, done + {key}, if start then started + {key} else started, now, broken, clocks)
  {
    forall k | k in done ensures Served(sh', poolSize, k, clocks[k]) {
      ServedKept(mid, sh', poolSize, k, clocks[k]);
    }
  }

  /** The mutex-guarded object. Every method is one critical section. */
  class Pool {
    const poolSize: nat
    var closed: bool
    var idle: map<Key, seq<Item>>
    var refilling: set<Key>
    var routes: map<Key, Route>

    function View(): Shared
      reads this
    {
      Shared(closed, idle, refilling, routes)
    }

    constructor (poolSize: nat)
      ensures this.poolSize == poolSize
      ensures View() == Shared(false, map[], {}, map[])
    {
      this.poolSize := poolSize;
      closed, idle, refilling, routes := false, map[], {}, map[];
    }

    /** Registers the route and says whether a refill goroutine is to be started. */
    method ScheduleRefill(key: Key, domains: seq<string>, now: Time) returns (start: bool)
      modifies this`refilling, this`routes
      ensures View() == Schedule(old(View()), poolSize, key, domains, now)
      ensures start <==> Startable(old(View()), poolSize, key, now)
      ensures start <==>
        && !closed && poolSize > 0 && key !in old(refilling) && |Bucket(idle, key)| < poolSize
        && !(key in old(routes) && now < old(routes)[key].retryAfter)
      ensures refilling == if start then old(refilling) + {key} else old(refilling)
      ensures routes ==
        if closed || poolSize == 0 || key in old(routes) then old(routes) else old(routes)[key := Route(domains, 0, 0)]
    {
      if closed || poolSize == 0 {
        return false;
      }
      if key !in routes {
        routes := routes[key := Route(domains, 0, 0)];
      }
      var size := if key in idle then |idle[key]| else 0;
      if key in refilling || size >= poolSize || now < routes[key].retryAfter {
        return false;
      }
      refilling := refilling + {key};
      start := true;
    }

    method TakeFront(key: Key, domains: seq<string>, now: Time) returns (found: bool, item: Item, start: bool)
      modifies this`idle, this`refilling, this`routes
      ensures View() == Take(old(View()), poolSize, key, domains, now)
      ensures found <==> !closed && old(Bucket(idle, key)) != []
      ensures found ==> [item] + Bucket(idle, key) == old(Bucket(idle, key))
      ensures forall k :: k != key || !found ==> Bucket(idle, k) == old(Bucket(idle, k))
      ensures start <==> key in refilling && key !in old(refilling)
    {
      found, item, start := false, Item(0, 0), false;
      if closed {
        return;
      }
      var bucket := if key in idle then idle[key] else [];
      if |bucket| == 0 {
        start := ScheduleRefill(key, domains, now);
        return;
      }
      item, found := bucket[0], true;
      idle := idle[key := bucket[1..]];
      start := ScheduleRefill(key, domains, now);
    }

    /** The body of rotate's loop for one registered key. */
    method SweepKey(key: Key, now: Time, broken: set<ConnId>, clock: Time) returns (expired: seq<Item>, start: bool)
      requires key in routes
      modifies this`idle, this`refilling, this`routes
      ensures View() == Sweep(old(View()), poolSize, key, now, broken, clock)
      ensures expired == Expired(old(Bucket(idle, key)), now, broken)
      ensures routes == old(routes) && closed == old(closed)
      ensures Bucket(idle, key) == Ready(old(Bucket(idle, key)), now, broken)
      ensures forall k :: k != key ==> Bucket(idle, k) == old(Bucket(idle, k))
      ensures refilling == if start then old(refilling) + {key} else old(refilling)
      ensures start ==> key !in old(refilling)
      ensures Served(View(), poolSize, key, clock)
    {
      var bucket := if key in idle then idle[key] else [];
      var ready: seq<Item> := [];
      expired := [];
      for i := 0 to |bucket|
        invariant ready == Ready(bucket[..i], now, broken)
        invariant expired == Expired(bucket[..i], now, broken)
      {
        assert bucket[..i + 1][..i] == bucket[..i];
        if Stale(bucket[i], now, broken) {
          expired := expired + [bucket[i]];
        } else {
          ready := ready + [bucket[i]];
        }
      }
      assert bucket[..|bucket|] == bucket;
      idle := idle[key := ready];
      start := ScheduleRefill(key, routes[key].domains, clock);
    }

    /** rotate: sweeps every registered key, in whatever order the map is walked. `clocks` gives the reading of the
        clock at each key. The outcome does not depend on the order, no other bucket is touched, and every registered
        key ends up full, refilling or backing off. */
    method Rotate(now: Time, broken: set<ConnId>, clocks: map<Key, Time>) returns (expired: seq<Item>,
                                                                                   started: set<Key>)
      requires clocks.Keys == routes.Keys
      modifies this`idle, this`refilling, this`routes
      ensures SweptKeys(old(View()), View(), poolSize, routes.Keys, started, now, broken, clocks)
      ensures multiset(expired) == PulledOut(old(View()), routes.Keys, now, broken)
    {
      expired, started := [], {};
      var todo := routes.Keys;
      ghost var done: set<Key> := {};
      while todo != {}
        invariant todo !! done && forall k :: k in routes <==> k in done || k in todo
        invariant SweptKeys(old(View()), View(), poolSize, done, started, now, broken, clocks)
        invariant multiset(expired) == PulledOut(old(View()), done, now, broken)
        decreases |todo|
      {
        var key :| key in todo;
        ghost var before := View();
        var stale, start := SweepKey(key, now, broken, clocks[key]);
        SweptMore(old(View()), before, View(), poolSize, done, started, start, key, now, broken, clocks);
        PulledOutAdd(old(View()), done, key, now, broken);
        expired := expired + stale;
        if start {
          started := started + {key};
        }
        todo, done := todo - {key}, done + {key};
      }
      assert done == routes.Keys;
    }

    method RefillCheck(key: Key) returns (proceed: bool)
      ensures proceed <==> !closed && |Bucket(idle, key)| < poolSize
    {
      var size := if key in idle then |idle[key]| else 0;
      proceed := !(closed || size >= poolSize);
    }

    method RefillFailed(key: Key, domains: seq<string>, clock: Time)
      modifies this`routes
      ensures View() == Fail(old(View()), key, domains, clock)
    {
      if closed {
        return;
      }
      var route := if key in routes then routes[key] else Route([], 0, 0);
      var delay: nat := Min(Max(route.retryDelay * 2, BACKOFF_MIN), BACKOFF_MAX);
      routes := routes[key := Route(domains, delay, clock + delay)];
    }

    method RefillStore(key: Key, domains: seq<string>, conn: ConnId, clock: Time) returns (stored: bool)
      modifies this`idle, this`routes
      ensures View() == Store(old(View()), key, domains, Item(conn, clock))
      ensures stored <==> !closed
      ensures stored ==> Bucket(idle, key) == old(Bucket(idle, key)) + [Item(conn, clock)]
      ensures forall k :: k != key || !stored ==> Bucket(idle, k) == old(Bucket(idle, k))
    {
      if closed {
        return false;
      }
      var bucket := if key in idle then idle[key] else [];
      idle := idle[key := bucket + [Item(conn, clock)]];
      routes := routes[key := Route(domains, 0, 0)];
      stored := true;
    }

    method RefillExit(key: Key)
      modifies this`refilling
      ensures View() == old(View()).(refilling := old(refilling) - {key})
    {
      refilling := refilling - {key};
    }

    method CloseLocked() returns (drained: map<Key, seq<Item>>)
      modifies this`closed, this`idle
      ensures View() == ShutDown(old(View()))
      ensures closed && idle == map[] && drained == old(idle)
    {
      closed := true;
      drained := idle;
      idle := map[];
    }
  }

  /** The multiset of items that a sweep of `keys` pulls out. */
  ghost function PulledOut(sh: Shared, keys: set<Key>, now: Time, broken: set<ConnId>): multiset<Item>
    decreases |keys|
  {
    if keys == {} then multiset{} else
    var k :| k in keys;
    multiset(Expired(Bucket(sh.idle, k), now, broken)) + PulledOut(sh, keys - {k}, now, broken)
  }

  lemma {:induction false} PulledOutAdd(sh: Shared, keys: set<Key>, key: Key, now: Time, broken: set<ConnId>)
    requires key !in keys
    ensures PulledOut(sh, keys + {key}, now, broken)
         == PulledOut(sh, keys, now, broken) + multiset(Expired(Bucket(sh.idle, key), now, broken))
    decreases |keys|
  {
    var all := keys + {key};
    var k :| k in all && PulledOut(sh, all, now, broken)
                  == multiset(Expired(Bucket(sh.idle, k), now, broken)) + PulledOut(sh, all - {k}, now, broken);
    if k == key {
      assert all - {k} == keys;
    } else {
      var rest := keys - {k};
      assert all - {k} == rest + {key} && rest + {k} == keys;
      PulledOutAdd(sh, rest, key, now, broken);
      PulledOutAdd(sh, rest, k, now, broken);
    }
  }
}
