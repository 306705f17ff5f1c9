/** What every step of the pool keeps. Each part of the invariant speaks only of the fields it needs; for each part
    there is a lemma per way of changing those fields, and one lemma that goes through the steps. */
module WsPoolInvariants {
  import opened Units
  import opened Ownership
  import opened Backoff
  import opened WsPool
  import opened WsPoolRuns
  import opened WsPoolOwnership
  import Counting

  type Refills = map<nat, Refill>
  type Idle = map<Key, seq<Item>>

  predicate Live(refills: Refills, r: nat) {
    r in refills && !refills[r].pc.Cleared?
  }

  /** A refill that has, or is about to have, a socket. */
  predicate Busy(refills: Refills, r: nat) {
    r in refills && (refills[r].pc.Dial? || refills[r].pc.Got? || refills[r].pc.Late?)
  }

  /** A refill that has not yet reported its outcome. */
  predicate Unsettled(refills: Refills, r: nat) {
    r in refills && (refills[r].pc.Check? || refills[r].pc.Dial? || refills[r].pc.Failed? || refills[r].pc.Got?)
  }

  /** The members of `conns` dialed for `key`. */
  function OfKey(keyOf: map<ConnId, Key>, conns: set<ConnId>, key: Key): set<ConnId> {
    set c | c in conns && c in keyOf && keyOf[c] == key
  }

  /** One live refill per raised flag. */
  ghost predicate Flags(refills: Refills, refilling: set<Key>) {
    && (forall r :: Live(refills, r) ==> refills[r].key in refilling)
    && (forall r, r' :: Live(refills, r) && Live(refills, r') && refills[r].key == refills[r'].key ==> r == r')
    && (forall k :: k in refilling ==> exists r :: Live(refills, r) && refills[r].key == k)
  }

  /** No bucket overflows, and a busy refill has room for the connection it is after. */
  ghost predicate Room(poolSize: nat, idle: Idle, refills: Refills) {
    && (forall k :: Distinct(Bucket(idle, k)) && |Bucket(idle, k)| <= poolSize)
    && (forall r :: Busy(refills, r) ==> |Bucket(idle, refills[r].key)| < poolSize)
  }

  /** The same bound for what Close has drained but not yet closed. */
  ghost predicate Drained(poolSize: nat, pending: set<ConnId>, keyOf: map<ConnId, Key>, refills: Refills) {
    && (forall k :: |OfKey(keyOf, pending, k)| <= poolSize)
    && (forall r :: Busy(refills, r) ==> |OfKey(keyOf, pending, refills[r].key)| < poolSize)
  }

  /** The same bound for what a rotation has pulled out but not yet closed. */
  ghost predicate Pulled(poolSize: nat, sweeper: Sweeper, keyOf: map<ConnId, Key>) {
    && (forall k :: |OfKey(keyOf, PulledBy(sweeper), k)| <= poolSize)
    && (sweeper.Sweeping? ==> forall k :: k in sweeper.todo ==> OfKey(keyOf, sweeper.pulled, k) == {})
  }

  ghost predicate Shutdown(closed: bool, idle: Idle, refills: Refills, sweeper: Sweeper, closer: Closer) {
    && (closed <==> !closer.Open?)
    && (closed ==> forall k :: Bucket(idle, k) == [])
    && (sweeper.Warming? ==> !closed)
    && (forall r :: r in refills && refills[r].pc.Late? ==> closed)
    && (closer.Returned? ==> refills == map[] && (sweeper.NotStarted? || sweeper.Stopped?))
  }

  /** Every key in use has a route, and every route is one the configuration can name. */
  ghost predicate Registered(idle: Idle, refills: Refills, sweeper: Sweeper, routes: map<Key, Route>) {
    && (forall k :: Bucket(idle, k) != [] ==> k in routes)
    && (forall r :: r in refills ==> refills[r].key in routes)
    && (sweeper.Sweeping? ==> sweeper.todo <= routes.Keys)
  }

  ghost predicate Configured(keys: set<Key>, routes: map<Key, Route>, sweeper: Sweeper, getters: map<nat, Getter>) {
    && (forall k :: k in routes ==> k in keys)
    && (sweeper.Warming? ==> sweeper.todo <= keys)
    && (forall g :: g in getters ==> getters[g].key in keys)
  }

  ghost predicate Labelled(keys: set<Key>, refills: Refills, keyOf: map<ConnId, Key>) {
    && (forall r :: r in refills ==> refills[r].key in keys)
    && (forall c :: c in keyOf ==> keyOf[c] in keys)
  }

  /** A route remembers exactly the failures since the last success: their number, and the instant of the last one. */
  ghost predicate Remembers(route: Route, fails: seq<Time>) {
    && route.retryDelay == Delay(|fails|, BACKOFF_MIN, BACKOFF_MAX)
    && route.retryAfter == (if fails == [] then 0 else fails[|fails| - 1] + route.retryDelay)
    && Spaced(fails, BACKOFF_MIN, BACKOFF_MAX)
  }

  ghost predicate Recorded(routes: map<Key, Route>, fails: map<Key, seq<Time>>) {
    && (forall k :: k in routes ==> Remembers(routes[k], TimesOf(fails, k)))
    && (forall k :: k in fails ==> k in routes)
  }

  /** A refill that has not reported yet was allowed to start, and still would be. */
  ghost predicate Punctual(routes: map<Key, Route>, refills: Refills, clock: Time) {
    forall r :: Unsettled(refills, r) ==> refills[r].key in routes && clock >= routes[refills[r].key].retryAfter
  }

  /** What get promised when it handed a connection out. */
  ghost predicate HandedFresh(getters: map<nat, Getter>) {
    forall g :: g in getters && getters[g].hand.Handed? ==> getters[g].now - getters[g].hand.item.created < MAX_AGE
  }

  ghost predicate Inv(cfg: Cfg, s: State) {
    && Exclusive(s.keyOf, GripOf(HandsOf(s)))
    && Flags(s.refills, s.sh.refilling)
    && Room(cfg.poolSize, s.sh.idle, s.refills)
    && Drained(cfg.poolSize, PendingOf(s.closer), s.keyOf, s.refills)
    && Pulled(cfg.poolSize, s.sweeper, s.keyOf)
    && Shutdown(s.sh.closed, s.sh.idle, s.refills, s.sweeper, s.closer)
    && Registered(s.sh.idle, s.refills, s.sweeper, s.sh.routes)
    && Configured(cfg.keys, s.sh.routes, s.sweeper, s.getters)
    && Labelled(cfg.keys, s.refills, s.keyOf)
    && Recorded(s.sh.routes, s.fails)
    && Punctual(s.sh.routes, s.refills, s.clock)
    && HandedFresh(s.getters)
  }

  lemma InitInv(cfg: Cfg)
    ensures Inv(cfg, Init())
  {
    var s := Init();
    assert forall h :: GripOf(HandsOf(s)).Holds(h) == {};
    assert forall k :: OfKey(s.keyOf, {}, k) == {};
  }

  // ---------------------------------------------------------------------------------------------------------------
  // The sections that may start a refill
  // ---------------------------------------------------------------------------------------------------------------

  /** An idle map in which only `key`'s bucket changed, and only by losing connections. */
  ghost predicate Shrunk(idle: Idle, idle': Idle, key: Key) {
    && (forall k :: k != key ==> Bucket(idle', k) == Bucket(idle, k))
    && |Bucket(idle', key)| <= |Bucket(idle, key)|
    && (Distinct(Bucket(idle, key)) ==> Distinct(Bucket(idle', key)))
  }

  function LookIdle(sh: Shared, key: Key): Idle {
    if sh.closed || Bucket(sh.idle, key) == [] then sh.idle else sh.idle[key := Bucket(sh.idle, key)[1..]]
  }

  function SweepIdle(idle: Idle, key: Key, now: Time, broken: set<ConnId>): Idle {
    idle[key := Ready(Bucket(idle, key), now, broken)]
  }

  lemma LookShrinks(sh: Shared, key: Key)
    ensures Shrunk(sh.idle, LookIdle(sh, key), key)
  {
    var bucket := Bucket(sh.idle, key);
    if bucket != [] && Distinct(bucket) {
      ConnsFront(bucket);
    }
  }

  lemma SweepShrinks(idle: Idle, key: Key, now: Time, broken: set<ConnId>)
    ensures Shrunk(idle, SweepIdle(idle, key, now, broken), key)
  {
    SweepSplits(Bucket(idle, key), now, broken);
  }

  /** Whether the section that leaves `idle` starts a refill for `key`. */
  predicate Starts(cfg: Cfg, s: State, idle: Idle, key: Key) {
    Startable(s.sh.(idle := idle), cfg.poolSize, key, s.clock)
  }

  function Spawn(refills: Refills, start: bool, key: Key, domains: seq<string>, id: nat): Refills {
    if start then refills[id := Refill(key, domains, Check)] else refills
  }

  function Raise(refilling: set<Key>, start: bool, key: Key): set<Key> {
    if start then refilling + {key} else refilling
  }

  function Register(routes: map<Key, Route>, active: bool, key: Key, domains: seq<string>): map<Key, Route> {
    if active && key !in routes then routes[key := Route(domains, 0, 0)] else routes
  }

  predicate Active(cfg: Cfg, s: State) {
    !s.sh.closed && cfg.poolSize > 0
  }

  /** The outcome of such a section, field by field. */
  ghost predicate ToppedUp(cfg: Cfg, s: State, s': State, idle: Idle, key: Key, domains: seq<string>, id: nat) {
    var start := Starts(cfg, s, idle, key);
    && s'.sh == Shared(s.sh.closed, idle, Raise(s.sh.refilling, start, key),
                       Register(s.sh.routes, Active(cfg, s), key, domains))
    && s'.refills == Spawn(s.refills, start, key, domains, id)
    && s'.closer == s.closer && s'.shut == s.shut && s'.keyOf == s.keyOf && s'.clock == s.clock && s'.fails == s.fails
  }

  lemma LookToppedUp(cfg: Cfg, s: State, g: nat, id: nat)
    requires GetEnabled(cfg, s, g, Look(id))
    ensures var Getter(key, domains, _, _) := s.getters[g];
      var s' := ApplyGet(cfg, s, g, Look(id));
      && ToppedUp(cfg, s, s', LookIdle(s.sh, key), key, domains, id)
      && s'.sweeper == s.sweeper
      && s'.getters == s.getters[g := s.getters[g].(hand :=
           if s.sh.closed || Bucket(s.sh.idle, key) == [] then Empty else Took(Bucket(s.sh.idle, key)[0]))]
  {
    var Getter(key, domains, _, _) := s.getters[g];
    assert s.sh.(idle := s.sh.idle) == s.sh;
    TakeIs(cfg, s, key, domains);
  }

  /** The locked part of get, as one section that leaves some idle map. */
  lemma TakeIs(cfg: Cfg, s: State, key: Key, domains: seq<string>)
    ensures var start := Starts(cfg, s, LookIdle(s.sh, key), key);
      Take(s.sh, cfg.poolSize, key, domains, s.clock)
      == Shared(s.sh.closed, LookIdle(s.sh, key), Raise(s.sh.refilling, start, key),
                Register(s.sh.routes, Active(cfg, s), key, domains))
  {
    assert s.sh.(idle := s.sh.idle) == s.sh;
  }

  lemma WarmToppedUp(cfg: Cfg, s: State, key: Key, domains: seq<string>, id: nat)
    requires SweepEnabled(cfg, s, WarmKey(key, domains, id))
    ensures var s' := ApplySweep(cfg, s, WarmKey(key, domains, id));
      && ToppedUp(cfg, s, s', s.sh.idle, key, domains, id)
      && s'.getters == s.getters && s'.sweeper == Warming(s.sweeper.todo - {key})
  {
    assert s.sh.(idle := s.sh.idle) == s.sh;
  }

  lemma SweepToppedUp(cfg: Cfg, s: State, key: Key, broken: set<ConnId>, id: nat)
    requires SweepEnabled(cfg, s, SweepOne(key, broken, id))
    ensures var s' := ApplySweep(cfg, s, SweepOne(key, broken, id));
      var Sweeping(now, todo, pulled) := s.sweeper;
      && ToppedUp(cfg, s, s', SweepIdle(s.sh.idle, key, now, broken), key, s.sh.routes[key].domains, id)
      && s'.getters == s.getters
      && s'.sweeper == Sweeping(now, todo - {key}, pulled + Conns(Expired(Bucket(s.sh.idle, key), now, broken)))
  {
  }

  // ---------------------------------------------------------------------------------------------------------------
  // Flags
  // ---------------------------------------------------------------------------------------------------------------

  lemma FlagsSpawn(refills: Refills, refilling: set<Key>, start: bool, key: Key, domains: seq<string>, id: nat)
    requires Flags(refills, refilling) && id !in refills && (start ==> key !in refilling)
    ensures Flags(Spawn(refills, start, key, domains, id), Raise(refilling, start, key))
  {
    if start {
      var refills' := refills[id := Refill(key, domains, Check)];
      assert forall r :: Live(refills', r) <==> Live(refills, r) || r == id;
      forall k | k in refilling + {key} ensures exists r :: Live(refills', r) && refills'[r].key == k {
        if k == key {
          assert Live(refills', id);
        } else {
          var r :| Live(refills, r) && refills[r].key == k;
          assert Live(refills', r);
        }
      }
    }
  }

  lemma FlagsAgree(refills: Refills, refills': Refills, refilling: set<Key>)
    requires Flags(refills, refilling)
    requires forall r {:trigger Live(refills', r)} :: Live(refills', r) <==> Live(refills, r)
    requires forall r {:trigger Live(refills', r)} :: Live(refills', r) ==> refills'[r].key == refills[r].key
    ensures Flags(refills', refilling)
  {
    forall k | k in refilling ensures exists r :: Live(refills', r) && refills'[r].key == k {
      var r' :| Live(refills, r') && refills[r'].key == k;
      assert Live(refills', r');
    }
  }

  lemma FlagsClear(refills: Refills, refilling: set<Key>, r: nat)
    requires Flags(refills, refilling) && Live(refills, r)
    ensures Flags(refills[r := refills[r].(pc := Cleared)], refilling - {refills[r].key})
  {
    var key, refills' := refills[r].key, refills[r := refills[r].(pc := Cleared)];
    var refilling' := refilling - {key};
    forall r' | Live(refills', r')
      ensures Live(refills, r') && refills'[r'].key == refills[r'].key && refills[r'].key in refilling'
    {
      assert r' != r && Live(refills, r');
    }
    forall k | k in refilling' ensures exists r' :: Live(refills', r') && refills'[r'].key == k {
      var r' :| Live(refills, r') && refills[r'].key == k;
      assert r' != r;
      assert Live(refills', r') && refills'[r'].key == k;
    }
  }

  /** The pc a refill step leads to; Done has none. */
  function NextPc(s: State, cfg: Cfg, r: nat, step: RefillStep): Pc
    requires RefillEnabled(s, r, step) && !step.Done?
  {
    match step
    case Recheck => if s.sh.closed || |Bucket(s.sh.idle, s.refills[r].key)| >= cfg.poolSize then Leave else Dial
    case Connect(conn) => Got(conn)
    case Refuse => Failed
    case Cancel => Leave
    case Report => Leave
    case Put => if s.sh.closed then Late(s.refills[r].pc.conn) else Check
    case Drop => Leave
    case Clear => Cleared
  }

  /** A refill step, field by field. */
  lemma RefillStepped(cfg: Cfg, s: State, r: nat, step: RefillStep)
    requires RefillEnabled(s, r, step)
    ensures var s' := ApplyRefill(cfg, s, r, step);
      && s'.refills == (if step.Done? then s.refills - {r}
                        else s.refills[r := s.refills[r].(pc := NextPc(s, cfg, r, step))])
      && s'.getters == s.getters && s'.sweeper == s.sweeper && s'.closer == s.closer && s'.clock == s.clock
      && s'.sh.closed == s.sh.closed
      && s'.sh.refilling == (if step.Clear? then s.sh.refilling - {s.refills[r].key} else s.sh.refilling)
      && (!step.Put? || s.sh.closed ==> s'.sh.idle == s.sh.idle)
      && ((!step.Put? && !step.Report?) || s.sh.closed ==> s'.sh.routes == s.sh.routes && s'.fails == s.fails)
      && s'.keyOf == (if step.Connect? then s.keyOf[step.conn := s.refills[r].key] else s.keyOf)
  {
  }

  lemma FlagsKept(cfg: Cfg, s: State, step: Step)
    requires Enabled(cfg, s, step) && Flags(s.refills, s.sh.refilling)
    ensures var s' := Apply(cfg, s, step); Flags(s'.refills, s'.sh.refilling)
  {
    match step
    case OfGetter(g, get) =>
      if get.Look? {
        var Getter(key, domains, _, _) := s.getters[g];
        LookToppedUp(cfg, s, g, get.id);
        FlagsSpawn(s.refills, s.sh.refilling, Starts(cfg, s, LookIdle(s.sh, key), key), key, domains, get.id);
      }
    case OfRefill(r, refill) => FlagsRefill(cfg, s, r, refill);
    case OfSweeper(sweep) => FlagsSweep(cfg, s, sweep);
    case _ =>
  }

  lemma FlagsRefill(cfg: Cfg, s: State, r: nat, step: RefillStep)
    requires RefillEnabled(s, r, step) && Flags(s.refills, s.sh.refilling)
    ensures var s' := ApplyRefill(cfg, s, r, step); Flags(s'.refills, s'.sh.refilling)
  {
    RefillStepped(cfg, s, r, step);
    if step.Clear? {
      FlagsClear(s.refills, s.sh.refilling, r);
    } else if step.Done? {
      FlagsDone(s.refills, s.sh.refilling, r);
    } else {
      FlagsMove(s.refills, s.sh.refilling, r, NextPc(s, cfg, r, step));
    }
  }

  lemma FlagsDone(refills: Refills, refilling: set<Key>, r: nat)
    requires Flags(refills, refilling) && r in refills && !Live(refills, r)
    ensures Flags(refills - {r}, refilling)
  {
    FlagsAgree(refills, refills - {r}, refilling);
  }

  lemma FlagsMove(refills: Refills, refilling: set<Key>, r: nat, pc: Pc)
    requires Flags(refills, refilling) && Live(refills, r) && !pc.Cleared?
    ensures Flags(refills[r := refills[r].(pc := pc)], refilling)
  {
    FlagsAgree(refills, refills[r := refills[r].(pc := pc)], refilling);
  }

  lemma FlagsSweep(cfg: Cfg, s: State, step: SweepStep)
    requires SweepEnabled(cfg, s, step) && Flags(s.refills, s.sh.refilling)
    ensures var s' := ApplySweep(cfg, s, step); Flags(s'.refills, s'.sh.refilling)
  {
    match step
    case WarmKey(key, domains, id) =>
      WarmToppedUp(cfg, s, key, domains, id);
      FlagsSpawn(s.refills, s.sh.refilling, Starts(cfg, s, s.sh.idle, key), key, domains, id);
    case SweepOne(key, broken, id) =>
      SweepToppedUp(cfg, s, key, broken, id);
      FlagsSpawn(s.refills, s.sh.refilling, Starts(cfg, s, SweepIdle(s.sh.idle, key, s.sweeper.now, broken), key), key,
                 s.sh.routes[key].domains, id);
    case _ =>
  }

  // ---------------------------------------------------------------------------------------------------------------
  // Room
  // ---------------------------------------------------------------------------------------------------------------

  lemma RoomShrunk(poolSize: nat, idle: Idle, idle': Idle, refills: Refills, start: bool, key: Key,
                   domains: seq<string>, id: nat)
    requires Room(poolSize, idle, refills) && id !in refills && Shrunk(idle, idle', key)
    ensures Room(poolSize, idle', Spawn(refills, start, key, domains, id))
  {
    var refills' := Spawn(refills, start, key, domains, id);
    forall r | Busy(refills', r) ensures |Bucket(idle', refills'[r].key)| < poolSize {
      assert Busy(refills, r);
    }
  }

  lemma RoomAgree(poolSize: nat, idle: Idle, refills: Refills, refills': Refills)
    requires Room(poolSize, idle, refills)
    requires forall r {:trigger Busy(refills', r)} :: Busy(refills', r) ==>
               r in refills && refills'[r].key == refills[r].key
               && (Busy(refills, r) || |Bucket(idle, refills[r].key)| < poolSize)
    ensures Room(poolSize, idle, refills')
  {
  }

  lemma RoomStored(poolSize: nat, idle: Idle, refills: Refills, refilling: set<Key>, r: nat, item: Item)
    requires Room(poolSize, idle, refills) && Flags(refills, refilling) && r in refills && refills[r].pc.Got?
    requires item.conn !in Conns(Bucket(idle, refills[r].key))
    ensures var key := refills[r].key;
      Room(poolSize, idle[key := Bucket(idle, key) + [item]], refills[r := refills[r].(pc := Check)])
  {
    var key := refills[r].key;
    var idle', refills' := idle[key := Bucket(idle, key) + [item]], refills[r := refills[r].(pc := Check)];
    assert Busy(refills, r) && Live(refills, r);
    ConnsAppend(Bucket(idle, key), item);
    assert forall k :: k != key ==> Bucket(idle', k) == Bucket(idle, k);
    forall r' | Busy(refills', r') ensures |Bucket(idle', refills'[r'].key)| < poolSize {
      assert Busy(refills, r') && Live(refills, r');
    }
  }

  lemma RoomKept(cfg: Cfg, s: State, step: Step)
    requires Enabled(cfg, s, step) && Room(cfg.poolSize, s.sh.idle, s.refills)
    requires Flags(s.refills, s.sh.refilling) && Unshared(GripOf(HandsOf(s)))
    ensures var s' := Apply(cfg, s, step); Room(cfg.poolSize, s'.sh.idle, s'.refills)
  {
    match step
    case OfGetter(g, get) =>
      if get.Look? {
        var Getter(key, domains, _, _) := s.getters[g];
        LookToppedUp(cfg, s, g, get.id);
        LookShrinks(s.sh, key);
        var idle := LookIdle(s.sh, key);
        RoomShrunk(cfg.poolSize, s.sh.idle, idle, s.refills, Starts(cfg, s, idle, key), key, domains, get.id);
      }
    case OfRefill(r, refill) => RoomRefill(cfg, s, r, refill);
    case OfSweeper(sweep) => RoomSweep(cfg, s, sweep);
    case OfCloser(close) => RoomClose(cfg, s, close);
    case Tick(_) =>
  }

  lemma RoomRefill(cfg: Cfg, s: State, r: nat, step: RefillStep)
    requires RefillEnabled(s, r, step) && Room(cfg.poolSize, s.sh.idle, s.refills)
    requires Flags(s.refills, s.sh.refilling) && Unshared(GripOf(HandsOf(s)))
    ensures var s' := ApplyRefill(cfg, s, r, step); Room(cfg.poolSize, s'.sh.idle, s'.refills)
  {
    RefillStepped(cfg, s, r, step);
    if step.Put? && !s.sh.closed {
      var key, c := s.refills[r].key, s.refills[r].pc.conn;
      assert c in GripOf(HandsOf(s)).Holds(ByRefill(r));
      assert c !in GripOf(HandsOf(s)).Holds(InBucket(key));
      RoomStored(cfg.poolSize, s.sh.idle, s.refills, s.sh.refilling, r, Item(c, s.clock));
    } else {
      RoomAgree(cfg.poolSize, s.sh.idle, s.refills, ApplyRefill(cfg, s, r, step).refills);
    }
  }

  lemma RoomSweep(cfg: Cfg, s: State, step: SweepStep)
    requires SweepEnabled(cfg, s, step) && Room(cfg.poolSize, s.sh.idle, s.refills)
    ensures var s' := ApplySweep(cfg, s, step); Room(cfg.poolSize, s'.sh.idle, s'.refills)
  {
    match step
    case WarmKey(key, domains, id) =>
      WarmToppedUp(cfg, s, key, domains, id);
      RoomShrunk(cfg.poolSize, s.sh.idle, s.sh.idle, s.refills, Starts(cfg, s, s.sh.idle, key), key, domains, id);
    case SweepOne(key, broken, id) =>
      SweepToppedUp(cfg, s, key, broken, id);
      SweepShrinks(s.sh.idle, key, s.sweeper.now, broken);
      var idle := SweepIdle(s.sh.idle, key, s.sweeper.now, broken);
      RoomShrunk(cfg.poolSize, s.sh.idle, idle, s.refills, Starts(cfg, s, idle, key), key, s.sh.routes[key].domains,
                 id);
    case _ =>
  }

  lemma RoomClose(cfg: Cfg, s: State, step: CloseStep)
    requires CloseEnabled(s, step) && Room(cfg.poolSize, s.sh.idle, s.refills)
    ensures var s' := ApplyClose(s, step); Room(cfg.poolSize, s'.sh.idle, s'.refills)
  {
    if step.CloseBegin? {
      assert forall k :: Bucket(map[], k) == [];
    }
  }

  // ---------------------------------------------------------------------------------------------------------------
  // Drained
  // ---------------------------------------------------------------------------------------------------------------

  lemma DrainedAgree(poolSize: nat, pending: set<ConnId>, keyOf: map<ConnId, Key>, refills: Refills, refills': Refills)
    requires Drained(poolSize, pending, keyOf, refills)
    requires forall r {:trigger Busy(refills', r)} :: Busy(refills', r) ==>
               r in refills && refills'[r].key == refills[r].key
               && (Busy(refills, r) || |OfKey(keyOf, pending, refills[r].key)| < poolSize)
    ensures Drained(poolSize, pending, keyOf, refills')
  {
  }

  lemma DrainedLess(poolSize: nat, pending: set<ConnId>, pending': set<ConnId>, keyOf: map<ConnId, Key>,
                    refills: Refills)
    requires Drained(poolSize, pending, keyOf, refills) && pending' <= pending
    ensures Drained(poolSize, pending', keyOf, refills)
  {
    forall k ensures |OfKey(keyOf, pending', k)| <= |OfKey(keyOf, pending, k)| {
      Counting.SubsetSize(OfKey(keyOf, pending', k), OfKey(keyOf, pending, k));
    }
  }

  lemma OfKeyAdd(keyOf: map<ConnId, Key>, conns: set<ConnId>, c: ConnId, key: Key, k: Key)
    requires c !in conns
    ensures OfKey(keyOf[c := key], conns, k) == OfKey(keyOf, conns, k)
  {
  }

  lemma BucketKeys(keyOf: map<ConnId, Key>, x: Hands, key: Key)
    requires Fitting(keyOf, GripOf(x))
    ensures forall c :: c in Conns(Bucket(x.idle, key)) ==> c in keyOf && keyOf[c] == key
  {
    assert GripOf(x).Holds(InBucket(key)) == Conns(Bucket(x.idle, key));
  }

  lemma DrainedBegin(poolSize: nat, keyOf: map<ConnId, Key>, x: Hands)
    requires Room(poolSize, x.idle, x.refills) && Fitting(keyOf, GripOf(x))
    ensures Drained(poolSize, IdleConns(x.idle), keyOf, x.refills)
  {
    IdleConnsAre(x.idle);
    forall k ensures |OfKey(keyOf, IdleConns(x.idle), k)| <= |Bucket(x.idle, k)| {
      forall c | c in OfKey(keyOf, IdleConns(x.idle), k) ensures c in Conns(Bucket(x.idle, k)) {
        var k' :| c in Conns(Bucket(x.idle, k'));
        BucketKeys(keyOf, x, k');
      }
      Counting.SubsetSize(OfKey(keyOf, IdleConns(x.idle), k), Conns(Bucket(x.idle, k)));
      ConnsBound(Bucket(x.idle, k));
    }
  }

  lemma DrainedKept(cfg: Cfg, s: State, step: Step)
    requires Enabled(cfg, s, step) && Drained(cfg.poolSize, PendingOf(s.closer), s.keyOf, s.refills)
    requires Room(cfg.poolSize, s.sh.idle, s.refills) && Fitting(s.keyOf, GripOf(HandsOf(s)))
    requires (s.sh.closed <==> !s.closer.Open?)
    ensures var s' := Apply(cfg, s, step); Drained(cfg.poolSize, PendingOf(s'.closer), s'.keyOf, s'.refills)
  {
    match step
    case OfGetter(g, get) =>
      if get.Look? {
        LookToppedUp(cfg, s, g, get.id);
        DrainedAgree(cfg.poolSize, PendingOf(s.closer), s.keyOf, s.refills, ApplyGet(cfg, s, g, get).refills);
      }
    case OfRefill(r, refill) => DrainedRefill(cfg, s, r, refill);
    case OfSweeper(sweep) => DrainedSweep(cfg, s, sweep);
    case OfCloser(close) => DrainedClose(cfg, s, close);
    case Tick(_) =>
  }

  lemma DrainedSweep(cfg: Cfg, s: State, step: SweepStep)
    requires SweepEnabled(cfg, s, step) && Drained(cfg.poolSize, PendingOf(s.closer), s.keyOf, s.refills)
    ensures var s' := ApplySweep(cfg, s, step); Drained(cfg.poolSize, PendingOf(s'.closer), s'.keyOf, s'.refills)
  {
    match step
    case WarmKey(key, domains, id) =>
      WarmToppedUp(cfg, s, key, domains, id);
      DrainedAgree(cfg.poolSize, PendingOf(s.closer), s.keyOf, s.refills, ApplySweep(cfg, s, step).refills);
    case SweepOne(key, broken, id) =>
      SweepToppedUp(cfg, s, key, broken, id);
      DrainedAgree(cfg.poolSize, PendingOf(s.closer), s.keyOf, s.refills, ApplySweep(cfg, s, step).refills);
    case _ =>
  }

  lemma DrainedClose(cfg: Cfg, s: State, step: CloseStep)
    requires CloseEnabled(s, step) && Drained(cfg.poolSize, PendingOf(s.closer), s.keyOf, s.refills)
    requires Room(cfg.poolSize, s.sh.idle, s.refills) && Fitting(s.keyOf, GripOf(HandsOf(s)))
    ensures var s' := ApplyClose(s, step); Drained(cfg.poolSize, PendingOf(s'.closer), s'.keyOf, s'.refills)
  {
    match step
    case CloseBegin => DrainedBegin(cfg.poolSize, s.keyOf, HandsOf(s));
    case CloseItem(conn) => DrainedLess(cfg.poolSize, s.closer.pending, s.closer.pending - {conn}, s.keyOf, s.refills);
    case CloseReturn => DrainedLess(cfg.poolSize, s.closer.pending, {}, s.keyOf, s.refills);
  }

  lemma DrainedRefill(cfg: Cfg, s: State, r: nat, step: RefillStep)
    requires RefillEnabled(s, r, step) && Drained(cfg.poolSize, PendingOf(s.closer), s.keyOf, s.refills)
    requires Fitting(s.keyOf, GripOf(HandsOf(s))) && (s.sh.closed <==> !s.closer.Open?)
    ensures var s' := ApplyRefill(cfg, s, r, step); Drained(cfg.poolSize, PendingOf(s'.closer), s'.keyOf, s'.refills)
  {
    RefillStepped(cfg, s, r, step);
    var pending := PendingOf(s.closer);
    if step.Recheck? && !s.sh.closed {
      assert OfKey(s.keyOf, pending, s.refills[r].key) == {};
    }
    DrainedAgree(cfg.poolSize, pending, s.keyOf, s.refills, ApplyRefill(cfg, s, r, step).refills);
    if step.Connect? {
      DrainedDial(cfg.poolSize, pending, s.keyOf, HandsOf(s), ApplyRefill(cfg, s, r, step).refills, step.conn,
                  s.refills[r].key);
    }
  }

  lemma DrainedDial(poolSize: nat, pending: set<ConnId>, keyOf: map<ConnId, Key>, x: Hands, refills: Refills,
                    c: ConnId, key: Key)
    requires Drained(poolSize, pending, keyOf, refills) && Fitting(keyOf, GripOf(x))
    requires pending == x.pending && c !in keyOf
    ensures Drained(poolSize, pending, keyOf[c := key], refills)
  {
    assert c !in GripOf(x).Holds(ByCloser);
    var keyOf' := keyOf[c := key];
    forall k ensures |OfKey(keyOf', pending, k)| == |OfKey(keyOf, pending, k)| {
      OfKeyAdd(keyOf, pending, c, key, k);
    }
  }

  // ---------------------------------------------------------------------------------------------------------------
  // Pulled
  // ---------------------------------------------------------------------------------------------------------------

  lemma PulledOne(poolSize: nat, keyOf: map<ConnId, Key>, now: Time, todo: set<Key>, pulled: set<ConnId>, key: Key,
                  expired: set<ConnId>)
    requires Pulled(poolSize, Sweeping(now, todo, pulled), keyOf) && key in todo
    requires |expired| <= poolSize && forall c :: c in expired ==> c in keyOf && keyOf[c] == key
    ensures Pulled(poolSize, Sweeping(now, todo - {key}, pulled + expired), keyOf)
  {
    var sweeper := Sweeping(now, todo, pulled);
    assert PulledBy(sweeper) == pulled;
    forall k ensures OfKey(keyOf, pulled + expired, k) == if k == key then expired else OfKey(keyOf, pulled, k) {
      if k == key {
        assert OfKey(keyOf, pulled, key) == {};
        assert forall c :: c in pulled && c in keyOf ==> c !in OfKey(keyOf, pulled, key);
      }
    }
  }

  lemma PulledDial(poolSize: nat, sweeper: Sweeper, keyOf: map<ConnId, Key>, x: Hands, c: ConnId, key: Key)
    requires Pulled(poolSize, sweeper, keyOf) && Fitting(keyOf, GripOf(x))
    requires PulledBy(sweeper) == x.pulled && c !in keyOf
    ensures Pulled(poolSize, sweeper, keyOf[c := key])
  {
    assert c !in GripOf(x).Holds(BySweeper);
    var keyOf' := keyOf[c := key];
    forall k ensures OfKey(keyOf', x.pulled, k) == OfKey(keyOf, x.pulled, k) {
      OfKeyAdd(keyOf, x.pulled, c, key, k);
    }
  }

  lemma PulledKept(cfg: Cfg, s: State, step: Step)
    requires Enabled(cfg, s, step) && Pulled(cfg.poolSize, s.sweeper, s.keyOf)
    requires Room(cfg.poolSize, s.sh.idle, s.refills) && Fitting(s.keyOf, GripOf(HandsOf(s)))
    ensures var s' := Apply(cfg, s, step); Pulled(cfg.poolSize, s'.sweeper, s'.keyOf)
  {
    match step
    case OfRefill(r, refill) =>
      RefillStepped(cfg, s, r, refill);
      if refill.Connect? {
        PulledDial(cfg.poolSize, s.sweeper, s.keyOf, HandsOf(s), refill.conn, s.refills[r].key);
      }
    case OfSweeper(sweep) => PulledSweep(cfg, s, sweep);
    case _ =>
  }

  lemma PulledSweep(cfg: Cfg, s: State, step: SweepStep)
    requires SweepEnabled(cfg, s, step) && Pulled(cfg.poolSize, s.sweeper, s.keyOf)
    requires Room(cfg.poolSize, s.sh.idle, s.refills) && Fitting(s.keyOf, GripOf(HandsOf(s)))
    ensures var s' := ApplySweep(cfg, s, step); Pulled(cfg.poolSize, s'.sweeper, s'.keyOf)
  {
    match step
    case WarmKey(key, domains, id) =>
      WarmToppedUp(cfg, s, key, domains, id);
      assert forall k :: OfKey(s.keyOf, {}, k) == {};
    case SweepOne(key, broken, id) =>
      SweepToppedUp(cfg, s, key, broken, id);
      var Sweeping(now, todo, pulled) := s.sweeper;
      SweepSeparates(Bucket(s.sh.idle, key), now, broken);
      BucketKeys(s.keyOf, HandsOf(s), key);
      PulledOne(cfg.poolSize, s.keyOf, now, todo, pulled, key, Conns(Expired(Bucket(s.sh.idle, key), now, broken)));
    case SweepClose(conn) =>
      forall k ensures |OfKey(s.keyOf, s.sweeper.pulled - {conn}, k)| <= |OfKey(s.keyOf, s.sweeper.pulled, k)| {
        Counting.SubsetSize(OfKey(s.keyOf, s.sweeper.pulled - {conn}, k), OfKey(s.keyOf, s.sweeper.pulled, k));
      }
    case _ => assert forall k :: OfKey(s.keyOf, {}, k) == {};
  }

  // ---------------------------------------------------------------------------------------------------------------
  // Shutdown
  // ---------------------------------------------------------------------------------------------------------------

  lemma ShutdownKept(cfg: Cfg, s: State, step: Step)
    requires Enabled(cfg, s, step) && Shutdown(s.sh.closed, s.sh.idle, s.refills, s.sweeper, s.closer)
    ensures var s' := Apply(cfg, s, step); Shutdown(s'.sh.closed, s'.sh.idle, s'.refills, s'.sweeper, s'.closer)
  {
    match step
    case OfGetter(g, get) => ShutdownGet(cfg, s, g, get);
    case OfRefill(r, refill) => RefillStepped(cfg, s, r, refill);
    case OfSweeper(sweep) => ShutdownSweep(cfg, s, sweep);
    case OfCloser(close) => assert forall k :: Bucket(map[], k) == [];
    case Tick(_) =>
  }

  lemma ShutdownGet(cfg: Cfg, s: State, g: nat, step: GetStep)
    requires GetEnabled(cfg, s, g, step) && Shutdown(s.sh.closed, s.sh.idle, s.refills, s.sweeper, s.closer)
    ensures var s' := ApplyGet(cfg, s, g, step); Shutdown(s'.sh.closed, s'.sh.idle, s'.refills, s'.sweeper, s'.closer)
  {
    if step.Look? {
      LookToppedUp(cfg, s, g, step.id);
    }
  }

  lemma ShutdownSweep(cfg: Cfg, s: State, step: SweepStep)
    requires SweepEnabled(cfg, s, step) && Shutdown(s.sh.closed, s.sh.idle, s.refills, s.sweeper, s.closer)
    ensures var s' := ApplySweep(cfg, s, step); Shutdown(s'.sh.closed, s'.sh.idle, s'.refills, s'.sweeper, s'.closer)
  {
    match step
    case WarmKey(key, domains, id) => WarmToppedUp(cfg, s, key, domains, id);
    case SweepOne(key, broken, id) =>
      SweepToppedUp(cfg, s, key, broken, id);
      SweepShrinks(s.sh.idle, key, s.sweeper.now, broken);
    case _ =>
  }

  // ---------------------------------------------------------------------------------------------------------------
  // Registered, Configured and Labelled
  // ---------------------------------------------------------------------------------------------------------------

  lemma RegisteredSpawn(idle: Idle, idle': Idle, refills: Refills, sweeper: Sweeper, routes: map<Key, Route>,
                        start: bool, active: bool, key: Key, domains: seq<string>, id: nat)
    requires Registered(idle, refills, sweeper, routes) && Shrunk(idle, idle', key) && (start ==> active)
    ensures Registered(idle', Spawn(refills, start, key, domains, id), sweeper, Register(routes, active, key, domains))
  {
  }

  lemma RegisteredKept(cfg: Cfg, s: State, step: Step)
    requires Enabled(cfg, s, step) && Registered(s.sh.idle, s.refills, s.sweeper, s.sh.routes)
    ensures var s' := Apply(cfg, s, step); Registered(s'.sh.idle, s'.refills, s'.sweeper, s'.sh.routes)
  {
    match step
    case OfGetter(g, get) =>
      if get.Look? {
        var Getter(key, domains, _, _) := s.getters[g];
        LookToppedUp(cfg, s, g, get.id);
        LookShrinks(s.sh, key);
        var idle := LookIdle(s.sh, key);
        RegisteredSpawn(s.sh.idle, idle, s.refills, s.sweeper, s.sh.routes, Starts(cfg, s, idle, key), Active(cfg, s),
                        key, domains, get.id);
      }
    case OfRefill(r, refill) => RegisteredRefill(cfg, s, r, refill);
    case OfSweeper(sweep) => RegisteredSweep(cfg, s, sweep);
    case OfCloser(close) => assert forall k :: Bucket(map[], k) == [];
    case Tick(_) =>
  }

  lemma RegisteredRefill(cfg: Cfg, s: State, r: nat, step: RefillStep)
    requires RefillEnabled(s, r, step) && Registered(s.sh.idle, s.refills, s.sweeper, s.sh.routes)
    ensures var s' := ApplyRefill(cfg, s, r, step); Registered(s'.sh.idle, s'.refills, s'.sweeper, s'.sh.routes)
  {
    var s', key := ApplyRefill(cfg, s, r, step), s.refills[r].key;
    RefillStepped(cfg, s, r, step);
    assert forall k :: k in s'.sh.routes <==> k in s.sh.routes;
    assert forall k :: k != key ==> Bucket(s'.sh.idle, k) == Bucket(s.sh.idle, k);
  }

  lemma RegisteredSweep(cfg: Cfg, s: State, step: SweepStep)
    requires SweepEnabled(cfg, s, step) && Registered(s.sh.idle, s.refills, s.sweeper, s.sh.routes)
    ensures var s' := ApplySweep(cfg, s, step); Registered(s'.sh.idle, s'.refills, s'.sweeper, s'.sh.routes)
  {
    match step
    case WarmKey(key, domains, id) =>
      WarmToppedUp(cfg, s, key, domains, id);
      RegisteredSpawn(s.sh.idle, s.sh.idle, s.refills, s.sweeper, s.sh.routes, Starts(cfg, s, s.sh.idle, key),
                      Active(cfg, s), key, domains, id);
    case SweepOne(key, broken, id) =>
      SweepToppedUp(cfg, s, key, broken, id);
      SweepShrinks(s.sh.idle, key, s.sweeper.now, broken);
      var idle := SweepIdle(s.sh.idle, key, s.sweeper.now, broken);
      RegisteredSpawn(s.sh.idle, idle, s.refills, s.sweeper, s.sh.routes, Starts(cfg, s, idle, key), Active(cfg, s),
                      key, s.sh.routes[key].domains, id);
    case _ =>
  }

  lemma ConfiguredKept(cfg: Cfg, s: State, step: Step)
    requires Enabled(cfg, s, step) && Configured(cfg.keys, s.sh.routes, s.sweeper, s.getters)
    requires Labelled(cfg.keys, s.refills, s.keyOf)
    ensures var s' := Apply(cfg, s, step);
      Configured(cfg.keys, s'.sh.routes, s'.sweeper, s'.getters) && Labelled(cfg.keys, s'.refills, s'.keyOf)
  {
    match step
    case OfGetter(g, get) => ConfiguredGet(cfg, s, g, get);
    case OfRefill(r, refill) => ConfiguredRefill(cfg, s, r, refill);
    case OfSweeper(sweep) => ConfiguredSweep(cfg, s, sweep);
    case _ =>
  }

  lemma ConfiguredGet(cfg: Cfg, s: State, g: nat, step: GetStep)
    requires GetEnabled(cfg, s, g, step) && Configured(cfg.keys, s.sh.routes, s.sweeper, s.getters)
    requires Labelled(cfg.keys, s.refills, s.keyOf)
    ensures var s' := ApplyGet(cfg, s, g, step);
      Configured(cfg.keys, s'.sh.routes, s'.sweeper, s'.getters) && Labelled(cfg.keys, s'.refills, s'.keyOf)
  {
    if step.Look? {
      LookToppedUp(cfg, s, g, step.id);
    }
  }

  lemma ConfiguredRefill(cfg: Cfg, s: State, r: nat, step: RefillStep)
    requires RefillEnabled(s, r, step) && Configured(cfg.keys, s.sh.routes, s.sweeper, s.getters)
    requires Labelled(cfg.keys, s.refills, s.keyOf)
    ensures var s' := ApplyRefill(cfg, s, r, step);
      Configured(cfg.keys, s'.sh.routes, s'.sweeper, s'.getters) && Labelled(cfg.keys, s'.refills, s'.keyOf)
  {
    var s' := ApplyRefill(cfg, s, r, step);
    RefillStepped(cfg, s, r, step);
    assert forall k :: k in s'.sh.routes ==> k in s.sh.routes || k == s.refills[r].key;
  }

  lemma ConfiguredSweep(cfg: Cfg, s: State, step: SweepStep)
    requires SweepEnabled(cfg, s, step) && Configured(cfg.keys, s.sh.routes, s.sweeper, s.getters)
    requires Labelled(cfg.keys, s.refills, s.keyOf)
    ensures var s' := ApplySweep(cfg, s, step);
      Configured(cfg.keys, s'.sh.routes, s'.sweeper, s'.getters) && Labelled(cfg.keys, s'.refills, s'.keyOf)
  {
    match step
    case WarmKey(key, domains, id) => WarmToppedUp(cfg, s, key, domains, id);
    case SweepOne(key, broken, id) => SweepToppedUp(cfg, s, key, broken, id);
    case _ =>
  }

  // ---------------------------------------------------------------------------------------------------------------
  // Recorded and Punctual
  // ---------------------------------------------------------------------------------------------------------------

  lemma RecordedSpawn(routes: map<Key, Route>, fails: map<Key, seq<Time>>, active: bool, key: Key, domains: seq<string>)
    requires Recorded(routes, fails)
    ensures Recorded(Register(routes, active, key, domains), fails)
  {
    if active && key !in routes {
      assert TimesOf(fails, key) == [];
      assert Remembers(Route(domains, 0, 0), []);
    }
  }

  lemma PunctualSpawn(routes: map<Key, Route>, refills: Refills, clock: Time, start: bool, active: bool, key: Key,
                      domains: seq<string>, id: nat)
    requires Punctual(routes, refills, clock) && id !in refills
    requires start ==> active && (key in routes ==> clock >= routes[key].retryAfter)
    ensures Punctual(Register(routes, active, key, domains), Spawn(refills, start, key, domains, id), clock)
  {
    var refills' := Spawn(refills, start, key, domains, id);
    assert forall r :: Unsettled(refills', r) ==> Unsettled(refills, r) || (start && r == id);
  }

  lemma RememberFailure(route: Route, fails: seq<Time>, domains: seq<string>, clock: Time)
    requires Remembers(route, fails) && clock >= route.retryAfter
    ensures var delay := NextDelay(route.retryDelay, BACKOFF_MIN, BACKOFF_MAX);
      Remembers(Route(domains, delay, clock + delay), fails + [clock])
  {
    DelayStep(|fails|, BACKOFF_MIN, BACKOFF_MAX);
    SpacedAppend(fails, clock, BACKOFF_MIN, BACKOFF_MAX);
  }

  lemma RecordedReplace(routes: map<Key, Route>, fails: map<Key, seq<Time>>, key: Key, route: Route, times: seq<Time>)
    requires Recorded(routes, fails) && Remembers(route, times)
    ensures Recorded(routes[key := route], fails[key := times])
  {
    var routes', fails' := routes[key := route], fails[key := times];
    forall k | k in routes' ensures Remembers(routes'[k], TimesOf(fails', k)) {
      if k != key {
        assert TimesOf(fails', k) == TimesOf(fails, k);
      }
    }
  }

  /** Giving one key a new route leaves the other unsettled refills' routes alone, for they have other keys. */
  lemma PunctualReplace(routes: map<Key, Route>, refills: Refills, refilling: set<Key>, clock: Time, r: nat, pc: Pc,
                        route: Route)
    requires Punctual(routes, refills, clock) && Flags(refills, refilling) && Live(refills, r)
    requires pc.Leave? || clock >= route.retryAfter
    ensures Punctual(routes[refills[r].key := route], refills[r := refills[r].(pc := pc)], clock)
  {
    var refills' := refills[r := refills[r].(pc := pc)];
    forall r' | Unsettled(refills', r') && r' != r
      ensures refills[r'].key in routes && refills[r'].key != refills[r].key
      ensures clock >= routes[refills[r'].key].retryAfter
    {
      assert Unsettled(refills, r') && Live(refills, r');
    }
  }

  lemma PunctualAgree(routes: map<Key, Route>, refills: Refills, refills': Refills, clock: Time)
    requires Punctual(routes, refills, clock)
    requires forall r {:trigger Unsettled(refills', r)} :: Unsettled(refills', r) ==>
               Unsettled(refills, r) && refills'[r].key == refills[r].key
    ensures Punctual(routes, refills', clock)
  {
  }

  lemma BackoffKept(cfg: Cfg, s: State, step: Step)
    requires Enabled(cfg, s, step) && Recorded(s.sh.routes, s.fails) && Punctual(s.sh.routes, s.refills, s.clock)
    requires Flags(s.refills, s.sh.refilling)
    ensures var s' := Apply(cfg, s, step);
      Recorded(s'.sh.routes, s'.fails) && Punctual(s'.sh.routes, s'.refills, s'.clock)
  {
    match step
    case OfGetter(g, get) => BackoffGet(cfg, s, g, get);
    case OfRefill(r, refill) => BackoffRefill(cfg, s, r, refill);
    case OfSweeper(sweep) => BackoffSweep(cfg, s, sweep);
    case OfCloser(close) => BackoffClose(s, close);
    case Tick(d) => PunctualLater(s.sh.routes, s.refills, s.clock, s.clock + d);
  }

  lemma PunctualLater(routes: map<Key, Route>, refills: Refills, clock: Time, clock': Time)
    requires Punctual(routes, refills, clock) && clock <= clock'
    ensures Punctual(routes, refills, clock')
  {
  }

  lemma BackoffClose(s: State, step: CloseStep)
    requires CloseEnabled(s, step)
    ensures var s' := ApplyClose(s, step);
      s'.sh.routes == s.sh.routes && s'.fails == s.fails && s'.refills == s.refills && s'.clock == s.clock
  {
  }

  lemma BackoffGet(cfg: Cfg, s: State, g: nat, step: GetStep)
    requires GetEnabled(cfg, s, g, step) && Recorded(s.sh.routes, s.fails) && Punctual(s.sh.routes, s.refills, s.clock)
    ensures var s' := ApplyGet(cfg, s, g, step);
      Recorded(s'.sh.routes, s'.fails) && Punctual(s'.sh.routes, s'.refills, s'.clock)
  {
    if step.Look? {
      var Getter(key, domains, _, _) := s.getters[g];
      LookToppedUp(cfg, s, g, step.id);
      RecordedSpawn(s.sh.routes, s.fails, Active(cfg, s), key, domains);
      PunctualSpawn(s.sh.routes, s.refills, s.clock, Starts(cfg, s, LookIdle(s.sh, key), key), Active(cfg, s), key,
                    domains, step.id);
    }
  }

  lemma BackoffRefill(cfg: Cfg, s: State, r: nat, step: RefillStep)
    requires RefillEnabled(s, r, step) && Recorded(s.sh.routes, s.fails) && Punctual(s.sh.routes, s.refills, s.clock)
    requires Flags(s.refills, s.sh.refilling)
    ensures var s' := ApplyRefill(cfg, s, r, step);
      Recorded(s'.sh.routes, s'.fails) && Punctual(s'.sh.routes, s'.refills, s'.clock)
  {
    if step.Report? && !s.sh.closed {
      BackoffReport(cfg, s, r);
    } else if step.Put? && !s.sh.closed {
      BackoffPut(cfg, s, r);
    } else {
      RefillStepped(cfg, s, r, step);
      PunctualAgree(s.sh.routes, s.refills, ApplyRefill(cfg, s, r, step).refills, s.clock);
    }
  }

  lemma BackoffReport(cfg: Cfg, s: State, r: nat)
    requires RefillEnabled(s, r, Report) && Recorded(s.sh.routes, s.fails) && Punctual(s.sh.routes, s.refills, s.clock)
    requires Flags(s.refills, s.sh.refilling) && !s.sh.closed
    ensures var s' := ApplyRefill(cfg, s, r, Report);
      Recorded(s'.sh.routes, s'.fails) && Punctual(s'.sh.routes, s'.refills, s'.clock)
  {
    var s' := ApplyRefill(cfg, s, r, Report);
    var Refill(key, domains, _) := s.refills[r];
    assert Unsettled(s.refills, r) && Live(s.refills, r);
    RememberFailure(s.sh.routes[key], TimesOf(s.fails, key), domains, s.clock);
    RecordedReplace(s.sh.routes, s.fails, key, s'.sh.routes[key], TimesOf(s.fails, key) + [s.clock]);
    PunctualReplace(s.sh.routes, s.refills, s.sh.refilling, s.clock, r, Leave, s'.sh.routes[key]);
  }

  lemma BackoffPut(cfg: Cfg, s: State, r: nat)
    requires RefillEnabled(s, r, Put) && Recorded(s.sh.routes, s.fails) && Punctual(s.sh.routes, s.refills, s.clock)
    requires Flags(s.refills, s.sh.refilling) && !s.sh.closed
    ensures var s' := ApplyRefill(cfg, s, r, Put);
      Recorded(s'.sh.routes, s'.fails) && Punctual(s'.sh.routes, s'.refills, s'.clock)
  {
    var Refill(key, domains, _) := s.refills[r];
    assert Live(s.refills, r);
    RecordedReplace(s.sh.routes, s.fails, key, Route(domains, 0, 0), []);
    PunctualReplace(s.sh.routes, s.refills, s.sh.refilling, s.clock, r, Check, Route(domains, 0, 0));
  }

  lemma BackoffSweep(cfg: Cfg, s: State, step: SweepStep)
    requires SweepEnabled(cfg, s, step) && Recorded(s.sh.routes, s.fails) && Punctual(s.sh.routes, s.refills, s.clock)
    ensures var s' := ApplySweep(cfg, s, step);
      Recorded(s'.sh.routes, s'.fails) && Punctual(s'.sh.routes, s'.refills, s'.clock)
  {
    match step
    case WarmKey(key, domains, id) =>
      WarmToppedUp(cfg, s, key, domains, id);
      RecordedSpawn(s.sh.routes, s.fails, Active(cfg, s), key, domains);
      PunctualSpawn(s.sh.routes, s.refills, s.clock, Starts(cfg, s, s.sh.idle, key), Active(cfg, s), key, domains, id);
    case SweepOne(key, broken, id) =>
      SweepToppedUp(cfg, s, key, broken, id);
      var domains := s.sh.routes[key].domains;
      RecordedSpawn(s.sh.routes, s.fails, Active(cfg, s), key, domains);
      PunctualSpawn(s.sh.routes, s.refills, s.clock,
                    Starts(cfg, s, SweepIdle(s.sh.idle, key, s.sweeper.now, broken), key),
                    Active(cfg, s), key, domains, id);
    case _ =>
  }

  // ---------------------------------------------------------------------------------------------------------------
  // Exclusive and HandedFresh
  // ---------------------------------------------------------------------------------------------------------------

  lemma HandedFreshKept(cfg: Cfg, s: State, step: Step)
    requires Enabled(cfg, s, step) && HandedFresh(s.getters)
    ensures var s' := Apply(cfg, s, step); HandedFresh(s'.getters)
  {
    match step
    case OfGetter(g, get) =>
      if get.Look? {
        LookToppedUp(cfg, s, g, get.id);
      }
    case OfRefill(r, refill) => RefillStepped(cfg, s, r, refill);
    case OfSweeper(sweep) =>
      match sweep {
        case WarmKey(key, domains, id) => WarmToppedUp(cfg, s, key, domains, id);
        case SweepOne(key, broken, id) => SweepToppedUp(cfg, s, key, broken, id);
        case _ =>
      }
    case _ =>
  }

  lemma ExclusiveKept(cfg: Cfg, s: State, step: Step)
    requires Enabled(cfg, s, step) && Exclusive(s.keyOf, GripOf(HandsOf(s)))
    requires Room(cfg.poolSize, s.sh.idle, s.refills) && (s.closer.Open? ==> PendingOf(s.closer) == {})
    ensures var s' := Apply(cfg, s, step); Exclusive(s'.keyOf, GripOf(HandsOf(s')))
  {
    match step
    case OfGetter(g, get) => ExclusiveGet(cfg, s, g, get);
    case OfRefill(r, refill) => ExclusiveRefill(cfg, s, r, refill);
    case OfSweeper(sweep) => ExclusiveSweep(cfg, s, sweep);
    case OfCloser(close) => ExclusiveClose(s, close);
    case Tick(_) =>
  }

  lemma ExclusiveSpawn(keyOf: map<ConnId, Key>, x: Hands, start: bool, key: Key, domains: seq<string>, id: nat)
    requires Exclusive(keyOf, GripOf(x)) && id !in x.refills
    ensures Exclusive(keyOf, GripOf(x.(refills := Spawn(x.refills, start, key, domains, id))))
  {
    RefillsMove(keyOf, x, Spawn(x.refills, start, key, domains, id));
  }

  lemma ExclusiveGet(cfg: Cfg, s: State, g: nat, step: GetStep)
    requires GetEnabled(cfg, s, g, step) && Exclusive(s.keyOf, GripOf(HandsOf(s)))
    requires Room(cfg.poolSize, s.sh.idle, s.refills)
    ensures var s' := ApplyGet(cfg, s, g, step); Exclusive(s'.keyOf, GripOf(HandsOf(s')))
  {
    var x := HandsOf(s);
    match step
    case Begin(key, domains) => GetterMoves(s.keyOf, x, g, Getter(key, domains, s.clock, Looking));
    case Look(id) => ExclusiveLook(cfg, s, g, id);
    case Judge(broken) =>
      var getter := s.getters[g];
      if Stale(getter.hand.item, getter.now, broken) {
        Rejected(s.keyOf, x, g);
      } else {
        GetterMoves(s.keyOf, x, g, getter.(hand := Handed(getter.hand.item)));
      }
  }

  lemma ExclusiveLook(cfg: Cfg, s: State, g: nat, id: nat)
    requires GetEnabled(cfg, s, g, Look(id)) && Exclusive(s.keyOf, GripOf(HandsOf(s)))
    requires Room(cfg.poolSize, s.sh.idle, s.refills)
    ensures var s' := ApplyGet(cfg, s, g, Look(id)); Exclusive(s'.keyOf, GripOf(HandsOf(s')))
  {
    var x, s' := HandsOf(s), ApplyGet(cfg, s, g, Look(id));
    var Getter(key, domains, _, _) := s.getters[g];
    LookToppedUp(cfg, s, g, id);
    var start := Starts(cfg, s, LookIdle(s.sh, key), key);
    ExclusiveSpawn(s.keyOf, x, start, key, domains, id);
    var y := x.(refills := Spawn(x.refills, start, key, domains, id));
    if s.sh.closed || Bucket(s.sh.idle, key) == [] {
      GetterMoves(s.keyOf, y, g, s.getters[g].(hand := Empty));
      assert HandsOf(s') == y.(getters := s.getters[g := s.getters[g].(hand := Empty)]);
    } else {
      var bucket := Bucket(s.sh.idle, key);
      Taken(s.keyOf, y, g);
      assert HandsOf(s') == y.(idle := s.sh.idle[key := bucket[1..]],
                               getters := s.getters[g := s.getters[g].(hand := Took(bucket[0]))]);
    }
  }

  lemma ExclusiveRefill(cfg: Cfg, s: State, r: nat, step: RefillStep)
    requires RefillEnabled(s, r, step) && Exclusive(s.keyOf, GripOf(HandsOf(s)))
    ensures var s' := ApplyRefill(cfg, s, r, step); Exclusive(s'.keyOf, GripOf(HandsOf(s')))
  {
    var x, s' := HandsOf(s), ApplyRefill(cfg, s, r, step);
    match step
    case Connect(conn) => Dialed(s.keyOf, x, r, conn);
    case Drop => Dropped(s.keyOf, x, r, Leave);
    case Put =>
      if s.sh.closed {
        RefillsMove(s.keyOf, x, s'.refills);
      } else {
        Stored(s.keyOf, x, r, Item(s.refills[r].pc.conn, s.clock));
      }
    case _ =>
      RefillsMove(s.keyOf, x, s'.refills);
      assert HandsOf(s') == x.(refills := s'.refills);
  }

  lemma ExclusiveSweep(cfg: Cfg, s: State, step: SweepStep)
    requires SweepEnabled(cfg, s, step) && Exclusive(s.keyOf, GripOf(HandsOf(s)))
    requires Room(cfg.poolSize, s.sh.idle, s.refills)
    ensures var s' := ApplySweep(cfg, s, step); Exclusive(s'.keyOf, GripOf(HandsOf(s')))
  {
    var x, s' := HandsOf(s), ApplySweep(cfg, s, step);
    match step
    case WarmKey(key, domains, id) =>
      WarmToppedUp(cfg, s, key, domains, id);
      ExclusiveSpawn(s.keyOf, x, Starts(cfg, s, s.sh.idle, key), key, domains, id);
      assert HandsOf(s') == x.(refills := s'.refills);
    case SweepOne(key, broken, id) => ExclusiveSweepOne(cfg, s, key, broken, id);
    case SweepClose(conn) => SweeperCloses(s.keyOf, x, conn);
    case _ => assert HandsOf(s') == x;
  }

  lemma ExclusiveSweepOne(cfg: Cfg, s: State, key: Key, broken: set<ConnId>, id: nat)
    requires SweepEnabled(cfg, s, SweepOne(key, broken, id)) && Exclusive(s.keyOf, GripOf(HandsOf(s)))
    requires Distinct(Bucket(s.sh.idle, key))
    ensures var s' := ApplySweep(cfg, s, SweepOne(key, broken, id)); Exclusive(s'.keyOf, GripOf(HandsOf(s')))
  {
    var x, s' := HandsOf(s), ApplySweep(cfg, s, SweepOne(key, broken, id));
    var bucket, now, domains := Bucket(s.sh.idle, key), s.sweeper.now, s.sh.routes[key].domains;
    SweepToppedUp(cfg, s, key, broken, id);
    var start := Starts(cfg, s, SweepIdle(s.sh.idle, key, now, broken), key);
    ExclusiveSpawn(s.keyOf, x, start, key, domains, id);
    var y := x.(refills := Spawn(x.refills, start, key, domains, id));
    SweepSeparates(bucket, now, broken);
    var expired := Conns(Expired(bucket, now, broken));
    Swept(s.keyOf, y, key, Ready(bucket, now, broken), expired);
    assert HandsOf(s') == y.(idle := y.idle[key := Ready(bucket, now, broken)], pulled := y.pulled + expired);
  }

  lemma ExclusiveClose(s: State, step: CloseStep)
    requires CloseEnabled(s, step) && Exclusive(s.keyOf, GripOf(HandsOf(s)))
    ensures var s' := ApplyClose(s, step); Exclusive(s'.keyOf, GripOf(HandsOf(s')))
  {
    var x, s' := HandsOf(s), ApplyClose(s, step);
    match step
    case CloseBegin => DrainedAll(s.keyOf, x);
    case CloseItem(conn) => CloserCloses(s.keyOf, x, conn);
    case CloseReturn => assert HandsOf(s') == x;
  }

  // ---------------------------------------------------------------------------------------------------------------
  // All of it, over runs
  // ---------------------------------------------------------------------------------------------------------------

  lemma InvKept(cfg: Cfg, s: State, step: Step)
    requires Inv(cfg, s) && Enabled(cfg, s, step)
    ensures Inv(cfg, Apply(cfg, s, step))
  {
    ExclusiveKept(cfg, s, step);
    FlagsKept(cfg, s, step);
    RoomKept(cfg, s, step);
    DrainedKept(cfg, s, step);
    PulledKept(cfg, s, step);
    ShutdownKept(cfg, s, step);
    RegisteredKept(cfg, s, step);
    ConfiguredKept(cfg, s, step);
    BackoffKept(cfg, s, step);
    HandedFreshKept(cfg, s, step);
  }

  lemma {:induction false} RunKeepsInv(cfg: Cfg, s: State, steps: seq<Step>, s': State)
    requires Inv(cfg, s) && Run(cfg, s, steps, s')
    ensures Inv(cfg, s')
    decreases |steps|
  {
    if steps == [] {
    } else {
      InvKept(cfg, s, steps[0]);
      RunKeepsInv(cfg, Apply(cfg, s, steps[0]), steps[1..], s');
    }
  }

  lemma ReachableInv(cfg: Cfg, s: State)
    requires Reachable(cfg, s)
    ensures Inv(cfg, s)
  {
    var steps :| Run(cfg, Init(), steps, s);
    InitInv(cfg);
    RunKeepsInv(cfg, Init(), steps, s);
  }
}
