/** The pool of prewarmed worker connections: at most one per key, refilled by at most one goroutine per key. */
module WorkerPool {
  import opened Units

  type ConnId = nat

  datatype Key = Key(dc: int, dst: string)

  datatype Item = Item(conn: ConnId, created: Time)

  /** The fields guarded by the mutex. */
  datatype Shared = Shared(closed: bool, idle: map<Key, Item>, refilling: set<Key>)

  /** PoolSize, whether any worker domain is configured, and the keys that sessions and warmup can name. */
  datatype Cfg = Cfg(poolSize: nat, hasDomains: bool, keys: set<Key>)

  const MAX_AGE: nat := 100 * SECOND

  predicate Startable(sh: Shared, cfg: Cfg, key: Key) {
    !sh.closed && cfg.poolSize > 0 && key !in sh.refilling && cfg.hasDomains && key !in sh.idle
  }

  function Schedule(sh: Shared, cfg: Cfg, key: Key): Shared {
    if Startable(sh, cfg, key) then sh.(refilling := sh.refilling + {key}) else sh
  }

  predicate Open(sh: Shared, cfg: Cfg) {
    !sh.closed && cfg.poolSize > 0
  }

  /** The locked part of get: the key's connection leaves the pool, and only then is a refill scheduled. */
  function Take(sh: Shared, cfg: Cfg, key: Key): Shared {
    if Open(sh, cfg) && key in sh.idle then Schedule(sh.(idle := sh.idle - {key}), cfg, key) else sh
  }

  /** The locked part of the end of a refill. */
  function Settle(sh: Shared, key: Key, result: Option<Item>): Shared {
    var sh' := sh.(refilling := sh.refilling - {key});
    if result.Some? && !sh.closed then sh'.(idle := sh.idle[key := result.value]) else sh'
  }

  function ShutDown(sh: Shared): Shared {
    sh.(closed := true, idle := map[])
  }

  /** The mutex-guarded object. Every method is one critical section. */
  class Pool {
    const cfg: Cfg
    var closed: bool
    var idle: map<Key, Item>
    var refilling: set<Key>

    function View(): Shared
      reads this
    {
      Shared(closed, idle, refilling)
    }

    constructor (cfg: Cfg)
      ensures this.cfg == cfg
      ensures View() == Shared(false, map[], {})
    {
      this.cfg := cfg;
      closed, idle, refilling := false, map[], {};
    }

    method ScheduleRefill(key: Key) returns (start: bool)
      modifies this`refilling
      ensures View() == Schedule(old(View()), cfg, key)
      ensures start <==> Startable(old(View()), cfg, key)
    {
      if closed || cfg.poolSize == 0 || key in refilling || !cfg.hasDomains {
        return false;
      }
      if key in idle {
        return false;
      }
      refilling := refilling + {key};
      start := true;
    }

    method TakeIdle(key: Key) returns (item: Option<Item>, start: bool)
      modifies this`idle, this`refilling
      ensures View() == Take(old(View()), cfg, key)
      ensures idle == if closed || cfg.poolSize == 0 then old(idle) else old(idle) - {key}
      ensures start <==>
        && item.Some? && !closed && cfg.poolSize > 0 && cfg.hasDomains && key !in old(refilling)
      ensures item == if Open(old(View()), cfg) && key in old(idle) then Some(old(idle)[key]) else None
      ensures start <==> key in refilling && key !in old(refilling)
    {
      item, start := None, false;
      if closed || cfg.poolSize == 0 {
        return;
      }
      if key in idle {
        item := Some(idle[key]);
      }
      idle := idle - {key};
      if item.Some? {
        start := ScheduleRefill(key);
      } else {
        assert idle == old(idle);
      }
    }

    /** Stores the dialed connection, or leaves it to the caller to close. A live connection is never overwritten if the
        key was not idle. */
    method EndRefill(key: Key, conn: Option<ConnId>, clock: Time) returns (close: Option<ConnId>)
      modifies this`idle, this`refilling
      ensures View() == Settle(old(View()), key, if conn.Some? then Some(Item(conn.value, clock)) else None)
      ensures close == if closed then conn else None
      ensures idle == if conn.Some? && !closed then old(idle)[key := Item(conn.value, clock)] else old(idle)
      ensures refilling == old(refilling) - {key}
    {
      close := conn;
      refilling := refilling - {key};
      if conn.Some? && !closed {
        idle := idle[key := Item(conn.value, clock)];
        close := None;
      }
    }

    method CloseLocked() returns (drained: map<Key, Item>)
      modifies this`closed, this`idle
      ensures View() == ShutDown(old(View()))
      ensures drained == old(idle)
    {
      closed := true;
      drained := idle;
      idle := map[];
    }
  }
}

/** Every interleaving of get, refill and Close on the worker pool. */
module WorkerPoolRuns {
  import opened Units
  import opened WorkerPool
  import opened Ownership
  import Counting

  datatype Pc = Connecting | Ended(result: Option<ConnId>) | Late(conn: ConnId) | Over

  datatype Refill = Refill(key: Key, pc: Pc)

  datatype Hand = Took(item: Item) | Missed | Handed(item: Item)

  datatype Getter = Getter(key: Key, hand: Hand)

  datatype Closer = NotClosed | Draining(pending: set<ConnId>) | Returned

  datatype State = State(
    sh: Shared,
    refills: map<nat, Refill>,
    getters: map<nat, Getter>,
    closer: Closer,
    shut: set<ConnId>,
    keyOf: map<ConnId, Key>,
    clock: Time)

  datatype Step =
    | Tick(d: nat)
    | Get(g: nat, key: Key, id: nat)
    | Judge(g: nat)
    | Request(key: Key, id: nat)
    | Connect(r: nat, conn: ConnId)
    | Refuse(r: nat)
    | End(r: nat)
    | Drop(r: nat)
    | Done(r: nat)
    | CloseBegin
    | CloseItem(conn: ConnId)
    | CloseReturn

  function Init(): State {
    State(Shared(false, map[], {}), map[], map[], NotClosed, {}, map[], 0)
  }

  predicate Enabled(cfg: Cfg, s: State, step: Step) {
    match step
    case Tick(_) => true
    case Get(g, key, id) => g !in s.getters && id !in s.refills && key in cfg.keys
    case Judge(g) => g in s.getters && s.getters[g].hand.Took?
    case Request(key, id) => id !in s.refills && key in cfg.keys
    case Connect(r, conn) => r in s.refills && s.refills[r].pc.Connecting? && conn !in s.keyOf
    case Refuse(r) => r in s.refills && s.refills[r].pc.Connecting?
    case End(r) => r in s.refills && s.refills[r].pc.Ended?
    case Drop(r) => r in s.refills && s.refills[r].pc.Late?
    case Done(r) => r in s.refills && s.refills[r].pc.Over?
    case CloseBegin => s.closer.NotClosed?
    case CloseItem(conn) => s.closer.Draining? && conn in s.closer.pending
    case CloseReturn => s.closer.Draining? && s.closer.pending == {} && s.refills == map[]
  }

  function Spawn(refills: map<nat, Refill>, start: bool, key: Key, id: nat): map<nat, Refill> {
    if start then refills[id := Refill(key, Connecting)] else refills
  }

  function SetPc(refills: map<nat, Refill>, r: nat, pc: Pc): map<nat, Refill>
    requires r in refills
  {
    refills[r := refills[r].(pc := pc)]
  }

  function IdleConns(idle: map<Key, Item>): set<ConnId> {
    set k | k in idle :: idle[k].conn
  }

  predicate TakeStarts(sh: Shared, cfg: Cfg, key: Key) {
    Open(sh, cfg) && key in sh.idle && Startable(sh.(idle := sh.idle - {key}), cfg, key)
  }

  function Apply(cfg: Cfg, s: State, step: Step): State
    requires Enabled(cfg, s, step)
  {
    match step
    case Tick(d) => s.(clock := s.clock + d)
    case Get(g, key, id) =>
      s.(sh := Take(s.sh, cfg, key),
         refills := Spawn(s.refills, TakeStarts(s.sh, cfg, key), key, id),
         getters := s.getters[g := Getter(key, if Open(s.sh, cfg) && key in s.sh.idle then Took(s.sh.idle[key])
                                               else Missed)])
    case Judge(g) =>
      var Getter(key, hand) := s.getters[g];
      if s.clock - hand.item.created >= MAX_AGE
      then s.(getters := s.getters[g := Getter(key, Missed)], shut := s.shut + {hand.item.conn})
      else s.(getters := s.getters[g := Getter(key, Handed(hand.item))])
    case Request(key, id) =>
      s.(sh := Schedule(s.sh, cfg, key), refills := Spawn(s.refills, Startable(s.sh, cfg, key), key, id))
    case Connect(r, conn) =>
      s.(refills := SetPc(s.refills, r, Ended(Some(conn))), keyOf := s.keyOf[conn := s.refills[r].key])
    case Refuse(r) => s.(refills := SetPc(s.refills, r, Ended(None)))
    case End(r) =>
      var Refill(key, pc) := s.refills[r];
      s.(sh := Settle(s.sh, key, if pc.result.Some? then Some(Item(pc.result.value, s.clock)) else None),
         refills := SetPc(s.refills, r, if pc.result.Some? && s.sh.closed then Late(pc.result.value) else Over))
    case Drop(r) => s.(refills := SetPc(s.refills, r, Over), shut := s.shut + {s.refills[r].pc.conn})
    case Done(r) => s.(refills := s.refills - {r})
    case CloseBegin => s.(sh := ShutDown(s.sh), closer := Draining(IdleConns(s.sh.idle)))
    case CloseItem(conn) => s.(closer := Draining(s.closer.pending - {conn}), shut := s.shut + {conn})
    case CloseReturn => s.(closer := Returned)
  }

  ghost predicate Run(cfg: Cfg, s: State, steps: seq<Step>, s': State)
    decreases |steps|
  {
    if steps == [] then s == s' else
    Enabled(cfg, s, steps[0]) && Run(cfg, Apply(cfg, s, steps[0]), steps[1..], s')
  }

  ghost predicate Reachable(cfg: Cfg, s: State) {
    exists steps :: Run(cfg, Init(), steps, s)
  }

  // Who holds a connection

  datatype Holder = ByRefill(r: nat) | IdleUnder(key: Key) | ByCloser | ByGetter(g: nat) | Shut

  datatype Hands = Hands(
    refills: map<nat, Refill>,
    idle: map<Key, Item>,
    getters: map<nat, Getter>,
    pending: set<ConnId>,
    shut: set<ConnId>)

  function PendingOf(closer: Closer): set<ConnId> {
    if closer.Draining? then closer.pending else {}
  }

  function HandsOf(s: State): Hands {
    Hands(s.refills, s.sh.idle, s.getters, PendingOf(s.closer), s.shut)
  }

  function PcConns(pc: Pc): set<ConnId> {
    match pc
    case Ended(Some(c)) => {c}
    case Late(c) => {c}
    case _ => {}
  }

  function HandConns(hand: Hand): set<ConnId> {
    if hand.Missed? then {} else {hand.item.conn}
  }

  function InHands(x: Hands, h: Holder): set<ConnId> {
    match h
    case ByRefill(r) => if r in x.refills then PcConns(x.refills[r].pc) else {}
    case IdleUnder(key) => if key in x.idle then {x.idle[key].conn} else {}
    case ByCloser => x.pending
    case ByGetter(g) => if g in x.getters then HandConns(x.getters[g].hand) else {}
    case Shut => x.shut
  }

  function HolderKey(x: Hands, h: Holder): Option<Key> {
    match h
    case ByRefill(r) => if r in x.refills then Some(x.refills[r].key) else None
    case IdleUnder(key) => Some(key)
    case ByGetter(g) => if g in x.getters then Some(x.getters[g].key) else None
    case _ => None
  }

  ghost function GripOf(x: Hands): Grip<Holder, Key> {
    Grip((h: Holder) => InHands(x, h), (h: Holder) => HolderKey(x, h))
  }

  // The invariant

  predicate Live(refills: map<nat, Refill>, r: nat) {
    r in refills && (refills[r].pc.Connecting? || refills[r].pc.Ended?)
  }

  ghost predicate Flags(refills: map<nat, Refill>, refilling: set<Key>) {
    && (forall r :: Live(refills, r) ==> refills[r].key in refilling)
    && (forall r, r' :: Live(refills, r) && Live(refills, r') && refills[r].key == refills[r'].key ==> r == r')
    && (forall k :: k in refilling ==> exists r :: Live(refills, r) && refills[r].key == k)
  }

  ghost predicate Apart(sh: Shared) {
    forall k :: !(k in sh.idle && k in sh.refilling)
  }

  ghost predicate Shutdown(sh: Shared, refills: map<nat, Refill>, closer: Closer) {
    && (sh.closed <==> !closer.NotClosed?)
    && (sh.closed ==> sh.idle == map[])
    && (forall r :: r in refills && refills[r].pc.Late? ==> sh.closed)
    && (closer.Returned? ==> refills == map[])
  }

  /** A reason for the pool to own, or be about to own, a socket. */
  datatype Slot = OfRefill(r: nat) | OfIdle(key: Key) | OfPending(conn: ConnId)

  predicate Socketed(pc: Pc) {
    pc.Connecting? || pc.Late? || (pc.Ended? && pc.result.Some?)
  }

  function SlotKey(x: Hands, keyOf: map<ConnId, Key>, slot: Slot): Option<Key> {
    match slot
    case OfRefill(r) => if r in x.refills && Socketed(x.refills[r].pc) then Some(x.refills[r].key) else None
    case OfIdle(key) => if key in x.idle then Some(key) else None
    case OfPending(c) => if c in x.pending && c in keyOf then Some(keyOf[c]) else None
  }

  /** A key has at most one slot, and it is a configured key. */
  ghost predicate OneSlot(x: Hands, keyOf: map<ConnId, Key>, keys: set<Key>) {
    && (forall a, b :: SlotKey(x, keyOf, a).Some? && SlotKey(x, keyOf, a) == SlotKey(x, keyOf, b) ==> a == b)
    && (forall a :: SlotKey(x, keyOf, a).Some? ==> SlotKey(x, keyOf, a).value in keys)
  }

  ghost predicate Inv(cfg: Cfg, s: State) {
    && Exclusive(s.keyOf, GripOf(HandsOf(s)))
    && Flags(s.refills, s.sh.refilling)
    && Apart(s.sh)
    && Shutdown(s.sh, s.refills, s.closer)
    && OneSlot(HandsOf(s), s.keyOf, cfg.keys)
  }

  lemma FlagsSpawn(refills: map<nat, Refill>, refilling: set<Key>, start: bool, key: Key, id: nat)
    requires Flags(refills, refilling) && id !in refills && (start ==> key !in refilling)
    ensures Flags(Spawn(refills, start, key, id), if start then refilling + {key} else refilling)
  {
    if start {
      var refills' := refills[id := Refill(key, Connecting)];
      assert forall r :: Live(refills', r) <==> Live(refills, r) || r == id;
      forall k | k in refilling + {key} ensures exists r :: Live(refills', r) && refills'[r].key == k {
        if k == key {
          assert Live(refills', id);
        } else {
          var r :| Live(refills, r) && refills[r].key == k;
          assert Live(refills', r);
        }
      }
    }
  }

  lemma FlagsAgree(refills: map<nat, Refill>, refills': map<nat, Refill>, refilling: set<Key>)
    requires Flags(refills, refilling)
    requires forall r {:trigger Live(refills', r)} :: Live(refills', r) <==> Live(refills, r)
    requires forall r {:trigger Live(refills', r)} :: Live(refills', r) ==> refills'[r].key == refills[r].key
    ensures Flags(refills', refilling)
  {
    forall k | k in refilling ensures exists r :: Live(refills', r) && refills'[r].key == k {
      var r' :| Live(refills, r') && refills[r'].key == k;
      assert Live(refills', r');
    }
  }

  lemma FlagsClear(refills: map<nat, Refill>, refilling: set<Key>, r: nat, pc: Pc)
    requires Flags(refills, refilling) && Live(refills, r) && (pc.Late? || pc.Over?)
    ensures Flags(SetPc(refills, r, pc), refilling - {refills[r].key})
  {
    var key, refills' := refills[r].key, SetPc(refills, r, pc);
    var refilling' := refilling - {key};
    forall r' | Live(refills', r')
      ensures Live(refills, r') && refills'[r'].key == refills[r'].key && refills[r'].key in refilling'
    {
      assert r' != r && Live(refills, r');
    }
    forall k | k in refilling' ensures exists r' :: Live(refills', r') && refills'[r'].key == k {
      var r' :| Live(refills, r') && refills[r'].key == k;
      assert r' != r;
      assert Live(refills', r') && refills'[r'].key == k;
    }
  }

  lemma FlagsKept(cfg: Cfg, s: State, step: Step)
    requires Flags(s.refills, s.sh.refilling) && Enabled(cfg, s, step)
    ensures var s' := Apply(cfg, s, step); Flags(s'.refills, s'.sh.refilling)
  {
    var s' := Apply(cfg, s, step);
    match step
    case Get(_, key, id) => FlagsSpawn(s.refills, s.sh.refilling, TakeStarts(s.sh, cfg, key), key, id);
    case Request(key, id) => FlagsSpawn(s.refills, s.sh.refilling, Startable(s.sh, cfg, key), key, id);
    case End(r) => FlagsClear(s.refills, s.sh.refilling, r, s'.refills[r].pc);
    case _ => FlagsAgree(s.refills, s'.refills, s.sh.refilling);
  }

  lemma ShutdownKept(cfg: Cfg, s: State, step: Step)
    requires Apart(s.sh) && Shutdown(s.sh, s.refills, s.closer) && Enabled(cfg, s, step)
    ensures var s' := Apply(cfg, s, step); Apart(s'.sh) && Shutdown(s'.sh, s'.refills, s'.closer)
  {
  }

  lemma RefillsMove(keyOf: map<ConnId, Key>, x: Hands, refills: map<nat, Refill>)
    requires Exclusive(keyOf, GripOf(x))
    requires forall r ::
        (if r in refills then PcConns(refills[r].pc) else {})
        == (if r in x.refills then PcConns(x.refills[r].pc) else {})
    requires forall r :: r in refills && r in x.refills ==> refills[r].key == x.refills[r].key
    ensures Exclusive(keyOf, GripOf(x.(refills := refills)))
  {
    Transfer(keyOf, GripOf(x), GripOf(x.(refills := refills)), {}, Shut);
  }

  lemma Taken(keyOf: map<ConnId, Key>, x: Hands, key: Key, g: nat)
    requires Exclusive(keyOf, GripOf(x)) && key in x.idle && g !in x.getters
    ensures Exclusive(keyOf, GripOf(x.(idle := x.idle - {key},
                                       getters := x.getters[g := Getter(key, Took(x.idle[key]))])))
  {
    var c := x.idle[key].conn;
    var x' := x.(idle := x.idle - {key}, getters := x.getters[g := Getter(key, Took(x.idle[key]))]);
    OnlyHolder(GripOf(x), IdleUnder(key), {c});
    assert c in GripOf(x).Holds(IdleUnder(key));
    Transfer(keyOf, GripOf(x), GripOf(x'), {c}, ByGetter(g));
  }

  lemma Stored(keyOf: map<ConnId, Key>, x: Hands, r: nat, item: Item)
    requires Exclusive(keyOf, GripOf(x)) && r in x.refills && x.refills[r].pc == Ended(Some(item.conn))
    requires x.refills[r].key !in x.idle
    ensures Exclusive(keyOf, GripOf(x.(refills := SetPc(x.refills, r, Over), idle := x.idle[x.refills[r].key := item])))
  {
    var x' := x.(refills := SetPc(x.refills, r, Over), idle := x.idle[x.refills[r].key := item]);
    OnlyHolder(GripOf(x), ByRefill(r), {item.conn});
    assert item.conn in GripOf(x).Holds(ByRefill(r));
    Transfer(keyOf, GripOf(x), GripOf(x'), {item.conn}, IdleUnder(x.refills[r].key));
  }

  lemma DialedKept(keyOf: map<ConnId, Key>, x: Hands, r: nat, conn: ConnId)
    requires Exclusive(keyOf, GripOf(x)) && r in x.refills && x.refills[r].pc.Connecting? && conn !in keyOf
    ensures Exclusive(keyOf[conn := x.refills[r].key], GripOf(x.(refills := SetPc(x.refills, r, Ended(Some(conn))))))
  {
    var x' := x.(refills := SetPc(x.refills, r, Ended(Some(conn))));
    assert forall h :: conn !in GripOf(x).Holds(h);
    Arrival(keyOf, x.refills[r].key, GripOf(x), GripOf(x'), conn, ByRefill(r));
  }

  lemma ClosedBy(keyOf: map<ConnId, Key>, x: Hands, x': Hands, from: Holder, conn: ConnId)
    requires Exclusive(keyOf, GripOf(x)) && conn in GripOf(x).Holds(from) && from != Shut
    requires forall h {:trigger GripOf(x').Holds(h)} ::
        h != from && h != Shut ==> GripOf(x').Holds(h) == GripOf(x).Holds(h)
    requires GripOf(x').Holds(from) == GripOf(x).Holds(from) - {conn} && x'.shut == x.shut + {conn}
    requires forall h {:trigger GripOf(x').Holds(h)} ::
        GripOf(x').Holds(h) != {} ==> HolderKey(x', h) == HolderKey(x, h)
    ensures Exclusive(keyOf, GripOf(x'))
  {
    OnlyHolder(GripOf(x), from, {conn});
    Transfer(keyOf, GripOf(x), GripOf(x'), {conn}, Shut);
  }

  lemma DrainedAll(keyOf: map<ConnId, Key>, x: Hands)
    requires Exclusive(keyOf, GripOf(x)) && x.pending == {}
    ensures Exclusive(keyOf, GripOf(x.(idle := map[], pending := IdleConns(x.idle))))
  {
    var all := IdleConns(x.idle);
    var x' := x.(idle := map[], pending := all);
    forall c | c in all ensures c in keyOf && forall h :: c in GripOf(x).Holds(h) ==> h.IdleUnder? {
      var k :| k in x.idle && x.idle[k].conn == c;
      assert c in GripOf(x).Holds(IdleUnder(k));
    }
    forall h: Holder | h != ByCloser ensures GripOf(x').Holds(h) == GripOf(x).Holds(h) - all {
      if h.IdleUnder? {
        assert forall c :: c in GripOf(x).Holds(h) ==> c in all;
      }
    }
    Transfer(keyOf, GripOf(x), GripOf(x'), all, ByCloser);
  }

  /** A get call begins or advances without acquiring or losing a connection. */
  lemma GetterMoves(keyOf: map<ConnId, Key>, x: Hands, g: nat, getter: Getter)
    requires Exclusive(keyOf, GripOf(x))
    requires if g in x.getters
             then HandConns(getter.hand) == HandConns(x.getters[g].hand) && getter.key == x.getters[g].key
             else HandConns(getter.hand) == {}
    ensures Exclusive(keyOf, GripOf(x.(getters := x.getters[g := getter])))
  {
    Transfer(keyOf, GripOf(x), GripOf(x.(getters := x.getters[g := getter])), {}, Shut);
  }

  /** A get call closes the stale connection it took. */
  lemma Rejected(keyOf: map<ConnId, Key>, x: Hands, g: nat)
    requires Exclusive(keyOf, GripOf(x)) && g in x.getters && x.getters[g].hand.Took?
    ensures Exclusive(keyOf, GripOf(x.(getters := x.getters[g := Getter(x.getters[g].key, Missed)],
                                shut := x.shut + {x.getters[g].hand.item.conn})))
  {
    var x' := x.(getters := x.getters[g := Getter(x.getters[g].key, Missed)],
                 shut := x.shut + {x.getters[g].hand.item.conn});
    ClosedBy(keyOf, x, x', ByGetter(g), x.getters[g].hand.item.conn);
  }

  lemma ExclusiveGet(cfg: Cfg, s: State, g: nat, key: Key, id: nat)
    requires Exclusive(s.keyOf, GripOf(HandsOf(s))) && Enabled(cfg, s, Get(g, key, id))
    ensures var s' := Apply(cfg, s, Get(g, key, id)); Exclusive(s'.keyOf, GripOf(HandsOf(s')))
  {
    var x, s' := HandsOf(s), Apply(cfg, s, Get(g, key, id));
    RefillsMove(s.keyOf, x, s'.refills);
    var y := x.(refills := s'.refills);
    if Open(s.sh, cfg) && key in s.sh.idle {
      Taken(s.keyOf, y, key, g);
      assert HandsOf(s') == y.(idle := y.idle - {key}, getters := y.getters[g := Getter(key, Took(y.idle[key]))]);
    } else {
      GetterMoves(s.keyOf, y, g, Getter(key, Missed));
      assert HandsOf(s') == y.(getters := y.getters[g := Getter(key, Missed)]);
    }
  }

  lemma ExclusiveEnd(cfg: Cfg, s: State, r: nat)
    requires Inv(cfg, s) && Enabled(cfg, s, End(r))
    ensures var s' := Apply(cfg, s, End(r)); Exclusive(s'.keyOf, GripOf(HandsOf(s')))
  {
    var x, s' := HandsOf(s), Apply(cfg, s, End(r));
    var Refill(key, pc) := s.refills[r];
    assert Live(s.refills, r);
    if pc.result.Some? && !s.sh.closed {
      Stored(s.keyOf, x, r, Item(pc.result.value, s.clock));
    } else {
      RefillsMove(s.keyOf, x, s'.refills);
      assert HandsOf(s') == x.(refills := s'.refills);
    }
  }

  lemma ExclusiveJudge(cfg: Cfg, s: State, g: nat)
    requires Exclusive(s.keyOf, GripOf(HandsOf(s))) && Enabled(cfg, s, Judge(g))
    ensures var s' := Apply(cfg, s, Judge(g)); Exclusive(s'.keyOf, GripOf(HandsOf(s')))
  {
    var x, s' := HandsOf(s), Apply(cfg, s, Judge(g));
    var item := s.getters[g].hand.item;
    if s.clock - item.created >= MAX_AGE {
      Rejected(s.keyOf, x, g);
    } else {
      GetterMoves(s.keyOf, x, g, Getter(s.getters[g].key, Handed(item)));
    }
  }

  lemma ExclusiveDrop(cfg: Cfg, s: State, r: nat)
    requires Exclusive(s.keyOf, GripOf(HandsOf(s))) && Enabled(cfg, s, Drop(r))
    ensures var s' := Apply(cfg, s, Drop(r)); Exclusive(s'.keyOf, GripOf(HandsOf(s')))
  {
    ClosedBy(s.keyOf, HandsOf(s), HandsOf(Apply(cfg, s, Drop(r))), ByRefill(r), s.refills[r].pc.conn);
  }

  lemma ExclusiveClose(cfg: Cfg, s: State, conn: ConnId)
    requires Exclusive(s.keyOf, GripOf(HandsOf(s))) && Enabled(cfg, s, CloseItem(conn))
    ensures var s' := Apply(cfg, s, CloseItem(conn)); Exclusive(s'.keyOf, GripOf(HandsOf(s')))
  {
    ClosedBy(s.keyOf, HandsOf(s), HandsOf(Apply(cfg, s, CloseItem(conn))), ByCloser, conn);
  }

  lemma ExclusiveKept(cfg: Cfg, s: State, step: Step)
    requires Inv(cfg, s) && Enabled(cfg, s, step)
    ensures var s' := Apply(cfg, s, step); Exclusive(s'.keyOf, GripOf(HandsOf(s')))
  {
    var x := HandsOf(s);
    match step
    case Get(g, key, id) => ExclusiveGet(cfg, s, g, key, id);
    case Judge(g) => ExclusiveJudge(cfg, s, g);
    case Connect(r, conn) => DialedKept(s.keyOf, x, r, conn);
    case End(r) => ExclusiveEnd(cfg, s, r);
    case Drop(r) => ExclusiveDrop(cfg, s, r);
    case CloseBegin => DrainedAll(s.keyOf, x);
    case CloseItem(conn) => ExclusiveClose(cfg, s, conn);
    case CloseReturn => assert HandsOf(Apply(cfg, s, step)) == x;
    case Tick(_) =>
    case _ => RefillsMove(s.keyOf, x, Apply(cfg, s, step).refills);
  }

  /** Slots that only disappear keep OneSlot. */
  lemma FewerSlots(x: Hands, x': Hands, keyOf: map<ConnId, Key>, keys: set<Key>)
    requires OneSlot(x, keyOf, keys)
    requires forall a {:trigger SlotKey(x', keyOf, a)} ::
        SlotKey(x', keyOf, a).None? || SlotKey(x', keyOf, a) == SlotKey(x, keyOf, a)
    ensures OneSlot(x', keyOf, keys)
  {
    forall a, b | SlotKey(x', keyOf, a).Some? && SlotKey(x', keyOf, a) == SlotKey(x', keyOf, b) ensures a == b {
      assert SlotKey(x, keyOf, a) == SlotKey(x, keyOf, b);
    }
  }

  /** So does one new slot for a key that has none. */
  lemma NewSlot(x: Hands, x': Hands, keyOf: map<ConnId, Key>, keys: set<Key>, slot: Slot, key: Key)
    requires OneSlot(x, keyOf, keys) && key in keys && SlotKey(x', keyOf, slot) == Some(key)
    requires forall a {:trigger SlotKey(x', keyOf, a)} :: a != slot && SlotKey(x', keyOf, a).Some? ==>
               SlotKey(x', keyOf, a) == SlotKey(x, keyOf, a) && SlotKey(x, keyOf, a) != Some(key)
    ensures OneSlot(x', keyOf, keys)
  {
    forall a, b | SlotKey(x', keyOf, a).Some? && SlotKey(x', keyOf, a) == SlotKey(x', keyOf, b) ensures a == b {
      if a != slot && b != slot {
        assert SlotKey(x, keyOf, a) == SlotKey(x, keyOf, b);
      }
    }
  }

  lemma SpawnSlot(cfg: Cfg, s: State, idle: map<Key, Item>, start: bool, key: Key, id: nat)
    requires OneSlot(HandsOf(s), s.keyOf, cfg.keys) && Flags(s.refills, s.sh.refilling)
    requires Shutdown(s.sh, s.refills, s.closer)
    requires forall k :: k in idle ==> k in s.sh.idle
    requires id !in s.refills && key in cfg.keys
    requires start ==> !s.sh.closed && key !in s.sh.refilling && key !in idle
    ensures OneSlot(HandsOf(s).(idle := idle, refills := Spawn(s.refills, start, key, id)), s.keyOf, cfg.keys)
  {
    var x := HandsOf(s);
    var x' := x.(idle := idle, refills := Spawn(s.refills, start, key, id));
    if start {
      forall a | a != OfRefill(id) && SlotKey(x', s.keyOf, a).Some?
        ensures SlotKey(x', s.keyOf, a) == SlotKey(x, s.keyOf, a) && SlotKey(x', s.keyOf, a) != Some(key)
      {
        if a.OfRefill? {
          assert Live(s.refills, a.r);
        }
      }
      NewSlot(x, x', s.keyOf, cfg.keys, OfRefill(id), key);
    } else {
      FewerSlots(x, x', s.keyOf, cfg.keys);
    }
  }

  lemma SlotsSame(x: Hands, x': Hands, keyOf: map<ConnId, Key>, keys: set<Key>)
    requires OneSlot(x, keyOf, keys) && x'.refills == x.refills && x'.idle == x.idle && x'.pending == x.pending
    ensures OneSlot(x', keyOf, keys)
  {
    FewerSlots(x, x', keyOf, keys);
  }

  lemma OneSlotKept(cfg: Cfg, s: State, step: Step)
    requires Inv(cfg, s) && Enabled(cfg, s, step)
    ensures var s' := Apply(cfg, s, step); OneSlot(HandsOf(s'), s'.keyOf, cfg.keys)
  {
    match step
    case Get(g, key, id) => GetSlot(cfg, s, g, key, id);
    case Request(key, id) => RequestSlot(cfg, s, key, id);
    case Connect(r, conn) => ConnectSlot(cfg, s, r, conn);
    case End(r) => EndSlot(cfg, s, r);
    case CloseBegin => CloseSlot(cfg, s);
    case _ => OtherSlot(cfg, s, step);
  }

  lemma GetSlot(cfg: Cfg, s: State, g: nat, key: Key, id: nat)
    requires OneSlot(HandsOf(s), s.keyOf, cfg.keys) && Flags(s.refills, s.sh.refilling)
    requires Shutdown(s.sh, s.refills, s.closer)
    requires Enabled(cfg, s, Get(g, key, id))
    ensures var s' := Apply(cfg, s, Get(g, key, id)); OneSlot(HandsOf(s'), s'.keyOf, cfg.keys)
  {
    var s' := Apply(cfg, s, Get(g, key, id));
    SpawnSlot(cfg, s, s'.sh.idle, TakeStarts(s.sh, cfg, key), key, id);
    SlotsSame(HandsOf(s).(idle := s'.sh.idle, refills := s'.refills), HandsOf(s'), s.keyOf, cfg.keys);
  }

  lemma RequestSlot(cfg: Cfg, s: State, key: Key, id: nat)
    requires OneSlot(HandsOf(s), s.keyOf, cfg.keys) && Flags(s.refills, s.sh.refilling)
    requires Shutdown(s.sh, s.refills, s.closer)
    requires Enabled(cfg, s, Request(key, id))
    ensures var s' := Apply(cfg, s, Request(key, id)); OneSlot(HandsOf(s'), s'.keyOf, cfg.keys)
  {
    var s' := Apply(cfg, s, Request(key, id));
    SpawnSlot(cfg, s, s.sh.idle, Startable(s.sh, cfg, key), key, id);
    SlotsSame(HandsOf(s).(refills := s'.refills), HandsOf(s'), s.keyOf, cfg.keys);
  }

  /** The steps that start, store and drain nothing. */
  lemma OtherSlot(cfg: Cfg, s: State, step: Step)
    requires OneSlot(HandsOf(s), s.keyOf, cfg.keys) && Enabled(cfg, s, step)
    requires !step.Get? && !step.Request? && !step.Connect? && !step.End? && !step.CloseBegin?
    ensures var s' := Apply(cfg, s, step); OneSlot(HandsOf(s'), s'.keyOf, cfg.keys)
  {
    FewerSlots(HandsOf(s), HandsOf(Apply(cfg, s, step)), s.keyOf, cfg.keys);
  }

  lemma ConnectSlot(cfg: Cfg, s: State, r: nat, conn: ConnId)
    requires OneSlot(HandsOf(s), s.keyOf, cfg.keys) && Fitting(s.keyOf, GripOf(HandsOf(s)))
    requires Enabled(cfg, s, Connect(r, conn))
    ensures var s' := Apply(cfg, s, Connect(r, conn)); OneSlot(HandsOf(s'), s'.keyOf, cfg.keys)
  {
    var x, s' := HandsOf(s), Apply(cfg, s, Connect(r, conn));
    assert conn !in GripOf(x).Holds(ByCloser);
    forall a ensures SlotKey(HandsOf(s'), s'.keyOf, a) == SlotKey(x, s.keyOf, a) {
    }
  }

  lemma EndSlot(cfg: Cfg, s: State, r: nat)
    requires Inv(cfg, s) && Enabled(cfg, s, End(r))
    ensures var s' := Apply(cfg, s, End(r)); OneSlot(HandsOf(s'), s'.keyOf, cfg.keys)
  {
    var x, s' := HandsOf(s), Apply(cfg, s, End(r));
    var Refill(key, pc) := s.refills[r];
    if pc.result.Some? && !s.sh.closed {
      assert SlotKey(x, s.keyOf, OfRefill(r)) == Some(key);
      NewSlot(x, HandsOf(s'), s.keyOf, cfg.keys, OfIdle(key), key);
    } else {
      FewerSlots(x, HandsOf(s'), s.keyOf, cfg.keys);
    }
  }

  /** Close turns each idle slot into a pending one of the same key. */
  lemma CloseSlot(cfg: Cfg, s: State)
    requires Inv(cfg, s) && Enabled(cfg, s, CloseBegin)
    ensures var s' := Apply(cfg, s, CloseBegin); OneSlot(HandsOf(s'), s'.keyOf, cfg.keys)
  {
    var x, s' := HandsOf(s), Apply(cfg, s, CloseBegin);
    var x' := HandsOf(s');
    forall a | SlotKey(x', s.keyOf, a).Some?
      ensures if a.OfPending?
              then
                var k := s.keyOf[a.conn];
                && k in s.sh.idle && s.sh.idle[k].conn == a.conn
                && SlotKey(x, s.keyOf, OfIdle(k)) == SlotKey(x', s.keyOf, a)
              else SlotKey(x, s.keyOf, a) == SlotKey(x', s.keyOf, a) && a.OfRefill?
    {
      if a.OfPending? {
        var k :| k in s.sh.idle && s.sh.idle[k].conn == a.conn;
        assert a.conn in GripOf(x).Holds(IdleUnder(k));
      }
    }
    forall a, b | SlotKey(x', s.keyOf, a).Some? && SlotKey(x', s.keyOf, a) == SlotKey(x', s.keyOf, b) ensures a == b {
      var k := SlotKey(x', s.keyOf, a).value;
      assert a.OfPending? && b.OfRefill? ==> SlotKey(x, s.keyOf, OfIdle(k)) == SlotKey(x, s.keyOf, b);
      assert b.OfPending? && a.OfRefill? ==> SlotKey(x, s.keyOf, OfIdle(k)) == SlotKey(x, s.keyOf, a);
    }
  }

  lemma InvKept(cfg: Cfg, s: State, step: Step)
    requires Inv(cfg, s) && Enabled(cfg, s, step)
    ensures Inv(cfg, Apply(cfg, s, step))
  {
    ExclusiveKept(cfg, s, step);
    FlagsKept(cfg, s, step);
    ShutdownKept(cfg, s, step);
    OneSlotKept(cfg, s, step);
  }

  lemma {:induction false} RunKeepsInv(cfg: Cfg, s: State, steps: seq<Step>, s': State)
    requires Inv(cfg, s) && Run(cfg, s, steps, s')
    ensures Inv(cfg, s')
    decreases |steps|
  {
    if steps == [] {
    } else {
      InvKept(cfg, s, steps[0]);
      RunKeepsInv(cfg, Apply(cfg, s, steps[0]), steps[1..], s');
    }
  }

  lemma ReachableInv(cfg: Cfg, s: State)
    requires Reachable(cfg, s)
    ensures Inv(cfg, s)
  {
    var steps :| Run(cfg, Init(), steps, s);
    assert forall h :: GripOf(HandsOf(Init())).Holds(h) == {};
    RunKeepsInv(cfg, Init(), steps, s);
  }

  // What it means

  /** In every reachable state: one refill per flag, never a flag on an idle key, so idle plus in flight is at most
      one. */
  lemma NeverIdleAndRefilling(cfg: Cfg, s: State, key: Key)
    requires Reachable(cfg, s)
    ensures key in s.sh.refilling ==> key !in s.sh.idle
    ensures key in s.sh.refilling <==> exists r :: Live(s.refills, r) && s.refills[r].key == key
    ensures forall r, r' ::
        Live(s.refills, r) && Live(s.refills, r') && s.refills[r].key == key == s.refills[r'].key ==> r == r'
  {
    ReachableInv(cfg, s);
  }

  /** Storing a finished dial never overwrites a live connection. */
  lemma StoreFindsRoom(cfg: Cfg, s: State, r: nat)
    requires Reachable(cfg, s) && Enabled(cfg, s, End(r))
    ensures s.refills[r].key !in s.sh.idle
  {
    ReachableInv(cfg, s);
    assert Live(s.refills, r);
  }

  lemma ExclusiveMeans(keyOf: map<ConnId, Key>, x: Hands)
    requires Exclusive(keyOf, GripOf(x))
    ensures forall c :: c in keyOf ==>
        exists h :: c in GripOf(x).Holds(h) && forall h' :: c in GripOf(x).Holds(h') ==> h' == h
    ensures forall g, c :: g in x.getters && c in HandConns(x.getters[g].hand) ==>
        c in keyOf && keyOf[c] == x.getters[g].key
  {
    OneHolder(keyOf, GripOf(x));
    forall g, c | g in x.getters && c in HandConns(x.getters[g].hand)
      ensures c in keyOf && keyOf[c] == x.getters[g].key
    {
      assert c in GripOf(x).Holds(ByGetter(g));
    }
  }

  /** Each worker connection ever dialed is in exactly one place; a caller only gets connections for its own key. */
  lemma WorkersInOnePlace(cfg: Cfg, s: State)
    requires Reachable(cfg, s)
    ensures forall c :: c in s.keyOf ==>
              exists h :: c in GripOf(HandsOf(s)).Holds(h) && forall h' :: c in GripOf(HandsOf(s)).Holds(h') ==> h' == h
    ensures forall g, c :: g in s.getters && c in HandConns(s.getters[g].hand) ==>
              c in s.keyOf && s.keyOf[c] == s.getters[g].key
  {
    ReachableInv(cfg, s);
    ExclusiveMeans(s.keyOf, HandsOf(s));
  }

  /** A get call hands the connection it has taken out exactly if that is younger than 100 seconds, and closes it
      otherwise. */
  lemma WorkerJudgeExact(cfg: Cfg, s: State, g: nat)
    requires Reachable(cfg, s) && Enabled(cfg, s, Judge(g))
    ensures var Getter(key, hand) := s.getters[g];
      var s', young := Apply(cfg, s, Judge(g)), s.clock - hand.item.created < 100 * SECOND;
      && s'.getters[g] == Getter(key, if young then Handed(hand.item) else Missed)
      && (hand.item.conn in s'.shut <==> !young)
  {
    ReachableInv(cfg, s);
    var grip, c := GripOf(HandsOf(s)), s.getters[g].hand.item.conn;
    assert c in grip.Holds(ByGetter(g)) && c !in grip.Holds(Shut);
  }

  /** A refill of a key is started exactly by a get call that takes the key's connection, or by a request for a key that
      has none; and only if the pool is open and pooling, some domain is configured, and no refill of the key is under
      way. */
  lemma WorkerStartsExactly(cfg: Cfg, s: State, step: Step, r: nat)
    requires Enabled(cfg, s, step) && r !in s.refills
    ensures r in Apply(cfg, s, step).refills <==>
      && (|| (step.Get? && step.key in s.sh.idle)
          || (step.Request? && step.key !in s.sh.idle))
      && step.id == r && step.key !in s.sh.refilling
      && !s.sh.closed && cfg.poolSize > 0 && cfg.hasDomains
  {
  }

  /** Once Close has returned, every worker connection that no get call has is closed, and nothing is pooled or
      refilling. */
  lemma WorkersShut(cfg: Cfg, s: State)
    requires Reachable(cfg, s) && s.closer.Returned?
    ensures s.sh.idle == map[] && s.refills == map[]
    ensures forall c :: c in s.keyOf && c !in s.shut ==> exists g :: g in s.getters && c in HandConns(s.getters[g].hand)
  {
    ReachableInv(cfg, s);
    forall c | c in s.keyOf && c !in s.shut ensures exists g :: g in s.getters && c in HandConns(s.getters[g].hand) {
      var h :| c in GripOf(HandsOf(s)).Holds(h);
      match h {
        case ByGetter(g) => assert g in s.getters;
        case _ =>
      }
    }
  }

  ghost function Slots(s: State): set<Slot> {
    (set r | r in s.refills && Socketed(s.refills[r].pc) :: OfRefill(r))
    + (set k | k in s.sh.idle :: OfIdle(k))
    + (set c | c in PendingOf(s.closer) :: OfPending(c))
  }

  /** The connection that a get call has taken. */
  function TakenBy(s: State, g: nat): Option<ConnId> {
    if g in s.getters && !s.getters[g].hand.Missed? then Some(s.getters[g].hand.item.conn) else None
  }

  function SlotConns(s: State, slot: Slot): set<ConnId> {
    match slot
    case OfRefill(r) => if r in s.refills then PcConns(s.refills[r].pc) else {}
    case OfIdle(key) => if key in s.sh.idle then {s.sh.idle[key].conn} else {}
    case OfPending(c) => {c}
  }

  ghost predicate Slotted(s: State, c: ConnId) {
    exists slot :: slot in Slots(s) && c in SlotConns(s, slot)
  }

  /** Every worker connection that is not closed is in one of the pool's slots, or has been taken by exactly one get
      call, never both. */
  lemma WorkersAnswered(cfg: Cfg, s: State, c: ConnId)
    requires Reachable(cfg, s) && c in s.keyOf && c !in s.shut
    ensures Slotted(s, c) || exists g :: TakenBy(s, g) == Some(c)
    ensures forall g, g' :: TakenBy(s, g) == Some(c) == TakenBy(s, g') ==> g == g'
    ensures forall g :: TakenBy(s, g) == Some(c) ==> !Slotted(s, c)
  {
    WorkersInOnePlace(cfg, s);
    var x := HandsOf(s);
    var h :| c in GripOf(x).Holds(h) && forall h' :: c in GripOf(x).Holds(h') ==> h' == h;
    forall g | TakenBy(s, g) == Some(c) ensures h == ByGetter(g) {
      assert c in GripOf(x).Holds(ByGetter(g));
    }
    forall slot | slot in Slots(s) && c in SlotConns(s, slot) ensures !h.ByGetter? {
      assert c in GripOf(x).Holds(SlotHolder(slot));
    }
    match h
    case ByRefill(r) => assert OfRefill(r) in Slots(s) && c in SlotConns(s, OfRefill(r));
    case IdleUnder(key) => assert OfIdle(key) in Slots(s) && c in SlotConns(s, OfIdle(key));
    case ByCloser => assert OfPending(c) in Slots(s) && c in SlotConns(s, OfPending(c));
    case ByGetter(g) => assert TakenBy(s, g) == Some(c);
    case Shut => assert false;
  }

  function SlotHolder(slot: Slot): Holder {
    match slot
    case OfRefill(r) => ByRefill(r)
    case OfIdle(key) => IdleUnder(key)
    case OfPending(_) => ByCloser
  }

  /** Prewarmed, dialing, finished late or draining: at most one worker socket per key. */
  lemma WorkerSocketBound(cfg: Cfg, s: State)
    requires Reachable(cfg, s)
    ensures |Slots(s)| <= |cfg.keys|
  {
    ReachableInv(cfg, s);
    var x, keyOf, slots := HandsOf(s), s.keyOf, Slots(s);
    forall a | a in slots ensures SlotKey(x, keyOf, a).Some? {
      if a.OfPending? {
        assert a.conn in GripOf(x).Holds(ByCloser);
      }
    }
    var f := (a: Slot) => SlotKey(x, keyOf, a);
    var keys := set key | key in cfg.keys :: Some(key);
    forall k | k in keys ensures |Counting.Fiber(slots, f, k)| <= 1 {
      OnePerKey(slots, f, k);
    }
    Counting.FiberBound(slots, f, keys, 1);
    SomeKeys(cfg.keys);
  }

  lemma OnePerKey(slots: set<Slot>, f: Slot -> Option<Key>, k: Option<Key>)
    requires forall a, b :: a in slots && b in slots && f(a) == k == f(b) ==> a == b
    ensures |Counting.Fiber(slots, f, k)| <= 1
  {
    var fiber := Counting.Fiber(slots, f, k);
    if a :| a in fiber {
      assert fiber == {a};
    }
  }

  lemma {:induction false} SomeKeys(keys: set<Key>)
    ensures |set key | key in keys :: Some(key)| == |keys|
    decreases |keys|
  {
    if keys == {} {
      assert (set key | key in keys :: Some(key)) == {};
    } else {
      var k :| k in keys;
      SomeKeys(keys - {k});
      var fewer := keys - {k};
      assert (set key | key in keys :: Some(key)) == (set key | key in fewer :: Some(key)) + {Some(k)};
    }
  }
}
