/** Every interleaving of get, rotate, refill and Close: each critical section is one step, and dialing, judging and
    closing happen between them, outside the lock. */
module WsPoolRuns {
  import opened Units
  import opened WsPool

  /** Where a refill goroutine stands. Cleared: its `refilling` flag is down, wg.Done is still to come. */
  datatype Pc = Check | Dial | Failed | Got(conn: ConnId) | Late(conn: ConnId) | Leave | Cleared

  datatype Refill = Refill(key: Key, domains: seq<string>, pc: Pc)

  /** Where a get call stands. Handed and Empty are its two results. */
  datatype Hand = Looking | Took(item: Item) | Empty | Handed(item: Item)

  datatype Getter = Getter(key: Key, domains: seq<string>, now: Time, hand: Hand)

  /** warmup followed by the one goroutine that rotates. Warming and Sweeping hold the lock. */
  datatype Sweeper =
    | NotStarted
    | Warming(todo: set<Key>)
    | Waiting
    | Sweeping(now: Time, todo: set<Key>, pulled: set<ConnId>)
    | Closing(pulled: set<ConnId>)
    | Stopped

  datatype Closer = Open | Draining(pending: set<ConnId>) | Returned

  /** PoolSize, and the DC/media/IP keys that the configuration can name. */
  datatype Cfg = Cfg(poolSize: nat, keys: set<Key>)

  /** `keyOf` (every connection ever dialed, with the key it was dialed for) and `fails` (the instants of the failed
      refills of a key since its last success) are histories. */
  datatype State = State(
    sh: Shared,
    refills: map<nat, Refill>,
    getters: map<nat, Getter>,
    sweeper: Sweeper,
    closer: Closer,
    shut: set<ConnId>,
    keyOf: map<ConnId, Key>,
    clock: Time,
    fails: map<Key, seq<Time>>)

  datatype GetStep = Begin(key: Key, domains: seq<string>) | Look(id: nat) | Judge(broken: set<ConnId>)

  datatype RefillStep = Recheck | Connect(conn: ConnId) | Refuse | Cancel | Report | Put | Drop | Clear | Done

  datatype SweepStep =
    | WarmBegin
    | WarmKey(key: Key, domains: seq<string>, id: nat)
    | WarmEnd
    | SweepBegin(now: Time)
    | SweepOne(key: Key, broken: set<ConnId>, id: nat)
    | SweepEnd
    | SweepClose(conn: ConnId)
    | SweepRest
    | SweepStop

  datatype CloseStep = CloseBegin | CloseItem(conn: ConnId) | CloseReturn

  datatype Step =
    | Tick(d: nat)
    | OfGetter(g: nat, get: GetStep)
    | OfRefill(r: nat, refill: RefillStep)
    | OfSweeper(sweep: SweepStep)
    | OfCloser(close: CloseStep)

  function Init(): State {
    State(Shared(false, map[], {}, map[]), map[], map[], NotStarted, Open, {}, map[], 0, map[])
  }

  predicate Unlocked(s: State) {
    !s.sweeper.Warming? && !s.sweeper.Sweeping?
  }

  predicate GetEnabled(cfg: Cfg, s: State, g: nat, step: GetStep) {
    match step
    case Begin(key, _) => cfg.poolSize > 0 && g !in s.getters && key in cfg.keys
    case Look(id) => Unlocked(s) && g in s.getters && s.getters[g].hand.Looking? && id !in s.refills
    case Judge(_) => g in s.getters && s.getters[g].hand.Took?
  }

  predicate RefillEnabled(s: State, r: nat, step: RefillStep) {
    && r in s.refills
    && var pc := s.refills[r].pc;
       match step
       case Recheck => Unlocked(s) && pc.Check?
       case Connect(conn) => pc.Dial? && conn !in s.keyOf
       case Refuse => pc.Dial?
       case Cancel => pc.Dial? && s.sh.closed
       case Report => Unlocked(s) && pc.Failed?
       case Put => Unlocked(s) && pc.Got?
       case Drop => pc.Late?
       case Clear => Unlocked(s) && pc.Leave?
       case Done => pc.Cleared?
  }

  predicate SweepEnabled(cfg: Cfg, s: State, step: SweepStep) {
    match step
    case WarmBegin => cfg.poolSize > 0 && !s.sh.closed && s.sweeper.NotStarted?
    case WarmKey(key, _, id) => s.sweeper.Warming? && key in s.sweeper.todo && id !in s.refills
    case WarmEnd => s.sweeper.Warming? && s.sweeper.todo == {}
    case SweepBegin(now) => s.sweeper.Waiting? && now <= s.clock
    case SweepOne(key, _, id) =>
      s.sweeper.Sweeping? && key in s.sweeper.todo && key in s.sh.routes && id !in s.refills
    case SweepEnd => s.sweeper.Sweeping? && s.sweeper.todo == {}
    case SweepClose(conn) => s.sweeper.Closing? && conn in s.sweeper.pulled
    case SweepRest => s.sweeper.Closing? && s.sweeper.pulled == {}
    case SweepStop => s.sweeper.Waiting? && s.sh.closed
  }

  predicate CloseEnabled(s: State, step: CloseStep) {
    match step
    case CloseBegin => Unlocked(s) && s.closer.Open?
    case CloseItem(conn) => s.closer.Draining? && conn in s.closer.pending
    case CloseReturn =>
      && s.closer.Draining? && s.closer.pending == {}
      && s.refills == map[] && (s.sweeper.NotStarted? || s.sweeper.Stopped?)
  }

  predicate Enabled(cfg: Cfg, s: State, step: Step) {
    match step
    case Tick(_) => true
    case OfGetter(g, get) => GetEnabled(cfg, s, g, get)
    case OfRefill(r, refill) => RefillEnabled(s, r, refill)
    case OfSweeper(sweep) => SweepEnabled(cfg, s, sweep)
    case OfCloser(close) => CloseEnabled(s, close)
  }

  function SetPc(s: State, r: nat, pc: Pc): State
    requires r in s.refills
  {
    s.(refills := s.refills[r := s.refills[r].(pc := pc)])
  }

  function SetHand(s: State, g: nat, hand: Hand): State
    requires g in s.getters
  {
    s.(getters := s.getters[g := s.getters[g].(hand := hand)])
  }

  /** Installs a critical section's outcome and starts the refill it asked for, if it did. */
  function Install(s: State, sh: Shared, key: Key, domains: seq<string>, id: nat): State {
    if key in sh.refilling && key !in s.sh.refilling
    then s.(sh := sh, refills := s.refills[id := Refill(key, domains, Check)])
    else s.(sh := sh)
  }

  function TimesOf(fails: map<Key, seq<Time>>, key: Key): seq<Time> {
    if key in fails then fails[key] else []
  }

  function IdleConns(idle: map<Key, seq<Item>>): set<ConnId> {
    set k, item | k in idle && item in idle[k] :: item.conn
  }

  function ApplyGet(cfg: Cfg, s: State, g: nat, step: GetStep): State
    requires GetEnabled(cfg, s, g, step)
  {
    match step
    case Begin(key, domains) => s.(getters := s.getters[g := Getter(key, domains, s.clock, Looking)])
    case Look(id) =>
      var Getter(key, domains, _, _) := s.getters[g];
      SetHand(Install(s, Take(s.sh, cfg.poolSize, key, domains, s.clock), key, domains, id), g,
              if s.sh.closed || Bucket(s.sh.idle, key) == [] then Empty else Took(Bucket(s.sh.idle, key)[0]))
    case Judge(broken) =>
      var item := s.getters[g].hand.item;
      if Stale(item, s.getters[g].now, broken)
      then SetHand(s, g, Looking).(shut := s.shut + {item.conn})
      else SetHand(s, g, Handed(item))
  }

  function ApplyRefill(cfg: Cfg, s: State, r: nat, step: RefillStep): State
    requires RefillEnabled(s, r, step)
  {
    var Refill(key, domains, pc) := s.refills[r];
    match step
    case Recheck => SetPc(s, r, if s.sh.closed || |Bucket(s.sh.idle, key)| >= cfg.poolSize then Leave else Dial)
    case Connect(conn) => SetPc(s, r, Got(conn)).(keyOf := s.keyOf[conn := key])
    case Refuse => SetPc(s, r, Failed)
    case Cancel => SetPc(s, r, Leave)
    case Report =>
      SetPc(s, r, Leave).(sh := Fail(s.sh, key, domains, s.clock),
                          fails := if s.sh.closed then s.fails else s.fails[key := TimesOf(s.fails, key) + [s.clock]])
    case Put =>
      if s.sh.closed then SetPc(s, r, Late(pc.conn))
      else SetPc(s, r, Check).(sh := Store(s.sh, key, domains, Item(pc.conn, s.clock)), fails := s.fails[key := []])
    case Drop => SetPc(s, r, Leave).(shut := s.shut + {pc.conn})
    case Clear => SetPc(s, r, Cleared).(sh := s.sh.(refilling := s.sh.refilling - {key}))
    case Done => s.(refills := s.refills - {r})
  }

  function ApplySweep(cfg: Cfg, s: State, step: SweepStep): State
    requires SweepEnabled(cfg, s, step)
  {
    match step
    case WarmBegin => s.(sweeper := Warming(cfg.keys))
    case WarmKey(key, domains, id) =>
      Install(s, Schedule(s.sh, cfg.poolSize, key, domains, s.clock), key, domains, id)
      .(sweeper := Warming(s.sweeper.todo - {key}))
    case WarmEnd => s.(sweeper := Waiting)
    case SweepBegin(now) => s.(sweeper := Sweeping(now, s.sh.routes.Keys, {}))
    case SweepOne(key, broken, id) =>
      var Sweeping(now, todo, pulled) := s.sweeper;
      Install(s, Sweep(s.sh, cfg.poolSize, key, now, broken, s.clock), key, s.sh.routes[key].domains, id)
      .(sweeper := Sweeping(now, todo - {key}, pulled + Conns(Expired(Bucket(s.sh.idle, key), now, broken))))
    case SweepEnd => s.(sweeper := Closing(s.sweeper.pulled))
    case SweepClose(conn) => s.(sweeper := Closing(s.sweeper.pulled - {conn}), shut := s.shut + {conn})
    case SweepRest => s.(sweeper := Waiting)
    case SweepStop => s.(sweeper := Stopped)
  }

  function ApplyClose(s: State, step: CloseStep): State
    requires CloseEnabled(s, step)
  {
    match step
    case CloseBegin => s.(sh := ShutDown(s.sh), closer := Draining(IdleConns(s.sh.idle)))
    case CloseItem(conn) => s.(closer := Draining(s.closer.pending - {conn}), shut := s.shut + {conn})
    case CloseReturn => s.(closer := Returned)
  }

  function Apply(cfg: Cfg, s: State, step: Step): State
    requires Enabled(cfg, s, step)
  {
    match step
    case Tick(d) => s.(clock := s.clock + d)
    case OfGetter(g, get) => ApplyGet(cfg, s, g, get)
    case OfRefill(r, refill) => ApplyRefill(cfg, s, r, refill)
    case OfSweeper(sweep) => ApplySweep(cfg, s, sweep)
    case OfCloser(close) => ApplyClose(s, close)
  }

  ghost predicate Run(cfg: Cfg, s: State, steps: seq<Step>, s': State)
    decreases |steps|
  {
    if steps == [] then s == s' else
    Enabled(cfg, s, steps[0]) && Run(cfg, Apply(cfg, s, steps[0]), steps[1..], s')
  }

  ghost predicate Reachable(cfg: Cfg, s: State) {
    exists steps :: Run(cfg, Init(), steps, s)
  }
}
