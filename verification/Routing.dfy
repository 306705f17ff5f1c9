/** One client session: which upstreams it opens, in which order, and which one gets to use the cipher streams. */
module Routing {
  import opened Units
  import opened Bytes
  import opened Bridge
  import opened Crypto
  import opened Admission
  import Splitter

  /** The ways to reach Telegram. */
  datatype Route = Direct | PooledWorker | Worker | CfProxy | Tcp

  datatype Event =
    | Open(id: nat, route: Route)
    | InitOk(id: nat)
    | InitFail(id: nat)
    | Bridge(id: nat)
    | Close(id: nat)
    | Reserved(key: Key)
    | Released(key: Key)

  /** The order of preference; one setting swaps the last two. */
  function Rank(route: Route, cfFirst: bool): nat {
    match route
    case Direct => 0
    case PooledWorker => 1
    case Worker => 2
    case CfProxy => if cfFirst then 3 else 4
    case Tcp => if cfFirst then 4 else 3
  }

  /** The direct route, a pooled worker, the other workers; then the proxy and TCP, in the order configured. */
  lemma Preference(cfFirst: bool)
    ensures Rank(Direct, cfFirst) < Rank(PooledWorker, cfFirst) < Rank(Worker, cfFirst)
    ensures cfFirst ==> Rank(Worker, cfFirst) < Rank(CfProxy, cfFirst) < Rank(Tcp, cfFirst)
    ensures !cfFirst ==> Rank(Worker, cfFirst) < Rank(Tcp, cfFirst) < Rank(CfProxy, cfFirst)
  {
  }

  // ---------------------------------------------------------------------------------------------------------------
  // The discipline of a session
  // ---------------------------------------------------------------------------------------------------------------

  datatype Status = Fresh | Inited | Refused | InUse

  /** At most one upstream is open, and at most one reservation held; `books` records those taken and given back. */
  datatype Monitor = Monitor(open: Option<nat>, status: Status, bridged: bool, held: Option<Key>, next: nat, rank: nat,
                             cfDials: nat, books: seq<Event>)

  const START: Monitor := Monitor(None, Fresh, false, None, 0, 0, 0, [])

  function Next(cfFirst: bool, m: Monitor, e: Event): Option<Monitor> {
    match e
    case Open(id, route) =>
      if m.open.None? && !m.bridged && id == m.next && m.rank <= Rank(route, cfFirst)
      then Some(m.(open := Some(id), status := Fresh, next := id + 1, rank := Rank(route, cfFirst))) else None
    case InitOk(id) => if m.open == Some(id) && m.status.Fresh? then Some(m.(status := Inited)) else None
    case InitFail(id) => if m.open == Some(id) && m.status.Fresh? then Some(m.(status := Refused)) else None
    case Bridge(id) =>
      if m.open == Some(id) && m.status.Inited? && !m.bridged && m.held.None?
      then Some(m.(status := InUse, bridged := true)) else None
    case Close(id) => if m.open == Some(id) && !m.status.Fresh? then Some(m.(open := None)) else None
    case Reserved(key) =>
      if m.held.None? && m.open.None? && !m.bridged && (key.worker || m.cfDials < 3)
      then Some(m.(held := Some(key), cfDials := m.cfDials + (if key.worker then 0 else 1), books := m.books + [e]))
      else None
    case Released(key) => if m.held == Some(key) then Some(m.(held := None, books := m.books + [e])) else None
  }

  function After(cfFirst: bool, log: seq<Event>): Option<Monitor> {
    if log == [] then Some(START) else
    var m := After(cfFirst, log[..|log| - 1]);
    if m.None? then None else Next(cfFirst, m.value, log[|log| - 1])
  }

  lemma AfterOne(cfFirst: bool, log: seq<Event>, e: Event)
    ensures After(cfFirst, log + [e])
         == if After(cfFirst, log).None? then None else Next(cfFirst, After(cfFirst, log).value, e)
  {
    assert (log + [e])[..|log|] == log;
  }

  lemma OpenAccepted(cfFirst: bool, log: seq<Event>, m: Monitor, id: nat, route: Route)
    requires After(cfFirst, log) == Some(m) && m.open.None? && !m.bridged && id == m.next
    requires m.rank <= Rank(route, cfFirst)
    ensures After(cfFirst, log + [Open(id, route)])
         == Some(m.(open := Some(id), status := Fresh, next := id + 1, rank := Rank(route, cfFirst)))
  {
    AfterOne(cfFirst, log, Open(id, route));
  }

  // ---------------------------------------------------------------------------------------------------------------
  // What the discipline means
  // ---------------------------------------------------------------------------------------------------------------

  function About(e: Event): Option<nat> {
    match e
    case Reserved(_) => None
    case Released(_) => None
    case _ => Some(e.id)
  }

  /** The events of one upstream, in order. */
  function Of(log: seq<Event>, id: nat): seq<Event> {
    if log == [] then [] else
    var last := log[|log| - 1];
    Of(log[..|log| - 1], id) + if About(last) == Some(id) then [last] else []
  }

  /** What can have happened to an upstream: it gets the init once and first, only an accepted init leads to the bridge,
      and nothing follows its closing. */
  predicate Lived(h: seq<Event>, id: nat) {
    || h == []
    || (|h| >= 1 && h[0].Open? && (
        || |h| == 1
        || h[1..] == [InitFail(id)]
        || h[1..] == [InitFail(id), Close(id)]
        || h[1..] == [InitOk(id)]
        || h[1..] == [InitOk(id), Close(id)]
        || h[1..] == [InitOk(id), Bridge(id)]
        || h[1..] == [InitOk(id), Bridge(id), Close(id)]))
  }

  predicate ClosedHistory(h: seq<Event>, id: nat) {
    && |h| >= 3 && h[0].Open?
    && (|| h[1..] == [InitFail(id), Close(id)]
        || h[1..] == [InitOk(id), Close(id)]
        || h[1..] == [InitOk(id), Bridge(id), Close(id)])
  }

  predicate OpenHistory(h: seq<Event>, id: nat, status: Status) {
    && h != [] && h[0].Open?
    && h[1..] == match status
                 case Fresh => []
                 case Inited => [InitOk(id)]
                 case Refused => [InitFail(id)]
                 case InUse => [InitOk(id), Bridge(id)]
  }

  /** The history of an upstream: still to come, open, or closed. */
  predicate History(h: seq<Event>, id: nat, m: Monitor) {
    if id >= m.next then h == [] && m.open != Some(id)
    else if m.open == Some(id) then OpenHistory(h, id, m.status)
    else ClosedHistory(h, id)
  }

  ghost predicate Histories(log: seq<Event>, m: Monitor) {
    forall id: nat :: History(Of(log, id), id, m)
  }

  lemma OfOne(log: seq<Event>, e: Event, id: nat)
    ensures Of(log + [e], id) == if About(e) == Some(id) then Of(log, id) + [e] else Of(log, id)
  {
    assert (log + [e])[..|log|] == log;
  }

  lemma TailGrows(h: seq<Event>, e: Event)
    requires h != []
    ensures (h + [e])[0] == h[0] && (h + [e])[1..] == h[1..] + [e]
  {
  }

  lemma HistoryKept(cfFirst: bool, h: seq<Event>, id: nat, m: Monitor, e: Event)
    requires History(h, id, m) && Next(cfFirst, m, e).Some?
    ensures History(if About(e) == Some(id) then h + [e] else h, id, Next(cfFirst, m, e).value)
  {
    if About(e) == Some(id) && h != [] {
      TailGrows(h, e);
    }
  }

  lemma HistoriesKept(cfFirst: bool, log: seq<Event>, m: Monitor, e: Event)
    requires Histories(log, m) && Next(cfFirst, m, e).Some?
    ensures Histories(log + [e], Next(cfFirst, m, e).value)
  {
    var m', longer := Next(cfFirst, m, e).value, log + [e];
    forall id: nat ensures History(Of(longer, id), id, m') {
      OfOne(log, e, id);
      assert History(Of(log, id), id, m);
      HistoryKept(cfFirst, Of(log, id), id, m, e);
    }
  }

  lemma {:induction false} AcceptedHistories(cfFirst: bool, log: seq<Event>)
    requires After(cfFirst, log).Some?
    ensures Histories(log, After(cfFirst, log).value)
  {
    if log == [] {
    } else {
      var front, e := log[..|log| - 1], log[|log| - 1];
      AcceptedHistories(cfFirst, front);
      assert log == front + [e];
      HistoriesKept(cfFirst, front, After(cfFirst, front).value, e);
    }
  }

  /** Every upstream of an accepted log has one of the lawful histories. */
  lemma LawfulHistories(cfFirst: bool, log: seq<Event>, id: nat)
    requires After(cfFirst, log).Some?
    ensures Lived(Of(log, id), id)
  {
    AcceptedHistories(cfFirst, log);
    assert History(Of(log, id), id, After(cfFirst, log).value);
  }

  lemma {:induction false} OfHolds(log: seq<Event>, id: nat, e: Event)
    ensures e in Of(log, id) <==> e in log && About(e) == Some(id)
  {
    if log == [] {
    } else {
      OfHolds(log[..|log| - 1], id, e);
      assert log == log[..|log| - 1] + [log[|log| - 1]];
    }
  }

  /** The upstreams that have been opened and not closed. */
  function OpenIds(log: seq<Event>): set<nat> {
    set e | e in log && e.Open? && Close(e.id) !in log :: e.id
  }

  /** At any point of an accepted log, at most one upstream is open: the one its monitor says. */
  lemma OneOpen(cfFirst: bool, log: seq<Event>)
    requires After(cfFirst, log).Some?
    ensures OpenIds(log) <= if After(cfFirst, log).value.open.Some? then {After(cfFirst, log).value.open.value} else {}
  {
    var m := After(cfFirst, log).value;
    AcceptedHistories(cfFirst, log);
    forall id | id in OpenIds(log) ensures m.open == Some(id) {
      var e :| e in log && e.Open? && e.id == id;
      OfHolds(log, id, e);
      OfHolds(log, id, Close(id));
      assert History(Of(log, id), id, m);
      if m.open != Some(id) {
        ClosedAtLast(Of(log, id), id);
      }
    }
  }

  /** An upstream is opened, and not closed, by this event. */
  predicate StillOpen(log: seq<Event>, e: Event) {
    e in log && e.Open? && Close(e.id) !in log
  }

  /** ... and there is one event that has opened it. */
  lemma OneOpening(cfFirst: bool, log: seq<Event>, e: Event, f: Event)
    requires After(cfFirst, log).Some? && StillOpen(log, e) && StillOpen(log, f)
    ensures e == f && After(cfFirst, log).value.open == Some(e.id)
  {
    OneOpen(cfFirst, log);
    assert e.id in OpenIds(log) && f.id in OpenIds(log);
    LawfulHistories(cfFirst, log, e.id);
    OfHolds(log, e.id, e);
    OfHolds(log, e.id, f);
    OpensFirst(Of(log, e.id), e.id, e);
    OpensFirst(Of(log, e.id), e.id, f);
  }

  lemma OpensFirst(h: seq<Event>, id: nat, e: Event)
    requires Lived(h, id) && e in h && e.Open?
    ensures e == h[0]
  {
    assert h == [h[0]] + h[1..];
  }

  lemma ClosedAtLast(h: seq<Event>, id: nat)
    requires ClosedHistory(h, id)
    ensures Close(id) in h
  {
    assert h[|h| - 1] == h[1..][|h| - 2] == Close(id);
  }

  function Tally(log: seq<Event>, p: Event -> bool): nat {
    if log == [] then 0 else Tally(log[..|log| - 1], p) + if p(log[|log| - 1]) then 1 else 0
  }

  const IsOpen: Event -> bool := (e: Event) => e.Open?
  const IsClose: Event -> bool := (e: Event) => e.Close?
  const IsBridge: Event -> bool := (e: Event) => e.Bridge?
  const IsReserved: Event -> bool := (e: Event) => e.Reserved?
  const IsReleased: Event -> bool := (e: Event) => e.Released?
  const IsCfDial: Event -> bool := (e: Event) => e.Reserved? && !e.key.worker

  /** The counts that a monitor stands for. */
  ghost predicate Tallied(log: seq<Event>, m: Monitor) {
    && Tally(log, IsOpen) == Tally(log, IsClose) + (if m.open.Some? then 1 else 0)
    && Tally(log, IsReserved) == Tally(log, IsReleased) + (if m.held.Some? then 1 else 0)
    && Tally(log, IsBridge) == (if m.bridged then 1 else 0)
    && Tally(log, IsCfDial) == m.cfDials <= 3
  }

  lemma TalliedNext(cfFirst: bool, log: seq<Event>, m: Monitor, e: Event)
    requires Tallied(log, m) && Next(cfFirst, m, e).Some?
    ensures Tallied(log + [e], Next(cfFirst, m, e).value)
  {
    assert (log + [e])[..|log|] == log;
  }

  /** At any time at most one upstream is open and one reservation held; at most one bridge is entered and three
      proxy dials are made. */
  lemma {:induction false} LawfulTallies(cfFirst: bool, log: seq<Event>)
    requires After(cfFirst, log).Some?
    ensures Tallied(log, After(cfFirst, log).value)
  {
    if log == [] {
    } else {
      var front, e := log[..|log| - 1], log[|log| - 1];
      LawfulTallies(cfFirst, front);
      assert log == front + [e];
      TalliedNext(cfFirst, front, After(cfFirst, front).value, e);
    }
  }

  lemma {:induction false} AcceptedPrefix(cfFirst: bool, log: seq<Event>, n: nat)
    requires After(cfFirst, log).Some? && n <= |log|
    ensures After(cfFirst, log[..n]).Some?
    decreases |log| - n
  {
    if n == |log| {
      assert log[..n] == log;
    } else {
      AcceptedPrefix(cfFirst, log, n + 1);
      assert log[..n + 1][..n] == log[..n];
    }
  }

  /** Once a bridge is entered, its upstream is closed and nothing else is ever done. */
  lemma {:induction false} NothingAfterBridge(cfFirst: bool, log: seq<Event>, i: nat, j: nat)
    requires After(cfFirst, log).Some? && i < j < |log| && log[i].Bridge?
    ensures log[j] == Close(log[i].id)
  {
    AcceptedPrefix(cfFirst, log, j);
    AcceptedPrefix(cfFirst, log, j + 1);
    assert log[..j + 1][..j] == log[..j] && log[..j + 1][j] == log[j];
    StaysBridged(cfFirst, log, i, j);
  }

  lemma {:induction false} StaysBridged(cfFirst: bool, log: seq<Event>, i: nat, j: nat)
    requires After(cfFirst, log).Some? && i < j <= |log| && log[i].Bridge?
    ensures After(cfFirst, log[..j]).Some?
    ensures var m := After(cfFirst, log[..j]).value;
      m.bridged && m.held.None? && m.status.InUse? && (m.open.Some? ==> m.open.value == log[i].id)
    decreases j - i
  {
    AcceptedPrefix(cfFirst, log, j);
    AcceptedPrefix(cfFirst, log, j - 1);
    assert log[..j][..j - 1] == log[..j - 1] && log[..j][j - 1] == log[j - 1];
    if i == j - 1 {
    } else {
      StaysBridged(cfFirst, log, i, j - 1);
    }
  }

  /** Routes are tried in the order of preference. */
  lemma {:induction false} RoutesInOrder(cfFirst: bool, log: seq<Event>, i: nat, j: nat)
    requires After(cfFirst, log).Some? && i <= j < |log| && log[i].Open? && log[j].Open?
    ensures Rank(log[i].route, cfFirst) <= Rank(log[j].route, cfFirst)
  {
    RankGrows(cfFirst, log, i, j + 1);
    AcceptedPrefix(cfFirst, log, j);
    AcceptedPrefix(cfFirst, log, j + 1);
    assert log[..j + 1][..j] == log[..j] && log[..j + 1][j] == log[j];
  }

  lemma {:induction false} RankGrows(cfFirst: bool, log: seq<Event>, i: nat, j: nat)
    requires After(cfFirst, log).Some? && i < j <= |log| && log[i].Open?
    ensures After(cfFirst, log[..j]).Some? && After(cfFirst, log[..j]).value.rank >= Rank(log[i].route, cfFirst)
    decreases j - i
  {
    AcceptedPrefix(cfFirst, log, j);
    AcceptedPrefix(cfFirst, log, j - 1);
    assert log[..j][..j - 1] == log[..j - 1] && log[..j][j - 1] == log[j - 1];
    if i == j - 1 {
    } else {
      RankGrows(cfFirst, log, i, j - 1);
    }
  }

  /** Before another upstream is opened, the one before has been closed. */
  lemma ClosedBetween(cfFirst: bool, log: seq<Event>, i: nat, j: nat)
    requires After(cfFirst, log).Some? && i < j < |log| && log[i].Open? && log[j].Open?
    ensures exists k :: i < k < j && log[k] == Close(log[i].id)
  {
    AcceptedPrefix(cfFirst, log, j);
    AcceptedPrefix(cfFirst, log, j + 1);
    assert log[..j + 1][..j] == log[..j] && log[..j + 1][j] == log[j];
    assert After(cfFirst, log[..j]).value.open.None?;
    if forall k :: i < k < j ==> log[k] != Close(log[i].id) {
      StaysOpen(cfFirst, log, i, j);
      assert false;
    }
  }

  lemma {:induction false} StaysOpen(cfFirst: bool, log: seq<Event>, i: nat, j: nat)
    requires After(cfFirst, log).Some? && i < j <= |log| && log[i].Open?
    requires forall k :: i < k < j ==> log[k] != Close(log[i].id)
    ensures After(cfFirst, log[..j]).Some? && After(cfFirst, log[..j]).value.open == Some(log[i].id)
    decreases j - i
  {
    AcceptedPrefix(cfFirst, log, j);
    AcceptedPrefix(cfFirst, log, j - 1);
    assert log[..j][..j - 1] == log[..j - 1] && log[..j][j - 1] == log[j - 1];
    if i == j - 1 {
    } else {
      StaysOpen(cfFirst, log, i, j - 1);
    }
  }

  // ---------------------------------------------------------------------------------------------------------------
  // What decides about the routes
  // ---------------------------------------------------------------------------------------------------------------

  /** What a session is configured with: its fallback address may be missing, the domain lists are already ordered. */
  datatype Setup = Setup(hasTarget: bool, useWorker: bool, workers: seq<Domain>, useCf: bool, cfFirst: bool,
                         proxies: seq<Domain>)

  /** An upstream at the other end of a connection: the fate of what is written to it, and what it sends. */
  datatype Wire = Wire(line: Line, frames: seq<Frame>) {
    ghost predicate Fits() {
      forall f, c :: f in frames && c in f.chunks ==> |c| <= Splitter.MAX_CHUNK
    }
  }

  /** How one attempt to dial turns out: whether the session's context has ended before, whether the attempt is granted,
      whether the dial succeeds, what it reaches, and whether the context has ended by the time the init is written. */
  datatype Attempt = Attempt(ended: bool, granted: bool, dials: bool, wire: Wire, canceled: bool) {
    predicate Succeeds() {
      granted && dials && wire.line.accepts(0) && !canceled
    }
  }

  /** Everything the environment answers: the two pools, the dials of each domain, and the TCP dial. */
  datatype Env = Env(direct: Option<Wire>, pooledWorker: Option<Wire>, workers: nat -> Attempt, proxies: nat -> Attempt,
                     tcp: Attempt)
  {
    ghost predicate Fits() {
      && (direct.Some? ==> direct.value.Fits())
      && (pooledWorker.Some? ==> pooledWorker.value.Fits())
      && (forall i :: workers(i).wire.Fits())
      && (forall i :: proxies(i).wire.Fits())
      && tcp.wire.Fits()
    }
  }

  /** How many of the first `n` attempts are granted. */
  function Grants(attempts: nat -> Attempt, n: nat): nat {
    if n == 0 then 0 else Grants(attempts, n - 1) + if attempts(n - 1).granted then 1 else 0
  }

  /** None of the first `n` attempts succeeds, and the context does not end before any of them. */
  ghost predicate Futile(attempts: nat -> Attempt, n: nat) {
    forall j :: 0 <= j < n ==> !attempts(j).ended && !attempts(j).Succeeds()
  }

  /** Attempt `i` is the first of `n` to succeed. */
  ghost predicate FirstHit(attempts: nat -> Attempt, n: nat, i: nat) {
    i < n && Futile(attempts, i) && !attempts(i).ended && attempts(i).Succeeds()
  }

  /** A route carries the session over `wire`: it is configured, and nothing on the way to that upstream refuses. */
  ghost predicate Carries(setup: Setup, env: Env, route: Route, wire: Wire) {
    match route
    case Direct => env.direct == Some(wire) && wire.line.accepts(0)
    case PooledWorker => setup.useWorker && setup.hasTarget && env.pooledWorker == Some(wire) && wire.line.accepts(0)
    case Worker =>
      && setup.useWorker && setup.hasTarget
      && exists i: nat :: FirstHit(env.workers, |setup.workers|, i) && wire == env.workers(i).wire
    case CfProxy =>
      && setup.useCf
      && exists i: nat ::
           FirstHit(env.proxies, |setup.proxies|, i) && Grants(env.proxies, i) < 3 && wire == env.proxies(i).wire
    case Tcp => setup.hasTarget && !env.tcp.ended && env.tcp.Succeeds() && wire == env.tcp.wire
  }

  /** Something on the way to every upstream of the route refuses: there is no pooled connection, no grant, no
      connection, or no write of the init, or the context ends. */
  ghost predicate Refuses(setup: Setup, env: Env, route: Route) {
    forall wire :: !Carries(setup, env, route, wire)
  }

  /** Every route that comes before `rank` refuses. */
  ghost predicate NoneBelow(setup: Setup, env: Env, rank: nat) {
    forall route :: Rank(route, setup.cfFirst) < rank ==> Refuses(setup, env, route)
  }

  lemma {:induction false} GrantsGrow(attempts: nat -> Attempt, m: nat, n: nat)
    requires m <= n
    ensures Grants(attempts, m) <= Grants(attempts, n)
    decreases n - m
  {
    if m == n {
    } else {
      GrantsGrow(attempts, m, n - 1);
    }
  }

  /** Where an attempt list is given up, no attempt of it is the first to succeed. */
  lemma NoFirst(attempts: nat -> Attempt, n: nat, i: nat)
    requires Futile(attempts, i) && i <= n && (i == n || attempts(i).ended)
    ensures forall k: nat :: !FirstHit(attempts, n, k)
  {
    forall k: nat ensures !FirstHit(attempts, n, k) {
      if k < i {
        assert !attempts(k).Succeeds();
      } else if k > i && k < n {
        assert !Futile(attempts, k) by {
          assert attempts(i).ended;
        }
      }
    }
  }

  /** Where three dials have been granted, none that comes later is. */
  lemma NoFirstWithin(attempts: nat -> Attempt, n: nat, i: nat)
    requires Futile(attempts, i) && Grants(attempts, i) >= 3
    ensures forall k: nat :: FirstHit(attempts, n, k) ==> Grants(attempts, k) >= 3
  {
    forall k: nat | FirstHit(attempts, n, k) ensures Grants(attempts, k) >= 3 {
      assert attempts(k).Succeeds();
      assert k >= i;
      GrantsGrow(attempts, i, k);
    }
  }

  // ---------------------------------------------------------------------------------------------------------------
  // What is reserved
  // ---------------------------------------------------------------------------------------------------------------

  /** The reservations in a log, and their returns. */
  function Booked(log: seq<Event>): seq<Event> {
    if log == [] then [] else
    var last := log[|log| - 1];
    Booked(log[..|log| - 1]) + if About(last).None? then [last] else []
  }

  /** What the monitor records is exactly that. */
  lemma {:induction false} BooksAre(cfFirst: bool, log: seq<Event>)
    requires After(cfFirst, log).Some?
    ensures After(cfFirst, log).value.books == Booked(log)
  {
    if log == [] {
    } else {
      BooksAre(cfFirst, log[..|log| - 1]);
    }
  }

  /** A list of domains to dial, with what comes of each attempt. */
  datatype Round = Round(domains: seq<Domain>, worker: bool, attempts: nat -> Attempt) {
    function KeyAt(i: nat): Key
      requires i < |domains|
    {
      Key(domains[i], worker)
    }

    /** The reservations of the first `n` attempts, each taken and given back before the next. */
    function Ledger(n: nat): seq<Event>
      requires n <= |domains|
    {
      if n == 0 then []
      else Ledger(n - 1) + if attempts(n - 1).granted then [Reserved(KeyAt(n - 1)), Released(KeyAt(n - 1))] else []
    }

    /** The domains end, or the context does, or three dials of a proxy have been granted. */
    predicate Over(i: nat) {
      i >= |domains| || attempts(i).ended || (!worker && Grants(attempts, i) >= 3)
    }

    /** How many attempts are made from attempt `i` on, that one's predecessors included: up to the first success. */
    function Made(i: nat): (n: nat)
      requires i <= |domains|
      ensures i <= n <= |domains|
      decreases |domains| - i
    {
      if Over(i) then i else if attempts(i).Succeeds() then i + 1 else Made(i + 1)
    }

    function Books(): seq<Event> {
      Ledger(Made(0))
    }

    /** One attempt further down the ledger, behind whatever was reserved `before`. */
    lemma Further(i: nat, before: seq<Event>)
      requires i < |domains| && !Over(i)
      ensures attempts(i).granted ==>
          before + Ledger(i) + [Reserved(KeyAt(i)), Released(KeyAt(i))] == before + Ledger(i + 1)
      ensures !attempts(i).granted ==> before + Ledger(i) == before + Ledger(i + 1)
      ensures Made(i) == if attempts(i).Succeeds() then i + 1 else Made(i + 1)
    {
      assert !attempts(i).granted ==> Ledger(i) + [] == Ledger(i);
    }
  }

  function WorkerRound(setup: Setup, env: Env): Round {
    Round(setup.workers, true, env.workers)
  }

  function ProxyRound(setup: Setup, env: Env): Round {
    Round(setup.proxies, false, env.proxies)
  }

  predicate TakesInit(wire: Option<Wire>) {
    wire.Some? && wire.value.line.accepts(0)
  }

  /** What the worker route reserves, if it is tried: nothing unless it comes to dialing. */
  function WorkerBooks(setup: Setup, env: Env): seq<Event> {
    if !setup.useWorker || !setup.hasTarget || TakesInit(env.pooledWorker) then [] else WorkerRound(setup, env).Books()
  }

  /** What the two routes behind it reserve, if they are tried. */
  ghost function LastBooks(setup: Setup, env: Env): seq<Event> {
    if !setup.useCf || (!setup.cfFirst && !Refuses(setup, env, Tcp)) then [] else ProxyRound(setup, env).Books()
  }

  /** What all routes behind the direct one reserve. */
  ghost function FallbackBooks(setup: Setup, env: Env): seq<Event> {
    WorkerBooks(setup, env) + if NoneBelow(setup, env, 3) then LastBooks(setup, env) else []
  }

  lemma ServedByWorker(setup: Setup, env: Env, route: Route, wire: Wire)
    requires Carries(setup, env, route, wire) && Rank(route, setup.cfFirst) < 3
    ensures FallbackBooks(setup, env) == WorkerBooks(setup, env)
  {
    assert !Refuses(setup, env, route);
    assert WorkerBooks(setup, env) + [] == WorkerBooks(setup, env);
  }

  lemma NoWorkerBooks(setup: Setup, env: Env, before: seq<Event>)
    requires !setup.useWorker || !setup.hasTarget || TakesInit(env.pooledWorker)
    ensures before + WorkerBooks(setup, env) == before
  {
    assert WorkerBooks(setup, env) == [];
  }

  lemma BehindWorkers(setup: Setup, env: Env, before: seq<Event>)
    requires NoneBelow(setup, env, 3)
    ensures before + WorkerBooks(setup, env) + LastBooks(setup, env) == before + FallbackBooks(setup, env)
  {
  }

  lemma NoProxyBooks(setup: Setup, env: Env, wire: Wire, before: seq<Event>)
    requires setup.useCf ==> !setup.cfFirst && Carries(setup, env, Tcp, wire)
    ensures before + LastBooks(setup, env) == before
  {
    assert setup.useCf ==> !Refuses(setup, env, Tcp);
    assert LastBooks(setup, env) == [];
  }

  lemma ProxyBooks(setup: Setup, env: Env, before: seq<Event>)
    requires setup.useCf && (setup.cfFirst || Refuses(setup, env, Tcp))
    ensures before + LastBooks(setup, env) == before + ProxyRound(setup, env).Books()
  {
  }

  /** What a session reserves, in order. */
  ghost function SessionBooks(setup: Setup, env: Env): seq<Event> {
    if TakesInit(env.direct) then [] else FallbackBooks(setup, env)
  }

  /** Whether a route's messages are split. */
  function SplitterFor(route: Route, proto: int): Option<int> {
    if route.Direct? || route.CfProxy? then Some(proto) else None
  }

  // ---------------------------------------------------------------------------------------------------------------
  // The session
  // ---------------------------------------------------------------------------------------------------------------

  class Session {
    const setup: Setup
    const env: Env
    const proto: int
    const init: seq<byte>
    const clientIn: Source
    const clientOut: Sink
    const cltDec: CipherStream
    const cltEnc: CipherStream
    const tgEnc: CipherStream
    const tgDec: CipherStream
    var log: seq<Event>
    var nextId: nat
    ghost var m: Monitor
    /** How the bridge ended. */
    var end: Option<Ending>

    constructor (setup: Setup, env: Env, proto: int, init: seq<byte>, clientIn: Source, clientOut: Sink,
                 cltDec: CipherStream, cltEnc: CipherStream, tgEnc: CipherStream, tgDec: CipherStream)
      ensures this.setup == setup && this.env == env && this.proto == proto && this.init == init
      ensures this.clientIn == clientIn && this.clientOut == clientOut
      ensures this.cltDec == cltDec && this.cltEnc == cltEnc && this.tgEnc == tgEnc && this.tgDec == tgDec
      ensures log == [] && Valid() && m == START
    {
      this.setup, this.env, this.proto, this.init := setup, env, proto, init;
      this.clientIn, this.clientOut := clientIn, clientOut;
      this.cltDec, this.cltEnc, this.tgEnc, this.tgDec := cltDec, cltEnc, tgEnc, tgDec;
      log, nextId, m, end := [], 0, START, None;
    }

    ghost predicate Valid()
      reads this
    {
      After(setup.cfFirst, log) == Some(m) && m.next == nextId
    }

    /** What a session is made of. */
    ghost predicate Sound() {
      && cltDec != tgEnc && cltEnc != tgDec && {cltDec, tgEnc} !! {cltEnc, tgDec}
      && (forall c :: c in clientIn.script ==> |c| <= Splitter.MAX_CHUNK)
      && env.Fits()
    }

    /** The ciphers stand where the two inits left them, and nothing has been read from or sent to the client. */
    ghost predicate Untouched()
      reads clientIn, clientOut, cltDec, cltEnc, tgEnc, tgDec
    {
      && cltDec.pos == tgEnc.pos == HANDSHAKE && cltEnc.pos == tgDec.pos == 0
      && clientIn.next == 0 && clientOut.Unused()
    }

    /** Nothing open, nothing reserved, no bridge so far, and no route tried beyond `rank`. */
    ghost predicate Idle(rank: nat)
      reads this
    {
      Valid() && m.open.None? && m.held.None? && !m.bridged && m.rank <= rank
    }

    /** An upstream that has accepted the init and nothing else. */
    ghost predicate Primed(conn: Upstreamed)
      reads conn.sink
    {
      && conn.sink.sent == [init] && conn.sink.tries == 1 && conn.sink.Valid() && conn.sink.line == conn.wire.line
      && conn.sink != clientOut
    }

    ghost predicate Ready(rank: nat, conn: Upstreamed)
      reads this, conn.sink
    {
      && Valid() && m.open == Some(conn.id) && m.status.Inited? && m.held.None? && !m.bridged && m.rank == rank
      && Primed(conn)
    }

    /** Both sides have what is due to them, as far as they accepted it. */
    ghost predicate Relays(e: Ending) {
      && UpRelayed(SplitterFor(e.route, proto), clientIn.script, cltDec.ks, tgEnc.ks, init, e.wire.line, e.up)
      && DownRelayed(e.wire.frames, tgDec.ks, cltEnc.ks, clientOut.line, e.down)
    }

    /** The session has had its bridge over `wire`, by `route`; everything is put away. */
    ghost predicate Served(route: Route, wire: Wire)
      reads this, clientOut
    {
      && Valid() && m.open.None? && m.held.None? && m.bridged && m.rank == Rank(route, setup.cfFirst)
      && end.Some? && end.value.route == route && end.value.wire == wire && end.value.down.sent == clientOut.sent
      && Relays(end.value)
    }

    method Emit(e: Event)
      requires Valid() && Next(setup.cfFirst, m, e).Some? && !e.Open?
      modifies this`log, this`m
      ensures Valid() && m == Next(setup.cfFirst, old(m), e).value
    {
      AfterOne(setup.cfFirst, log, e);
      log, m := log + [e], Next(setup.cfFirst, m, e).value;
    }

    /** A new upstream, freshly dialed or taken from a pool. */
    method OpenUpstream(route: Route) returns (id: nat)
      requires Valid() && m.open.None? && !m.bridged && m.rank <= Rank(route, setup.cfFirst)
      modifies this`log, this`nextId, this`m
      ensures Valid() && id == old(m).next
      ensures m == old(m).(open := Some(id), status := Fresh, next := id + 1, rank := Rank(route, setup.cfFirst))
    {
      id := nextId;
      OpenAccepted(setup.cfFirst, log, m, id, route);
      log, nextId := log + [Open(id, route)], nextId + 1;
      m := m.(open := Some(id), status := Fresh, next := id + 1, rank := Rank(route, setup.cfFirst));
    }

    method CloseUpstream(id: nat)
      requires Valid() && m.open == Some(id) && !m.status.Fresh?
      modifies this`log, this`m
      ensures Valid() && m == old(m).(open := None)
    {
      Emit(Close(id));
    }

    method EnterBridge(id: nat)
      requires Valid() && m.open == Some(id) && m.status.Inited? && !m.bridged && m.held.None?
      modifies this`log, this`m
      ensures Valid() && m == old(m).(status := InUse, bridged := true)
    {
      Emit(Bridge(id));
    }

    method Reserve(key: Key)
      requires Valid() && m.held.None? && m.open.None? && !m.bridged && (key.worker || m.cfDials < 3)
      modifies this`log, this`m
      ensures Valid() && m.cfDials == old(m).cfDials + (if key.worker then 0 else 1)
      ensures m == old(m).(held := Some(key), cfDials := m.cfDials, books := old(m).books + [Reserved(key)])
    {
      Emit(Reserved(key));
    }

    method Release(key: Key)
      requires Valid() && m.held == Some(key)
      modifies this`log, this`m
      ensures Valid() && m == old(m).(held := None, books := old(m).books + [Released(key)])
    {
      Emit(Released(key));
    }

    /** Opens an upstream and writes the relay init to it. */
    method OpenAndInit(route: Route, wire: Wire) returns (conn: Upstreamed, wrote: bool)
      requires Valid() && m.open.None? && !m.bridged && m.rank <= Rank(route, setup.cfFirst)
      modifies this`log, this`nextId, this`m
      ensures Valid() && conn.wire == wire && wrote == wire.line.accepts(0)
      ensures fresh(conn.sink) && conn.sink.line == wire.line && conn.sink.tries == 1 && conn.sink.Valid()
      ensures wrote ==> conn.sink.sent == [init]
      ensures m == old(m).(open := Some(conn.id), status := if wrote then Inited else Refused, next := old(m).next + 1,
                           rank := Rank(route, setup.cfFirst))
    {
      var id := OpenUpstream(route);
      var sink := new Sink(wire.line);
      wrote := WriteInit(sink, init);
      if wrote {
        Emit(InitOk(id));
      } else {
        Emit(InitFail(id));
      }
      conn := Upstreamed(id, sink, wire);
    }

    /** The two copying loops over an upstream that has the init. */
    method CopyBoth(route: Route, conn: Upstreamed) returns (e: Ending)
      requires Primed(conn) && Sound() && Untouched() && conn.wire.Fits()
      modifies conn.sink, clientIn, clientOut, cltDec, cltEnc, tgEnc, tgDec
      ensures Relays(e) && e.route == route && e.wire == conn.wire && e.down.sent == clientOut.sent
    {
      var upBuf, downBuf := new byte[Splitter.MAX_CHUNK], new byte[Splitter.MAX_CHUNK];
      var wsIn := new Upstream(conn.wire.frames);
      var up := SessionUp(SplitterFor(route, proto), clientIn, cltDec, tgEnc, conn.sink, upBuf, 0, init);
      var down := SessionDown(wsIn, tgDec, cltEnc, clientOut, downBuf);
      e := Ending(route, conn.wire, up, down);
    }

    /** bridgeWS and the copying part of tcpFallback: both use the cipher streams and close the upstream when done. */
    method RunBridge(route: Route, conn: Upstreamed)
      requires Ready(Rank(route, setup.cfFirst), conn) && Sound() && Untouched() && conn.wire.Fits()
      modifies this`log, this`m, this`end, conn.sink, clientIn, clientOut, cltDec, cltEnc, tgEnc, tgDec
      ensures Served(route, conn.wire) && m.books == old(m).books
      ensures MessagesAre(proto, clientIn.script, cltDec.ks, tgEnc.ks, init, end.value)
    {
      EnterBridge(conn.id);
      var e := CopyBoth(route, conn);
      end := Some(e);
      CloseUpstream(conn.id);
      MessagesFollow(proto, clientIn.script, cltDec.ks, tgEnc.ks, init, e);
    }

    /** One round of connectWorker: a context that has ended by the time the init is written counts as a failure. The
        reservation goes first, then a connection that did not make it. */
    method ConnectOnce(key: Key, a: Attempt) returns (conn: Option<Upstreamed>)
      requires Idle(2) && key.worker && a.granted
      modifies this`log, this`nextId, this`m
      ensures conn.Some? <==> a.Succeeds()
      ensures if conn.Some? then Ready(2, conn.value) && fresh(conn.value.sink) && conn.value.wire == a.wire
              else Idle(2)
      ensures m.cfDials == old(m).cfDials && m.books == old(m).books + [Reserved(key), Released(key)]
    {
      Reserve(key);
      conn := None;
      var failed := !a.dials;
      if a.dials {
        var c, wrote := OpenAndInit(Worker, a.wire);
        conn, failed := Some(c), !wrote;
      }
      if a.canceled {
        failed := true;
      }
      Release(key);
      if failed {
        if conn.Some? {
          CloseUpstream(conn.value.id);
        }
        conn := None;
      }
    }

    /** connectWorker's loop. */
    method ConnectWorker() returns (conn: Option<Upstreamed>, ghost i: nat)
      requires Idle(2)
      modifies this`log, this`nextId, this`m
      ensures m.cfDials == old(m).cfDials
      ensures conn.Some? ==> Ready(2, conn.value) && fresh(conn.value.sink)
      ensures conn.Some? ==> FirstHit(env.workers, |setup.workers|, i) && conn.value.wire == env.workers(i).wire
      ensures conn.None? ==> Idle(2) && forall k: nat :: !FirstHit(env.workers, |setup.workers|, k)
      ensures m.books == old(m).books + WorkerRound(setup, env).Books()
    {
      i := 0;
      ghost var round := WorkerRound(setup, env);
      for j := 0 to |setup.workers|
        invariant Idle(2) && m.cfDials == old(m).cfDials && Futile(env.workers, j)
        invariant m.books == old(m).books + round.Ledger(j) && round.Made(0) == round.Made(j)
      {
        var a := env.workers(j);
        if a.ended {
          NoFirst(env.workers, |setup.workers|, j);
          return None, 0;
        }
        round.Further(j, old(m).books);
        if !a.granted {
          continue;
        }
        conn := ConnectOnce(Key(setup.workers[j], true), a);
        if conn.Some? {
          return conn, j;
        }
      }
      NoFirst(env.workers, |setup.workers|, |setup.workers|);
      return None, 0;
    }

    /** One round of cfproxyFallback: a connection that did not make it goes first, then the reservation. */
    method ConnectProxy(key: Key, a: Attempt) returns (conn: Option<Upstreamed>)
      requires Idle(Rank(CfProxy, setup.cfFirst)) && !key.worker && a.granted && m.cfDials < 3
      modifies this`log, this`nextId, this`m
      ensures conn.Some? <==> a.Succeeds()
      ensures conn.Some? ==> Ready(Rank(CfProxy, setup.cfFirst), conn.value)
      ensures conn.Some? ==> fresh(conn.value.sink) && conn.value.wire == a.wire
      ensures conn.None? ==> Idle(Rank(CfProxy, setup.cfFirst))
      ensures m.cfDials == old(m).cfDials + 1 && m.books == old(m).books + [Reserved(key), Released(key)]
    {
      Reserve(key);
      if !a.dials {
        Release(key);
        return None;
      }
      var c, wrote := OpenAndInit(CfProxy, a.wire);
      if !wrote || a.canceled {
        CloseUpstream(c.id);
        Release(key);
        return None;
      }
      Release(key);
      return Some(c);
    }

    /** cfproxyFallback's loop: at most three dials. */
    method ConnectProxies() returns (conn: Option<Upstreamed>, ghost i: nat)
      requires Idle(Rank(CfProxy, setup.cfFirst)) && m.cfDials == 0
      modifies this`log, this`nextId, this`m
      ensures conn.Some? ==> Ready(Rank(CfProxy, setup.cfFirst), conn.value) && fresh(conn.value.sink)
      ensures conn.Some? ==> FirstHit(env.proxies, |setup.proxies|, i) && Grants(env.proxies, i) < 3
      ensures conn.Some? ==> conn.value.wire == env.proxies(i).wire
      ensures conn.None? ==>
        && Idle(Rank(CfProxy, setup.cfFirst))
        && forall k: nat :: FirstHit(env.proxies, |setup.proxies|, k) ==> Grants(env.proxies, k) >= 3
      ensures m.books == old(m).books + ProxyRound(setup, env).Books()
    {
      i := 0;
      ghost var round := ProxyRound(setup, env);
      var attempts := 0;
      for j := 0 to |setup.proxies|
        invariant Idle(Rank(CfProxy, setup.cfFirst)) && Futile(env.proxies, j)
        invariant attempts == m.cfDials == Grants(env.proxies, j) <= 3
        invariant m.books == old(m).books + round.Ledger(j) && round.Made(0) == round.Made(j)
      {
        var a := env.proxies(j);
        if a.ended {
          NoFirst(env.proxies, |setup.proxies|, j);
          return None, 0;
        }
        if attempts == 3 {
          NoFirstWithin(env.proxies, |setup.proxies|, j);
          return None, 0;
        }
        round.Further(j, old(m).books);
        if !a.granted {
          continue;
        }
        attempts := attempts + 1;
        conn := ConnectProxy(Key(setup.proxies[j], false), a);
        if conn.Some? {
          return conn, j;
        }
      }
      NoFirst(env.proxies, |setup.proxies|, |setup.proxies|);
      return None, 0;
    }

    /** The first route that carries the session has served it. */
    ghost predicate Won()
      reads this, clientOut
    {
      && end.Some? && Served(end.value.route, end.value.wire)
      && Carries(setup, env, end.value.route, end.value.wire)
      && NoneBelow(setup, env, Rank(end.value.route, setup.cfFirst))
    }

    /** The connecting part of cfWorkerFallback: the pooled worker if it takes the init, otherwise the dialing loop. */
    method FindWorker() returns (conn: Option<Upstreamed>, route: Route)
      requires Idle(0) && env.Fits() && setup.useWorker && setup.hasTarget && NoneBelow(setup, env, 1)
      modifies this`log, this`nextId, this`m
      ensures m.cfDials == old(m).cfDials
      ensures conn.Some? ==>
          Ready(Rank(route, setup.cfFirst), conn.value) && fresh(conn.value.sink) && conn.value.wire.Fits()
      ensures route.PooledWorker? || route.Worker?
      ensures conn.Some? ==> Carries(setup, env, route, conn.value.wire)
      ensures conn.Some? ==> NoneBelow(setup, env, Rank(route, setup.cfFirst))
      ensures conn.None? ==> Idle(2) && Refuses(setup, env, PooledWorker) && Refuses(setup, env, Worker)
      ensures m.books == old(m).books + WorkerBooks(setup, env)
    {
      route := PooledWorker;
      if env.pooledWorker.Some? {
        var c, wrote := OpenAndInit(PooledWorker, env.pooledWorker.value);
        if wrote {
          NoWorkerBooks(setup, env, m.books);
          return Some(c), PooledWorker;
        }
        CloseUpstream(c.id);
      }
      route := Worker;
      ghost var i;
      conn, i := ConnectWorker();
    }

    /** cfWorkerFallback. */
    method TryWorker() returns (ok: bool)
      requires Idle(0) && Sound() && Untouched() && setup.useWorker && NoneBelow(setup, env, 1)
      modifies this`log, this`nextId, this`m, this`end, clientIn, clientOut, cltDec, cltEnc, tgEnc, tgDec
      ensures ok ==> Won() && Rank(end.value.route, setup.cfFirst) < 3
      ensures !ok ==> Idle(2) && Untouched() && m.cfDials == old(m).cfDials
      ensures !ok ==> Refuses(setup, env, PooledWorker) && Refuses(setup, env, Worker)
      ensures m.books == old(m).books + WorkerBooks(setup, env)
    {
      if !setup.hasTarget {
        NoWorkerBooks(setup, env, m.books);
        return false;
      }
      var conn, route := FindWorker();
      if conn.None? {
        return false;
      }
      RunBridge(route, conn.value);
      return true;
    }

    /** cfproxyFallback. */
    method TryCf() returns (ok: bool)
      requires Idle(Rank(CfProxy, setup.cfFirst)) && Sound() && Untouched() && setup.useCf && m.cfDials == 0
      requires NoneBelow(setup, env, Rank(CfProxy, setup.cfFirst))
      modifies this`log, this`nextId, this`m, this`end, clientIn, clientOut, cltDec, cltEnc, tgEnc, tgDec
      ensures ok ==> Won()
      ensures !ok ==> Idle(Rank(CfProxy, setup.cfFirst)) && Untouched() && Refuses(setup, env, CfProxy)
      ensures m.books == old(m).books + ProxyRound(setup, env).Books()
    {
      var conn, i := ConnectProxies();
      if conn.None? {
        return false;
      }
      RunBridge(CfProxy, conn.value);
      return true;
    }

    /** tcpFallback with connectTCPFallback, which asks the attempt table first. */
    method TryTcp() returns (ok: bool)
      requires Idle(Rank(Tcp, setup.cfFirst)) && Sound() && Untouched()
      requires NoneBelow(setup, env, Rank(Tcp, setup.cfFirst))
      modifies this`log, this`nextId, this`m, this`end, clientIn, clientOut, cltDec, cltEnc, tgEnc, tgDec
      ensures ok ==> Won() && end.value.route == Tcp
      ensures !ok ==>
          Idle(Rank(Tcp, setup.cfFirst)) && Untouched() && m.cfDials == old(m).cfDials && Refuses(setup, env, Tcp)
      ensures m.books == old(m).books
    {
      var a := env.tcp;
      if !setup.hasTarget || a.ended || !a.granted || !a.dials {
        return false;
      }
      var conn, wrote := OpenAndInit(Tcp, a.wire);
      if !wrote || a.canceled {
        CloseUpstream(conn.id);
        return false;
      }
      RunBridge(Tcp, conn);
      return true;
    }

    /** doFallback: the routes in order until one succeeds. */
    method DoFallback() returns (ok: bool)
      requires Idle(0) && Sound() && Untouched() && m.cfDials == 0 && NoneBelow(setup, env, 1)
      modifies this`log, this`nextId, this`m, this`end, clientIn, clientOut, cltDec, cltEnc, tgEnc, tgDec
      ensures ok ==> Won()
      ensures !ok ==> Idle(4) && Untouched() && forall route :: Refuses(setup, env, route)
      ensures m.books == old(m).books + FallbackBooks(setup, env)
    {
      if !setup.useWorker {
        NoWorkerBooks(setup, env, m.books);
      } else {
        ok := TryWorker();
        if ok {
          ServedByWorker(setup, env, end.value.route, end.value.wire);
          return;
        }
      }
      assert NoneBelow(setup, env, 3);
      BehindWorkers(setup, env, old(m).books);
      ok := TryLast();
    }

    /** The two routes behind the workers. */
    method TryLast() returns (ok: bool)
      requires Idle(2) && Sound() && Untouched() && m.cfDials == 0 && NoneBelow(setup, env, 3)
      modifies this`log, this`nextId, this`m, this`end, clientIn, clientOut, cltDec, cltEnc, tgEnc, tgDec
      ensures ok ==> Won()
      ensures !ok ==> Idle(4) && Untouched() && forall route :: Refuses(setup, env, route)
      ensures m.books == old(m).books + LastBooks(setup, env)
    {
      if setup.useCf && setup.cfFirst {
        ProxyBooks(setup, env, m.books);
        ok := TryCf();
        if !ok {
          ok := TryTcp();
        }
      } else {
        ok := TcpFirst();
      }
    }

    /** TCP before the proxy, if there is one. */
    method TcpFirst() returns (ok: bool)
      requires Idle(2) && Sound() && Untouched() && m.cfDials == 0 && NoneBelow(setup, env, 3)
      requires !(setup.useCf && setup.cfFirst)
      modifies this`log, this`nextId, this`m, this`end, clientIn, clientOut, cltDec, cltEnc, tgEnc, tgDec
      ensures ok ==> Won()
      ensures !ok ==> Idle(4) && Untouched() && forall route :: Refuses(setup, env, route)
      ensures m.books == old(m).books + LastBooks(setup, env)
    {
      ok := TryTcp();
      if ok || !setup.useCf {
        NoProxyBooks(setup, env, env.tcp.wire, m.books);
      } else {
        ProxyBooks(setup, env, m.books);
        ok := TryCf();
      }
    }

    /** handleMTProtoClient from the pool on. For every environment, the session is served by the first route that
        carries it, and turned away exactly when every route refuses; until a bridge is entered, the ciphers and the
        client are untouched. */
    method Handle() returns (served: bool)
      requires log == [] && m == START && Valid() && Sound() && Untouched()
      modifies this`log, this`nextId, this`m, this`end, clientIn, clientOut, cltDec, cltEnc, tgEnc, tgDec
      ensures served ==> Won()
      ensures !served ==> Idle(4) && Untouched() && forall route :: Refuses(setup, env, route)
      ensures m.books == SessionBooks(setup, env)
    {
      if env.direct.None? {
        served := DoFallback();
        return;
      }
      var conn, wrote := OpenAndInit(Direct, env.direct.value);
      if !wrote {
        CloseUpstream(conn.id);
        served := DoFallback();
        return;
      }
      RunBridge(Direct, conn);
      served := true;
    }
  }

  /** A bridge that has ended: what the upstream and the client have received. */
  datatype Ending = Ending(route: Route, wire: Wire, up: Receipt, down: Receipt)

  /** An opened upstream. */
  datatype Upstreamed = Upstreamed(id: nat, sink: Sink, wire: Wire)

  // ---------------------------------------------------------------------------------------------------------------
  // From handshake to end
  // ---------------------------------------------------------------------------------------------------------------

  /** How a session ended: `end` is None when the client was turned away. `clt` and `tg` are the keystreams in which the
      client and the proxy write, `cltBack` and `tgBack` those in which they are answered. */
  ghost predicate Ends(setup: Setup, env: Env, proto: int, init: seq<byte>, script: seq<seq<byte>>,
                       line: Line, clt: Keystream, tg: Keystream, cltBack: Keystream, tgBack: Keystream,
                       end: Option<Ending>)
  {
    if end.None? then forall route :: Refuses(setup, env, route) else
    var e := end.value;
    && Carries(setup, env, e.route, e.wire) && NoneBelow(setup, env, Rank(e.route, setup.cfFirst))
    && UpRelayed(SplitterFor(e.route, proto), script, clt, tg, init, e.wire.line, e.up)
    && DownRelayed(e.wire.frames, tgBack, cltBack, line, e.down)
    && MessagesAre(proto, script, clt, tg, init, e)
  }

  /** The first of the messages `due` have arrived behind the init, or all of them. */
  ghost predicate ArrivedOf(init: seq<byte>, due: seq<seq<byte>>, r: Receipt) {
    r.sent <= [init] + due && (r.all ==> r.sent == [init] + due)
  }

  /** What makes a message. Over the direct route and the proxy route, each is one packet of the client's, or the
      unfinished rest, if the splitter's guard leaves the stream alone and no header in it is impossible. Over the
      worker routes and TCP, each is one non-empty read. */
  ghost predicate MessagesAre(proto: int, script: seq<seq<byte>>, clt: Keystream, tg: Keystream, init: seq<byte>,
                              e: Ending)
  {
    var plain := CryptEach(script, clt, HANDSHAKE);
    var p := Splitter.Parse(proto, Crypt(Concat(script), clt, HANDSHAKE));
    match e.route
    case Direct => InPackets(proto, plain, p, tg, init, e.up)
    case CfProxy => InPackets(proto, plain, p, tg, init, e.up)
    case PooledWorker => ArrivedOf(init, CryptEach(NonEmptyOnes(plain), tg, HANDSHAKE), e.up)
    case Worker => ArrivedOf(init, CryptEach(NonEmptyOnes(plain), tg, HANDSHAKE), e.up)
    case Tcp => ArrivedOf(init, CryptEach(NonEmptyOnes(plain), tg, HANDSHAKE), e.up)
  }

  ghost predicate InPackets(proto: int, plain: seq<seq<byte>>, p: Splitter.Parsed, tg: Keystream, init: seq<byte>,
                            r: Receipt)
  {
    Splitter.Clean(proto, [], plain) && !p.bad ==>
      ArrivedOf(init, CryptEach(p.packets + Splitter.NonEmpty(p.rest), tg, HANDSHAKE), r)
  }

  lemma MessagesFollow(proto: int, script: seq<seq<byte>>, clt: Keystream, tg: Keystream, init: seq<byte>, e: Ending)
    requires UpRelayed(SplitterFor(e.route, proto), script, clt, tg, init, e.wire.line, e.up)
    ensures MessagesAre(proto, script, clt, tg, init, e)
  {
    DueInReads(script, clt, tg);
    var p := Splitter.Parse(proto, Crypt(Concat(script), clt, HANDSHAKE));
    if Splitter.Clean(proto, [], CryptEach(script, clt, HANDSHAKE)) && !p.bad {
      DueInPackets(proto, script, clt, tg);
    }
  }

  /** Everything a session has opened it has closed, and everything it reserved it has released. */
  ghost predicate Tidy(cfFirst: bool, log: seq<Event>, bridged: bool) {
    && After(cfFirst, log).Some?
    && Tally(log, IsBridge) == (if bridged then 1 else 0)
    && Tally(log, IsOpen) == Tally(log, IsClose) && Tally(log, IsReserved) == Tally(log, IsReleased)
    && Tally(log, IsCfDial) <= 3
    && forall id: nat :: Lived(Of(log, id), id) && |Of(log, id)| != 1 && |Of(log, id)| != 2
  }

  lemma AllTidy(cfFirst: bool, log: seq<Event>, m: Monitor)
    requires After(cfFirst, log) == Some(m) && m.open.None? && m.held.None?
    ensures Tidy(cfFirst, log, m.bridged)
  {
    LawfulTallies(cfFirst, log);
    AcceptedHistories(cfFirst, log);
    forall id: nat ensures Lived(Of(log, id), id) && |Of(log, id)| != 1 && |Of(log, id)| != 2 {
      assert History(Of(log, id), id, m);
    }
  }

  /** handleMTProtoClient with its ciphers made. */
  method RunSession(setup: Setup, env: Env, proto: int, init: seq<byte>, clientIn: Source, clientOut: Sink,
                    cltDec: CipherStream, cltEnc: CipherStream, tgEnc: CipherStream, tgDec: CipherStream)
    returns (log: seq<Event>, end: Option<Ending>)
    requires clientIn.next == 0 && forall c :: c in clientIn.script ==> |c| <= Splitter.MAX_CHUNK
    requires clientOut.Unused() && env.Fits()
    requires cltDec != tgEnc && cltEnc != tgDec && {cltDec, tgEnc} !! {cltEnc, tgDec}
    requires cltDec.pos == tgEnc.pos == HANDSHAKE && cltEnc.pos == tgDec.pos == 0
    modifies clientIn, clientOut, cltDec, cltEnc, tgEnc, tgDec
    ensures Ends(setup, env, proto, init, clientIn.script, clientOut.line,
                 cltDec.ks, tgEnc.ks, cltEnc.ks, tgDec.ks, end)
    ensures clientOut.sent == if end.Some? then end.value.down.sent else []
    ensures Tidy(setup.cfFirst, log, end.Some?)
    ensures Booked(log) == SessionBooks(setup, env)
    ensures end.Some? ==> After(setup.cfFirst, log).value.rank == Rank(end.value.route, setup.cfFirst)
  {
    var s := new Session(setup, env, proto, init, clientIn, clientOut, cltDec, cltEnc, tgEnc, tgDec);
    var served := s.Handle();
    log := s.log;
    end := if served then s.end else None;
    if served {
      MessagesFollow(proto, clientIn.script, cltDec.ks, tgEnc.ks, init, s.end.value);
    }
    AllTidy(setup.cfFirst, log, s.m);
    BooksAre(setup.cfFirst, log);
  }

  /** A whole session, for every configuration and every environment. Only a known handshake is let in. The client is
      served by the first route that carries it, and turned away exactly when every route refuses. The upstream that
      serves it has received an init that says what the client's said, once and first, and behind it what the client
      wrote; the client has received what that upstream wrote; each up to the first message it refused. No other
      upstream has received anything but the init, and each was closed before the next was opened. */
  method ServeClient(p: Primitives, handshake: seq<byte>, secret: seq<byte>, draws: nat -> seq<byte>, ghost some: nat,
                     pad: seq<byte>, setup: Setup, env: Env, clientIn: Source, clientOut: Sink)
    returns (open: Option<Opening>, log: seq<Event>, end: Option<Ending>)
    requires |pad| == 2 && (forall i :: |draws(i)| == HANDSHAKE) && Acceptable(draws(some))
    requires clientIn.next == 0 && forall c :: c in clientIn.script ==> |c| <= Splitter.MAX_CHUNK
    requires clientOut.Unused() && env.Fits()
    modifies clientIn, clientOut
    ensures open.Some? <==> Known(p, handshake, secret)
    ensures open.Some? ==> Echoes(p, handshake, secret, open.value)
    ensures open.None? ==> log == [] && end.None?
    ensures open.Some? ==>
      var material, init := handshake[8..56], open.value.init;
      Ends(setup, env, ProtoFromTag(open.value.hi.protoTag), init, clientIn.script, clientOut.line,
           Forth(p, material, Some(secret)), Forth(p, init[8..56], None),
           Back(p, material, Some(secret)), Back(p, init[8..56], None), end)
    ensures clientOut.sent == if end.Some? then end.value.down.sent else []
    ensures Tidy(setup.cfFirst, log, end.Some?)
    ensures open.Some? ==> Booked(log) == SessionBooks(setup, env)
    ensures end.Some? ==> After(setup.cfFirst, log).value.rank == Rank(end.value.route, setup.cfFirst)
  {
    open := OpenSession(p, handshake, secret, draws, some, pad);
    if open.None? {
      log, end := [], None;
      AllTidy(setup.cfFirst, log, START);
      return;
    }
    var Opening(hi, init) := open.value;
    var cltDec, cltEnc, tgEnc, tgDec := BuildCiphers(p, hi.clientDecI, init, secret);
    log, end := RunSession(setup, env, ProtoFromTag(hi.protoTag), init, clientIn, clientOut, cltDec, cltEnc, tgEnc,
                           tgDec);
  }
}
