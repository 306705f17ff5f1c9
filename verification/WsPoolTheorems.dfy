/** What the invariant means for every reachable state of the pool, and for every run. */
module WsPoolTheorems {
  import opened Units
  import opened Ownership
  import opened Powers
  import opened Backoff
  import opened WsPool
  import opened WsPoolRuns
  import opened WsPoolOwnership
  import opened WsPoolInvariants
  import Counting

  /** Under every interleaving each connection ever dialed is in exactly one place, and nothing else is anywhere. */
  lemma ExactlyOnePlace(cfg: Cfg, s: State)
    requires Reachable(cfg, s)
    ensures forall c :: c in s.keyOf ==>
              exists h :: c in GripOf(HandsOf(s)).Holds(h) && forall h' :: c in GripOf(HandsOf(s)).Holds(h') ==> h' == h
    ensures forall h, c :: c in GripOf(HandsOf(s)).Holds(h) ==> c in s.keyOf
  {
    ReachableInv(cfg, s);
    OneHolder(s.keyOf, GripOf(HandsOf(s)));
  }

  /** No connection is handed to two callers, to a caller that asked for another key, or while still pooled or closed;
      none is handed out at the end of its life. */
  lemma HandedOutOnce(cfg: Cfg, s: State, g: nat)
    requires Reachable(cfg, s) && g in s.getters && s.getters[g].hand.Handed?
    ensures var item := s.getters[g].hand.item;
      && item.conn in s.keyOf && s.keyOf[item.conn] == s.getters[g].key
      && item.conn !in s.shut
      && (forall k :: item.conn !in Conns(Bucket(s.sh.idle, k)))
      && (forall g' :: g' in s.getters && g' != g ==> item.conn !in HandConns(s.getters[g'].hand))
      && s.getters[g].now - item.created < 120 * SECOND
  {
    ReachableInv(cfg, s);
    var x, c := HandsOf(s), s.getters[g].hand.item.conn;
    assert c in GripOf(x).Holds(ByGetter(g));
    assert c !in GripOf(x).Holds(Shut);
    forall k ensures c !in Conns(Bucket(s.sh.idle, k)) {
      assert c !in GripOf(x).Holds(InBucket(k));
    }
    forall g' | g' in s.getters && g' != g ensures c !in HandConns(s.getters[g'].hand) {
      assert c !in GripOf(x).Holds(ByGetter(g'));
    }
  }

  /** The refills of a key that have, or are about to have, a socket. */
  function BusyFor(s: State, key: Key): set<nat> {
    set r | r in s.refills && Busy(s.refills, r) && s.refills[r].key == key
  }

  lemma BusyAtMostOne(s: State, key: Key)
    requires Flags(s.refills, s.sh.refilling)
    ensures |BusyFor(s, key)| <= 1
  {
    if r :| r in BusyFor(s, key) {
      assert forall r' :: r' in BusyFor(s, key) ==> Live(s.refills, r') && Live(s.refills, r);
      assert BusyFor(s, key) == {r};
    }
  }

  /** A key is flagged exactly while one refill of it is live, and the check-dial-append gap never overfills a
      bucket. */
  lemma OneRefillAndCapacity(cfg: Cfg, s: State, key: Key)
    requires Reachable(cfg, s)
    ensures key in s.sh.refilling <==> exists r :: Live(s.refills, r) && s.refills[r].key == key
    ensures forall r, r' ::
        Live(s.refills, r) && Live(s.refills, r') && s.refills[r].key == key == s.refills[r'].key ==> r == r'
    ensures |Bucket(s.sh.idle, key)| + |BusyFor(s, key)| <= cfg.poolSize
  {
    ReachableInv(cfg, s);
    BusyAtMostOne(s, key);
    if r :| r in BusyFor(s, key) {
      assert Busy(s.refills, r);
    }
  }

  /** Once Close has returned: every bucket is empty, no refill or rotation is live, and every connection ever dialed is
      closed unless a get call has it. */
  lemma CleanShutdown(cfg: Cfg, s: State)
    requires Reachable(cfg, s) && s.closer.Returned?
    ensures forall k :: Bucket(s.sh.idle, k) == []
    ensures s.refills == map[] && (s.sweeper.NotStarted? || s.sweeper.Stopped?)
    ensures forall c :: c in s.keyOf && c !in s.shut ==> exists g :: TakenBy(s, g) == Some(c)
  {
    ReachableInv(cfg, s);
    var x := HandsOf(s);
    forall c | c in s.keyOf && c !in s.shut
      ensures exists g :: TakenBy(s, g) == Some(c)
    {
      forall k ensures c !in GripOf(x).Holds(InBucket(k)) {
        assert Bucket(s.sh.idle, k) == [];
      }
      var h :| c in GripOf(x).Holds(h);
      match h {
        case ByGetter(g) => assert TakenBy(s, g) == Some(c);
        case _ =>
      }
    }
  }

  /** ... and it stays so: after Close has returned nothing is ever dialed, started or pooled again. */
  lemma {:induction false} ShutForGood(cfg: Cfg, s: State, steps: seq<Step>, s': State)
    requires Inv(cfg, s) && s.closer.Returned? && Run(cfg, s, steps, s')
    ensures s'.closer.Returned? && s'.refills == map[] && s'.keyOf == s.keyOf
    ensures forall k :: Bucket(s'.sh.idle, k) == []
    decreases |steps|
  {
    if steps == [] {
    } else {
      var next := Apply(cfg, s, steps[0]);
      InvKept(cfg, s, steps[0]);
      ReturnedStays(cfg, s, steps[0]);
      ShutForGood(cfg, next, steps[1..], s');
    }
  }

  lemma ReturnedStays(cfg: Cfg, s: State, step: Step)
    requires Inv(cfg, s) && s.closer.Returned? && Enabled(cfg, s, step)
    ensures var s' := Apply(cfg, s, step); s'.closer == s.closer && s'.keyOf == s.keyOf
  {
    assert s.refills == map[];
    NoRefillStays(cfg, s, step);
  }

  lemma NoRefillStays(cfg: Cfg, s: State, step: Step)
    requires s.refills == map[] && s.closer.Returned? && Enabled(cfg, s, step)
    ensures var s' := Apply(cfg, s, step); s'.closer == s.closer && s'.keyOf == s.keyOf
  {
    if step.OfGetter? && step.get.Look? {
      LookToppedUp(cfg, s, step.g, step.get.id);
    }
  }

  /** After n failures in a row of a key its delay is min(5 * 2^(n-1), 60) seconds, the next refill of it may not start
      before that much after the last failure, and the failures are at least that far apart. */
  lemma RefillBackoff(cfg: Cfg, s: State, key: Key)
    requires Reachable(cfg, s) && key in s.sh.routes
    ensures var fails, route := TimesOf(s.fails, key), s.sh.routes[key];
      && Spaced(fails, BACKOFF_MIN, BACKOFF_MAX)
      && (fails == [] ==> route.retryDelay == 0 && route.retryAfter == 0)
      && (fails != [] ==>
            && route.retryDelay == Min(5 * SECOND * Pow2(|fails| - 1), 60 * SECOND)
            && route.retryAfter == fails[|fails| - 1] + route.retryDelay)
  {
    ReachableInv(cfg, s);
    assert Remembers(s.sh.routes[key], TimesOf(s.fails, key));
  }

  /** The refill that a step may start, whether get, warmup or rotate takes it: its key and its goroutine. */
  function Candidate(s: State, step: Step): Option<(Key, nat)> {
    match step
    case OfGetter(g, Look(id)) => if g in s.getters then Some((s.getters[g].key, id)) else None
    case OfSweeper(WarmKey(key, _, id)) => Some((key, id))
    case OfSweeper(SweepOne(key, _, id)) => Some((key, id))
    case _ => None
  }

  lemma CandidateStarts(cfg: Cfg, s: State, step: Step, key: Key, id: nat)
    requires Enabled(cfg, s, step) && Candidate(s, step) == Some((key, id))
    ensures var s' := Apply(cfg, s, step);
      && id !in s.refills && s'.refills.Keys <= s.refills.Keys + {id}
      && (id in s'.refills <==> Starts(cfg, s, s'.sh.idle, key))
  {
    match step
    case OfGetter(g, _) => LookToppedUp(cfg, s, g, id);
    case OfSweeper(WarmKey(_, domains, _)) => WarmToppedUp(cfg, s, key, domains, id);
    case OfSweeper(SweepOne(_, broken, _)) => SweepToppedUp(cfg, s, key, broken, id);
  }

  lemma OthersStartNone(cfg: Cfg, s: State, step: Step)
    requires Enabled(cfg, s, step) && Candidate(s, step).None?
    ensures Apply(cfg, s, step).refills.Keys <= s.refills.Keys
  {
    if step.OfRefill? {
      RefillStepped(cfg, s, step.r, step.refill);
    }
  }

  /** The pool is open, the key has no refill and room in its bucket, and its last failure is long enough ago: five
      seconds after one failure, twice as long after each further one, a minute at most. */
  predicate Due(cfg: Cfg, s: State, idle: map<Key, seq<Item>>, key: Key) {
    && !s.sh.closed && cfg.poolSize > 0
    && key !in s.sh.refilling && |Bucket(idle, key)| < cfg.poolSize
    && var fails := TimesOf(s.fails, key);
       fails == []
       || s.clock >= fails[|fails| - 1] + Min(5 * SECOND * Pow2(|fails| - 1), 60 * SECOND)
  }

  lemma DueIs(cfg: Cfg, s: State, idle: map<Key, seq<Item>>, key: Key)
    requires Recorded(s.sh.routes, s.fails)
    ensures Starts(cfg, s, idle, key) <==> Due(cfg, s, idle, key)
  {
    if key in s.sh.routes {
      assert Remembers(s.sh.routes[key], TimesOf(s.fails, key));
    }
  }

  /** A step of any actor starts a refill exactly when it is due for the key in question, with the bucket as the step
      leaves it. */
  lemma StartsExactly(cfg: Cfg, s: State, step: Step, r: nat)
    requires Reachable(cfg, s) && Enabled(cfg, s, step) && r !in s.refills
    ensures var s', c := Apply(cfg, s, step), Candidate(s, step);
      r in s'.refills <==> c.Some? && c.value.1 == r && Due(cfg, s, s'.sh.idle, c.value.0)
  {
    ReachableInv(cfg, s);
    StartsIff(cfg, s, step, r);
  }

  lemma StartsIff(cfg: Cfg, s: State, step: Step, r: nat)
    requires Recorded(s.sh.routes, s.fails) && Enabled(cfg, s, step) && r !in s.refills
    ensures var s', c := Apply(cfg, s, step), Candidate(s, step);
      r in s'.refills <==> c.Some? && c.value.1 == r && Due(cfg, s, s'.sh.idle, c.value.0)
  {
    match Candidate(s, step)
    case None => OthersStartNone(cfg, s, step);
    case Some(c) =>
      CandidateStarts(cfg, s, step, c.0, c.1);
      DueIs(cfg, s, Apply(cfg, s, step).sh.idle, c.0);
  }

  /** How a refill goes on: it dials exactly while the pool is open and the bucket has room; what it has dialed joins
      the bucket's end, ends the key's run of failures and makes it check again, unless the pool has closed meanwhile;
      then it is closed. A refused dial adds to the run. */
  lemma RefillExact(cfg: Cfg, s: State, r: nat, step: RefillStep)
    requires RefillEnabled(s, r, step)
    ensures var Refill(key, _, pc) := s.refills[r];
      var s' := Apply(cfg, s, OfRefill(r, step));
      && (step.Recheck? ==> (s'.refills[r].pc.Dial? <==> !s.sh.closed && |Bucket(s.sh.idle, key)| < cfg.poolSize))
      && (step.Recheck? ==> s'.refills[r].pc.Dial? || s'.refills[r].pc.Leave?)
      && (step.Put? && !s.sh.closed ==>
            && s'.refills[r].pc.Check?
            && Bucket(s'.sh.idle, key) == Bucket(s.sh.idle, key) + [Item(pc.conn, s.clock)])
      && (step.Put? && s.sh.closed ==> s'.refills[r].pc == Late(pc.conn) && s'.sh == s.sh)
      && (step.Connect? ==> s'.refills[r].pc == Got(step.conn))
      && (step.Refuse? ==> s'.refills[r].pc.Failed?)
      && (step.Report? && !s.sh.closed ==> TimesOf(s'.fails, key) == TimesOf(s.fails, key) + [s.clock])
      && (step.Put? && !s.sh.closed ==> TimesOf(s'.fails, key) == [])
      && (step.Drop? ==> pc.conn in s'.shut)
      && (step.Clear? ==> key !in s'.sh.refilling)
  {
  }

  /** What a get call makes of the connection it has taken: it hands it out exactly if its first read has not failed and
      it was younger than two minutes when the call began; otherwise it closes it and looks again. */
  lemma JudgeExact(cfg: Cfg, s: State, g: nat, broken: set<ConnId>)
    requires Reachable(cfg, s) && GetEnabled(cfg, s, g, Judge(broken))
    ensures var Getter(key, domains, now, hand) := s.getters[g];
      var s', item := Apply(cfg, s, OfGetter(g, Judge(broken))), hand.item;
      var good := item.conn !in broken && now - item.created < 120 * SECOND;
      && s'.getters[g] == Getter(key, domains, now, if good then Handed(item) else Looking)
      && (item.conn in s'.shut <==> !good)
  {
    ReachableInv(cfg, s);
    var grip, c := GripOf(HandsOf(s)), s.getters[g].hand.item.conn;
    assert c in grip.Holds(ByGetter(g)) && c !in grip.Holds(Shut);
  }

  /** Every idle connection belongs to a registered route, so the rotation that begins now will visit all of them; and
      the warmup visits every configured key. */
  lemma RotationVisitsAll(cfg: Cfg, s: State, now: Time)
    requires Reachable(cfg, s)
    ensures SweepEnabled(cfg, s, SweepBegin(now)) ==>
      var sweeper := Apply(cfg, s, OfSweeper(SweepBegin(now))).sweeper;
      sweeper.now == now && forall k :: Bucket(s.sh.idle, k) != [] ==> k in sweeper.todo
    ensures SweepEnabled(cfg, s, WarmBegin) ==>
      forall k :: k in cfg.keys ==> k in Apply(cfg, s, OfSweeper(WarmBegin)).sweeper.todo
  {
    ReachableInv(cfg, s);
  }

  /** A rotation leaves in a bucket exactly what is younger than two minutes at its own reading of the clock and has not
      failed, and pulls the rest out. */
  lemma SweepExact(cfg: Cfg, s: State, key: Key, broken: set<ConnId>, id: nat)
    requires SweepEnabled(cfg, s, SweepOne(key, broken, id))
    ensures var s', bucket := Apply(cfg, s, OfSweeper(SweepOne(key, broken, id))), Bucket(s.sh.idle, key);
      forall x :: x in bucket ==>
        if x.conn !in broken && s.sweeper.now - x.created < 120 * SECOND then x in Bucket(s'.sh.idle, key)
        else x !in Bucket(s'.sh.idle, key) && x.conn in s'.sweeper.pulled
  {
    SweepToppedUp(cfg, s, key, broken, id);
    SweepSplits(Bucket(s.sh.idle, key), s.sweeper.now, broken);
  }

  // ---------------------------------------------------------------------------------------------------------------
  // Sockets
  // ---------------------------------------------------------------------------------------------------------------

  /** A file descriptor the pool is answerable for: an open connection, or a dial in progress. */
  datatype Socket = Established(conn: ConnId) | Dialing(key: Key)

  function ConnSockets(conns: set<ConnId>): set<Socket> {
    set c | c in conns :: Established(c)
  }

  function RefillSocket(refill: Refill): set<Socket> {
    if refill.pc.Dial? then {Dialing(refill.key)}
    else if refill.pc.Got? || refill.pc.Late? then {Established(refill.pc.conn)}
    else {}
  }

  /** Everything but what callers have taken and what is closed. */
  ghost function Sockets(s: State): set<Socket> {
    ConnSockets(IdleConns(s.sh.idle)) + ConnSockets(PulledBy(s.sweeper)) + ConnSockets(PendingOf(s.closer))
    + set r, socket | r in s.refills && socket in RefillSocket(s.refills[r]) :: socket
  }

  /** The connection that a get call has taken. */
  function TakenBy(s: State, g: nat): Option<ConnId> {
    if g in s.getters && (s.getters[g].hand.Took? || s.getters[g].hand.Handed?) then Some(s.getters[g].hand.item.conn)
    else None
  }

  /** What a get call has taken is no longer the pool's. */
  lemma TakenLeaves(s: State, g: nat, c: ConnId)
    requires Unshared(GripOf(HandsOf(s))) && TakenBy(s, g) == Some(c)
    ensures Established(c) !in Sockets(s)
    ensures forall g' :: TakenBy(s, g') == Some(c) ==> g' == g
  {
    var grip := GripOf(HandsOf(s));
    assert c in grip.Holds(ByGetter(g));
    IdleConnsAre(s.sh.idle);
    forall r | r in s.refills ensures Established(c) !in RefillSocket(s.refills[r]) {
      assert c !in grip.Holds(ByRefill(r));
    }
    forall k ensures c !in Conns(Bucket(s.sh.idle, k)) {
      assert c !in grip.Holds(InBucket(k));
    }
    assert c !in grip.Holds(BySweeper) && c !in grip.Holds(ByCloser);
    forall g' | TakenBy(s, g') == Some(c) ensures g' == g {
      assert c in grip.Holds(ByGetter(g'));
    }
  }

  /** What anyone else holds is the pool's, unless it is closed. */
  lemma HeldStays(s: State, h: Holder, c: ConnId)
    requires c in GripOf(HandsOf(s)).Holds(h) && !h.Shut?
    ensures Established(c) in Sockets(s) || exists g :: TakenBy(s, g) == Some(c)
  {
    IdleConnsAre(s.sh.idle);
    match h
    case ByRefill(r) => assert Established(c) in RefillSocket(s.refills[r]);
    case InBucket(key) => assert c in IdleConns(s.sh.idle);
    case BySweeper =>
    case ByCloser =>
    case ByGetter(g) => assert TakenBy(s, g) == Some(c);
  }

  /** Every connection that is not closed is the pool's, or has been taken by exactly one get call. */
  lemma AllAnswered(cfg: Cfg, s: State, c: ConnId)
    requires Reachable(cfg, s) && c in s.keyOf && c !in s.shut
    ensures Established(c) in Sockets(s) || exists g :: TakenBy(s, g) == Some(c)
    ensures forall g, g' :: TakenBy(s, g) == Some(c) == TakenBy(s, g') ==> g == g'
    ensures forall g :: TakenBy(s, g) == Some(c) ==> Established(c) !in Sockets(s)
  {
    ReachableInv(cfg, s);
    var h :| c in GripOf(HandsOf(s)).Holds(h);
    HeldStays(s, h, c);
    forall g | TakenBy(s, g) == Some(c)
      ensures Established(c) !in Sockets(s) && forall g' :: TakenBy(s, g') == Some(c) ==> g' == g
    {
      TakenLeaves(s, g, c);
    }
  }

  function SocketKey(keyOf: map<ConnId, Key>, socket: Socket): Key {
    match socket
    case Established(c) => if c in keyOf then keyOf[c] else Key(0, false, "")
    case Dialing(key) => key
  }

  lemma {:induction false} ConnSocketsSize(conns: set<ConnId>)
    ensures |ConnSockets(conns)| == |conns|
    decreases |conns|
  {
    if conns == {} {
    } else {
      var c :| c in conns;
      ConnSocketsSize(conns - {c});
      assert ConnSockets(conns) == ConnSockets(conns - {c}) + {Established(c)};
    }
  }

  ghost function BusySockets(s: State, key: Key): set<Socket> {
    set r, socket | r in BusyFor(s, key) && socket in RefillSocket(s.refills[r]) :: socket
  }

  lemma BusySocketsSize(s: State, key: Key)
    requires Flags(s.refills, s.sh.refilling)
    ensures |BusySockets(s, key)| <= |BusyFor(s, key)|
  {
    if r :| r in BusyFor(s, key) {
      assert forall r' :: r' in BusyFor(s, key) ==> Live(s.refills, r') && Live(s.refills, r);
      assert BusyFor(s, key) == {r};
      var pc := s.refills[r].pc;
      var socket := if pc.Dial? then Dialing(key) else Established(pc.conn);
      assert Busy(s.refills, r);
      assert RefillSocket(s.refills[r]) == {socket};
      assert BusySockets(s, key) <= {socket};
      Counting.SubsetSize(BusySockets(s, key), {socket});
    } else {
      assert BusySockets(s, key) == {};
    }
  }

  /** The sockets of one key are the idle ones, the busy refill's, those pulled out and those being drained. */
  lemma SocketsOfKey(cfg: Cfg, s: State, key: Key, socket: Socket)
    requires Fitting(s.keyOf, GripOf(HandsOf(s))) && Labelled(cfg.keys, s.refills, s.keyOf) && socket in Sockets(s)
    ensures SocketKey(s.keyOf, socket) in cfg.keys
    ensures SocketKey(s.keyOf, socket) == key ==>
              socket in ConnSockets(Conns(Bucket(s.sh.idle, key))) + BusySockets(s, key)
                      + ConnSockets(OfKey(s.keyOf, PulledBy(s.sweeper), key))
                      + ConnSockets(OfKey(s.keyOf, PendingOf(s.closer), key))
  {
    if socket.Established? && socket.conn in IdleConns(s.sh.idle) {
      IdleSocket(s, socket.conn);
    } else if socket.Established? && socket.conn in PulledBy(s.sweeper) {
      assert socket.conn in GripOf(HandsOf(s)).Holds(BySweeper);
    } else if socket.Established? && socket.conn in PendingOf(s.closer) {
      assert socket.conn in GripOf(HandsOf(s)).Holds(ByCloser);
    } else {
      var r :| r in s.refills && socket in RefillSocket(s.refills[r]);
      InFlightSocket(cfg, s, r, socket);
    }
  }

  lemma IdleSocket(s: State, c: ConnId)
    requires Fitting(s.keyOf, GripOf(HandsOf(s))) && c in IdleConns(s.sh.idle)
    ensures c in s.keyOf && c in Conns(Bucket(s.sh.idle, s.keyOf[c]))
  {
    IdleConnsAre(s.sh.idle);
    var k :| c in Conns(Bucket(s.sh.idle, k));
    BucketKeys(s.keyOf, HandsOf(s), k);
  }

  lemma InFlightSocket(cfg: Cfg, s: State, r: nat, socket: Socket)
    requires Fitting(s.keyOf, GripOf(HandsOf(s))) && Labelled(cfg.keys, s.refills, s.keyOf)
    requires r in s.refills && socket in RefillSocket(s.refills[r])
    ensures SocketKey(s.keyOf, socket) == s.refills[r].key && s.refills[r].key in cfg.keys
    ensures socket in BusySockets(s, s.refills[r].key)
  {
    if socket.Established? {
      assert socket.conn in GripOf(HandsOf(s)).Holds(ByRefill(r));
    }
    assert Busy(s.refills, r) && r in BusyFor(s, s.refills[r].key);
  }

  lemma KeySocketBound(cfg: Cfg, s: State, key: Key)
    requires Inv(cfg, s)
    ensures |set x | x in Sockets(s) && SocketKey(s.keyOf, x) == key| <= 2 * cfg.poolSize
  {
    var mine := set x | x in Sockets(s) && SocketKey(s.keyOf, x) == key;
    var idle, busy := ConnSockets(Conns(Bucket(s.sh.idle, key))), BusySockets(s, key);
    var pulled := ConnSockets(OfKey(s.keyOf, PulledBy(s.sweeper), key));
    var pending := ConnSockets(OfKey(s.keyOf, PendingOf(s.closer), key));
    forall socket | socket in mine ensures socket in idle + busy + pulled + pending {
      SocketsOfKey(cfg, s, key, socket);
    }
    Counting.SubsetSize(mine, idle + busy + pulled + pending);
    ConnSocketsSize(Conns(Bucket(s.sh.idle, key)));
    ConnsBound(Bucket(s.sh.idle, key));
    ConnSocketsSize(OfKey(s.keyOf, PulledBy(s.sweeper), key));
    ConnSocketsSize(OfKey(s.keyOf, PendingOf(s.closer), key));
    BusySocketsSize(s, key);
    BusyAtMostOne(s, key);
    SteadyBound(cfg, s, key);
    assert |idle + busy + pulled + pending| <= |idle| + |busy| + |pulled| + |pending|;
  }

  lemma SteadyBound(cfg: Cfg, s: State, key: Key)
    requires Inv(cfg, s)
    ensures |Bucket(s.sh.idle, key)| + |BusyFor(s, key)| + |OfKey(s.keyOf, PendingOf(s.closer), key)| <= cfg.poolSize
  {
    BusyAtMostOne(s, key);
    if s.sh.closed {
      assert Bucket(s.sh.idle, key) == [];
    } else {
      assert OfKey(s.keyOf, PendingOf(s.closer), key) == {};
    }
    if r :| r in BusyFor(s, key) {
      assert Busy(s.refills, r);
    }
  }

  /** Idle, in flight, rotated out or draining: the pool never answers for more than 2 * PoolSize sockets per key. */
  lemma SocketBound(cfg: Cfg, s: State)
    requires Reachable(cfg, s)
    ensures |Sockets(s)| <= 2 * cfg.poolSize * |cfg.keys|
  {
    ReachableInv(cfg, s);
    var keyOf := s.keyOf;
    forall socket | socket in Sockets(s) ensures SocketKey(keyOf, socket) in cfg.keys {
      SocketsOfKey(cfg, s, Key(0, false, ""), socket);
    }
    var f := (x: Socket) => SocketKey(keyOf, x);
    forall k | k in cfg.keys ensures |Counting.Fiber(Sockets(s), f, k)| <= 2 * cfg.poolSize {
      KeySocketBound(cfg, s, k);
      assert Counting.Fiber(Sockets(s), f, k) == (set x | x in Sockets(s) && SocketKey(keyOf, x) == k);
    }
    Counting.FiberBound(Sockets(s), f, cfg.keys, 2 * cfg.poolSize);
  }
}
