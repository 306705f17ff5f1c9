/** Both fallback loops as concurrent threads: every interleaving of reservations, dials, failures and refreshes. */
module AdmissionRuns {
  import opened Units
  import opened Admission

  const MAX_ATTEMPTS: nat := 3

  /** Where a fallback loop stands. Dialing and Writing hold a reservation; Writing has a connection open. */
  datatype Thread =
    | Looping(worker: bool, rest: seq<Domain>, attempts: nat)
    | Dialing(worker: bool, domain: Domain, rest: seq<Domain>, attempts: nat)
    | Writing(worker: bool, domain: Domain, rest: seq<Domain>, attempts: nat)
    | Promoting(domain: Domain)
    | Connected
    | Gone

  function Held(t: Thread): Option<Key> {
    if t.Dialing? || t.Writing? then Some(Key(t.domain, t.worker)) else None
  }

  /** Besides the threads, how many reservations each was granted and how many it gave back. */
  datatype State = State(sh: Shared, threads: map<nat, Thread>, grants: map<nat, nat>, finishes: map<nat, nat>,
                         clock: Time)

  datatype Step =
    | Tick(elapsed: nat)
    | LookUp(domain: Domain)
    | Refresh(next: Shared)
    | Start(id: nat, worker: bool, order: seq<Domain>)
    | Leave(id: nat)
    | Refuse(id: nat)
    | Grant(id: nat)
    | DialOk(id: nat)
    | Fail(id: nat, outcome: Outcome, drift: nat)
    | Succeed(id: nat)
    | Promote(id: nat, dc: int, normalized: Domain)

  /** A loop goes on while a domain is left; the proxy loop also stops after three dials. */
  predicate Wants(t: Thread) {
    t.Looping? && t.rest != [] && (t.worker || t.attempts < MAX_ATTEMPTS)
  }

  function Wanted(t: Thread): Key
    requires Wants(t)
  {
    Key(t.rest[0], t.worker)
  }

  ghost predicate Enabled(s: State, step: Step) {
    match step
    case Tick(_) => true
    case LookUp(_) => true
    case Refresh(next) => next.pool != [] && NoDup(next.pool) && Refreshed(s.sh, next, next.pool)
    case Start(id, _, _) => id !in s.threads
    case Leave(id) => id in s.threads && s.threads[id].Looping?
    case Refuse(id) => id in s.threads && Wants(s.threads[id]) && !MayDial(s.sh, Wanted(s.threads[id]), s.clock)
    case Grant(id) => id in s.threads && Wants(s.threads[id]) && MayDial(s.sh, Wanted(s.threads[id]), s.clock)
    case DialOk(id) => id in s.threads && s.threads[id].Dialing?
    case Fail(id, outcome, _) => id in s.threads && Held(s.threads[id]).Some? && !outcome.Success?
    case Succeed(id) => id in s.threads && s.threads[id].Writing?
    case Promote(id, _, _) => id in s.threads && s.threads[id].Promoting?
  }

  function Bump(m: map<nat, nat>, id: nat): map<nat, nat> {
    m[id := (if id in m then m[id] else 0) + 1]
  }

  ghost function Apply(s: State, step: Step): State
    requires Enabled(s, step)
  {
    match step
    case Tick(d) => s.(clock := s.clock + d)
    case LookUp(d) => s.(sh := s.sh.(fails := s.sh.fails.(cf := Pruned(s.sh.fails.cf, d, s.clock))))
    case Refresh(next) => s.(sh := next)
    case Start(id, worker, order) => s.(threads := s.threads[id := Looping(worker, order, 0)])
    case Leave(id) => s.(threads := s.threads[id := Gone])
    case Refuse(id) =>
      var t := s.threads[id];
      s.(threads := s.threads[id := Looping(t.worker, t.rest[1..], t.attempts)])
    case Grant(id) =>
      var t := s.threads[id];
      s.(sh := Reserve(s.sh, Wanted(t)),
         threads := s.threads[id := Dialing(t.worker, t.rest[0], t.rest[1..], t.attempts + 1)],
         grants := Bump(s.grants, id))
    case DialOk(id) =>
      var t := s.threads[id];
      s.(threads := s.threads[id := Writing(t.worker, t.domain, t.rest, t.attempts)])
    case Fail(id, outcome, drift) =>
      var t := s.threads[id];
      s.(sh := Settle(s.sh, Held(t).value, s.clock, drift, outcome),
         threads := s.threads[id := Looping(t.worker, t.rest, t.attempts)],
         finishes := Bump(s.finishes, id),
         clock := s.clock + drift)
    case Succeed(id) =>
      var t := s.threads[id];
      s.(sh := Settle(s.sh, Held(t).value, s.clock, 0, Success),
         threads := s.threads[id := if t.worker then Connected else Promoting(t.domain)],
         finishes := Bump(s.finishes, id))
    case Promote(id, dc, normalized) =>
      s.(sh := Promoted(s.sh, dc, normalized), threads := s.threads[id := Connected])
  }

  ghost predicate Initial(s: State) {
    s.sh.dials == map[] && s.threads == map[] && s.grants == map[] && s.finishes == map[] && NoDup(s.sh.pool)
  }

  /** A dial is granted exactly while its loop has domains left, the proxy loop having had fewer than three dials, and
      the next domain is in the pool, is not cooling and has fewer than four dials under way; then it counts one
      more. */
  lemma GrantExact(s: State, id: nat)
    requires id in s.threads && s.threads[id].Looping?
    ensures var Looping(worker, rest, attempts) := s.threads[id];
      Enabled(s, Grant(id)) <==>
        && rest != [] && (worker || attempts < 3)
        && var d, fails := rest[0], if worker then s.sh.fails.workers else s.sh.fails.cf;
           && d in (if worker then s.sh.workerPool else s.sh.pool)
           && !(d in fails && s.clock < fails[d])
           && Count(s.sh.dials, Key(d, worker)) < 4
    ensures Enabled(s, Grant(id)) ==>
      var k, s' := Wanted(s.threads[id]), Apply(s, Grant(id));
      Count(s'.sh.dials, k) == Count(s.sh.dials, k) + 1 && Held(s'.threads[id]) == Some(k)
  {
  }

  ghost predicate Run(states: seq<State>, steps: seq<Step>) {
    && |states| == |steps| + 1
    && Initial(states[0])
    && forall i :: 0 <= i < |steps| ==> Enabled(states[i], steps[i]) && states[i + 1] == Apply(states[i], steps[i])
  }

  // ---------------------------------------------------------------------------------------------------------------
  // Accounting
  // ---------------------------------------------------------------------------------------------------------------

  /** The threads that hold a reservation of `k`. */
  ghost function Holders(threads: map<nat, Thread>, k: Key): set<nat> {
    set id | id in threads && Held(threads[id]) == Some(k)
  }

  ghost predicate Counted(dials: map<Key, nat>, threads: map<nat, Thread>) {
    forall k :: Count(dials, k) == |Holders(threads, k)| <= MAX_DIALS
  }

  ghost predicate Balanced(s: State) {
    forall id ::
      Count1(s.grants, id) == Count1(s.finishes, id) + if id in s.threads && Held(s.threads[id]).Some? then 1 else 0
  }

  function Count1(m: map<nat, nat>, id: nat): nat {
    if id in m then m[id] else 0
  }

  ghost predicate Bounded(threads: map<nat, Thread>) {
    forall id ::
      id in threads && (threads[id].Looping? || threads[id].Dialing? || threads[id].Writing?) && !threads[id].worker
      ==> threads[id].attempts <= MAX_ATTEMPTS
  }

  ghost predicate Inv(s: State) {
    Counted(s.sh.dials, s.threads) && Balanced(s) && Bounded(s.threads) && NoDup(s.sh.pool)
  }

  /** What a change of one thread does to the holders of each key. */
  lemma HoldersChange(threads: map<nat, Thread>, id: nat, t: Thread, k: Key)
    ensures Holders(threads[id := t], k) == (Holders(threads, k) - {id}) + if Held(t) == Some(k) then {id} else {}
    ensures id in Holders(threads, k) <==> id in threads && Held(threads[id]) == Some(k)
  {
  }

  /** A move that neither takes nor returns a reservation. */
  lemma Unmoved(dials: map<Key, nat>, threads: map<nat, Thread>, id: nat, t: Thread)
    requires Counted(dials, threads) && Held(t) == if id in threads then Held(threads[id]) else None
    ensures Counted(dials, threads[id := t])
  {
    forall k ensures Count(dials, k) == |Holders(threads[id := t], k)| <= MAX_DIALS {
      HoldersChange(threads, id, t, k);
      if Held(t) == Some(k) {
        assert Holders(threads, k) - {id} + {id} == Holders(threads, k);
      } else {
        assert Holders(threads, k) - {id} == Holders(threads, k);
      }
    }
  }

  /** What a move of one thread does to the number of holders of one key. */
  lemma HoldersCount(threads: map<nat, Thread>, id: nat, t: Thread, k: Key)
    requires id in threads
    ensures |Holders(threads[id := t], k)| + (if Held(threads[id]) == Some(k) then 1 else 0)
         == |Holders(threads, k)| + if Held(t) == Some(k) then 1 else 0
  {
    HoldersChange(threads, id, t, k);
    var without := Holders(threads, k) - {id};
    assert Holders(threads, k) == if Held(threads[id]) == Some(k) then without + {id} else without;
  }

  lemma Taken(dials: map<Key, nat>, threads: map<nat, Thread>, id: nat, t: Thread, k: Key)
    requires Counted(dials, threads) && id in threads && Held(threads[id]) == None && Held(t) == Some(k)
    requires Count(dials, k) < MAX_DIALS
    ensures Counted(dials[k := Count(dials, k) + 1], threads[id := t])
  {
    var dials', threads' := dials[k := Count(dials, k) + 1], threads[id := t];
    forall j ensures Count(dials', j) == |Holders(threads', j)| <= MAX_DIALS {
      HoldersCount(threads, id, t, j);
      assert Count(dials, j) == |Holders(threads, j)|;
    }
  }

  lemma Returned(dials: map<Key, nat>, threads: map<nat, Thread>, id: nat, t: Thread, k: Key)
    requires Counted(dials, threads) && id in threads && Held(threads[id]) == Some(k) && Held(t) == None
    ensures Counted(Released(dials, k), threads[id := t])
  {
    var dials', threads' := Released(dials, k), threads[id := t];
    forall j ensures Count(dials', j) == |Holders(threads', j)| <= MAX_DIALS {
      HoldersCount(threads, id, t, j);
      assert Count(dials, j) == |Holders(threads, j)|;
    }
  }

  lemma CountedKept(s: State, step: Step)
    requires Counted(s.sh.dials, s.threads) && Enabled(s, step)
    ensures var s' := Apply(s, step); Counted(s'.sh.dials, s'.threads)
  {
    var s' := Apply(s, step);
    match step
    case Tick(_) =>
    case LookUp(_) =>
    case Refresh(_) =>
    case Start(id, _, _) => Unmoved(s.sh.dials, s.threads, id, s'.threads[id]);
    case Leave(id) => Unmoved(s.sh.dials, s.threads, id, s'.threads[id]);
    case Refuse(id) => Unmoved(s.sh.dials, s.threads, id, s'.threads[id]);
    case Grant(id) => Taken(s.sh.dials, s.threads, id, s'.threads[id], Wanted(s.threads[id]));
    case DialOk(id) => Unmoved(s.sh.dials, s.threads, id, s'.threads[id]);
    case Fail(id, _, _) => Returned(s.sh.dials, s.threads, id, s'.threads[id], Held(s.threads[id]).value);
    case Succeed(id) => Returned(s.sh.dials, s.threads, id, s'.threads[id], Held(s.threads[id]).value);
    case Promote(id, _, _) => Unmoved(s.sh.dials, s.threads, id, s'.threads[id]);
  }

  lemma BalancedKept(s: State, step: Step)
    requires Balanced(s) && Enabled(s, step)
    ensures Balanced(Apply(s, step))
  {
    var s' := Apply(s, step);
    forall id
      ensures Count1(s'.grants, id)
           == Count1(s'.finishes, id) + if id in s'.threads && Held(s'.threads[id]).Some? then 1 else 0
    {
      assert Count1(s.grants, id)
          == Count1(s.finishes, id) + if id in s.threads && Held(s.threads[id]).Some? then 1 else 0;
    }
  }

  lemma InvKept(s: State, step: Step)
    requires Inv(s) && Enabled(s, step)
    ensures Inv(Apply(s, step))
  {
    CountedKept(s, step);
    BalancedKept(s, step);
  }

  lemma {:induction false} RunKeeps(states: seq<State>, steps: seq<Step>, k: nat)
    requires Run(states, steps) && k < |states|
    ensures Inv(states[k])
  {
    if k > 0 {
      RunKeeps(states, steps, k - 1);
      InvKept(states[k - 1], steps[k - 1]);
    } else {
      forall key ensures Count(states[0].sh.dials, key) == |Holders(states[0].threads, key)| <= MAX_DIALS {
        assert Holders(states[0].threads, key) == {};
      }
    }
  }

  /** In every state of every run the counter of a domain is the number of dials under way, never more than four, and
      each thread has given back every reservation it was granted except the one it holds. */
  lemma DialAccounting(states: seq<State>, steps: seq<Step>, i: nat)
    requires Run(states, steps) && i < |states|
    ensures var s := states[i];
      && (forall k :: Count(s.sh.dials, k) == |Holders(s.threads, k)| <= 4)
      && (forall id :: id in s.threads ==>
            Count1(s.grants, id) == Count1(s.finishes, id) + if Held(s.threads[id]).Some? then 1 else 0)
      && NoDup(s.sh.pool)
  {
    RunKeeps(states, steps, i);
  }

  // ---------------------------------------------------------------------------------------------------------------
  // Cooldown windows
  // ---------------------------------------------------------------------------------------------------------------

  ghost predicate Cooling(s: State, k: Key, until: Time) {
    k.domain in s.sh.fails.Get(k.worker) && s.sh.fails.Get(k.worker)[k.domain] == until
  }

  /** The steps that may end a cooldown early: a success, a promotion, a refresh without the domain. */
  ghost predicate Lifts(s: State, step: Step, k: Key)
    requires Enabled(s, step)
  {
    match step
    case Succeed(id) => Held(s.threads[id]) == Some(k)
    case Promote(_, _, normalized) => normalized == k.domain && !k.worker
    case Refresh(next) => k.domain !in next.pool && !k.worker
    case _ => false
  }

  ghost predicate Grants(s: State, step: Step, k: Key)
    requires Enabled(s, step)
  {
    step.Grant? && Wanted(s.threads[step.id]) == k
  }

  /** The step ends a dial of `k` with what finishFallbackDial reports as a first failure. */
  ghost predicate FirstFailure(s: State, step: Step, k: Key)
    requires Enabled(s, step)
  {
    && step.Fail? && Held(s.threads[step.id]) == Some(k)
    && First(s.sh.fails.Get(k.worker), k.domain, s.clock, step.outcome)
  }

  lemma CoolingKept(s: State, step: Step, k: Key, until: Time)
    requires Enabled(s, step) && Cooling(s, k, until) && s.clock < until && !Lifts(s, step, k)
    ensures Cooling(Apply(s, step), k, until)
    ensures !Grants(s, step, k) && !FirstFailure(s, step, k)
  {
    match step
    case Refresh(next) => assert k.worker || k.domain in Kept(s.sh.fails.cf, next.pool);
    case _ =>
  }

  lemma {:induction false} ClockRuns(states: seq<State>, steps: seq<Step>, i: nat, j: nat)
    requires Run(states, steps) && i <= j < |states|
    ensures states[i].clock <= states[j].clock
    decreases j - i
  {
    if i == j {
    } else {
      ClockRuns(states, steps, i, j - 1);
      assert states[j] == Apply(states[j - 1], steps[j - 1]);
    }
  }

  /** Until a cooldown has passed, and unless a success, a promotion or a refresh lifts it, no dial of the domain is
      granted and no first failure of it is reported. */
  lemma {:induction false} CooldownWindow(states: seq<State>, steps: seq<Step>, i: nat, j: nat, k: Key, until: Time)
    requires Run(states, steps) && i <= j < |states|
    requires Cooling(states[i], k, until) && (i < j ==> states[j - 1].clock < until)
    requires forall m :: i <= m < j ==> !Lifts(states[m], steps[m], k)
    ensures Cooling(states[j], k, until)
    ensures forall m :: i <= m < j ==> !Grants(states[m], steps[m], k) && !FirstFailure(states[m], steps[m], k)
    decreases j - i
  {
    if i == j {
    } else {
      if i < j - 1 {
        ClockRuns(states, steps, j - 2, j - 1);
      }
      CooldownWindow(states, steps, i, j - 1, k, until);
      CoolingKept(states[j - 1], steps[j - 1], k, until);
    }
  }

  /** Two first failures of one domain with nothing to lift the cooldown between them are at least the first one's
      cooldown apart: a minute, or five for a name that did not resolve. */
  lemma FirstFailuresApart(states: seq<State>, steps: seq<Step>, i: nat, j: nat, k: Key)
    requires Run(states, steps) && i < j < |steps|
    requires FirstFailure(states[i], steps[i], k) && FirstFailure(states[j], steps[j], k)
    requires forall m :: i < m < j ==> !Lifts(states[m], steps[m], k)
    ensures states[j].clock >= states[i + 1].clock + (if steps[i].outcome.dns then 300 else 60) * SECOND
  {
    var until := states[i + 1].clock + Cooldown(steps[i].outcome.dns);
    assert states[i + 1] == Apply(states[i], steps[i]);
    assert Cooling(states[i + 1], k, until);
    if states[j].clock < until {
      if i + 1 < j {
        ClockRuns(states, steps, j - 1, j);
      }
      CooldownWindow(states, steps, i + 1, j, k, until);
    }
  }
}
