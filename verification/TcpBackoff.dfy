/** The table of TCP fallback attempts: one attempt per address at a time, and growing pauses between failures. */
module TcpBackoff {
  import opened Units
  import opened Powers
  import opened Backoff

  const DELAY_MIN: nat := 30 * SECOND
  const DELAY_MAX: nat := HOUR

  type Address = string

  datatype Attempt = Attempt(connecting: bool, delay: nat, retryAfter: Time)

  datatype Outcome = Success | Failure | Canceled

  type Routes = map<Address, Attempt>

  /** An absent entry reads as the zero one. */
  function Entry(routes: Routes, a: Address): Attempt {
    if a in routes then routes[a] else Attempt(false, 0, 0)
  }

  predicate MayBegin(routes: Routes, a: Address, now: Time) {
    !Entry(routes, a).connecting && now >= Entry(routes, a).retryAfter
  }

  function Begun(routes: Routes, a: Address): Routes {
    routes[a := Entry(routes, a).(connecting := true)]
  }

  function After(e: Attempt, now: Time, outcome: Outcome): Attempt {
    var delay := if outcome.Failure? then NextDelay(e.delay, DELAY_MIN, DELAY_MAX) else e.delay;
    Attempt(false, delay, if outcome.Failure? then now + delay else e.retryAfter)
  }

  function Finished(routes: Routes, a: Address, now: Time, outcome: Outcome): Routes {
    if outcome.Success? || After(Entry(routes, a), now, outcome).delay == 0 then routes - {a}
    else routes[a := After(Entry(routes, a), now, outcome)]
  }

  class Table {
    var routes: Routes

    constructor ()
      ensures routes == map[]
    {
      routes := map[];
    }

    method Begin(a: Address, now: Time) returns (ok: bool)
      modifies this
      ensures ok <==> MayBegin(old(routes), a, now)
      ensures ok <==> !(a in old(routes) && (old(routes)[a].connecting || now < old(routes)[a].retryAfter))
      ensures routes == if ok then Begun(old(routes), a) else old(routes)
    {
      var route := if a in routes then routes[a] else Attempt(false, 0, 0);
      if route.connecting || now < route.retryAfter {
        return false;
      }
      route := route.(connecting := true);
      routes := routes[a := route];
      return true;
    }

    method Finish(a: Address, now: Time, outcome: Outcome) returns (delay: nat)
      modifies this
      ensures routes == Finished(old(routes), a, now, outcome)
      ensures delay == if outcome.Success? then 0 else After(Entry(old(routes), a), now, outcome).delay
    {
      if outcome.Success? {
        routes := routes - {a};
        return 0;
      }
      var route := if a in routes then routes[a] else Attempt(false, 0, 0);
      route := route.(connecting := false);
      if !outcome.Canceled? {
        route := route.(delay := Min(Max(route.delay * 2, DELAY_MIN), DELAY_MAX));
        route := route.(retryAfter := now + route.delay);
      }
      if route.delay == 0 {
        routes := routes - {a};
      } else {
        routes := routes[a := route];
      }
      return route.delay;
    }

    /** connectTCPFallback: what the context says before and after, what dialing and writing the init yield, and the
        two clock readings are given. A granted attempt is always finished, and a connection that is not returned is
        closed. */
    method Connect(a: Address, start: Time, end: Time, doneBefore: bool, dials: bool, writes: bool, doneAfter: bool)
      returns (connected: bool, dialed: bool, closed: bool)
      modifies this
      ensures connected <==> !doneBefore && MayBegin(old(routes), a, start) && dials && writes && !doneAfter
      ensures closed <==> dialed && !connected
      ensures !(!doneBefore && MayBegin(old(routes), a, start)) ==> routes == old(routes) && !dialed
      ensures !doneBefore && MayBegin(old(routes), a, start) ==>
        var outcome := if doneAfter then Canceled else if dials && writes then Success else Failure;
        routes == Finished(Begun(old(routes), a), a, end, outcome) && !Entry(routes, a).connecting
    {
      connected, dialed, closed := false, false, false;
      if doneBefore {
        return;
      }
      var granted := Begin(a, start);
      if !granted {
        return;
      }
      dialed := dials;
      var outcome := if dials && writes then Success else Failure;
      if doneAfter {
        outcome := Canceled;
      }
      var _ := Finish(a, end, outcome);
      if !outcome.Success? {
        if dialed {
          closed := true;
        }
        return;
      }
      connected := true;
    }
  }

  // ---------------------------------------------------------------------------------------------------------------
  // Runs
  // ---------------------------------------------------------------------------------------------------------------

  datatype Flight = Flight(address: Address, started: Time)

  /** The table, the attempts under way, and for every address the failures since it last succeeded. */
  datatype State = State(routes: Routes, flights: map<nat, Flight>, fails: map<Address, seq<Time>>, clock: Time)

  datatype Step =
    | Tick(elapsed: nat)
    | StepBegin(id: nat, address: Address, now: Time)
    | StepFinish(id: nat, now: Time, outcome: Outcome)

  const START: State := State(map[], map[], map[], 0)

  /** A clock is read before the lock is taken, so a reading may be stale; an attempt's own readings are in order. */
  predicate Enabled(s: State, step: Step) {
    match step
    case Tick(_) => true
    case StepBegin(id, a, now) => id !in s.flights && now <= s.clock && MayBegin(s.routes, a, now)
    case StepFinish(id, now, _) => id in s.flights && s.flights[id].started <= now <= s.clock
  }

  function FailsOf(fails: map<Address, seq<Time>>, a: Address): seq<Time> {
    if a in fails then fails[a] else []
  }

  function Recorded(fails: map<Address, seq<Time>>, a: Address, now: Time, outcome: Outcome): map<Address, seq<Time>> {
    match outcome
    case Success => fails - {a}
    case Failure => fails[a := FailsOf(fails, a) + [now]]
    case Canceled => fails
  }

  function Apply(s: State, step: Step): State
    requires Enabled(s, step)
  {
    match step
    case Tick(d) => s.(clock := s.clock + d)
    case StepBegin(id, a, now) => s.(routes := Begun(s.routes, a), flights := s.flights[id := Flight(a, now)])
    case StepFinish(id, now, outcome) =>
      var a := s.flights[id].address;
      s.(routes := Finished(s.routes, a, now, outcome), flights := s.flights - {id},
         fails := Recorded(s.fails, a, now, outcome))
  }

  ghost predicate Run(states: seq<State>, steps: seq<Step>) {
    && |states| == |steps| + 1
    && states[0] == START
    && forall i :: 0 <= i < |steps| ==> Enabled(states[i], steps[i]) && states[i + 1] == Apply(states[i], steps[i])
  }

  ghost predicate Reachable(s: State) {
    exists states: seq<State>, steps: seq<Step> :: Run(states, steps) && states[|states| - 1] == s
  }

  // ---------------------------------------------------------------------------------------------------------------
  // The invariant
  // ---------------------------------------------------------------------------------------------------------------

  /** The entry remembers exactly the failures since the last success. */
  ghost predicate Remembers(routes: Routes, a: Address, times: seq<Time>) {
    && Spaced(times, DELAY_MIN, DELAY_MAX)
    && (times == [] ==> a in routes ==> routes[a] == Attempt(true, 0, 0))
    && (times != [] ==>
          && a in routes
          && routes[a].delay == Delay(|times|, DELAY_MIN, DELAY_MAX)
          && routes[a].retryAfter == times[|times| - 1] + routes[a].delay)
  }

  /** Exactly the connecting entries have an attempt under way, one each, and it began in time. */
  ghost predicate Exclusive(routes: Routes, flights: map<nat, Flight>) {
    && (forall a :: a in routes && routes[a].connecting ==> exists id :: id in flights && flights[id].address == a)
    && (forall id :: id in flights ==>
          && flights[id].address in routes
          && routes[flights[id].address].connecting
          && flights[id].started >= routes[flights[id].address].retryAfter)
    && (forall i, j :: i in flights && j in flights && flights[i].address == flights[j].address ==> i == j)
  }

  ghost predicate Inv(s: State) {
    && Exclusive(s.routes, s.flights)
    && forall a :: Remembers(s.routes, a, FailsOf(s.fails, a))
  }

  lemma BeginKeeps(s: State, id: nat, a: Address, now: Time)
    requires Inv(s) && Enabled(s, StepBegin(id, a, now))
    ensures Inv(Apply(s, StepBegin(id, a, now)))
  {
    var routes, flights := Begun(s.routes, a), s.flights[id := Flight(a, now)];
    assert id in flights && flights[id].address == a;
    forall b | b in routes && routes[b].connecting ensures exists i :: i in flights && flights[i].address == b {
      if b != a {
        var i :| i in s.flights && s.flights[i].address == b;
        assert i in flights && flights[i].address == b;
      }
    }
    forall b ensures Remembers(routes, b, FailsOf(s.fails, b)) {
      assert Remembers(s.routes, b, FailsOf(s.fails, b));
    }
  }

  lemma FinishFrees(routes: Routes, flights: map<nat, Flight>, id: nat, now: Time, outcome: Outcome)
    requires Exclusive(routes, flights) && id in flights
    ensures Exclusive(Finished(routes, flights[id].address, now, outcome), flights - {id})
  {
    var a := flights[id].address;
    var routes', flights' := Finished(routes, a, now, outcome), flights - {id};
    forall b | b in routes' && routes'[b].connecting ensures exists i :: i in flights' && flights'[i].address == b {
      var i :| i in flights && flights[i].address == b;
      assert i in flights' && flights'[i].address == b;
    }
  }

  lemma FailureRemembers(routes: Routes, a: Address, times: seq<Time>, now: Time)
    requires Remembers(routes, a, times) && a in routes && now >= routes[a].retryAfter
    ensures Remembers(Finished(routes, a, now, Failure), a, times + [now])
  {
    var n := |times|;
    DelayStep(n, DELAY_MIN, DELAY_MAX);
    SpacedAppend(times, now, DELAY_MIN, DELAY_MAX);
    assert routes[a].delay == Delay(n, DELAY_MIN, DELAY_MAX);
    var e := After(routes[a], now, Failure);
    assert e == Attempt(false, Delay(n + 1, DELAY_MIN, DELAY_MAX), now + Delay(n + 1, DELAY_MIN, DELAY_MAX));
  }

  lemma CancelRemembers(routes: Routes, a: Address, times: seq<Time>, now: Time)
    requires Remembers(routes, a, times) && a in routes
    ensures Remembers(Finished(routes, a, now, Canceled), a, times)
  {
    if times != [] {
      DelayStep(|times| - 1, DELAY_MIN, DELAY_MAX);
    }
  }

  lemma FinishRemembers(routes: Routes, a: Address, times: seq<Time>, now: Time, outcome: Outcome)
    requires Remembers(routes, a, times) && a in routes && now >= routes[a].retryAfter
    ensures var times' := match outcome case Success => [] case Failure => times + [now] case Canceled => times;
      Remembers(Finished(routes, a, now, outcome), a, times')
  {
    match outcome
    case Success =>
    case Failure => FailureRemembers(routes, a, times, now);
    case Canceled => CancelRemembers(routes, a, times, now);
  }

  lemma FinishKeeps(s: State, id: nat, now: Time, outcome: Outcome)
    requires Inv(s) && Enabled(s, StepFinish(id, now, outcome))
    ensures Inv(Apply(s, StepFinish(id, now, outcome)))
  {
    var a := s.flights[id].address;
    var s' := Apply(s, StepFinish(id, now, outcome));
    FinishFrees(s.routes, s.flights, id, now, outcome);
    forall b ensures Remembers(s'.routes, b, FailsOf(s'.fails, b)) {
      assert Remembers(s.routes, b, FailsOf(s.fails, b));
      if b == a {
        FinishRemembers(s.routes, a, FailsOf(s.fails, a), now, outcome);
      } else {
        assert FailsOf(s'.fails, b) == FailsOf(s.fails, b);
      }
    }
  }

  lemma StepKeeps(s: State, step: Step)
    requires Inv(s) && Enabled(s, step)
    ensures Inv(Apply(s, step))
  {
    match step
    case Tick(_) =>
    case StepBegin(id, a, now) => BeginKeeps(s, id, a, now);
    case StepFinish(id, now, outcome) => FinishKeeps(s, id, now, outcome);
  }

  lemma {:induction false} RunKeeps(states: seq<State>, steps: seq<Step>, k: nat)
    requires Run(states, steps) && k < |states|
    ensures Inv(states[k])
  {
    if k == 0 {
    } else {
      RunKeeps(states, steps, k - 1);
      StepKeeps(states[k - 1], steps[k - 1]);
    }
  }

  lemma ReachableInv(s: State)
    requires Reachable(s)
    ensures Inv(s)
  {
    var states: seq<State>, steps: seq<Step> :| Run(states, steps) && states[|states| - 1] == s;
    RunKeeps(states, steps, |states| - 1);
  }

  // ---------------------------------------------------------------------------------------------------------------
  // Theorems
  // ---------------------------------------------------------------------------------------------------------------

  /** At most one attempt per address is under way, and while it is, no other may begin, whatever the clock reads. */
  lemma OneAttempt(s: State, i: nat)
    requires Reachable(s) && i in s.flights
    ensures forall j :: j in s.flights && s.flights[j].address == s.flights[i].address ==> j == i
    ensures forall now :: !MayBegin(s.routes, s.flights[i].address, now)
  {
    ReachableInv(s);
  }

  /** While none is under way, an attempt may begin exactly if the address has not failed since it last succeeded, or
      the last failure is long enough ago: 30 seconds after one failure, twice as long after each further one, an hour
      at most. */
  lemma BeginsExactly(s: State, id: nat, a: Address, now: Time)
    requires Reachable(s) && id !in s.flights && now <= s.clock
    ensures var fails := FailsOf(s.fails, a);
      Enabled(s, StepBegin(id, a, now)) <==>
        && (forall i :: i in s.flights ==> s.flights[i].address != a)
        && (fails == [] || now >= fails[|fails| - 1] + Min(30 * SECOND * Pow2(|fails| - 1), 3600 * SECOND))
  {
    ReachableInv(s);
    assert Remembers(s.routes, a, FailsOf(s.fails, a));
  }

  /** Every stored entry is connecting or has a delay between 30 seconds and an hour. */
  lemma StoredEntries(s: State, a: Address)
    requires Reachable(s) && a in s.routes
    ensures s.routes[a].connecting || 30 * SECOND <= s.routes[a].delay <= 3600 * SECOND
  {
    ReachableInv(s);
    var times := FailsOf(s.fails, a);
    assert Remembers(s.routes, a, times);
    if times != [] {
      DelayStep(|times| - 1, DELAY_MIN, DELAY_MAX);
    }
  }

  /** From the eighth failure on the delay is an hour. */
  lemma {:induction false} LongDelay(k: nat)
    requires k >= 8
    ensures Pow2(k - 1) >= 128 && Delay(k, DELAY_MIN, DELAY_MAX) == DELAY_MAX
  {
    if k == 8 {
      Pow2Table();
    } else {
      LongDelay(k - 1);
      assert Pow2(k - 1) == 2 * Pow2(k - 2);
    }
  }

  lemma FirstDelays()
    ensures Delay(1, DELAY_MIN, DELAY_MAX) == 30 * SECOND && Delay(2, DELAY_MIN, DELAY_MAX) == 60 * SECOND
    ensures Delay(3, DELAY_MIN, DELAY_MAX) == 120 * SECOND && Delay(4, DELAY_MIN, DELAY_MAX) == 240 * SECOND
    ensures Delay(5, DELAY_MIN, DELAY_MAX) == 480 * SECOND && Delay(6, DELAY_MIN, DELAY_MAX) == 960 * SECOND
    ensures Delay(7, DELAY_MIN, DELAY_MAX) == 1920 * SECOND
  {
    Pow2Table();
  }

  /** The delays add up to 30, 90, 210 ... seconds, and to an hour more for each failure beyond the eighth. */
  lemma {:induction false} TotalDelays(k: nat)
    ensures k <= 7 ==> TotalDelay(k, DELAY_MIN, DELAY_MAX) == 30 * (Pow2(k) - 1) * SECOND
    ensures k >= 7 ==> TotalDelay(k, DELAY_MIN, DELAY_MAX) == (3810 + 3600 * (k - 7)) * SECOND
  {
    Pow2Table();
    if k == 0 {
    } else {
      TotalDelays(k - 1);
      if k <= 7 {
        FirstDelays();
        assert k == 1 || k == 2 || k == 3 || k == 4 || k == 5 || k == 6 || k == 7;
      } else {
        LongDelay(k);
      }
    }
  }

  /** With no success in between and any number of cancellations, failure k + 1 of an address comes at least
      30 * (2^k - 1) seconds after failure 1 for k up to 7, and at least 3810 + 3600 * (k - 7) seconds beyond. */
  lemma FailureSpacing(s: State, a: Address, k: nat)
    requires Reachable(s) && k < |FailsOf(s.fails, a)|
    ensures var times := FailsOf(s.fails, a);
      times[k] >= times[0] + if k <= 7 then 30 * (Pow2(k) - 1) * SECOND else (3810 + 3600 * (k - 7)) * SECOND
  {
    ReachableInv(s);
    var times := FailsOf(s.fails, a);
    assert Remembers(s.routes, a, times);
    SpacedTotal(times, DELAY_MIN, DELAY_MAX, k);
    TotalDelays(k);
  }
}
