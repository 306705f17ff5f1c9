/** A session's reservations are the steps of two threads among all those that share the counters. */
module SessionAdmission {
  import opened Admission
  import AdmissionRuns
  import Routing

  type Thread = AdmissionRuns.Thread
  type State = AdmissionRuns.State
  type Step = AdmissionRuns.Step

  /** What a step does to the reservations of thread `id`. */
  ghost function Deed(s: State, step: Step, id: nat): seq<Routing.Event>
    requires AdmissionRuns.Enabled(s, step)
  {
    match step
    case Grant(i) => if i == id then [Routing.Reserved(AdmissionRuns.Wanted(s.threads[id]))] else []
    case Fail(i, _, _) => if i == id then [Routing.Released(AdmissionRuns.Held(s.threads[id]).value)] else []
    case Succeed(i) => if i == id then [Routing.Released(AdmissionRuns.Held(s.threads[id]).value)] else []
    case _ => []
  }

  /** What the first `n` steps of a run do to them. */
  ghost function Deeds(states: seq<State>, steps: seq<Step>, id: nat, n: nat): seq<Routing.Event>
    requires AdmissionRuns.Run(states, steps) && n <= |steps|
  {
    if n == 0 then [] else Deeds(states, steps, id, n - 1) + Deed(states[n - 1], steps[n - 1], id)
  }

  /** How many domains of a round a thread has left behind. */
  function Passed(round: Routing.Round, t: Thread): int {
    if t.Looping? || t.Dialing? || t.Writing? then |round.domains| - |t.rest| else 0
  }

  /** In this step thread `id` gets the answers that the round's attempts say. */
  ghost predicate Answered(round: Routing.Round, s: State, step: Step, id: nat)
    requires AdmissionRuns.Enabled(s, step)
  {
    (step.Leave? || step.Refuse? || step.Grant? || step.Fail? || step.Succeed?) && step.id == id ==>
      var n := Passed(round, s.threads[id]);
      match step
      case Leave(_) => n >= 0 && round.Over(n)
      case Refuse(_) => n >= 0 && !round.attempts(n).ended && !round.attempts(n).granted
      case Grant(_) => n >= 0 && !round.attempts(n).ended && round.attempts(n).granted
      case Fail(_, _, _) => n >= 1 && !round.attempts(n - 1).Succeeds()
      case Succeed(_) => n >= 1 && round.attempts(n - 1).Succeeds()
  }

  /** Where a thread is in the ledger of its round. */
  ghost predicate Tracks(round: Routing.Round, t: Thread, deeds: seq<Routing.Event>) {
    var n := Passed(round, t);
    match t
    case Looping(worker, rest, attempts) =>
      && worker == round.worker && n >= 0 && rest == round.domains[n..] && attempts == Routing.Grants(round.attempts, n)
      && deeds == round.Ledger(n) && round.Made(0) == round.Made(n)
    case Dialing(worker, domain, rest, attempts) => Holding(round, worker, domain, rest, attempts, n, deeds)
    case Writing(worker, domain, rest, attempts) => Holding(round, worker, domain, rest, attempts, n, deeds)
    case _ => deeds == round.Books()
  }

  ghost predicate Holding(round: Routing.Round, worker: bool, domain: Domain, rest: seq<Domain>, attempts: nat, n: int,
                          deeds: seq<Routing.Event>) {
    && worker == round.worker && 1 <= n <= |round.domains|
    && rest == round.domains[n..] && domain == round.domains[n - 1]
    && attempts == Routing.Grants(round.attempts, n) && round.attempts(n - 1).granted && !round.Over(n - 1)
    && deeds == round.Ledger(n - 1) + [Routing.Reserved(round.KeyAt(n - 1))]
    && round.Made(0) == round.Made(n - 1)
  }

  lemma RefuseTracks(round: Routing.Round, t: Thread, deeds: seq<Routing.Event>)
    requires AdmissionRuns.Wants(t) && Tracks(round, t, deeds)
    requires var n := Passed(round, t); !round.attempts(n).ended && !round.attempts(n).granted
    ensures Tracks(round, AdmissionRuns.Looping(t.worker, t.rest[1..], t.attempts), deeds)
  {
    Further(round, Passed(round, t));
  }

  lemma GrantTracks(round: Routing.Round, t: Thread, deeds: seq<Routing.Event>)
    requires AdmissionRuns.Wants(t) && Tracks(round, t, deeds)
    requires var n := Passed(round, t); !round.attempts(n).ended && round.attempts(n).granted
    ensures Tracks(round, AdmissionRuns.Dialing(t.worker, t.rest[0], t.rest[1..], t.attempts + 1),
                   deeds + [Routing.Reserved(AdmissionRuns.Wanted(t))])
  {
    Further(round, Passed(round, t));
  }

  lemma FailTracks(round: Routing.Round, t: Thread, deeds: seq<Routing.Event>)
    requires AdmissionRuns.Held(t).Some? && Tracks(round, t, deeds)
    requires !round.attempts(Passed(round, t) - 1).Succeeds()
    ensures Tracks(round, AdmissionRuns.Looping(t.worker, t.rest, t.attempts),
                   deeds + [Routing.Released(AdmissionRuns.Held(t).value)])
  {
    Further(round, Passed(round, t) - 1);
  }

  lemma SuccessTracks(round: Routing.Round, t: Thread, deeds: seq<Routing.Event>)
    requires AdmissionRuns.Held(t).Some? && Tracks(round, t, deeds)
    requires round.attempts(Passed(round, t) - 1).Succeeds()
    ensures deeds + [Routing.Released(AdmissionRuns.Held(t).value)] == round.Books()
  {
    Further(round, Passed(round, t) - 1);
  }

  predicate Moves(step: Step, id: nat) {
    !step.Tick? && !step.LookUp? && !step.Refresh? && step.id == id
  }

  lemma Elsewhere(s: State, step: Step, id: nat)
    requires AdmissionRuns.Enabled(s, step) && id in s.threads && !Moves(step, id)
    ensures var s' := AdmissionRuns.Apply(s, step); id in s'.threads && s'.threads[id] == s.threads[id]
    ensures Deed(s, step, id) == []
  {
  }

  /** The moves that have to do with no reservation. */
  lemma MovesOn(round: Routing.Round, s: State, step: Step, id: nat, deeds: seq<Routing.Event>)
    requires AdmissionRuns.Enabled(s, step) && id in s.threads && Tracks(round, s.threads[id], deeds)
    requires Moves(step, id) && (step.Leave? || step.DialOk? || step.Promote?) && Answered(round, s, step, id)
    ensures var s' := AdmissionRuns.Apply(s, step); id in s'.threads && Tracks(round, s'.threads[id], deeds)
    ensures Deed(s, step, id) == []
  {
  }

  /** A thread keeps to its ledger as long as it gets the round's answers. */
  lemma TracksKept(round: Routing.Round, s: State, step: Step, id: nat, deeds: seq<Routing.Event>)
    requires AdmissionRuns.Enabled(s, step) && id in s.threads && Tracks(round, s.threads[id], deeds)
    requires Answered(round, s, step, id)
    ensures var s' := AdmissionRuns.Apply(s, step);
      id in s'.threads && Tracks(round, s'.threads[id], deeds + Deed(s, step, id))
  {
    NoBack(deeds);
    if !Moves(step, id) {
      Elsewhere(s, step, id);
    } else {
      match step
      case Refuse(_) => RefuseTracks(round, s.threads[id], deeds);
      case Grant(_) => GrantTracks(round, s.threads[id], deeds);
      case Fail(_, _, _) => FailTracks(round, s.threads[id], deeds);
      case Succeed(_) => SuccessTracks(round, s.threads[id], deeds);
      case _ => MovesOn(round, s, step, id, deeds);
    }
  }

  lemma NoBack(deeds: seq<Routing.Event>)
    ensures deeds + [] == deeds
  {
  }

  lemma Further(round: Routing.Round, n: nat)
    requires n < |round.domains| && !round.Over(n)
    ensures round.domains[n..][0] == round.domains[n] && round.domains[n..][1..] == round.domains[n + 1..]
    ensures round.attempts(n).granted ==>
        round.Ledger(n) + [Routing.Reserved(round.KeyAt(n))] + [Routing.Released(round.KeyAt(n))] == round.Ledger(n + 1)
    ensures !round.attempts(n).granted ==> round.Ledger(n) == round.Ledger(n + 1)
    ensures round.Made(n) == if round.attempts(n).Succeeds() then n + 1 else round.Made(n + 1)
  {
    round.Further(n, []);
  }

  /** Threads stay known. */
  lemma {:induction false} Unknown(states: seq<State>, steps: seq<Step>, id: nat, k: nat, n: nat)
    requires AdmissionRuns.Run(states, steps) && n <= k < |states| && id !in states[k].threads
    ensures id !in states[n].threads
    decreases k - n
  {
    if n == k {
    } else {
      Unknown(states, steps, id, k, n + 1);
      assert states[n + 1] == AdmissionRuns.Apply(states[n], steps[n]);
    }
  }

  lemma {:induction false} NoDeeds(states: seq<State>, steps: seq<Step>, id: nat, k: nat, n: nat)
    requires AdmissionRuns.Run(states, steps) && n <= k < |states| && id !in states[k].threads
    ensures Deeds(states, steps, id, n) == []
  {
    if n == 0 {
    } else {
      NoDeeds(states, steps, id, k, n - 1);
      Unknown(states, steps, id, k, n - 1);
    }
  }

  /** Thread `id` starts with step `k` of a run, and up to step `n` it gets the round's answers. */
  ghost predicate Runs(round: Routing.Round, states: seq<State>, steps: seq<Step>, id: nat, k: nat, n: nat) {
    && AdmissionRuns.Run(states, steps) && k < n <= |steps|
    && steps[k] == AdmissionRuns.Start(id, round.worker, round.domains)
    && forall i :: k < i < n ==> Answered(round, states[i], steps[i], id)
  }

  /** However a run interleaves its threads, what a thread has reserved and given back is a first part of its round's
      ledger, and once it is done the whole. */
  lemma {:induction false} ThreadKeepsBooks(round: Routing.Round, states: seq<State>, steps: seq<Step>, id: nat, k: nat,
                                            n: nat)
    requires Runs(round, states, steps, id, k, n)
    ensures id in states[n].threads && Tracks(round, states[n].threads[id], Deeds(states, steps, id, n))
    decreases n
  {
    assert states[n] == AdmissionRuns.Apply(states[n - 1], steps[n - 1]);
    if n == k + 1 {
      NoDeeds(states, steps, id, k, k);
      assert round.domains[0..] == round.domains;
    } else {
      ThreadKeepsBooks(round, states, steps, id, k, n - 1);
      TracksKept(round, states[n - 1], steps[n - 1], id, Deeds(states, steps, id, n - 1));
    }
  }

  // ---------------------------------------------------------------------------------------------------------------
  // A session
  // ---------------------------------------------------------------------------------------------------------------

  predicate Done(t: Thread) {
    t.Promoting? || t.Connected? || t.Gone?
  }

  /** Whether a session comes to the dialing loop of the worker route, and to that of the proxy route. */
  ghost predicate DialsWorkers(setup: Routing.Setup, env: Routing.Env) {
    && !Routing.TakesInit(env.direct)
    && setup.useWorker && setup.hasTarget && !Routing.TakesInit(env.pooledWorker)
  }

  ghost predicate DialsProxies(setup: Routing.Setup, env: Routing.Env) {
    && !Routing.TakesInit(env.direct)
    && Routing.NoneBelow(setup, env, 3) && setup.useCf && (setup.cfFirst || Routing.Refuses(setup, env, Routing.Tcp))
  }

  /** Thread `id` is that of a round, and has come to its end. */
  ghost predicate Ran(round: Routing.Round, states: seq<State>, steps: seq<Step>, id: nat, k: nat) {
    && Runs(round, states, steps, id, k, |steps|)
    && (id in states[|steps|].threads ==> Done(states[|steps|].threads[id]))
  }

  lemma RoundRan(round: Routing.Round, states: seq<State>, steps: seq<Step>, id: nat, k: nat)
    requires Ran(round, states, steps, id, k)
    ensures Deeds(states, steps, id, |steps|) == round.Books()
  {
    ThreadKeepsBooks(round, states, steps, id, k, |steps|);
  }

  /** What a session reserves and gives back, in every environment, is what the threads of its two dialing loops do in
      any run of all threads in which they get that environment's answers. */
  lemma SessionIsThreads(setup: Routing.Setup, env: Routing.Env, states: seq<State>, steps: seq<Step>, w: nat, kw: nat,
                         p: nat, kp: nat)
    requires AdmissionRuns.Run(states, steps)
    requires DialsWorkers(setup, env) ==> Ran(Routing.WorkerRound(setup, env), states, steps, w, kw)
    requires DialsProxies(setup, env) ==> Ran(Routing.ProxyRound(setup, env), states, steps, p, kp)
    ensures Routing.SessionBooks(setup, env)
         == (if DialsWorkers(setup, env) then Deeds(states, steps, w, |steps|) else [])
            + (if DialsProxies(setup, env) then Deeds(states, steps, p, |steps|) else [])
  {
    if DialsWorkers(setup, env) {
      RoundRan(Routing.WorkerRound(setup, env), states, steps, w, kw);
    }
    if DialsProxies(setup, env) {
      RoundRan(Routing.ProxyRound(setup, env), states, steps, p, kp);
    }
  }
}
