/** Admission of fallback dials: the domain pools, the cooldowns of failed domains and the cap on concurrent dials. */
module Admission {
  import opened Units

  type Domain = string

  const MAX_DIALS: nat := 4
  const FAIL_COOLDOWN: nat := MINUTE
  const DNS_FAIL_COOLDOWN: nat := 5 * MINUTE
  const KNOWN_DCS: seq<int> := [1, 2, 3, 4, 5, 203]

  datatype Key = Key(domain: Domain, worker: bool)

  type Cooldowns = map<Domain, Time>

  /** The two cooldown tables. */
  datatype Tables = Tables(cf: Cooldowns, workers: Cooldowns) {
    function Get(worker: bool): Cooldowns {
      if worker then workers else cf
    }

    function With(worker: bool, m: Cooldowns): Tables {
      if worker then this.(workers := m) else this.(cf := m)
    }
  }

  /** Everything the lock protects. */
  datatype Shared = Shared(pool: seq<Domain>, workerPool: seq<Domain>, fails: Tables, dials: map<Key, nat>,
                           active: Domain, perDC: map<int, Domain>, main: Domain) {
    function PoolOf(worker: bool): seq<Domain> {
      if worker then workerPool else pool
    }
  }

  datatype Outcome = Success | Canceled | Failed(dns: bool)

  // ---------------------------------------------------------------------------------------------------------------
  // Cooldowns
  // ---------------------------------------------------------------------------------------------------------------

  predicate Available(fails: Cooldowns, d: Domain, now: Time) {
    d !in fails || now >= fails[d]
  }

  /** Looking a domain up deletes its cooldown once that has passed. */
  function Pruned(fails: Cooldowns, d: Domain, now: Time): Cooldowns {
    if d in fails && now >= fails[d] then fails - {d} else fails
  }

  function Cooldown(dns: bool): nat {
    if dns then DNS_FAIL_COOLDOWN else FAIL_COOLDOWN
  }

  /** The cooldowns after an attempt ended at `now`; the clock is read again, `drift` later, for the new cooldown. */
  function Settled(fails: Cooldowns, d: Domain, now: Time, drift: nat, outcome: Outcome): Cooldowns {
    match outcome
    case Canceled => fails
    case Success => fails - {d}
    case Failed(dns) => if Available(fails, d, now) then fails[d := now + drift + Cooldown(dns)] else fails
  }

  /** Whether the attempt counts as the first failure of its cooldown. */
  predicate First(fails: Cooldowns, d: Domain, now: Time, outcome: Outcome) {
    outcome.Failed? && Available(fails, d, now)
  }

  /** `fails` without the expired cooldowns of the domains looked at. */
  function Unexpired(fails: Cooldowns, seen: set<Domain>, now: Time): Cooldowns {
    map d | d in fails && (d !in seen || now < fails[d]) :: fails[d]
  }

  // ---------------------------------------------------------------------------------------------------------------
  // Reservations
  // ---------------------------------------------------------------------------------------------------------------

  function Count(dials: map<Key, nat>, k: Key): nat {
    if k in dials then dials[k] else 0
  }

  function Released(dials: map<Key, nat>, k: Key): map<Key, nat> {
    if Count(dials, k) <= 1 then dials - {k} else dials[k := Count(dials, k) - 1]
  }

  predicate MayDial(s: Shared, k: Key, now: Time) {
    k.domain in s.PoolOf(k.worker) && Available(s.fails.Get(k.worker), k.domain, now) && Count(s.dials, k) < MAX_DIALS
  }

  function Reserve(s: Shared, k: Key): Shared {
    s.(dials := s.dials[k := Count(s.dials, k) + 1])
  }

  function Settle(s: Shared, k: Key, now: Time, drift: nat, outcome: Outcome): Shared {
    s.(dials := Released(s.dials, k),
       fails := s.fails.With(k.worker, Settled(s.fails.Get(k.worker), k.domain, now, drift, outcome)))
  }

  // ---------------------------------------------------------------------------------------------------------------
  // Pools
  // ---------------------------------------------------------------------------------------------------------------

  ghost predicate NoDup(s: seq<Domain>) {
    forall i, j :: 0 <= i < j < |s| ==> s[i] != s[j]
  }

  lemma {:induction false} NoDupCounts(s: seq<Domain>)
    ensures NoDup(s) <==> forall d :: multiset(s)[d] <= 1
  {
    if s == [] {
    } else {
      var front, last := s[..|s| - 1], s[|s| - 1];
      NoDupCounts(front);
      assert s == front + [last];
      assert multiset(s) == multiset(front) + multiset([last]);
      if NoDup(s) {
        assert last !in front;
      } else {
        var i, j :| 0 <= i < j < |s| && s[i] == s[j];
        if j == |s| - 1 {
          assert front[i] == last;
          assert multiset(s)[last] >= 2;
        } else {
          assert front[i] == front[j];
          var d :| multiset(front)[d] > 1;
          assert multiset(s)[d] > 1;
        }
      }
    }
  }

  /** A shuffled pool has the same members and no duplicates either. */
  lemma SamePool(pool: seq<Domain>, shuffled: seq<Domain>)
    requires NoDup(pool) && multiset(shuffled) == multiset(pool)
    ensures NoDup(shuffled) && forall d :: d in shuffled <==> d in pool
  {
    NoDupCounts(pool);
    NoDupCounts(shuffled);
    forall d ensures d in shuffled <==> d in pool {
      assert d in shuffled <==> d in multiset(shuffled);
    }
  }

  /** Normalization is left abstract; in particular it need not be idempotent. */
  type Normal = Domain -> Domain

  function Unique(dst: seq<Domain>, norm: Normal, domains: seq<Domain>): seq<Domain>
    decreases |domains|
  {
    if domains == [] then dst else
    var n := norm(domains[0]);
    Unique(if n == "" || n in dst then dst else dst + [n], norm, domains[1..])
  }

  /** The result extends `dst`, stays free of duplicates, and adds exactly the non-empty normal forms. */
  lemma {:induction false} UniqueIs(dst: seq<Domain>, norm: Normal, domains: seq<Domain>)
    requires NoDup(dst)
    ensures NoDup(Unique(dst, norm, domains)) && dst <= Unique(dst, norm, domains)
    ensures forall d :: d in Unique(dst, norm, domains) <==>
        d in dst || (d != "" && exists raw :: raw in domains && norm(raw) == d)
    decreases |domains|
  {
    if domains == [] {
    } else {
      var n := norm(domains[0]);
      var dst' := if n == "" || n in dst then dst else dst + [n];
      UniqueIs(dst', norm, domains[1..]);
      forall d
        ensures d in Unique(dst, norm, domains)
           <==> d in dst || (d != "" && exists raw :: raw in domains && norm(raw) == d)
      {
        assert domains[0] in domains;
        assert forall raw :: raw in domains <==> raw == domains[0] || raw in domains[1..];
      }
    }
  }

  method AppendUnique(input: seq<Domain>, norm: Normal, domains: seq<Domain>) returns (dst: seq<Domain>)
    ensures dst == Unique(input, norm, domains)
  {
    dst := input;
    for i := 0 to |domains|
      invariant Unique(dst, norm, domains[i..]) == Unique(input, norm, domains)
    {
      assert domains[i..][1..] == domains[i + 1..];
      var normalized := norm(domains[i]);
      if normalized == "" {
        continue;
      }
      var duplicate := false;
      for j := 0 to |dst|
        invariant !duplicate && normalized !in dst[..j]
      {
        if dst[j] == normalized {
          duplicate := true;
          break;
        }
        assert dst[..j + 1] == dst[..j] + [dst[j]];
      }
      assert dst[..|dst|] == dst;
      if !duplicate {
        dst := dst + [normalized];
      }
    }
  }

  function Kept(fails: Cooldowns, pool: seq<Domain>): Cooldowns {
    map d | d in fails && d in pool :: fails[d]
  }

  /** A new pool: cooldowns of domains that left it are dropped, and every choice of an active domain is from it. */
  ghost predicate Refreshed(s: Shared, s': Shared, pool: seq<Domain>) {
    && s'.pool == pool && s'.workerPool == s.workerPool && s'.dials == s.dials
    && s'.fails == s.fails.(cf := Kept(s.fails.cf, pool))
    && s'.active in pool && s'.main == (if s'.active == "" then s.main else s'.active)
    && (forall dc :: dc in KNOWN_DCS ==> dc in s'.perDC && s'.perDC[dc] in pool)
    && (forall dc :: dc !in KNOWN_DCS ==>
          (dc in s'.perDC <==> dc in s.perDC) && (dc in s.perDC ==> s'.perDC[dc] == s.perDC[dc]))
  }

  function Promoted(s: Shared, dc: int, normalized: Domain): Shared {
    if normalized == "" || normalized !in s.pool then s
    else s.(perDC := s.perDC[dc := normalized], active := normalized, main := normalized,
            fails := s.fails.(cf := s.fails.cf - {normalized}))
  }

  /** The domain to try first for a data centre. */
  function Preferred(s: Shared, norm: Normal, dc: int): Domain {
    var a := norm(if dc in s.perDC then s.perDC[dc] else "");
    if a == "" then norm(s.active) else a
  }

  /** After a promotion for a data centre, the promoted domain is available and preferred there, provided that its
      normal form is normal. */
  lemma PromotedFirst(s: Shared, norm: Normal, dc: int, d: Domain, now: Time)
    requires norm(d) != "" && norm(d) in s.pool && norm(norm(d)) == norm(d)
    ensures var s' := Promoted(s, dc, norm(d));
      Preferred(s', norm, dc) == norm(d) && Available(s'.fails.cf, norm(d), now)
  {
  }

  /** A data centre's own choice comes first; without one, the choice made for all. */
  lemma PreferredIs(s: Shared, norm: Normal, dc: int)
    ensures dc in s.perDC && norm(s.perDC[dc]) != "" ==> Preferred(s, norm, dc) == norm(s.perDC[dc])
    ensures dc in s.perDC && norm(s.perDC[dc]) == "" ==> Preferred(s, norm, dc) == norm(s.active)
    ensures dc !in s.perDC && norm("") == "" ==> Preferred(s, norm, dc) == norm(s.active)
  {
  }

  class Config {
    var pool: seq<Domain>
    var workerPool: seq<Domain>
    var cfproxyFailUntil: Cooldowns
    var cfworkerFailUntil: Cooldowns
    var fallbackDials: map<Key, nat>
    var active: Domain
    var perDC: map<int, Domain>
    /** The domain shown as the configured one. */
    var main: Domain

    function View(): Shared
      reads this
    {
      Shared(pool, workerPool, Tables(cfproxyFailUntil, cfworkerFailUntil), fallbackDials, active, perDC, main)
    }

    method DomainAvailable(d: Domain, now: Time) returns (ok: bool)
      modifies this`cfproxyFailUntil
      ensures ok <==> Available(old(cfproxyFailUntil), d, now)
      ensures ok <==> !(d in old(cfproxyFailUntil) && now < old(cfproxyFailUntil)[d])
      ensures cfproxyFailUntil == Pruned(old(cfproxyFailUntil), d, now)
      ensures cfproxyFailUntil == if ok then old(cfproxyFailUntil) - {d} else old(cfproxyFailUntil)
    {
      if d !in cfproxyFailUntil {
        return true;
      }
      if now < cfproxyFailUntil[d] {
        return false;
      }
      cfproxyFailUntil := cfproxyFailUntil - {d};
      return true;
    }

    /** One candidate of cfproxyDomainsForTry. */
    method TryDomain(d: Domain, now: Time, sofar: seq<Domain>, ghost before: Cooldowns,
                     ghost seen: set<Domain>) returns (out: seq<Domain>)
      requires cfproxyFailUntil == Unexpired(before, seen, now)
      modifies this`cfproxyFailUntil
      ensures cfproxyFailUntil == Unexpired(before, seen + {d}, now)
      ensures out == if Available(before, d, now) then sofar + [d] else sofar
    {
      var ok := DomainAvailable(d, now);
      out := sofar;
      if ok {
        out := out + [d];
      }
    }

    /** The first loop of cfproxyDomainsForTry. */
    method TryPreferred(preferred: Domain, now: Time) returns (out: seq<Domain>)
      requires "" !in pool
      modifies this`cfproxyFailUntil
      ensures out == if preferred in pool && Available(old(cfproxyFailUntil), preferred, now) then [preferred] else []
      ensures cfproxyFailUntil == Unexpired(old(cfproxyFailUntil), if preferred in pool then {preferred} else {}, now)
    {
      ghost var before := cfproxyFailUntil;
      assert before == Unexpired(before, {}, now);
      out := [];
      if preferred != "" {
        for i := 0 to |pool|
          invariant preferred !in pool[..i] && out == [] && cfproxyFailUntil == before
        {
          if pool[i] == preferred {
            out := TryDomain(preferred, now, out, before, {});
            assert {} + {preferred} == {preferred};
            return;
          }
          assert pool[..i + 1] == pool[..i] + [pool[i]];
        }
        assert pool[..|pool|] == pool;
      }
    }

    /** The second loop of cfproxyDomainsForTry. */
    method TryOthers(preferred: Domain, now: Time, shuffled: seq<Domain>, front: seq<Domain>, ghost before: Cooldowns,
                     ghost first: set<Domain>)
      returns (out: seq<Domain>, ghost seen: set<Domain>)
      requires NoDup(shuffled) && NoDup(front) && (forall d :: d in front ==> d == preferred)
      requires cfproxyFailUntil == Unexpired(before, first, now)
      modifies this`cfproxyFailUntil
      ensures NoDup(out) && front <= out
      ensures forall d :: d in out <==> d in front || (d in shuffled && d != preferred && Available(before, d, now))
      ensures forall d :: d in seen <==> d in first || (d in shuffled && d != preferred)
      ensures cfproxyFailUntil == Unexpired(before, seen, now)
    {
      out, seen := front, first;
      for i := 0 to |shuffled|
        invariant NoDup(out) && front <= out
        invariant forall d :: d in out <==>
            d in front || (d in shuffled[..i] && d != preferred && Available(before, d, now))
        invariant forall d :: d in seen <==> d in first || (d in shuffled[..i] && d != preferred)
        invariant cfproxyFailUntil == Unexpired(before, seen, now)
      {
        var d := shuffled[i];
        assert shuffled[..i + 1] == shuffled[..i] + [d];
        if d != preferred {
          assert d !in shuffled[..i];
          out := TryDomain(d, now, out, before, seen);
          seen := seen + {d};
        }
      }
      assert shuffled[..|shuffled|] == shuffled;
    }

    /** cfproxyDomainsForTry: exactly the available domains of the pool, each once, the preferred one first; on the way
        the expired cooldowns of the whole pool are dropped. */
    method DomainsForTry(norm: Normal, dc: int, now: Time, shuffled: seq<Domain>) returns (out: seq<Domain>)
      requires NoDup(pool) && "" !in pool && multiset(shuffled) == multiset(pool)
      modifies this`cfproxyFailUntil
      ensures NoDup(out)
      ensures forall d :: d in out <==> d in pool && Available(old(cfproxyFailUntil), d, now)
      ensures var p := Preferred(old(View()), norm, dc);
        p in pool && Available(old(cfproxyFailUntil), p, now) ==> out != [] && out[0] == p
      ensures cfproxyFailUntil == Unexpired(old(cfproxyFailUntil), (set d | d in pool), now)
    {
      ghost var before := cfproxyFailUntil;
      if |pool| == 0 {
        assert before == Unexpired(before, {}, now);
        return [];
      }
      var preferred := norm(if dc in perDC then perDC[dc] else "");
      if preferred == "" {
        preferred := norm(active);
      }
      SamePool(pool, shuffled);
      out := TryPreferred(preferred, now);
      ghost var seen;
      out, seen := TryOthers(preferred, now, shuffled, out, before, if preferred in pool then {preferred} else {});
      assert seen == set d | d in pool;
    }

    method BeginFallbackDial(d: Domain, worker: bool, now: Time) returns (ok: bool)
      modifies this`fallbackDials
      ensures ok <==> MayDial(old(View()), Key(d, worker), now)
      ensures ok <==>
        var fails, dials := if worker then cfworkerFailUntil else cfproxyFailUntil, old(fallbackDials);
        && d in (if worker then workerPool else pool)
        && !(d in fails && now < fails[d])
        && (Key(d, worker) in dials ==> dials[Key(d, worker)] < 4)
      ensures View() == if ok then Reserve(old(View()), Key(d, worker)) else old(View())
    {
      var domains, failures := pool, cfproxyFailUntil;
      if worker {
        domains, failures := workerPool, cfworkerFailUntil;
      }
      var found := false;
      for i := 0 to |domains|
        invariant !found && d !in domains[..i]
      {
        if domains[i] == d {
          found := true;
          break;
        }
        assert domains[..i + 1] == domains[..i] + [domains[i]];
      }
      assert domains[..|domains|] == domains;
      var key := Key(d, worker);
      var count := if key in fallbackDials then fallbackDials[key] else 0;
      if !found || (d in failures && now < failures[d]) || count >= MAX_DIALS {
        return false;
      }
      fallbackDials := fallbackDials[key := count + 1];
      return true;
    }

    method ReleaseDial(key: Key)
      modifies this`fallbackDials
      ensures fallbackDials == Released(old(fallbackDials), key)
    {
      var count := if key in fallbackDials then fallbackDials[key] else 0;
      if count <= 1 {
        fallbackDials := fallbackDials - {key};
      } else {
        fallbackDials := fallbackDials[key := count - 1];
      }
    }

    method FinishFallbackDial(d: Domain, worker: bool, outcome: Outcome, now: Time, drift: nat) returns (first: bool)
      modifies this`fallbackDials, this`cfproxyFailUntil, this`cfworkerFailUntil
      ensures View() == Settle(old(View()), Key(d, worker), now, drift, outcome)
      ensures first <==> First(old(View()).fails.Get(worker), d, now, outcome)
      ensures first <==>
        var fails := old(if worker then cfworkerFailUntil else cfproxyFailUntil);
        outcome.Failed? && !(d in fails && now < fails[d])
      ensures first ==>
        var until := now + drift + (if outcome.dns then 300 else 60) * SECOND;
        forall t: Time :: Available(View().fails.Get(worker), d, t) <==> t >= until
      ensures outcome.Success? ==> forall t: Time :: Available(View().fails.Get(worker), d, t)
      ensures !first && !outcome.Success? ==> View().fails == old(View()).fails
    {
      ReleaseDial(Key(d, worker));
      var failures := if worker then cfworkerFailUntil else cfproxyFailUntil;
      first := false;
      match outcome {
        case Canceled =>
          return false;
        case Success =>
          failures := failures - {d};
        case Failed(dns) =>
          if d in failures && now < failures[d] {
            return false;
          }
          failures := failures[d := now + drift + if dns then DNS_FAIL_COOLDOWN else FAIL_COOLDOWN];
          first := true;
      }
      if worker {
        cfworkerFailUntil := failures;
      } else {
        cfproxyFailUntil := failures;
      }
    }

    /** setCFProxyDomains; `fallback` is the built-in pool, `picks` the random choices. */
    method SetDomains(norm: Normal, domains: seq<Domain>, fallback: seq<Domain>, picks: nat -> nat)
      requires fallback != [] && NoDup(fallback) && "" !in fallback
      modifies this
      ensures var chosen := Unique([], norm, domains);
        Refreshed(old(View()), View(), if chosen == [] then fallback else chosen)
      ensures pool != [] && NoDup(pool) && "" !in pool
    {
      var chosen := AppendUnique([], norm, domains);
      UniqueIs([], norm, domains);
      if |chosen| == 0 {
        chosen := fallback;
      }
      pool := chosen;
      active := chosen[picks(0) % |chosen|];
      DropStrangers();
      ChoosePerDC(chosen, picks);
      if active != "" {
        main := active;
      }
    }

    /** The loop that chooses an active domain for each known data centre. */
    method ChoosePerDC(chosen: seq<Domain>, picks: nat -> nat)
      requires chosen != []
      modifies this`perDC
      ensures forall dc :: dc in KNOWN_DCS ==> dc in perDC && perDC[dc] in chosen
      ensures forall dc :: dc !in KNOWN_DCS ==>
          (dc in perDC <==> dc in old(perDC)) && (dc in perDC ==> perDC[dc] == old(perDC)[dc])
    {
      for i := 0 to |KNOWN_DCS|
        invariant forall dc :: dc in KNOWN_DCS[..i] ==> dc in perDC && perDC[dc] in chosen
        invariant forall dc :: dc !in KNOWN_DCS ==>
            (dc in perDC <==> dc in old(perDC)) && (dc in perDC ==> perDC[dc] == old(perDC)[dc])
      {
        perDC := perDC[KNOWN_DCS[i] := chosen[picks(i + 1) % |chosen|]];
        assert KNOWN_DCS[..i + 1] == KNOWN_DCS[..i] + [KNOWN_DCS[i]];
      }
      assert KNOWN_DCS[..|KNOWN_DCS|] == KNOWN_DCS;
    }

    /** The loop that drops the cooldowns of domains outside the pool, in whatever order the map yields them. */
    method DropStrangers()
      modifies this`cfproxyFailUntil
      ensures cfproxyFailUntil == Kept(old(cfproxyFailUntil), pool)
    {
      var todo := cfproxyFailUntil.Keys;
      ghost var before := cfproxyFailUntil;
      while todo != {}
        invariant todo <= before.Keys
        invariant cfproxyFailUntil == map d | d in before && (d in pool || d in todo) :: before[d]
        decreases |todo|
      {
        var d :| d in todo;
        todo := todo - {d};
        if d !in pool {
          cfproxyFailUntil := cfproxyFailUntil - {d};
        }
      }
    }

    method Promote(norm: Normal, dc: int, d: Domain)
      modifies this`perDC, this`active, this`main, this`cfproxyFailUntil
      ensures View() == Promoted(old(View()), dc, norm(d))
      ensures norm(d) != "" && norm(d) in pool ==>
        && dc in perDC && perDC[dc] == active == main == norm(d)
        && cfproxyFailUntil == old(cfproxyFailUntil) - {norm(d)}
    {
      var normalized := norm(d);
      if normalized == "" {
        return;
      }
      for i := 0 to |pool|
        invariant normalized !in pool[..i] && View() == old(View())
      {
        if pool[i] == normalized {
          perDC := perDC[dc := normalized];
          active := normalized;
          main := normalized;
          cfproxyFailUntil := cfproxyFailUntil - {normalized};
          return;
        }
        assert pool[..i + 1] == pool[..i] + [pool[i]];
      }
      assert pool[..|pool|] == pool;
    }
  }

  // ---------------------------------------------------------------------------------------------------------------
  // Lazy deletion
  // ---------------------------------------------------------------------------------------------------------------

  /** What happens to one cooldown table. */
  datatype Op =
    | Look(domain: Domain)
    | End(domain: Domain, outcome: Outcome, drift: nat)
    | Keep(pool: seq<Domain>)
    | Forget(domain: Domain)

  /** An operation at an instant; the clock does not run backwards. */
  datatype Event = Event(op: Op, now: Time)

  ghost predicate Ordered(events: seq<Event>, since: Time)
    decreases |events|
  {
    events == [] || (events[0].now >= since && Ordered(events[1..], events[0].now))
  }

  /** The table after an operation, deleting lazily or never. */
  function Then(fails: Cooldowns, e: Event, lazy: bool): Cooldowns {
    match e.op
    case Look(d) => if lazy then Pruned(fails, d, e.now) else fails
    case End(d, outcome, drift) => Settled(fails, d, e.now, drift, outcome)
    case Keep(pool) => Kept(fails, pool)
    case Forget(d) => fails - {d}
  }

  /** What an operation tells its caller. */
  function Answer(fails: Cooldowns, e: Event): bool {
    match e.op
    case Look(d) => Available(fails, d, e.now)
    case End(d, outcome, _) => First(fails, d, e.now, outcome)
    case Keep(_) => true
    case Forget(_) => true
  }

  function Answers(fails: Cooldowns, events: seq<Event>, lazy: bool): seq<bool>
    decreases |events|
  {
    if events == [] then [] else [Answer(fails, events[0])] + Answers(Then(fails, events[0], lazy), events[1..], lazy)
  }

  function Final(fails: Cooldowns, events: seq<Event>, lazy: bool): Cooldowns
    decreases |events|
  {
    if events == [] then fails else Final(Then(fails, events[0], lazy), events[1..], lazy)
  }

  /** The tables give the same answers from `now` on. */
  ghost predicate Alike(f: Cooldowns, g: Cooldowns, now: Time) {
    forall d, t: Time :: t >= now ==> (Available(f, d, t) <==> Available(g, d, t))
  }

  /** Alike tables hold the same cooldowns, expired ones aside. */
  lemma AlikeEntries(f: Cooldowns, g: Cooldowns, now: Time, d: Domain)
    requires Alike(f, g, now)
    ensures Available(f, d, now) || (d in f && d in g && f[d] == g[d])
  {
    if !Available(f, d, now) {
      assert Available(f, d, f[d]) && !Available(f, d, f[d] - 1);
      assert !Available(g, d, f[d] - 1) && Available(g, d, f[d]);
    }
  }

  lemma ThenAlike(f: Cooldowns, g: Cooldowns, e: Event)
    requires Alike(f, g, e.now)
    ensures Answer(f, e) == Answer(g, e)
    ensures Alike(Then(f, e, true), Then(g, e, false), e.now)
  {
    var f', g' := Then(f, e, true), Then(g, e, false);
    forall d, t: Time | t >= e.now ensures Available(f', d, t) <==> Available(g', d, t) {
      AlikeEntries(f, g, e.now, d);
      assert Available(f, d, t) <==> Available(g, d, t);
      match e.op
      case Look(_) =>
      case End(x, _, _) => assert Available(f, x, e.now) <==> Available(g, x, e.now);
      case Keep(_) =>
      case Forget(_) =>
    }
  }

  /** Over any sequence of operations with a clock that does not run backwards, deleting expired cooldowns on sight
      gives the same answers as never deleting them, and the same availability at every later instant. */
  lemma {:induction false} LazyDeletion(f: Cooldowns, g: Cooldowns, events: seq<Event>, since: Time)
    requires Ordered(events, since) && Alike(f, g, since)
    ensures Answers(f, events, true) == Answers(g, events, false)
    ensures Alike(Final(f, events, true), Final(g, events, false),
                  if events == [] then since else events[|events| - 1].now)
    decreases |events|
  {
    if events == [] {
    } else {
      var e := events[0];
      ThenAlike(f, g, e);
      LazyDeletion(Then(f, e, true), Then(g, e, false), events[1..], e.now);
      if |events| > 1 {
        assert events[1..][|events| - 2] == events[|events| - 1];
      }
    }
  }
}
