/** The per-IP login limiter: a bounded table with an amortised sweep, and the unbounded
    limiter it stands in for. */
module Limiter {
  const MAX_ATTEMPTS: nat := 5
  const ATTEMPT_WINDOW: int := 900_000_000_000  // fifteen minutes, in nanoseconds
  const SWEEP_SCAN: nat := 8

  datatype Attempt = Attempt(count: nat, first: int)

  type Attempts = map<string, Attempt>

  predicate Expired(a: Attempt, now: int) { now - a.first > ATTEMPT_WINDOW }

  // ---- The operations, on the table's value ----

  predicate IsLimited(m: Attempts, ip: string, now: int) {
    ip in m && !Expired(m[ip], now) && m[ip].count >= MAX_ATTEMPTS
  }

  function AfterCheck(m: Attempts, ip: string, now: int): Attempts {
    if ip in m && Expired(m[ip], now) then m - {ip} else m
  }

  // Which entries a sweep takes is the map's iteration order's choice.
  ghost predicate Sweepable(m: Attempts, swept: set<string>, now: int) {
    swept <= m.Keys && |swept| <= SWEEP_SCAN && forall ip :: ip in swept ==> Expired(m[ip], now)
  }

  // A sweep looks at eight entries, or at all of a smaller table, and takes the expired ones.
  ghost predicate Sweeps(m: Attempts, swept: set<string>, now: int) {
    exists looked :: LookedAt(m, looked, swept, now)
  }

  predicate LookedAt(m: Attempts, looked: set<string>, swept: set<string>, now: int) {
    && looked <= m.Keys && |looked| == (if |m| < 8 then |m| else 8)
    && swept == set ip | ip in looked && Expired(m[ip], now)
  }

  lemma SweepsTakeExpired(m: Attempts, swept: set<string>, now: int)
    requires Sweeps(m, swept, now)
    ensures Sweepable(m, swept, now)
  {
    var looked :| LookedAt(m, looked, swept, now);
    SubsetSize(swept, looked);
  }

  lemma SubsetSize(a: set<string>, b: set<string>)
    requires a <= b
    ensures |a| <= |b|
  {
    if a != {} {
      var x :| x in a;
      SubsetSize(a - {x}, b - {x});
    }
  }

  lemma SameSizeSubset(a: set<string>, b: set<string>)
    requires a <= b && |a| == |b|
    ensures a == b
  {
    if b != {} {
      var x :| x in b;
      if x in a { SameSizeSubset(a - {x}, b - {x}); } else { SubsetSize(a, b - {x}); }
    }
  }

  /** A sweep leaves no expired entry in a table of up to eight, and takes eight out of a larger one in
      which all have expired. */
  lemma SweepClears(m: Attempts, swept: set<string>, now: int)
    requires Sweeps(m, swept, now)
    ensures |m| <= 8 ==> forall ip :: ip in m - swept ==> !Expired(m[ip], now)
    ensures |m| >= 8 && (forall ip :: ip in m ==> Expired(m[ip], now)) ==> |m - swept| == |m| - 8
  {
    var looked :| LookedAt(m, looked, swept, now);
    assert |m| == |m.Keys|;
    if |m| <= 8 { SameSizeSubset(looked, m.Keys); }
    if |m| >= 8 && forall ip :: ip in m ==> Expired(m[ip], now) {
      assert swept == looked;
      SweptSize(m, swept);
    }
  }

  // `now` decides expiry, `later` is the next clock reading. No room under `cap`, which is
  // 100,000 unless configured otherwise: no record.
  function AfterFailure(m: Attempts, ip: string, now: int, later: int, cap: nat): Attempts {
    if ip in m then
      m[ip := if Expired(m[ip], now) then Attempt(1, later) else m[ip].(count := m[ip].count + 1)]
    else if |m| >= cap then m
    else m[ip := Attempt(1, later)]
  }

  // ---- The limiter ----

  class LoginLimiter {
    var attempts: Attempts
    const maxTracked: nat

    constructor (maxTracked: nat)
      ensures attempts == map[] && this.maxTracked == maxTracked
    {
      attempts, this.maxTracked := map[], maxTracked;
    }

    method Limited(ip: string, now: int) returns (limited: bool)
      modifies this
      ensures limited <==> IsLimited(old(attempts), ip, now)
      ensures attempts == AfterCheck(old(attempts), ip, now)
    {
      if ip !in attempts { return false; }
      var r := attempts[ip];
      if Expired(r, now) {
        attempts := attempts - {ip};
        return false;
      }
      limited := r.count >= MAX_ATTEMPTS;
    }

    // Looks at no more than SWEEP_SCAN entries, in any order, and removes the expired ones.
    method EvictExpired(now: int) returns (ghost swept: set<string>)
      modifies this
      ensures Sweeps(old(attempts), swept, now) && attempts == old(attempts) - swept
    {
      swept := {};
      var rest := attempts.Keys;
      ghost var looked: set<string> := {};
      var n := 0;
      while rest != {}
        invariant n <= SWEEP_SCAN && |looked| == n && looked + rest == old(attempts).Keys && looked !! rest
        invariant swept == set ip | ip in looked && Expired(old(attempts)[ip], now)
        invariant attempts == old(attempts) - swept
        decreases rest
      {
        if n >= SWEEP_SCAN {
          EnoughLookedAt(old(attempts), looked, swept, now);
          return;
        }
        n := n + 1;
        var ip :| ip in rest;
        rest := rest - {ip};
        looked := looked + {ip};
        if Expired(attempts[ip], now) {
          attempts := attempts - {ip};
          swept := swept + {ip};
        }
      }
      assert looked == old(attempts).Keys;
      EnoughLookedAt(old(attempts), looked, swept, now);
    }

    method RecordFailure(ip: string, t0: int, t1: int, t2: int) returns (ghost swept: set<string>)
      modifies this
      ensures Sweeps(old(attempts), swept, t0)
      ensures attempts == AfterFailure(old(attempts) - swept, ip, t1, t2, maxTracked)
    {
      swept := EvictExpired(t0);
      if ip in attempts {
        if Expired(attempts[ip], t1) {
          attempts := attempts[ip := Attempt(1, t2)];
        } else {
          attempts := attempts[ip := attempts[ip].(count := attempts[ip].count + 1)];
        }
        return;
      }
      if |attempts| >= maxTracked { return; }
      attempts := attempts[ip := Attempt(1, t2)];
    }

    method ClearFailures(ip: string)
      modifies this
      ensures attempts == old(attempts) - {ip}
    {
      attempts := attempts - {ip};
    }

    // Login around the limiter: `known` is a user the store has, `matches` the password check,
    // `issued` the creation of a session.
    method Login(ip: string, known: bool, matches: bool, issued: bool, t: int, t0: int, t1: int, t2: int)
      returns (r: LoginResult, ghost swept: set<string>)
      modifies this
      ensures if r.BadCredentials? then Sweeps(AfterCheck(old(attempts), ip, t), swept, t0) else swept == {}
      ensures r == if IsLimited(old(attempts), ip, t) then RateLimited
                   else if !known || !matches then BadCredentials
                   else if !issued then SessionFailed else LoggedIn
      ensures attempts == match r
                case RateLimited => old(attempts)
                case BadCredentials => AfterFailure(AfterCheck(old(attempts), ip, t) - swept, ip, t1, t2, maxTracked)
                case SessionFailed => AfterCheck(old(attempts), ip, t)
                case LoggedIn => AfterCheck(old(attempts), ip, t) - {ip}
    {
      swept := {};
      var limited := Limited(ip, t);
      if limited { return RateLimited, swept; }
      if !known {
        swept := RecordFailure(ip, t0, t1, t2);
        return BadCredentials, swept;
      }
      if !matches {
        swept := RecordFailure(ip, t0, t1, t2);
        return BadCredentials, swept;
      }
      if !issued { return SessionFailed, swept; }
      ClearFailures(ip);
      r := LoggedIn;
    }
  }

  // Eight entries looked at, or all there are.
  lemma EnoughLookedAt(m: Attempts, looked: set<string>, swept: set<string>, now: int)
    requires looked <= m.Keys && |looked| <= 8 && (|looked| == 8 || looked == m.Keys)
    requires swept == set ip | ip in looked && Expired(m[ip], now)
    ensures Sweeps(m, swept, now)
  {
    SubsetSize(looked, m.Keys);
    assert |m| == |m.Keys|;
    assert LookedAt(m, looked, swept, now);
  }

  datatype LoginResult = RateLimited | BadCredentials | SessionFailed | LoggedIn

  // ---- What one call does to the others, and to the bound ----

  /** The table never outgrows its bound. */
  lemma BoundKept(m: Attempts, swept: set<string>, ip: string, t0: int, t1: int, t2: int, cap: nat)
    requires |m| <= cap && Sweepable(m, swept, t0)
    ensures |AfterFailure(m - swept, ip, t1, t2, cap)| <= cap
  {
    SweptSize(m, swept);
    var n := m - swept;
    if ip in n { assert n[ip := Attempt(1, t2)].Keys == n.Keys; }
    var after := AfterFailure(n, ip, t1, t2, cap);
    if ip in n { assert after.Keys == n.Keys; SameSize(after, n); }
  }

  lemma SameSize(a: Attempts, b: Attempts)
    requires a.Keys == b.Keys
    ensures |a| == |b|
  {
    assert |a| == |a.Keys| && |b| == |b.Keys|;
  }

  lemma SweptSize(m: Attempts, swept: set<string>)
    requires swept <= m.Keys
    ensures |m - swept| == |m| - |swept|
  {
    assert (m - swept).Keys == m.Keys - swept;
    assert |m.Keys - swept| == |m.Keys| - |swept|;
    assert |m - swept| == |(m - swept).Keys| && |m| == |m.Keys|;
  }

  /** A call for one IP leaves every other IP's live record alone. */
  lemma OthersUntouched(m: Attempts, swept: set<string>, ip: string, other: string, t0: int, t1: int, t2: int, cap: nat)
    requires Sweepable(m, swept, t0) && other != ip && other in m && !Expired(m[other], t0)
    ensures other in AfterFailure(m - swept, ip, t1, t2, cap)
    ensures AfterFailure(m - swept, ip, t1, t2, cap)[other] == m[other]
    ensures other in AfterCheck(m, ip, t1) && AfterCheck(m, ip, t1)[other] == m[other]
    ensures other in m - {ip} && (m - {ip})[other] == m[other]
  {
  }

  /** An IP with a record, however old, is always given one again. */
  lemma NeverRefusedAgain(m: Attempts, swept: set<string>, ip: string, t0: int, t1: int, t2: int, cap: nat)
    requires |m| <= cap && Sweepable(m, swept, t0) && ip in m
    ensures ip in AfterFailure(m - swept, ip, t1, t2, cap)
  {
    SweptSize(m, swept);
    if ip in swept { assert |swept - {ip}| == |swept| - 1; }
  }

  // ---- The unbounded limiter it refines ----

  function RefAfterFailure(m: Attempts, ip: string, now: int, later: int): Attempts {
    m[ip := if ip in m && !Expired(m[ip], now) then m[ip].(count := m[ip].count + 1) else Attempt(1, later)]
  }

  datatype Event =
    | Check(ip: string, now: int)
    | Failure(ip: string, swept: set<string>, t0: int, t1: int, t2: int)
    | Success(ip: string)

  // The bounded table beside the reference, the IPs it ever had no room for, and the clock.
  datatype Twin = Twin(impl: Attempts, ref: Attempts, refused: set<string>, clock: int)

  // Clock readings never go back, and a sweep takes expired entries only.
  ghost predicate Possible(s: Twin, e: Event) {
    match e
    case Check(_, now) => now >= s.clock
    case Failure(_, swept, t0, t1, t2) => s.clock <= t0 <= t1 <= t2 && Sweepable(s.impl, swept, t0)
    case Success(_) => true
  }

  function Apply(s: Twin, e: Event, cap: nat): Twin {
    match e
    case Check(ip, now) => Twin(AfterCheck(s.impl, ip, now), s.ref, s.refused, now)
    case Failure(ip, swept, t0, t1, t2) =>
      var impl := AfterFailure(s.impl - swept, ip, t1, t2, cap);
      Twin(impl, RefAfterFailure(s.ref, ip, t1, t2), if ip in impl then s.refused else s.refused + {ip}, t2)
    case Success(ip) => Twin(s.impl - {ip}, s.ref - {ip}, s.refused, s.clock)
  }

  // For an IP never refused the two tables agree, except that the reference may still hold
  // what the table has dropped as expired.
  ghost predicate Refines(s: Twin, cap: nat) {
    && |s.impl| <= cap
    && (forall ip :: ip in s.impl && ip !in s.refused ==> ip in s.ref && s.ref[ip] == s.impl[ip])
    && (forall ip :: ip in s.ref && ip !in s.refused && ip !in s.impl ==> Expired(s.ref[ip], s.clock))
  }

  lemma FailureRefines(s: Twin, ip: string, swept: set<string>, t0: int, t1: int, t2: int, cap: nat)
    requires Refines(s, cap) && s.clock <= t0 <= t1 <= t2 && Sweepable(s.impl, swept, t0)
    ensures Refines(Apply(s, Failure(ip, swept, t0, t1, t2), cap), cap)
  {
    BoundKept(s.impl, swept, ip, t0, t1, t2, cap);
    var s' := Apply(s, Failure(ip, swept, t0, t1, t2), cap);
    forall i | i in s'.impl && i !in s'.refused && i != ip ensures i in s'.ref && s'.ref[i] == s'.impl[i] {
      assert i in s.impl && s.impl[i] == s'.impl[i];
    }
  }

  lemma SizeWithout(m: Attempts, ip: string)
    ensures |m - {ip}| <= |m|
  {
    if ip in m { SweptSize(m, {ip}); } else { assert m - {ip} == m; }
  }

  lemma CheckRefines(s: Twin, ip: string, now: int, cap: nat)
    requires Refines(s, cap) && now >= s.clock
    ensures Refines(Apply(s, Check(ip, now), cap), cap)
  {
    SizeWithout(s.impl, ip);
  }

  lemma SuccessRefines(s: Twin, ip: string, cap: nat)
    requires Refines(s, cap)
    ensures Refines(Apply(s, Success(ip), cap), cap)
  {
    SizeWithout(s.impl, ip);
  }

  lemma ApplyRefines(s: Twin, e: Event, cap: nat)
    requires Refines(s, cap) && Possible(s, e)
    ensures Refines(Apply(s, e, cap), cap)
  {
    match e
    case Check(ip, now) => CheckRefines(s, ip, now, cap);
    case Failure(ip, swept, t0, t1, t2) => FailureRefines(s, ip, swept, t0, t1, t2, cap);
    case Success(ip) => SuccessRefines(s, ip, cap);
  }

  function RunEvents(s: Twin, es: seq<Event>, cap: nat): Twin {
    if es == [] then s else Apply(RunEvents(s, es[..|es| - 1], cap), es[|es| - 1], cap)
  }

  ghost predicate PossibleRun(s: Twin, es: seq<Event>, cap: nat) {
    es != [] ==> PossibleRun(s, es[..|es| - 1], cap) && Possible(RunEvents(s, es[..|es| - 1], cap), es[|es| - 1])
  }

  lemma {:induction false} RunRefines(s: Twin, es: seq<Event>, cap: nat)
    requires Refines(s, cap) && PossibleRun(s, es, cap)
    ensures Refines(RunEvents(s, es, cap), cap)
  {
    if es != [] {
      RunRefines(s, es[..|es| - 1], cap);
      ApplyRefines(RunEvents(s, es[..|es| - 1], cap), es[|es| - 1], cap);
    }
  }

  /** After any run from an empty table - any calls, any sweeps, a clock that never goes back -
      the table is within its bound and answers for every IP it never had to turn away exactly
      as the limiter that never sweeps and never fills. */
  lemma AnswersAgree(es: seq<Event>, cap: nat, start: int, ip: string, now: int)
    requires PossibleRun(Twin(map[], map[], {}, start), es, cap)
    requires var s := RunEvents(Twin(map[], map[], {}, start), es, cap); ip !in s.refused && now >= s.clock
    ensures var s := RunEvents(Twin(map[], map[], {}, start), es, cap);
      |s.impl| <= cap && (IsLimited(s.impl, ip, now) <==> IsLimited(s.ref, ip, now))
  {
    RunRefines(Twin(map[], map[], {}, start), es, cap);
  }

  // ---- Flooding around a target ----

  lemma ClockAdvances(s: Twin, es: seq<Event>, cap: nat)
    requires PossibleRun(s, es, cap)
    ensures s.clock <= RunEvents(s, es, cap).clock
  {
    if es != [] { ClockAdvances(s, es[..|es| - 1], cap); }
  }

  lemma LimitHolds(s: Twin, e: Event, cap: nat, ip: string)
    requires Possible(s, e) && ip in s.impl && s.impl[ip].count >= MAX_ATTEMPTS && e != Success(ip)
    requires !Expired(s.impl[ip], Apply(s, e, cap).clock)
    ensures ip in Apply(s, e, cap).impl
    ensures Apply(s, e, cap).impl[ip].first == s.impl[ip].first && Apply(s, e, cap).impl[ip].count >= MAX_ATTEMPTS
  {
  }

  /** Nothing done from other IPs, and no further failure of its own, lifts a limited IP's
      limit before its window ends: only its own successful login does. */
  lemma {:induction false} LimitCannotBeFlushed(s: Twin, es: seq<Event>, cap: nat, ip: string)
    requires PossibleRun(s, es, cap) && ip in s.impl && s.impl[ip].count >= MAX_ATTEMPTS
    requires Success(ip) !in es
    requires RunEvents(s, es, cap).clock <= s.impl[ip].first + ATTEMPT_WINDOW
    ensures var t := RunEvents(s, es, cap);
      ip in t.impl && t.impl[ip].first == s.impl[ip].first && t.impl[ip].count >= MAX_ATTEMPTS
        && IsLimited(t.impl, ip, t.clock)
  {
    if es != [] {
      var n := |es| - 1;
      ClockAdvances(s, es[..n], cap);
      assert RunEvents(s, es[..n], cap).clock <= RunEvents(s, es, cap).clock;
      assert Success(ip) !in es[..n];
      LimitCannotBeFlushed(s, es[..n], cap, ip);
      assert es[n] in es;
      LimitHolds(RunEvents(s, es[..n], cap), es[n], cap, ip);
    }
  }

  // ---- How many failures, and for how long ----

  predicate ByItself(e: Event, ip: string) { e == Success(ip) || (e.Failure? && e.ip == ip) }

  lemma RecordIsKept(s: Twin, e: Event, cap: nat, ip: string)
    requires Possible(s, e) && !ByItself(e, ip)
    ensures ip in Apply(s, e, cap).impl ==> ip in s.impl && Apply(s, e, cap).impl[ip] == s.impl[ip]
  {
  }

  lemma {:induction false} RecordsAreKept(s: Twin, es: seq<Event>, cap: nat, ip: string)
    requires PossibleRun(s, es, cap) && forall e :: e in es ==> !ByItself(e, ip)
    ensures var t := RunEvents(s, es, cap); ip in t.impl ==> ip in s.impl && t.impl[ip] == s.impl[ip]
  {
    if es != [] {
      var n := |es| - 1;
      RecordsAreKept(s, es[..n], cap, ip);
      RecordIsKept(RunEvents(s, es[..n], cap), es[n], cap, ip);
    }
  }

  /** A limited IP that neither logs in nor fails again is limited for fifteen minutes from its first
      failure, whatever is done from other IPs, and not a nanosecond longer. */
  lemma LimitLastsItsWindow(s: Twin, es: seq<Event>, cap: nat, ip: string)
    requires PossibleRun(s, es, cap) && ip in s.impl && s.impl[ip].count >= MAX_ATTEMPTS
    requires forall e :: e in es ==> !ByItself(e, ip)
    ensures var t := RunEvents(s, es, cap);
      IsLimited(t.impl, ip, t.clock) <==> t.clock <= s.impl[ip].first + 15 * 60 * 1_000_000_000
  {
    RecordsAreKept(s, es, cap, ip);
    if RunEvents(s, es, cap).clock <= s.impl[ip].first + ATTEMPT_WINDOW { LimitCannotBeFlushed(s, es, cap, ip); }
  }

  // Failures of one IP, one after the other, within fifteen minutes of the first.
  ghost predicate Burst(es: seq<Event>, cap: nat, start: int, ip: string) {
    && es != [] && cap > 0 && (forall e :: e in es ==> e.Failure? && e.ip == ip)
    && PossibleRun(Twin(map[], map[], {}, start), es, cap)
    && RunEvents(Twin(map[], map[], {}, start), es, cap).clock <= es[0].t2 + 15 * 60 * 1_000_000_000
  }

  lemma {:induction false} BurstCounts(es: seq<Event>, cap: nat, start: int, ip: string)
    requires Burst(es, cap, start, ip)
    ensures var t := RunEvents(Twin(map[], map[], {}, start), es, cap);
      ip in t.impl && t.impl[ip] == Attempt(|es|, es[0].t2)
  {
    var s, n := Twin(map[], map[], {}, start), |es| - 1;
    assert es[n] in es;
    if n == 0 {
      assert RunEvents(s, es[..0], cap) == s;
    } else {
      assert es[..n][0] == es[0];
      ClockAdvances(RunEvents(s, es[..n], cap), [es[n]], cap);
      BurstCounts(es[..n], cap, start, ip);
    }
  }

  /** Five failures within fifteen minutes limit an IP, and four do not. */
  lemma FiveFailuresLimit(es: seq<Event>, cap: nat, start: int, ip: string)
    requires Burst(es, cap, start, ip)
    ensures var t := RunEvents(Twin(map[], map[], {}, start), es, cap);
      IsLimited(t.impl, ip, t.clock) <==> |es| >= 5
  {
    BurstCounts(es, cap, start, ip);
  }
}
