/** Concurrent logins from one IP, interleaved where the limiter's lock is released: between
    the check, the password verification and the recording. */
module LoginRace {
  import opened Wrappers
  import opened Limiter

  // The IP's record, the logins not yet checked, and those past the check.
  datatype Race = Race(record: Option<Attempt>, waiting: set<nat>, verifying: set<nat>)

  datatype Step =
    | Arrive(login: nat)
    | Check(login: nat, now: int)
    | Fail(login: nat, swept: bool, full: bool, t0: int, t1: int, t2: int)
    | Succeed(login: nat)
    | Abandon(login: nat)
    | Swept(now: int)

  // `swept`: the login's own sweep takes the record. `full`: the table has no room. A sweep
  // by another IP's call is `Swept`; both take expired records only.
  predicate Enabled(s: Race, e: Step, k: nat) {
    match e
    case Arrive(l) => l !in s.waiting + s.verifying && |s.waiting| + |s.verifying| < k
    case Check(l, _) => l in s.waiting
    case Fail(l, swept, _, t0, _, _) => l in s.verifying && (swept ==> s.record.Some? && Expired(s.record.value, t0))
    case Succeed(l) => l in s.verifying
    case Abandon(l) => l in s.verifying
    case Swept(now) => s.record.Some? && Expired(s.record.value, now)
  }

  function Recorded(r: Option<Attempt>, full: bool, now: int, later: int): Option<Attempt> {
    match r
    case Some(a) => Some(if Expired(a, now) then Attempt(1, later) else a.(count := a.count + 1))
    case None => if full then None else Some(Attempt(1, later))
  }

  function Next(s: Race, e: Step): Race {
    match e
    case Arrive(l) => s.(waiting := s.waiting + {l})
    case Check(l, now) =>
      if s.record.Some? && Expired(s.record.value, now) then
        Race(None, s.waiting - {l}, s.verifying + {l})
      else if s.record.Some? && s.record.value.count >= MAX_ATTEMPTS then
        s.(waiting := s.waiting - {l})
      else
        Race(s.record, s.waiting - {l}, s.verifying + {l})
    case Fail(l, swept, full, _, t1, t2) =>
      Race(Recorded(if swept then None else s.record, full, t1, t2), s.waiting, s.verifying - {l})
    case Succeed(l) => Race(None, s.waiting, s.verifying - {l})
    case Abandon(l) => s.(verifying := s.verifying - {l})
    case Swept(_) => s.(record := None)
  }

  /** A step on the whole table, projected to one IP, is this step: the check and the
      recording agree with the limiter's. */
  lemma ChecksAgree(m: Attempts, ip: string, now: int)
    ensures Projected(AfterCheck(m, ip, now), ip) == Next(Race(Projected(m, ip), {0}, {}), Step.Check(0, now)).record
    ensures IsLimited(m, ip, now) <==> 0 !in Next(Race(Projected(m, ip), {0}, {}), Step.Check(0, now)).verifying
  {
  }

  lemma FailuresAgree(m: Attempts, swept: set<string>, ip: string, t0: int, t1: int, t2: int, cap: nat)
    requires Sweepable(m, swept, t0)
    ensures Projected(AfterFailure(m - swept, ip, t1, t2, cap), ip)
      == Next(Race(Projected(m, ip), {}, {0}), Fail(0, ip in swept, |m - swept| >= cap, t0, t1, t2)).record
  {
  }

  function Projected(m: Attempts, ip: string): Option<Attempt> { if ip in m then Some(m[ip]) else None }

  function Count(r: Option<Attempt>): nat { match r case Some(a) => a.count case None => 0 }

  predicate RaceInv(s: Race, k: nat) {
    && s.waiting !! s.verifying && |s.waiting| + |s.verifying| <= k
    && (|s.verifying| > 0 ==> Count(s.record) + |s.verifying| <= MAX_ATTEMPTS - 1 + k)
    && Count(s.record) <= MAX_ATTEMPTS - 1 + k
  }

  lemma Resized(a: set<nat>, l: nat)
    ensures l !in a ==> |a + {l}| == |a| + 1
    ensures l in a ==> |a - {l}| == |a| - 1
  {
  }

  lemma ArrivalKeeps(s: Race, l: nat, k: nat)
    requires k > 0 && RaceInv(s, k) && Enabled(s, Arrive(l), k)
    ensures RaceInv(Next(s, Arrive(l)), k)
  {
    Resized(s.waiting, l);
  }

  lemma CheckKeeps(s: Race, l: nat, now: int, k: nat)
    requires k > 0 && RaceInv(s, k) && Enabled(s, Step.Check(l, now), k)
    ensures RaceInv(Next(s, Step.Check(l, now)), k)
  {
    Resized(s.waiting, l);
    Resized(s.verifying, l);
  }

  lemma OutcomeKeeps(s: Race, e: Step, l: nat, k: nat)
    requires k > 0 && RaceInv(s, k) && Enabled(s, e, k)
    requires e == Succeed(l) || e == Abandon(l) || (e.Fail? && e.login == l)
    ensures RaceInv(Next(s, e), k)
  {
    Resized(s.verifying, l);
  }

  lemma NextKeeps(s: Race, e: Step, k: nat)
    requires k > 0 && RaceInv(s, k) && Enabled(s, e, k)
    ensures RaceInv(Next(s, e), k)
  {
    if e.Arrive? {
      ArrivalKeeps(s, e.login, k);
    } else if e.Check? {
      CheckKeeps(s, e.login, e.now, k);
    } else if !e.Swept? {
      OutcomeKeeps(s, e, e.login, k);
    }
  }

  function RunRace(s: Race, es: seq<Step>): Race {
    if es == [] then s else Next(RunRace(s, es[..|es| - 1]), es[|es| - 1])
  }

  predicate EnabledRun(s: Race, es: seq<Step>, k: nat) {
    es != [] ==> EnabledRun(s, es[..|es| - 1], k) && Enabled(RunRace(s, es[..|es| - 1]), es[|es| - 1], k)
  }

  const QUIET := Race(None, {}, {})

  lemma {:induction false} RaceKeeps(es: seq<Step>, k: nat)
    requires k > 0 && EnabledRun(QUIET, es, k)
    ensures RaceInv(RunRace(QUIET, es), k)
  {
    if es != [] {
      RaceKeeps(es[..|es| - 1], k);
      NextKeeps(RunRace(QUIET, es[..|es| - 1]), es[|es| - 1], k);
    }
  }

  /** With at most k logins in flight from one IP, under every interleaving, its recorded count
      never exceeds MAX_ATTEMPTS - 1 + k; taken one at a time it never exceeds MAX_ATTEMPTS. */
  lemma CountIsBounded(es: seq<Step>, k: nat)
    requires k > 0 && EnabledRun(QUIET, es, k)
    ensures Count(RunRace(QUIET, es).record) <= MAX_ATTEMPTS - 1 + k
  {
    RaceKeeps(es, k);
  }

  // ---- The bound is exact ----

  // k logins that all pass the check before any of them fails.
  function Arrivals(k: nat): seq<Step> {
    if k == 0 then [] else Arrivals(k - 1) + [Arrive(k - 1), Step.Check(k - 1, 0)]
  }

  function Failures(k: nat): seq<Step> {
    if k == 0 then [] else Failures(k - 1) + [Fail(k - 1, false, false, 0, 0, 0)]
  }

  function UpTo(k: nat): (r: set<nat>)
    ensures |r| == k && forall i: nat :: i in r <==> i < k
  {
    if k == 0 then {} else UpTo(k - 1) + {k - 1}
  }

  lemma RunOne(s: Race, es: seq<Step>, a: Step, k: nat)
    ensures RunRace(s, es + [a]) == Next(RunRace(s, es), a)
    ensures EnabledRun(s, es, k) && Enabled(RunRace(s, es), a, k) ==> EnabledRun(s, es + [a], k)
  {
    assert (es + [a])[..|es|] == es;
  }

  lemma RunTwo(s: Race, es: seq<Step>, a: Step, b: Step, k: nat)
    ensures RunRace(s, es + [a, b]) == Next(Next(RunRace(s, es), a), b)
    ensures EnabledRun(s, es, k) && Enabled(RunRace(s, es), a, k) && Enabled(Next(RunRace(s, es), a), b, k)
            ==> EnabledRun(s, es + [a, b], k)
  {
    RunOne(s, es, a, k);
    RunOne(s, es + [a], b, k);
    assert es + [a, b] == (es + [a]) + [b];
  }

  lemma ArriveAndPass(a: Attempt, verifying: set<nat>, l: nat, k: nat)
    requires l !in verifying && |verifying| < k && a.count < MAX_ATTEMPTS && a.first == 0
    ensures var s := Race(Some(a), {}, verifying);
      && Enabled(s, Arrive(l), k) && Enabled(Next(s, Arrive(l)), Step.Check(l, 0), k)
      && Next(Next(s, Arrive(l)), Step.Check(l, 0)) == Race(Some(a), {}, verifying + {l})
  {
    var s := Race(Some(a), {}, verifying);
    assert s.waiting + s.verifying == verifying;
    var w: set<nat> := {l};
    assert {} + w == w && w - w == {};
  }

  lemma OneMorePasses(a: Attempt, es: seq<Step>, verifying: set<nat>, l: nat, k: nat)
    requires l !in verifying && |verifying| < k && a.count < MAX_ATTEMPTS && a.first == 0
    requires Reaches(Race(Some(a), {}, {}), es, Race(Some(a), {}, verifying), k)
    ensures Reaches(Race(Some(a), {}, {}), es + [Arrive(l), Step.Check(l, 0)], Race(Some(a), {}, verifying + {l}), k)
  {
    RunTwo(Race(Some(a), {}, {}), es, Arrive(l), Step.Check(l, 0), k);
    ArriveAndPass(a, verifying, l, k);
  }

  lemma OneMoreFails(a: Attempt, n: nat, es: seq<Step>, all: set<nat>, verifying: set<nat>, l: nat, k: nat)
    requires l in verifying && a.first == 0
    requires Reaches(Race(Some(a), {}, all), es, Race(Some(Attempt(n, 0)), {}, verifying), k)
    ensures Reaches(Race(Some(a), {}, all), es + [Fail(l, false, false, 0, 0, 0)],
                    Race(Some(Attempt(n + 1, 0)), {}, verifying - {l}), k)
  {
    RunOne(Race(Some(a), {}, all), es, Fail(l, false, false, 0, 0, 0), k);
  }

  predicate Reaches(s: Race, es: seq<Step>, t: Race, k: nat) { EnabledRun(s, es, k) && RunRace(s, es) == t }

  lemma {:induction false} AllArrive(a: Attempt, j: nat, k: nat)
    requires j <= k && a.count < MAX_ATTEMPTS && a.first == 0
    ensures Reaches(Race(Some(a), {}, {}), Arrivals(j), Race(Some(a), {}, UpTo(j)), k)
  {
    if j > 0 {
      AllArrive(a, j - 1, k);
      OneMorePasses(a, Arrivals(j - 1), UpTo(j - 1), j - 1, k);
    }
  }

  lemma {:induction false} AllFail(a: Attempt, j: nat, k: nat)
    requires j <= k && a.first == 0
    ensures Reaches(Race(Some(a), {}, UpTo(k)), Failures(j),
                    Race(Some(Attempt(a.count + j, 0)), {}, UpTo(k) - UpTo(j)), k)
  {
    if j == 0 {
      assert UpTo(k) - UpTo(0) == UpTo(k);
    } else {
      AllFail(a, j - 1, k);
      OneMoreFails(a, a.count + j - 1, Failures(j - 1), UpTo(k), UpTo(k) - UpTo(j - 1), j - 1, k);
      assert (UpTo(k) - UpTo(j - 1)) - {j - 1} == UpTo(k) - UpTo(j);
    }
  }

  // Failures one after another, each checked before it is recorded.
  function OneByOne(n: nat): seq<Step> {
    if n == 0 then [] else OneByOne(n - 1) + ([Arrive(0), Step.Check(0, 0)] + [Fail(0, false, false, 0, 0, 0)])
  }

  function Counted(n: nat): Race { Race(if n == 0 then None else Some(Attempt(n, 0)), {}, {}) }

  lemma {:induction false} ReachesOn(s: Race, es: seq<Step>, t: Race, fs: seq<Step>, u: Race, k: nat)
    requires Reaches(s, es, t, k) && Reaches(t, fs, u, k)
    ensures Reaches(s, es + fs, u, k)
  {
    if fs == [] {
      assert es + fs == es;
    } else {
      var n := |fs| - 1;
      ReachesOn(s, es, t, fs[..n], RunRace(t, fs[..n]), k);
      RunOne(s, es + fs[..n], fs[n], k);
      assert es + fs == (es + fs[..n]) + [fs[n]];
    }
  }

  lemma LoginPasses(n: nat, k: nat)
    requires n < MAX_ATTEMPTS && k > 0
    ensures Reaches(Counted(n), [Arrive(0), Step.Check(0, 0)], Race(Counted(n).record, {}, {0}), k)
  {
    RunTwo(Counted(n), [], Arrive(0), Step.Check(0, 0), k);
    assert [] + [Arrive(0), Step.Check(0, 0)] == [Arrive(0), Step.Check(0, 0)];
    var l: set<nat> := {0};
    assert {} + l == l && l - l == {};
  }

  lemma LoginFails(n: nat, k: nat)
    ensures Reaches(Race(Counted(n).record, {}, {0}), [Fail(0, false, false, 0, 0, 0)], Counted(n + 1), k)
  {
    RunOne(Race(Counted(n).record, {}, {0}), [], Fail(0, false, false, 0, 0, 0), k);
    assert [] + [Fail(0, false, false, 0, 0, 0)] == [Fail(0, false, false, 0, 0, 0)];
    var l: set<nat> := {0};
    assert l - l == {};
  }

  lemma {:induction false} FailOneByOne(n: nat, k: nat)
    requires n <= MAX_ATTEMPTS && k > 0
    ensures Reaches(QUIET, OneByOne(n), Counted(n), k)
  {
    if n > 0 {
      var passed := Race(Counted(n - 1).record, {}, {0});
      FailOneByOne(n - 1, k);
      LoginPasses(n - 1, k);
      LoginFails(n - 1, k);
      ReachesOn(Counted(n - 1), [Arrive(0), Step.Check(0, 0)], passed, [Fail(0, false, false, 0, 0, 0)], Counted(n), k);
      ReachesOn(QUIET, OneByOne(n - 1), Counted(n - 1),
        [Arrive(0), Step.Check(0, 0)] + [Fail(0, false, false, 0, 0, 0)], Counted(n), k);
    }
  }

  /** ... and k logins can reach it: after four failures taken one at a time, k that all pass the
      check before any is recorded bring the count to exactly MAX_ATTEMPTS - 1 + k. */
  lemma BoundIsReached(k: nat)
    requires k > 0
    ensures var es := OneByOne(MAX_ATTEMPTS - 1) + Arrivals(k) + Failures(k);
      EnabledRun(QUIET, es, k) && Count(RunRace(QUIET, es).record) == MAX_ATTEMPTS - 1 + k
  {
    var n := MAX_ATTEMPTS - 1;
    var a := Attempt(n, 0);
    FailOneByOne(n, k);
    AllArrive(a, k, k);
    AllFail(a, k, k);
    ReachesOn(QUIET, OneByOne(n), Counted(n), Arrivals(k), Race(Some(a), {}, UpTo(k)), k);
    var last := Race(Some(Attempt(n + k, 0)), {}, UpTo(k) - UpTo(k));
    ReachesOn(QUIET, OneByOne(n) + Arrivals(k), Race(Some(a), {}, UpTo(k)), Failures(k), last, k);
  }
}
