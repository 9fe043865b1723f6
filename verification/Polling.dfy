/** The poller's cache: three maps kept in step by one sweep after another, and the backoff
    that decides which proxies a sweep asks. */
module Polling {
  import opened Wrappers
  import opened Entities

  const FAILURES_BEFORE_BACKOFF: nat := 3
  const BACKOFF_EVERY: nat := 6

  datatype User = User(uniqueIps: int, ips: seq<string>, connections: u64, octets: u64, links: seq<string>)

  // What asking a proxy brings: no client or no answer, or the users it reports.
  datatype Reply = Unreachable(error: string) | Users(users: seq<User>)

  datatype Snapshot = Snapshot(proxyId: Id, ok: bool, err: string, stats: Option<User>)

  const NO_USERS :=
    "telemt reported no users for this proxy (expected exactly one) — check for config drift or lost state"

  function PollProxy(id: Id, reply: Reply): Snapshot {
    match reply
    case Unreachable(error) => Snapshot(id, false, error, None)
    case Users(us) => if us == [] then Snapshot(id, true, NO_USERS, None) else Snapshot(id, true, "", Some(us[0]))
  }

  // What the cache is to know of a proxy from one reply: that it cannot be reached and why, or its
  // first user's figures, or that it reports no user.
  predicate Learned(s: Snapshot, id: Id, reply: Reply) {
    && s.proxyId == id && (s.ok <==> reply.Users?)
    && (reply.Unreachable? ==> s.err == reply.error && s.stats.None?)
    && (reply.Users? && reply.users == [] ==> s.err != "" && s.stats.None?)
    && (reply.Users? && reply.users != [] ==> s.err == "" && s.stats == Some(reply.users[0]))
  }

  // A sweep whose List succeeded: the listed proxies, and what each would answer if asked.
  type Sweep = map<Id, Reply>

  datatype Cache = Cache(snapshots: map<Id, Snapshot>, failures: map<Id, nat>, skips: map<Id, nat>)

  const EMPTY := Cache(map[], map[], map[])

  predicate Agrees(c: Cache) { c.failures.Keys <= c.snapshots.Keys && c.skips.Keys <= c.snapshots.Keys }

  // What the cache holds of one proxy.
  datatype Track = Track(snapshot: Option<Snapshot>, failures: Option<nat>, skips: Option<nat>)

  const UNKNOWN := Track(None, None, None)

  function Look<T>(m: map<Id, T>, id: Id): Option<T> { if id in m then Some(m[id]) else None }

  function At(c: Cache, id: Id): Track { Track(Look(c.snapshots, id), Look(c.failures, id), Look(c.skips, id)) }

  function Number(n: Option<nat>): nat { match n case Some(k) => k case None => 0 }

  predicate Skipped(t: Track) { Number(t.failures) >= FAILURES_BEFORE_BACKOFF && Number(t.skips) < BACKOFF_EVERY - 1 }

  function Taken(t: Track, s: Snapshot): Track {
    Track(Some(s), if s.ok then None else Some(Number(t.failures) + 1), Some(0))
  }

  // One proxy's part in a sweep; None: it is not listed.
  function Next(t: Track, id: Id, reply: Option<Reply>): Track {
    match reply
    case None => UNKNOWN
    case Some(r) => if Skipped(t) then t.(skips := Some(Number(t.skips) + 1)) else Taken(t, PollProxy(id, r))
  }

  // One sweep, proxy by proxy: no order of asking or answering appears in it.
  function Swept(c: Cache, sweep: Sweep): Cache {
    var n := map id | id in sweep :: Next(At(c, id), id, Some(sweep[id]));
    Cache(map id | id in n && n[id].snapshot.Some? :: n[id].snapshot.value,
          map id | id in n && n[id].failures.Some? :: n[id].failures.value,
          map id | id in n && n[id].skips.Some? :: n[id].skips.value)
  }

  lemma SweptAt(c: Cache, sweep: Sweep, id: Id)
    ensures At(Swept(c, sweep), id) == Next(At(c, id), id, Look(sweep, id))
  {
    var n := map i | i in sweep :: Next(At(c, i), i, Some(sweep[i]));
    assert id in n <==> id in sweep;
  }

  lemma SameMap<T>(m: map<Id, T>, n: map<Id, T>)
    requires forall id :: Look(m, id) == Look(n, id)
    ensures m == n
  {
    assert forall id :: id in m <==> Look(m, id).Some?;
    assert forall id :: id in n <==> Look(n, id).Some?;
    assert forall id :: id in m ==> m[id] == Look(m, id).value;
  }

  lemma SameEverywhere(a: Cache, b: Cache)
    requires forall id :: At(a, id) == At(b, id)
    ensures a == b
  {
    forall id
      ensures Look(a.snapshots, id) == Look(b.snapshots, id)
      ensures Look(a.failures, id) == Look(b.failures, id)
      ensures Look(a.skips, id) == Look(b.skips, id)
    {
      assert At(a, id) == At(b, id);
    }
    SameMap(a.snapshots, b.snapshots);
    SameMap(a.failures, b.failures);
    SameMap(a.skips, b.skips);
  }

  ghost predicate Distinct(ids: seq<Id>) { forall i, j :: 0 <= i < j < |ids| ==> ids[i] != ids[j] }

  ghost predicate ListsOnce(ids: seq<Id>, sweep: Sweep) { Distinct(ids) && forall id :: id in sweep <==> id in ids }

  // Results of exactly the proxies asked, in some order.
  ghost predicate Arrived(results: seq<Snapshot>, asked: set<Id>, sweep: Sweep) {
    && asked <= sweep.Keys
    && (forall i :: 0 <= i < |results| ==>
          results[i].proxyId in asked && results[i] == PollProxy(results[i].proxyId, sweep[results[i].proxyId]))
    && (forall i, j :: 0 <= i < j < |results| ==> results[i].proxyId != results[j].proxyId)
    && (forall id :: id in asked ==> PollProxy(id, sweep[id]) in results)
  }

  // ---- The poller ----

  class Poller {
    var snapshots: map<Id, Snapshot>
    var failures: map<Id, nat>
    var skips: map<Id, nat>

    ghost function State(): Cache
      reads this
    {
      Cache(snapshots, failures, skips)
    }

    constructor ()
      ensures State() == EMPTY
    {
      snapshots, failures, skips := map[], map[], map[];
    }

    /** One sweep. `listed` is what List returns, None its error. */
    method PollOnce(listed: Option<seq<Id>>, sweep: Sweep)
      requires Agrees(State()) && (listed.Some? ==> ListsOnce(listed.value, sweep))
      modifies this
      ensures State() == if listed.None? then old(State()) else Swept(old(State()), sweep)
    {
      if listed.None? { return; }
      var ids := listed.value;
      var skip := DecideSkips(ids);
      var results, asked := Ask(ids, skip, sweep);
      Merge(results, asked, sweep);
      DropDead(ids);
      forall id ensures At(State(), id) == At(Swept(old(State()), sweep), id) {
        SweptAt(old(State()), sweep, id);
        UnknownOutside(old(State()), id);
      }
      SameEverywhere(State(), Swept(old(State()), sweep));
    }

    method DecideSkips(ids: seq<Id>) returns (skip: set<Id>)
      requires Distinct(ids)
      modifies this`skips
      ensures forall id :: id in skip <==> id in ids && Skipped(At(old(State()), id))
      ensures forall id :: At(State(), id) == Waiting(At(old(State()), id), id in skip)
    {
      skip := {};
      for i := 0 to |ids|
        invariant forall id :: id in skip <==> id in ids[..i] && Skipped(At(old(State()), id))
        invariant forall id :: At(State(), id) == Waiting(At(old(State()), id), id in skip)
      {
        var id := ids[i];
        assert id !in ids[..i] && At(State(), id) == At(old(State()), id);
        if Number(Look(failures, id)) >= FAILURES_BEFORE_BACKOFF && Number(Look(skips, id)) < BACKOFF_EVERY - 1 {
          skips := skips[id := Number(Look(skips, id)) + 1];
          skip := skip + {id};
        }
      }
    }

    // The proxies are asked side by side; their snapshots arrive in any order.
    method Ask(ids: seq<Id>, skip: set<Id>, sweep: Sweep) returns (results: seq<Snapshot>, ghost asked: set<Id>)
      requires ListsOnce(ids, sweep)
      ensures asked == (set id | id in ids && id !in skip) && Arrived(results, asked, sweep)
    {
      results, asked := [], {};
      var running := set id | id in ids && id !in skip;
      while running != {}
        invariant running !! asked && running + asked == set id | id in ids && id !in skip
        invariant Arrived(results, asked, sweep)
        decreases running
      {
        var id :| id in running;
        running, asked := running - {id}, asked + {id};
        results := results + [PollProxy(id, sweep[id])];
      }
    }

    method Merge(results: seq<Snapshot>, ghost asked: set<Id>, ghost sweep: Sweep)
      requires Arrived(results, asked, sweep)
      modifies this
      ensures forall id :: At(State(), id) == TakenIf(At(old(State()), id), id, asked, sweep)
    {
      ghost var done: set<Id> := {};
      for i := 0 to |results|
        invariant done <= asked && forall id :: id in done <==> exists j :: 0 <= j < i && results[j].proxyId == id
        invariant forall id :: At(State(), id) == TakenIf(At(old(State()), id), id, done, sweep)
      {
        assert results[i].proxyId !in done;
        MergeOne(results[i]);
        done := done + {results[i].proxyId};
      }
      assert done == asked;
    }

    method MergeOne(s: Snapshot)
      modifies this
      ensures forall id ::
        At(State(), id) == if id == s.proxyId then Taken(At(old(State()), id), s) else At(old(State()), id)
    {
      snapshots := snapshots[s.proxyId := s];
      skips := skips[s.proxyId := 0];
      if s.ok {
        failures := failures - {s.proxyId};
      } else {
        failures := failures[s.proxyId := Number(Look(failures, s.proxyId)) + 1];
      }
    }

    method DropDead(ids: seq<Id>)
      modifies this
      ensures forall id :: At(State(), id) == DropIf(At(old(State()), id), id in old(snapshots) && id !in ids)
    {
      var rest := snapshots.Keys;
      while rest != {}
        invariant rest <= old(snapshots).Keys
        invariant forall id ::
          At(State(), id) == DropIf(At(old(State()), id), id in old(snapshots).Keys - rest && id !in ids)
        decreases rest
      {
        var id :| id in rest;
        rest := rest - {id};
        if id !in ids {
          snapshots, failures, skips := snapshots - {id}, failures - {id}, skips - {id};
        }
      }
    }
  }

  function Waiting(t: Track, skipped: bool): Track { if skipped then t.(skips := Some(Number(t.skips) + 1)) else t }

  function DropIf(t: Track, dead: bool): Track { if dead then UNKNOWN else t }

  ghost function TakenIf(t: Track, id: Id, done: set<Id>, sweep: Sweep): Track
    requires done <= sweep.Keys
  {
    if id in done then Taken(t, PollProxy(id, sweep[id])) else t
  }

  lemma UnknownOutside(c: Cache, id: Id)
    requires Agrees(c)
    ensures id !in c.snapshots ==> At(c, id) == UNKNOWN
  {
  }

  // ---- One sweep ----

  /** After a sweep the snapshots are exactly the listed proxies', failure and skip counts are
      kept for none but those, a proxy that was skipped keeps its snapshot, and the snapshot of one
      that was asked says what it replied. */
  lemma CacheAgreement(c: Cache, sweep: Sweep)
    requires Agrees(c)
    ensures Swept(c, sweep).snapshots.Keys == sweep.Keys && Agrees(Swept(c, sweep))
    ensures forall id ::
      id in sweep && Skipped(At(c, id)) ==> id in c.snapshots && Swept(c, sweep).snapshots[id] == c.snapshots[id]
    ensures forall id ::
      id in sweep && !Skipped(At(c, id)) ==> Learned(Swept(c, sweep).snapshots[id], id, sweep[id])
  {
    var d := Swept(c, sweep);
    forall id
      ensures id in d.snapshots <==> id in sweep
      ensures id in d.failures || id in d.skips ==> id in sweep
      ensures id in sweep && Skipped(At(c, id)) ==> id in c.snapshots && d.snapshots[id] == c.snapshots[id]
      ensures id in sweep && !Skipped(At(c, id)) ==> Learned(d.snapshots[id], id, sweep[id])
    {
      SweptAt(c, sweep, id);
      UnknownOutside(c, id);
      assert At(d, id) == Next(At(c, id), id, Look(sweep, id));
    }
  }

  // ---- Any number of sweeps ----

  function RunSweeps(c: Cache, sweeps: seq<Sweep>): Cache
    decreases |sweeps|
  {
    if sweeps == [] then c else RunSweeps(Swept(c, sweeps[0]), sweeps[1..])
  }

  lemma {:induction false} RunAgrees(c: Cache, sweeps: seq<Sweep>)
    requires Agrees(c)
    ensures Agrees(RunSweeps(c, sweeps))
    ensures sweeps != [] ==> RunSweeps(c, sweeps).snapshots.Keys == sweeps[|sweeps| - 1].Keys
    decreases |sweeps|
  {
    if sweeps != [] {
      CacheAgreement(c, sweeps[0]);
      RunAgrees(Swept(c, sweeps[0]), sweeps[1..]);
    }
  }

  // In how many of the sweeps the proxy is asked.
  function Attempts(c: Cache, sweeps: seq<Sweep>, id: Id): nat
    decreases |sweeps|
  {
    if sweeps == [] then 0
    else (if id in sweeps[0] && !Skipped(At(c, id)) then 1 else 0) + Attempts(Swept(c, sweeps[0]), sweeps[1..], id)
  }

  predicate AlwaysListed(sweeps: seq<Sweep>, id: Id) { forall i :: 0 <= i < |sweeps| ==> id in sweeps[i] }

  predicate AlwaysAnswers(sweeps: seq<Sweep>, id: Id) {
    forall i :: 0 <= i < |sweeps| ==> id in sweeps[i] && sweeps[i][id].Users?
  }

  predicate NeverAnswers(sweeps: seq<Sweep>, id: Id) {
    forall i :: 0 <= i < |sweeps| ==> id in sweeps[i] && sweeps[i][id].Unreachable?
  }

  // How many more sweeps will skip it.
  function Wait(t: Track): nat {
    if Skipped(t) then BACKOFF_EVERY - 1 - Number(t.skips) else 0
  }

  /** Of any n consecutive sweeps that list a proxy, at least one in six, rounded down, asks
      it - from any cache and whatever it answers. */
  lemma {:induction false} AskedOnceInSix(c: Cache, sweeps: seq<Sweep>, id: Id)
    requires AlwaysListed(sweeps, id)
    ensures BACKOFF_EVERY * Attempts(c, sweeps, id) + Wait(At(c, id)) >= |sweeps|
    ensures Attempts(c, sweeps, id) >= |sweeps| / BACKOFF_EVERY
    decreases |sweeps|
  {
    if sweeps != [] {
      SweptAt(c, sweeps[0], id);
      AskedOnceInSix(Swept(c, sweeps[0]), sweeps[1..], id);
    }
  }

  // Attempts in n sweeps at a proxy that never answers, from a given track.
  function FailingAttempts(t: Track, n: nat): nat {
    var free :=
      if Number(t.failures) < FAILURES_BEFORE_BACKOFF then FAILURES_BEFORE_BACKOFF - Number(t.failures) else 0;
    if n <= free then n
    else if free > 0 then free + (n - free) / BACKOFF_EVERY
    else (n + BACKOFF_EVERY - 1 - Wait(t)) / BACKOFF_EVERY
  }

  lemma {:induction false} FailingRate(c: Cache, sweeps: seq<Sweep>, id: Id)
    requires NeverAnswers(sweeps, id)
    ensures Attempts(c, sweeps, id) == FailingAttempts(At(c, id), |sweeps|)
    decreases |sweeps|
  {
    if sweeps != [] {
      SweptAt(c, sweeps[0], id);
      FailingRate(Swept(c, sweeps[0]), sweeps[1..], id);
      FailingStep(At(c, id), id, sweeps[0][id], |sweeps|);
    }
  }

  lemma FailingStep(t: Track, id: Id, reply: Reply, n: nat)
    requires reply.Unreachable? && n > 0
    ensures FailingAttempts(t, n) ==
      (if Skipped(t) then 0 else 1) + FailingAttempts(Next(t, id, Some(reply)), n - 1)
  {
  }

  /** A proxy that never answers is asked in exactly min(n, 3) + max(0, n - 3) / 6 of its
      first n sweeps. */
  lemma FailingProxy(c: Cache, sweeps: seq<Sweep>, id: Id)
    requires Agrees(c) && id !in c.snapshots && NeverAnswers(sweeps, id)
    ensures var n := |sweeps|;
      Attempts(c, sweeps, id) == if n <= 3 then n else 3 + (n - 3) / 6
  {
    UnknownOutside(c, id);
    FailingRate(c, sweeps, id);
  }

  /** A proxy that answers from now on is asked in every sweep but those it is still to be
      skipped for, at most five, and once asked its snapshot is OK and the latest. */
  lemma {:induction false} HealthyRate(c: Cache, sweeps: seq<Sweep>, id: Id)
    requires AlwaysAnswers(sweeps, id)
    ensures var n, w := |sweeps|, Wait(At(c, id));
      && w <= 5 && Attempts(c, sweeps, id) == (if n <= w then 0 else n - w)
      && (n > w ==> Answered(At(RunSweeps(c, sweeps), id), id, sweeps[n - 1][id]))
    decreases |sweeps|
  {
    if sweeps != [] {
      SweptAt(c, sweeps[0], id);
      var rest := sweeps[1..];
      HealthyRate(Swept(c, sweeps[0]), rest, id);
      if rest == [] {
        assert RunSweeps(c, sweeps) == Swept(c, sweeps[0]);
      } else {
        assert rest[|rest| - 1] == sweeps[|sweeps| - 1];
      }
    }
  }

  // The cache knows what the proxy just replied, and of no failure.
  predicate Answered(t: Track, id: Id, reply: Reply) {
    t.snapshot.Some? && Learned(t.snapshot.value, id, reply) && t.failures.None? && t.skips == Some(0)
  }

  lemma OnceAnswered(d: Cache, later: seq<Sweep>, id: Id, reply: Reply)
    requires reply.Users? && Answered(At(d, id), id, reply) && AlwaysAnswers(later, id)
    ensures id in d.snapshots && d.snapshots[id].ok && Attempts(d, later, id) == |later|
  {
    HealthyRate(d, later, id);
  }

  /** Whatever its past, a proxy that starts to answer has an OK snapshot within six sweeps
      and is asked in every sweep after that. */
  lemma RecoversWithinSix(c: Cache, sweeps: seq<Sweep>, later: seq<Sweep>, id: Id)
    requires |sweeps| == 6 && AlwaysAnswers(sweeps, id) && AlwaysAnswers(later, id)
    ensures var d := RunSweeps(c, sweeps);
      && id in d.snapshots && d.snapshots[id].ok && Attempts(d, later, id) == |later|
  {
    HealthyRate(c, sweeps, id);
    OnceAnswered(RunSweeps(c, sweeps), later, id, sweeps[5][id]);
  }
}
