/** A whole Create, taken alone, whatever fails at which of its steps. */
module CreateCalls {
  import opened Wrappers
  import opened Entities
  import opened Machine
  import opened Invariant
  import opened Calls

  // What stands in the way of a create's k-th step, if everything went well before.
  function CreateObstacle(cfg: Settings, w: World, row: Proxy, cs: seq<Choice>, k: nat): Option<Fault>
    requires |cs| >= 10
  {
    if k == 0 then AskObstacle(cfg, row, cs[0])
    else if k == 1 then ClaimObstacle(w, row, Denied(cs, 1))
    else if k == 2 then Refusal(cs[2].fail, MkdirFailed)
    else if k == 3 then FileObstacle(cfg, row, cs[3])
    else if k < 8 then Refusal(Denied(cs, k), RuntimeFailed)
    else if k == 9 then Refusal(cs[9].fail, StoreFailed)
    else None
  }

  function ClaimObstacle(w: World, row: Proxy, down: bool): Option<Fault> {
    if down then Some(StoreFailed)
    else if PortHeld(w.rows, row.port, row.id) then Some(PortTaken)
    else Refusal(row.id in w.rows, StoreFailed)
  }

  predicate CreateClear(cfg: Settings, w: World, row: Proxy, cs: seq<Choice>, k: nat)
    requires |cs| >= 10
  {
    k > 0 ==> CreateClear(cfg, w, row, cs, k - 1) && CreateObstacle(cfg, w, row, cs, k - 1).None?
  }

  // The call is over, or is rolling back, with error `e`.
  predicate FailedWith(pr: Proc, e: Option<Fault>) {
    pr.op.Create? && (pr.pc == CUndo || pr.pc == Done) && e.Some? && pr.err == e
  }

  function Creating(row: Proxy, pc: Pc, cs: seq<Choice>, k: nat, p: Proxy, undo: seq<Undo>): Proc {
    At(Create(row), pc, cs, k, p).(undo := undo)
  }

  const BOTH := [DropRow, DropDir]

  function All(cid: Cid): seq<Undo> { [DropRow, DropDir, DropContainer(cid)] }

  // The stores after each of the steps.
  function ClaimedWorld(w: World, row: Proxy): World { w.(rows := w.rows[row.id := row]) }

  function FiledWorld(cfg: Settings, w: World, row: Proxy): World {
    w.(rows := w.rows[row.id := row], dirs := w.dirs[row.id := Rendered(cfg, row)])
  }

  function CreatedWorld(cfg: Settings, w: World, row: Proxy, stored: Proxy, running: bool): World {
    w.(rows := w.rows[row.id := stored], dirs := w.dirs[row.id := Rendered(cfg, row)],
       ctrs := w.ctrs[w.nextCid := Container(true, row.id, row.port, running)], nextCid := w.nextCid + 1)
  }

  // One step from a given place in the program.
  lemma Checked(cfg: Settings, w: World, row: Proxy, cs: seq<Choice>)
    requires |cs| >= 10
    ensures var e := AskObstacle(cfg, row, cs[0]); var (pr', v') := After(cfg, Create(row), w, cs, 1);
      (e.Some? ==> FailedWith(pr', e)) && (e.None? ==> pr' == Creating(row, CInsert, cs, 1, row, []) && v' == w)
  {
    AtFirst(cfg, Create(row), w, cs);
    Onward(cfg, Create(row), w, cs, 0);
  }

  lemma Claimed(cfg: Settings, w: World, row: Proxy, cs: seq<Choice>)
    requires |cs| >= 10 && After(cfg, Create(row), w, cs, 1) == (Creating(row, CInsert, cs, 1, row, []), w)
    ensures var e := ClaimObstacle(w, row, Denied(cs, 1)); var (pr', v') := After(cfg, Create(row), w, cs, 2);
      && (e.Some? ==> FailedWith(pr', e))
      && (e.None? ==> pr' == Creating(row, CMkdir, cs, 2, row, [DropRow]) && v' == ClaimedWorld(w, row))
  {
    Onward(cfg, Create(row), w, cs, 1);
  }

  lemma Housed(cfg: Settings, w: World, row: Proxy, cs: seq<Choice>, v: World)
    requires |cs| >= 10 && After(cfg, Create(row), w, cs, 2) == (Creating(row, CMkdir, cs, 2, row, [DropRow]), v)
    ensures var (pr', v') := After(cfg, Create(row), w, cs, 3);
      && (cs[2].fail ==> FailedWith(pr', Some(MkdirFailed)))
      && (!cs[2].fail ==> pr' == Creating(row, CWrite, cs, 3, row, [DropRow]) && v' == MadeDir(v, row.id))
  {
    Onward(cfg, Create(row), w, cs, 2);
  }

  lemma Written(cfg: Settings, w: World, row: Proxy, cs: seq<Choice>, v: World)
    requires |cs| >= 10 && After(cfg, Create(row), w, cs, 3) == (Creating(row, CWrite, cs, 3, row, [DropRow]), v)
    ensures var text := Rendered(cfg, row); var (pr', v') := After(cfg, Create(row), w, cs, 4);
      && (text.None? ==> FailedWith(pr', Some(ConfigInvalid)))
      && (text.Some? && cs[3].fail ==> FailedWith(pr', Some(WriteFailed)))
      && (text.Some? && !cs[3].fail ==>
            pr' == Creating(row, CNetwork, cs, 4, row, BOTH) && v' == v.(dirs := v.dirs[row.id := text]))
  {
    Onward(cfg, Create(row), w, cs, 3);
    assert [DropRow] + [DropDir] == BOTH;
  }

  lemma Networked(cfg: Settings, w: World, row: Proxy, cs: seq<Choice>, v: World)
    requires |cs| >= 10 && After(cfg, Create(row), w, cs, 4) == (Creating(row, CNetwork, cs, 4, row, BOTH), v)
    ensures var (pr', v') := After(cfg, Create(row), w, cs, 5);
      && (Denied(cs, 4) ==> FailedWith(pr', Some(RuntimeFailed)))
      && (!Denied(cs, 4) ==> pr' == Creating(row, CPull, cs, 5, row, BOTH) && v' == v)
  {
    Onward(cfg, Create(row), w, cs, 4);
  }

  lemma Pulled(cfg: Settings, w: World, row: Proxy, cs: seq<Choice>, v: World)
    requires |cs| >= 10 && After(cfg, Create(row), w, cs, 5) == (Creating(row, CPull, cs, 5, row, BOTH), v)
    ensures var (pr', v') := After(cfg, Create(row), w, cs, 6);
      && (Denied(cs, 5) ==> FailedWith(pr', Some(RuntimeFailed)))
      && (!Denied(cs, 5) ==> pr' == Creating(row, CBuild, cs, 6, row, BOTH) && v' == v)
  {
    Onward(cfg, Create(row), w, cs, 5);
  }

  lemma Built(cfg: Settings, w: World, row: Proxy, cs: seq<Choice>, v: World)
    requires |cs| >= 10 && After(cfg, Create(row), w, cs, 6) == (Creating(row, CBuild, cs, 6, row, BOTH), v)
    ensures var cid := v.nextCid; var (pr', v') := After(cfg, Create(row), w, cs, 7);
      && (Denied(cs, 6) ==> FailedWith(pr', Some(RuntimeFailed)))
      && (!Denied(cs, 6) ==>
            && pr' == Creating(row, CStart, cs, 7, row.(containerId := Some(cid)), All(cid))
            && v' == v.(ctrs := v.ctrs[cid := Container(true, row.id, row.port, false)], nextCid := cid + 1))
  {
    Onward(cfg, Create(row), w, cs, 6);
    assert BOTH + [DropContainer(v.nextCid)] == All(v.nextCid);
  }

  lemma Started(cfg: Settings, w: World, row: Proxy, cs: seq<Choice>, p: Proxy, cid: Cid, v: World)
    requires |cs| >= 10 && After(cfg, Create(row), w, cs, 7) == (Creating(row, CStart, cs, 7, p, All(cid)), v)
    requires p.containerId == Some(cid) && cid in v.ctrs
    ensures var (pr', v') := After(cfg, Create(row), w, cs, 8);
      && (Denied(cs, 7) ==> FailedWith(pr', Some(RuntimeFailed)))
      && (!Denied(cs, 7) ==> pr' == Creating(row, CHealth, cs, 8, p, All(cid))
                             && v' == v.(ctrs := v.ctrs[cid := v.ctrs[cid].(running := true)]))
  {
    Onward(cfg, Create(row), w, cs, 7);
  }

  lemma Awaited(cfg: Settings, w: World, row: Proxy, cs: seq<Choice>, p: Proxy, cid: Cid, v: World)
    requires |cs| >= 10 && After(cfg, Create(row), w, cs, 8) == (Creating(row, CHealth, cs, 8, p, All(cid)), v)
    requires p.containerId == Some(cid) && cid in v.ctrs
    ensures After(cfg, Create(row), w, cs, 9)
      == (Creating(row, CCommit, cs, 9, Found(p, Denied(cs, 8), cs[8].text), All(cid)), v)
  {
    Onward(cfg, Create(row), w, cs, 8);
  }

  lemma Committed(cfg: Settings, w: World, row: Proxy, cs: seq<Choice>, q: Proxy, undo: seq<Undo>, v: World)
    requires |cs| >= 10 && After(cfg, Create(row), w, cs, 9) == (Creating(row, CCommit, cs, 9, q, undo), v)
    requires q.id in v.rows && !PortHeld(v.rows, q.port, q.id)
    ensures var (pr', v') := After(cfg, Create(row), w, cs, 10);
      && pr'.pc == Done && pr'.p == q && pr'.err == Refusal(cs[9].fail, StoreFailed)
      && v' == if cs[9].fail then v else v.(rows := v.rows[q.id := q])
  {
    Onward(cfg, Create(row), w, cs, 9);
  }

  // Where a create is after its first `k` choices, if nothing has been in its way.
  function Reached(cfg: Settings, w: World, row: Proxy, cs: seq<Choice>, k: nat): (Proc, World)
    requires |cs| >= 10
  {
    var p, claimed := row.(containerId := Some(w.nextCid)), ClaimedWorld(w, row);
    if k == 0 then (Creating(row, CCheck, cs, 0, row, []), w)
    else if k == 1 then (Creating(row, CInsert, cs, 1, row, []), w)
    else if k == 2 then (Creating(row, CMkdir, cs, 2, row, [DropRow]), claimed)
    else if k == 3 then (Creating(row, CWrite, cs, 3, row, [DropRow]), MadeDir(claimed, row.id))
    else if k == 4 then (Creating(row, CNetwork, cs, 4, row, BOTH), FiledWorld(cfg, w, row))
    else if k == 5 then (Creating(row, CPull, cs, 5, row, BOTH), FiledWorld(cfg, w, row))
    else if k == 6 then (Creating(row, CBuild, cs, 6, row, BOTH), FiledWorld(cfg, w, row))
    else if k == 7 then (Creating(row, CStart, cs, 7, p, All(w.nextCid)), CreatedWorld(cfg, w, row, row, false))
    else if k == 8 then (Creating(row, CHealth, cs, 8, p, All(w.nextCid)), CreatedWorld(cfg, w, row, row, true))
    else (Creating(row, CCommit, cs, 9, Found(p, Denied(cs, 8), cs[8].text), All(w.nextCid)),
          CreatedWorld(cfg, w, row, row, true))
  }

  // The create's k-th step takes it on, or fails it for what is in the way.
  ghost predicate Advances(cfg: Settings, w: World, row: Proxy, cs: seq<Choice>, k: nat)
    requires |cs| >= 10 && k < 10
  {
    var e := CreateObstacle(cfg, w, row, cs, k); var (pr', v') := After(cfg, Create(row), w, cs, k + 1);
    (e.Some? ==> FailedWith(pr', e)) && (e.None? ==> (pr', v') == Reached(cfg, w, row, cs, k + 1))
  }

  lemma WriteAdvances(cfg: Settings, w: World, row: Proxy, cs: seq<Choice>)
    requires |cs| >= 10 && After(cfg, Create(row), w, cs, 3) == Reached(cfg, w, row, cs, 3)
    ensures Advances(cfg, w, row, cs, 3)
  {
    Written(cfg, w, row, cs, Reached(cfg, w, row, cs, 3).1);
    assert MadeDir(w, row.id).dirs[row.id := Rendered(cfg, row)] == w.dirs[row.id := Rendered(cfg, row)];
  }

  lemma MkdirAdvances(cfg: Settings, w: World, row: Proxy, cs: seq<Choice>)
    requires |cs| >= 10 && After(cfg, Create(row), w, cs, 2) == Reached(cfg, w, row, cs, 2)
    ensures Advances(cfg, w, row, cs, 2)
  {
    Housed(cfg, w, row, cs, ClaimedWorld(w, row));
  }

  lemma NetworkAdvances(cfg: Settings, w: World, row: Proxy, cs: seq<Choice>)
    requires |cs| >= 10 && After(cfg, Create(row), w, cs, 4) == Reached(cfg, w, row, cs, 4)
    ensures Advances(cfg, w, row, cs, 4)
  {
    Networked(cfg, w, row, cs, FiledWorld(cfg, w, row));
  }

  lemma PullAdvances(cfg: Settings, w: World, row: Proxy, cs: seq<Choice>)
    requires |cs| >= 10 && After(cfg, Create(row), w, cs, 5) == Reached(cfg, w, row, cs, 5)
    ensures Advances(cfg, w, row, cs, 5)
  {
    Pulled(cfg, w, row, cs, FiledWorld(cfg, w, row));
  }

  lemma CreatedFromFiled(cfg: Settings, w: World, row: Proxy)
    ensures var v := FiledWorld(cfg, w, row);
      CreatedWorld(cfg, w, row, row, false)
        == v.(ctrs := v.ctrs[v.nextCid := Container(true, row.id, row.port, false)], nextCid := v.nextCid + 1)
  {
  }

  lemma BuildAdvances(cfg: Settings, w: World, row: Proxy, cs: seq<Choice>)
    requires |cs| >= 10 && After(cfg, Create(row), w, cs, 6) == Reached(cfg, w, row, cs, 6)
    ensures Advances(cfg, w, row, cs, 6)
  {
    CreatedFromFiled(cfg, w, row);
    Built(cfg, w, row, cs, FiledWorld(cfg, w, row));
  }

  lemma StartAdvances(cfg: Settings, w: World, row: Proxy, cs: seq<Choice>)
    requires |cs| >= 10 && After(cfg, Create(row), w, cs, 7) == Reached(cfg, w, row, cs, 7)
    ensures Advances(cfg, w, row, cs, 7)
  {
    var cid, c := w.nextCid, Container(true, row.id, row.port, false);
    Started(cfg, w, row, cs, row.(containerId := Some(cid)), cid, CreatedWorld(cfg, w, row, row, false));
    assert w.ctrs[cid := c][cid := c.(running := true)] == w.ctrs[cid := c.(running := true)];
  }

  lemma HealthAdvances(cfg: Settings, w: World, row: Proxy, cs: seq<Choice>)
    requires |cs| >= 10 && After(cfg, Create(row), w, cs, 8) == Reached(cfg, w, row, cs, 8)
    ensures Advances(cfg, w, row, cs, 8)
  {
    Awaited(cfg, w, row, cs, row.(containerId := Some(w.nextCid)), w.nextCid, CreatedWorld(cfg, w, row, row, true));
  }

  lemma AllAdvance(cfg: Settings, w: World, row: Proxy, cs: seq<Choice>, k: nat)
    requires |cs| >= 10 && k < 9 && After(cfg, Create(row), w, cs, k) == Reached(cfg, w, row, cs, k)
    ensures Advances(cfg, w, row, cs, k)
  {
    if k == 0 { Checked(cfg, w, row, cs); }
    else if k == 1 { Claimed(cfg, w, row, cs); }
    else if k == 2 { MkdirAdvances(cfg, w, row, cs); }
    else if k == 3 { WriteAdvances(cfg, w, row, cs); }
    else if k == 4 { NetworkAdvances(cfg, w, row, cs); }
    else if k == 5 { PullAdvances(cfg, w, row, cs); }
    else if k == 6 { BuildAdvances(cfg, w, row, cs); }
    else if k == 7 { StartAdvances(cfg, w, row, cs); }
    else { HealthAdvances(cfg, w, row, cs); }
  }

  lemma {:induction false} CreateReaches(cfg: Settings, w: World, row: Proxy, cs: seq<Choice>, k: nat)
    requires |cs| >= 10 && k <= 9 && CreateClear(cfg, w, row, cs, k)
    ensures After(cfg, Create(row), w, cs, k) == Reached(cfg, w, row, cs, k)
  {
    if k == 0 {
      AtFirst(cfg, Create(row), w, cs);
    } else {
      CreateReaches(cfg, w, row, cs, k - 1);
      AllAdvance(cfg, w, row, cs, k - 1);
    }
  }

  // The first thing in the way.
  lemma FirstObstacle(cfg: Settings, w: World, row: Proxy, cs: seq<Choice>, k: nat)
    requires |cs| >= 10 && k < 9 && CreateClear(cfg, w, row, cs, k) && CreateObstacle(cfg, w, row, cs, k).Some?
    ensures FailedWith(Run(cfg, Begin(Create(row)), w, cs).0, CreateObstacle(cfg, w, row, cs, k))
  {
    CreateReaches(cfg, w, row, cs, k);
    AllAdvance(cfg, w, row, cs, k);
    FailedForGood(cfg, w, row, cs, k + 1, CreateObstacle(cfg, w, row, cs, k));
  }

  lemma PortWasFree(cfg: Settings, w: World, row: Proxy, cs: seq<Choice>)
    requires |cs| >= 10 && CreateClear(cfg, w, row, cs, 9)
    ensures !PortHeld(w.rows, row.port, row.id)
  {
    ClearBefore(cfg, w, row, cs, 9, 1);
  }

  function CreatedRow(w: World, row: Proxy, cs: seq<Choice>): Proxy
    requires |cs| >= 10
  {
    Found(row.(containerId := Some(w.nextCid)), Denied(cs, 8), cs[8].text)
  }

  lemma CreateStored(cfg: Settings, w: World, row: Proxy, cs: seq<Choice>)
    requires |cs| >= 10 && CreateClear(cfg, w, row, cs, 9)
    ensures var q := CreatedRow(w, row, cs); var (pr, v) := After(cfg, Create(row), w, cs, 10);
      && pr.pc == Done && pr.p == q && pr.err == CreateObstacle(cfg, w, row, cs, 9)
      && v == CreatedWorld(cfg, w, row, if cs[9].fail then row else q, true)
  {
    CreateReaches(cfg, w, row, cs, 9);
    PortWasFree(cfg, w, row, cs);
    CreateEnding(cfg, w, row, cs);
  }

  lemma CreateEnding(cfg: Settings, w: World, row: Proxy, cs: seq<Choice>)
    requires |cs| >= 10 && !PortHeld(w.rows, row.port, row.id)
    requires After(cfg, Create(row), w, cs, 9) == Reached(cfg, w, row, cs, 9)
    ensures var q := CreatedRow(w, row, cs); var (pr, v) := After(cfg, Create(row), w, cs, 10);
      && pr.pc == Done && pr.p == q && pr.err == Refusal(cs[9].fail, StoreFailed)
      && v == CreatedWorld(cfg, w, row, if cs[9].fail then row else q, true)
  {
    var q := CreatedRow(w, row, cs);
    StillUnheld(w.rows, row, row);
    Committed(cfg, w, row, cs, q, All(w.nextCid), CreatedWorld(cfg, w, row, row, true));
    assert w.rows[row.id := row][row.id := q] == w.rows[row.id := q];
  }

  lemma {:induction false} ClearBefore(cfg: Settings, w: World, row: Proxy, cs: seq<Choice>, n: nat, k: nat)
    requires |cs| >= 10 && CreateClear(cfg, w, row, cs, n) && k < n
    ensures CreateClear(cfg, w, row, cs, k) && CreateObstacle(cfg, w, row, cs, k).None?
  {
    if k < n - 1 { ClearBefore(cfg, w, row, cs, n - 1, k); }
  }

  lemma StillUnheld(rows: Rows, p: Proxy, q: Proxy)
    requires !PortHeld(rows, p.port, p.id) && q.id == p.id
    ensures !PortHeld(rows[p.id := q], p.port, p.id)
  {
  }

  lemma FailedStep(cfg: Settings, pr: Proc, w: World, c: Choice, e: Option<Fault>)
    requires FailedWith(pr, e)
    ensures FailedWith(Step(cfg, pr, w, c).0, e)
  {
  }

  lemma {:induction false} StaysFailed(cfg: Settings, pr: Proc, w: World, cs: seq<Choice>, e: Option<Fault>)
    requires FailedWith(pr, e)
    ensures FailedWith(Run(cfg, pr, w, cs).0, e)
  {
    if cs != [] {
      var n := |cs| - 1;
      StaysFailed(cfg, pr, w, cs[..n], e);
      FailedStep(cfg, Run(cfg, pr, w, cs[..n]).0, Run(cfg, pr, w, cs[..n]).1, cs[n], e);
    }
  }

  lemma FailedForGood(cfg: Settings, w: World, row: Proxy, cs: seq<Choice>, k: nat, e: Option<Fault>)
    requires k <= |cs| && FailedWith(After(cfg, Create(row), w, cs, k).0, e)
    ensures FailedWith(Run(cfg, Begin(Create(row)), w, cs).0, e)
  {
    var (pr, v) := After(cfg, Create(row), w, cs, k);
    RunInParts(cfg, Begin(Create(row)), w, cs, k);
    StaysFailed(cfg, pr, v, cs[k..], e);
  }

  /** Create, whatever fails: it succeeds exactly when nothing stands in the way of any of its ten steps,
      and returns the error of the first that something does. Once its container is up - and it is up:
      a create that has got that far leaves it running - only the store can fail it, without a rollback.
      The row stored is the one returned: the one asked for with its container, and "running" or, if the
      container was not found well, "error" with the reason. */
  lemma CreateCall(cfg: Settings, w: World, row: Proxy, cs: seq<Choice>)
    requires |cs| >= 10
    ensures var (pr', w') := Run(cfg, Begin(Create(row)), w, cs);
      var q := CreatedRow(w, row, cs);
      && (pr'.err.None? <==> CreateClear(cfg, w, row, cs, 10))
      && (forall k :: 0 <= k < 10 && CreateClear(cfg, w, row, cs, k) && CreateObstacle(cfg, w, row, cs, k).Some? ==>
            pr'.err == CreateObstacle(cfg, w, row, cs, k))
      && (CreateClear(cfg, w, row, cs, 9) ==>
            pr'.pc == Done && pr'.p == q && w' == CreatedWorld(cfg, w, row, if cs[9].fail then row else q, true))
  {
    if CreateClear(cfg, w, row, cs, 9) {
      CreateStored(cfg, w, row, cs);
      OverAndDone(cfg, Create(row), w, cs, 10);
    } else {
      ClearToTheEnd(cfg, w, row, cs);
    }
    forall k | 0 <= k < 10 && CreateClear(cfg, w, row, cs, k) && CreateObstacle(cfg, w, row, cs, k).Some?
      ensures Run(cfg, Begin(Create(row)), w, cs).0.err == CreateObstacle(cfg, w, row, cs, k)
    {
      if k < 9 { FirstObstacle(cfg, w, row, cs, k); }
    }
  }

  lemma ClearToTheEnd(cfg: Settings, w: World, row: Proxy, cs: seq<Choice>)
    requires |cs| >= 10 && !CreateClear(cfg, w, row, cs, 9)
    ensures !CreateClear(cfg, w, row, cs, 10) && Run(cfg, Begin(Create(row)), w, cs).0.err.Some?
  {
    var k := LeastObstacle(cfg, w, row, cs, 9);
    FirstObstacle(cfg, w, row, cs, k);
  }

  lemma {:induction false} LeastObstacle(cfg: Settings, w: World, row: Proxy, cs: seq<Choice>, n: nat) returns (k: nat)
    requires |cs| >= 10 && !CreateClear(cfg, w, row, cs, n)
    ensures k < n && CreateClear(cfg, w, row, cs, k) && CreateObstacle(cfg, w, row, cs, k).Some?
  {
    if CreateClear(cfg, w, row, cs, n - 1) { k := n - 1; } else { k := LeastObstacle(cfg, w, row, cs, n - 1); }
  }

  /** What a create stores, field by field, of what it was asked for. */
  lemma CreateStores(cfg: Settings, w: World, req: CreateRequest, secret: string, token: string, name: string,
      cs: seq<Choice>)
    requires |cs| >= 10 && CreateClear(cfg, w, NewRow(w.nextId, secret, token, name, req), cs, 10)
    ensures var id, ill := w.nextId, Denied(cs, 8);
      var w' := Run(cfg, Begin(Create(NewRow(id, secret, token, name, req))), w, cs).1;
      && id in w'.rows && w'.rows[id] == Proxy(id := id, name := if req.name == "" then name else req.name,
            port := req.port, tlsDomain := req.tlsDomain, adTag := req.adTag, secret := secret, apiToken := token,
            containerId := Some(w.nextCid), state := if ill then Error else Running,
            message := if ill then cs[8].text else "", quota := req.quota, expiration := req.expiration,
            maxConns := req.maxConns, maxIps := req.maxIps)
  {
    var row := NewRow(w.nextId, secret, token, name, req);
    CreateCall(cfg, w, row, cs);
    ClearBefore(cfg, w, row, cs, 10, 9);
  }
}
