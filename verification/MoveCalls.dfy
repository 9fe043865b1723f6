/** A whole Recreate, taken alone, whatever fails at which of its steps. */
module MoveCalls {
  import opened Wrappers
  import opened Entities
  import opened Machine
  import opened Invariant
  import opened Commits
  import opened Calls

  // What stands in the way of a move's k-th step, up to the writing of its config.
  function MoveObstacle(cfg: Settings, w: World, op: Op, cs: seq<Choice>, k: nat): Option<Fault>
    requires op.Recreate? && |cs| >= 11
  {
    if k == 0 then (if Denied(cs, 0) then Some(StoreFailed) else Refusal(op.id !in w.rows, NotFound))
    else if op.id !in w.rows then None
    else if k == 1 then
      if op.port == w.rows[op.id].port then Refusal(op.tlsDomain == "", DomainRequired)
      else AskObstacle(cfg, w.rows[op.id].(port := op.port, tlsDomain := op.tlsDomain), cs[1])
    else if k == 2 then Refusal(Denied(cs, 2), StoreFailed)
    else if k == 3 then Refusal(w.rows[op.id].containerId.Some? && Denied(cs, 3), RuntimeFailed)
    else if k == 4 then
      if cs[4].fail then Some(StoreFailed) else Refusal(PortHeld(w.rows, op.port, op.id), PortTaken)
    else if k == 5 then Refusal(cs[5].fail, MkdirFailed)
    else if k == 6 then FileObstacle(cfg, MovedRow(w, op), cs[6])
    else None
  }

  predicate MoveClear(cfg: Settings, w: World, op: Op, cs: seq<Choice>, k: nat)
    requires op.Recreate? && |cs| >= 11
  {
    k > 0 ==> MoveClear(cfg, w, op, cs, k - 1) && MoveObstacle(cfg, w, op, cs, k - 1).None?
  }

  // The stores after `k` steps with nothing in the way: marked, removed, moved, the directory, the file.
  function MoveStage(cfg: Settings, w: World, op: Op, k: nat): World
    requires op.Recreate? && op.id in w.rows
  {
    var p := MovedRow(w, op);
    var moved := w.(ctrs := Unrecorded(w, w.rows[op.id]), rows := w.rows[op.id := p]);
    if k <= 2 then w
    else if k == 3 then w.(rows := w.rows[op.id := w.rows[op.id].(state := Recreating)])
    else if k == 4 then moved.(rows := w.rows[op.id := w.rows[op.id].(state := Recreating)])
    else if k == 5 then moved
    else if k == 6 then MadeDir(moved, op.id)
    else moved.(dirs := w.dirs[op.id := Rendered(cfg, p)])
  }

  function MoveReached(cfg: Settings, w: World, op: Op, cs: seq<Choice>, k: nat): (Proc, World)
    requires op.Recreate? && op.id in w.rows && |cs| >= 11
  {
    var p0, p := w.rows[op.id], MovedRow(w, op);
    (if k == 0 then At(op, RGet, cs, 0, ZERO_PROXY)
     else if k == 1 then At(op, RCheck, cs, 1, p0)
     else if k == 2 then At(op, RMark, cs, 2, p0.(state := Recreating))
     else if k == 3 then At(op, RRemove, cs, 3, p0.(state := Recreating))
     else if k == 4 then At(op, RPort, cs, 4, p)
     else if k == 5 then At(op, RMkdir, cs, 5, p)
     else if k == 6 then At(op, RWrite, cs, 6, p)
     else At(op, SBuild, cs, 7, p), MoveStage(cfg, w, op, k))
  }

  // The move's k-th step takes it on, or ends it there with nothing further changed.
  ghost predicate Moves(cfg: Settings, w: World, op: Op, cs: seq<Choice>, k: nat)
    requires op.Recreate? && op.id in w.rows && |cs| >= 11 && k < 7
  {
    var e := MoveObstacle(cfg, w, op, cs, k); var (pr', v') := After(cfg, op, w, cs, k + 1);
    && (e.Some? ==> pr'.pc == Done && pr'.err == e && v' == MoveStage(cfg, w, op, k))
    && (e.None? ==> (pr', v') == MoveReached(cfg, w, op, cs, k + 1))
  }

  lemma MoveFetched(cfg: Settings, w: World, op: Op, cs: seq<Choice>)
    requires op.Recreate? && |cs| >= 11 && op.id in w.rows
    ensures var (pr', v') := After(cfg, op, w, cs, 1);
      && v' == w
      && (Denied(cs, 0) ==> pr'.pc == Done && pr'.err == Some(StoreFailed))
      && (!Denied(cs, 0) ==> pr' == At(op, RCheck, cs, 1, w.rows[op.id]))
  {
    AtFirst(cfg, op, w, cs);
    Onward(cfg, op, w, cs, 0);
  }

  lemma MoveChecked(cfg: Settings, w: World, op: Op, cs: seq<Choice>, p: Proxy)
    requires op.Recreate? && |cs| >= 11 && After(cfg, op, w, cs, 1) == (At(op, RCheck, cs, 1, p), w)
    ensures var e := if op.port == p.port then Refusal(op.tlsDomain == "", DomainRequired)
                     else AskObstacle(cfg, p.(port := op.port, tlsDomain := op.tlsDomain), cs[1]);
      var (pr', v') := After(cfg, op, w, cs, 2);
      && v' == w
      && (e.Some? ==> pr'.pc == Done && pr'.err == e)
      && (e.None? ==> pr' == At(op, RMark, cs, 2, p.(state := Recreating)))
  {
    Onward(cfg, op, w, cs, 1);
  }

  lemma MoveMarked(cfg: Settings, w: World, op: Op, cs: seq<Choice>, q: Proxy)
    requires op.Recreate? && |cs| >= 11 && After(cfg, op, w, cs, 2) == (At(op, RMark, cs, 2, q), w)
    requires q.id in w.rows && !PortHeld(w.rows, q.port, q.id)
    ensures var (pr', v') := After(cfg, op, w, cs, 3);
      && (Denied(cs, 2) ==> pr'.pc == Done && pr'.err == Some(StoreFailed) && v' == w)
      && (!Denied(cs, 2) ==> pr' == At(op, RRemove, cs, 3, q) && v' == w.(rows := w.rows[q.id := q]))
  {
    Onward(cfg, op, w, cs, 2);
  }

  lemma MoveRemoved(cfg: Settings, w: World, op: Op, cs: seq<Choice>, q: Proxy, v: World)
    requires op.Recreate? && |cs| >= 11 && After(cfg, op, w, cs, 3) == (At(op, RRemove, cs, 3, q), v)
    ensures var (pr', v') := After(cfg, op, w, cs, 4);
      && (q.containerId.Some? && Denied(cs, 3) ==> pr'.pc == Done && pr'.err == Some(RuntimeFailed) && v' == v)
      && (q.containerId.None? || !Denied(cs, 3) ==>
            && pr' == At(op, RPort, cs, 4, q.(port := op.port, tlsDomain := op.tlsDomain, containerId := None))
            && v' == v.(ctrs := Unrecorded(v, q)))
  {
    Onward(cfg, op, w, cs, 3);
  }

  lemma MovePorted(cfg: Settings, w: World, op: Op, cs: seq<Choice>, q: Proxy, v: World)
    requires op.Recreate? && |cs| >= 11 && After(cfg, op, w, cs, 4) == (At(op, RPort, cs, 4, q), v) && q.id in v.rows
    ensures var (pr', v') := After(cfg, op, w, cs, 5);
      && (cs[4].fail ==> pr'.pc == Done && pr'.err == Some(StoreFailed) && v' == v)
      && (!cs[4].fail && PortHeld(v.rows, q.port, q.id) ==>
            pr'.pc == Done && pr'.err == Some(PortTaken) && v' == v)
      && (!cs[4].fail && !PortHeld(v.rows, q.port, q.id) ==>
            pr' == At(op, RMkdir, cs, 5, q) && v' == v.(rows := v.rows[q.id := q]))
  {
    Onward(cfg, op, w, cs, 4);
  }

  lemma MoveHoused(cfg: Settings, w: World, op: Op, cs: seq<Choice>, q: Proxy, v: World)
    requires op.Recreate? && |cs| >= 11 && After(cfg, op, w, cs, 5) == (At(op, RMkdir, cs, 5, q), v)
    ensures var (pr', v') := After(cfg, op, w, cs, 6);
      && (cs[5].fail ==> pr'.pc == Done && pr'.err == Some(MkdirFailed) && v' == v)
      && (!cs[5].fail ==> pr' == At(op, RWrite, cs, 6, q) && v' == MadeDir(v, q.id))
  {
    Onward(cfg, op, w, cs, 5);
  }

  lemma MoveFiled(cfg: Settings, w: World, op: Op, cs: seq<Choice>, q: Proxy, v: World)
    requires op.Recreate? && |cs| >= 11 && After(cfg, op, w, cs, 6) == (At(op, RWrite, cs, 6, q), v)
    ensures var text := Rendered(cfg, q); var (pr', v') := After(cfg, op, w, cs, 7);
      && (text.None? ==> pr'.pc == Done && pr'.err == Some(ConfigInvalid) && v' == v)
      && (text.Some? && cs[6].fail ==> pr'.pc == Done && pr'.err == Some(WriteFailed) && v' == v)
      && (text.Some? && !cs[6].fail ==> pr' == At(op, SBuild, cs, 7, q) && v' == v.(dirs := v.dirs[q.id := text]))
  {
    Onward(cfg, op, w, cs, 6);
  }

  lemma MoveMarks(cfg: Settings, w: World, op: Op, cs: seq<Choice>)
    requires op.Recreate? && op.id in w.rows && |cs| >= 11 && w.rows[op.id].id == op.id && PortsUnique(w.rows)
    requires After(cfg, op, w, cs, 2) == MoveReached(cfg, w, op, cs, 2)
    ensures Moves(cfg, w, op, cs, 2)
  {
    assert !PortHeld(w.rows, w.rows[op.id].port, op.id);
    MoveMarked(cfg, w, op, cs, w.rows[op.id].(state := Recreating));
  }

  lemma MoveRemoves(cfg: Settings, w: World, op: Op, cs: seq<Choice>)
    requires op.Recreate? && op.id in w.rows && |cs| >= 11
    requires After(cfg, op, w, cs, 3) == MoveReached(cfg, w, op, cs, 3)
    ensures Moves(cfg, w, op, cs, 3)
  {
    MoveRemoved(cfg, w, op, cs, w.rows[op.id].(state := Recreating), MoveStage(cfg, w, op, 3));
  }

  lemma SameHolders(rows: Rows, id: Id, p: Proxy, port: int)
    requires id in rows
    ensures PortHeld(rows[id := p], port, id) <==> PortHeld(rows, port, id)
  {
    if PortHeld(rows, port, id) {
      var i :| i in rows && i != id && rows[i].port == port;
      assert rows[id := p][i].port == port;
    }
  }

  lemma MovePorts(cfg: Settings, w: World, op: Op, cs: seq<Choice>)
    requires op.Recreate? && op.id in w.rows && |cs| >= 11 && w.rows[op.id].id == op.id
    requires After(cfg, op, w, cs, 4) == MoveReached(cfg, w, op, cs, 4)
    ensures Moves(cfg, w, op, cs, 4)
  {
    var marked, p := w.rows[op.id].(state := Recreating), MovedRow(w, op);
    SameHolders(w.rows, op.id, marked, op.port);
    MovePorted(cfg, w, op, cs, p, MoveStage(cfg, w, op, 4));
    assert w.rows[op.id := marked][op.id := p] == w.rows[op.id := p];
  }

  lemma MoveHouses(cfg: Settings, w: World, op: Op, cs: seq<Choice>)
    requires op.Recreate? && op.id in w.rows && |cs| >= 11 && w.rows[op.id].id == op.id
    requires After(cfg, op, w, cs, 5) == MoveReached(cfg, w, op, cs, 5)
    ensures Moves(cfg, w, op, cs, 5)
  {
    MoveHoused(cfg, w, op, cs, MovedRow(w, op), MoveStage(cfg, w, op, 5));
  }

  lemma MoveFiles(cfg: Settings, w: World, op: Op, cs: seq<Choice>)
    requires op.Recreate? && op.id in w.rows && |cs| >= 11 && w.rows[op.id].id == op.id
    requires After(cfg, op, w, cs, 6) == MoveReached(cfg, w, op, cs, 6)
    ensures Moves(cfg, w, op, cs, 6)
  {
    var text := Rendered(cfg, MovedRow(w, op));
    MoveFiled(cfg, w, op, cs, MovedRow(w, op), MoveStage(cfg, w, op, 6));
    assert MadeDir(w, op.id).dirs[op.id := text] == w.dirs[op.id := text];
  }

  lemma MoveAdvances(cfg: Settings, w: World, op: Op, cs: seq<Choice>, k: nat)
    requires op.Recreate? && op.id in w.rows && |cs| >= 11 && w.rows[op.id].id == op.id && PortsUnique(w.rows) && k < 7
    requires After(cfg, op, w, cs, k) == MoveReached(cfg, w, op, cs, k)
    ensures Moves(cfg, w, op, cs, k)
  {
    if k == 0 { MoveFetched(cfg, w, op, cs); }
    else if k == 1 { MoveChecked(cfg, w, op, cs, w.rows[op.id]); }
    else if k == 2 { MoveMarks(cfg, w, op, cs); }
    else if k == 3 { MoveRemoves(cfg, w, op, cs); }
    else if k == 4 { MovePorts(cfg, w, op, cs); }
    else if k == 5 { MoveHouses(cfg, w, op, cs); }
    else { MoveFiles(cfg, w, op, cs); }
  }

  lemma {:induction false} MoveReaches(cfg: Settings, w: World, op: Op, cs: seq<Choice>, k: nat)
    requires op.Recreate? && op.id in w.rows && |cs| >= 11 && w.rows[op.id].id == op.id && PortsUnique(w.rows) && k <= 7
    requires MoveClear(cfg, w, op, cs, k)
    ensures After(cfg, op, w, cs, k) == MoveReached(cfg, w, op, cs, k)
  {
    if k == 0 {
      AtFirst(cfg, op, w, cs);
    } else {
      MoveReaches(cfg, w, op, cs, k - 1);
      MoveAdvances(cfg, w, op, cs, k - 1);
    }
  }

  // The move ends at the first thing in its way.
  lemma MoveStops(cfg: Settings, w: World, op: Op, cs: seq<Choice>, k: nat)
    requires op.Recreate? && op.id in w.rows && |cs| >= 11 && w.rows[op.id].id == op.id && PortsUnique(w.rows) && k < 7
    requires MoveClear(cfg, w, op, cs, k) && MoveObstacle(cfg, w, op, cs, k).Some?
    ensures var (pr', w') := Run(cfg, Begin(op), w, cs);
      pr'.pc == Done && pr'.err == MoveObstacle(cfg, w, op, cs, k) && w' == MoveStage(cfg, w, op, k)
  {
    MoveReaches(cfg, w, op, cs, k);
    MoveAdvances(cfg, w, op, cs, k);
    OverAndDone(cfg, op, w, cs, k + 1);
  }

  // ---- From the file to the end ----

  // What the call leaves of a row `p` whose config is in `v`: its container refused, created and not
  // started, or started and then found well or not.
  function MoveRow(v: World, p: Proxy, cs: seq<Choice>): Proxy
    requires |cs| >= 11
  {
    if Denied(cs, 7) then Found(p, true, cs[7].text)
    else
      var q := p.(containerId := Some(v.nextCid));
      if Denied(cs, 8) then Found(q, true, cs[8].text) else Found(q, Denied(cs, 9), cs[9].text)
  }

  function MoveError(cs: seq<Choice>): Option<Fault>
    requires |cs| >= 11
  {
    if Denied(cs, 7) || Denied(cs, 8) then Some(RuntimeFailed) else Refusal(cs[10].fail, StoreFailed)
  }

  // The last write is lost.
  predicate MoveLost(cs: seq<Choice>)
    requires |cs| >= 11
  {
    if Denied(cs, 7) then cs[8].fail else if Denied(cs, 8) then cs[9].fail else cs[10].fail
  }

  function MoveWorld(v: World, p: Proxy, cs: seq<Choice>): World
    requires |cs| >= 11
  {
    var stored := v.(rows := if MoveLost(cs) then v.rows else v.rows[p.id := MoveRow(v, p, cs)]);
    if Denied(cs, 7) then stored
    else stored.(ctrs := v.ctrs[v.nextCid := Container(true, p.id, p.port, !Denied(cs, 8))], nextCid := v.nextCid + 1)
  }

  function BuiltWorld(v: World, p: Proxy, running: bool): World {
    v.(ctrs := v.ctrs[v.nextCid := Container(true, p.id, p.port, running)], nextCid := v.nextCid + 1)
  }

  lemma MoveRefused(cfg: Settings, w: World, op: Op, cs: seq<Choice>, p: Proxy, v: World)
    requires op.Recreate? && |cs| >= 11 && Denied(cs, 7) && After(cfg, op, w, cs, 7) == (At(op, SBuild, cs, 7, p), v)
    ensures After(cfg, op, w, cs, 8)
      == (At(op, SBuildFailed, cs, 8, Found(p, true, cs[7].text)).(unbuilt := {} + {p.id}), v)
  {
    Onward(cfg, op, w, cs, 7);
  }

  lemma MoveBuilt(cfg: Settings, w: World, op: Op, cs: seq<Choice>, p: Proxy, v: World)
    requires op.Recreate? && |cs| >= 11 && !Denied(cs, 7) && After(cfg, op, w, cs, 7) == (At(op, SBuild, cs, 7, p), v)
    ensures After(cfg, op, w, cs, 8)
      == (At(op, SStart, cs, 8, p.(containerId := Some(v.nextCid))), BuiltWorld(v, p, false))
  {
    Onward(cfg, op, w, cs, 7);
  }

  lemma MoveUnstarted(cfg: Settings, w: World, op: Op, cs: seq<Choice>, q: Proxy, v: World)
    requires op.Recreate? && |cs| >= 11 && Denied(cs, 8) && After(cfg, op, w, cs, 8) == (At(op, SStart, cs, 8, q), v)
    ensures After(cfg, op, w, cs, 9) == (At(op, SStartFailed, cs, 9, Found(q, true, cs[8].text)), v)
  {
    Onward(cfg, op, w, cs, 8);
  }

  lemma MoveStarted(cfg: Settings, w: World, op: Op, cs: seq<Choice>, q: Proxy, v: World, cid: Cid)
    requires op.Recreate? && |cs| >= 11 && !Denied(cs, 8) && After(cfg, op, w, cs, 8) == (At(op, SStart, cs, 8, q), v)
    requires q.containerId == Some(cid) && cid in v.ctrs
    ensures After(cfg, op, w, cs, 9)
      == (At(op, SHealth, cs, 9, q), v.(ctrs := v.ctrs[cid := v.ctrs[cid].(running := true)]))
  {
    Onward(cfg, op, w, cs, 8);
  }

  lemma MoveAwaited(cfg: Settings, w: World, op: Op, cs: seq<Choice>, q: Proxy, v: World)
    requires op.Recreate? && |cs| >= 11 && After(cfg, op, w, cs, 9) == (At(op, SHealth, cs, 9, q), v)
    requires q.containerId.Some? && q.containerId.value in v.ctrs
    ensures After(cfg, op, w, cs, 10) == (At(op, SCommit, cs, 10, Found(q, Denied(cs, 9), cs[9].text)), v)
  {
    Onward(cfg, op, w, cs, 9);
  }

  lemma MoveCommitted(cfg: Settings, w: World, op: Op, cs: seq<Choice>, q: Proxy, v: World)
    requires op.Recreate? && |cs| >= 11 && After(cfg, op, w, cs, 10) == (At(op, SCommit, cs, 10, q), v)
    requires q.id in v.rows && !PortHeld(v.rows, q.port, q.id)
    ensures var (pr', w') := After(cfg, op, w, cs, 11);
      && pr'.pc == Done && pr'.err == Refusal(cs[10].fail, StoreFailed) && pr'.p == q
      && w' == v.(rows := if cs[10].fail then v.rows else v.rows[q.id := q])
  {
    Onward(cfg, op, w, cs, 10);
  }

  // The failure is stored, if the store takes it.
  lemma MoveGivesUp(cfg: Settings, w: World, op: Op, cs: seq<Choice>, k: nat, pr: Proc, v: World)
    requires op.Recreate? && |cs| >= 11 && (k == 8 || k == 9) && After(cfg, op, w, cs, k) == (pr, v)
    requires pr.op == op && (pr.pc == SBuildFailed || pr.pc == SStartFailed)
    requires pr.p.id in v.rows && !PortHeld(v.rows, pr.p.port, pr.p.id)
    ensures var (pr', w') := After(cfg, op, w, cs, k + 1);
      && pr'.pc == Done && pr'.err == Some(RuntimeFailed) && pr'.p == pr.p
      && w' == v.(rows := if cs[k].fail then v.rows else v.rows[pr.p.id := pr.p])
  {
    Onward(cfg, op, w, cs, k);
  }

  // From its file on, the call ends as said.
  ghost predicate EndsAsSaid(cfg: Settings, w: World, op: Op, cs: seq<Choice>, p: Proxy, v: World)
    requires |cs| >= 11
  {
    var (pr', w') := Run(cfg, Begin(op), w, cs);
    pr'.pc == Done && pr'.err == MoveError(cs) && pr'.p == MoveRow(v, p, cs) && w' == MoveWorld(v, p, cs)
  }

  lemma UnbuiltEnds(cfg: Settings, w: World, op: Op, cs: seq<Choice>, p: Proxy, v: World)
    requires op.Recreate? && |cs| >= 11 && p.id in v.rows && !PortHeld(v.rows, p.port, p.id) && Denied(cs, 7)
    requires After(cfg, op, w, cs, 7) == (At(op, SBuild, cs, 7, p), v)
    ensures EndsAsSaid(cfg, w, op, cs, p, v)
  {
    MoveRefused(cfg, w, op, cs, p, v);
    MoveGivesUp(cfg, w, op, cs, 8, After(cfg, op, w, cs, 8).0, v);
    OverAndDone(cfg, op, w, cs, 9);
  }

  lemma UnstartedEnds(cfg: Settings, w: World, op: Op, cs: seq<Choice>, p: Proxy, v: World)
    requires op.Recreate? && |cs| >= 11 && p.id in v.rows && !PortHeld(v.rows, p.port, p.id)
    requires !Denied(cs, 7) && Denied(cs, 8) && After(cfg, op, w, cs, 7) == (At(op, SBuild, cs, 7, p), v)
    ensures EndsAsSaid(cfg, w, op, cs, p, v)
  {
    MoveBuilt(cfg, w, op, cs, p, v);
    MoveUnstarted(cfg, w, op, cs, p.(containerId := Some(v.nextCid)), BuiltWorld(v, p, false));
    MoveGivesUp(cfg, w, op, cs, 9, After(cfg, op, w, cs, 9).0, BuiltWorld(v, p, false));
    OverAndDone(cfg, op, w, cs, 10);
  }

  lemma StartedEnds(cfg: Settings, w: World, op: Op, cs: seq<Choice>, p: Proxy, v: World)
    requires op.Recreate? && |cs| >= 11 && p.id in v.rows && !PortHeld(v.rows, p.port, p.id)
    requires !Denied(cs, 7) && !Denied(cs, 8) && After(cfg, op, w, cs, 7) == (At(op, SBuild, cs, 7, p), v)
    ensures EndsAsSaid(cfg, w, op, cs, p, v)
  {
    var q, x, c := p.(containerId := Some(v.nextCid)), BuiltWorld(v, p, true), Container(true, p.id, p.port, false);
    MoveBuilt(cfg, w, op, cs, p, v);
    MoveStarted(cfg, w, op, cs, q, BuiltWorld(v, p, false), v.nextCid);
    assert v.ctrs[v.nextCid := c][v.nextCid := c.(running := true)] == v.ctrs[v.nextCid := c.(running := true)];
    MoveAwaited(cfg, w, op, cs, q, x);
    MoveCommitted(cfg, w, op, cs, Found(q, Denied(cs, 9), cs[9].text), x);
    OverAndDone(cfg, op, w, cs, 11);
  }

  /** Recreate, whatever fails. Up to the config file it ends at the first thing in its way, with that
      error and the stores as its steps so far have left them: nothing is undone, so that a move that
      fails late has marked the row, or removed its container, or stored its new port. From there on it
      reports a runtime that fails it, and stores with the row what became of the new container. */
  lemma MoveCall(cfg: Settings, w: World, op: Op, cs: seq<Choice>)
    requires op.Recreate? && |cs| >= 11 && PortsUnique(w.rows) && (op.id in w.rows ==> w.rows[op.id].id == op.id)
    ensures var (pr', w') := Run(cfg, Begin(op), w, cs);
      && pr'.pc == Done
      && (op.id !in w.rows ==> w' == w && pr'.err == Some(if Denied(cs, 0) then StoreFailed else NotFound))
      && (op.id in w.rows ==>
            forall k :: 0 <= k < 7 && MoveClear(cfg, w, op, cs, k) && MoveObstacle(cfg, w, op, cs, k).Some? ==>
              pr'.err == MoveObstacle(cfg, w, op, cs, k) && w' == MoveStage(cfg, w, op, k))
      && (op.id in w.rows && MoveClear(cfg, w, op, cs, 7) ==>
            var p, v := MovedRow(w, op), MoveStage(cfg, w, op, 7);
            pr'.err == MoveError(cs) && pr'.p == MoveRow(v, p, cs) && w' == MoveWorld(v, p, cs))
  {
    if op.id !in w.rows { MoveUnknown(cfg, w, op, cs); }
    else if MoveClear(cfg, w, op, cs, 7) { MoveLaunches(cfg, w, op, cs); }
    else {
      var k := LeastMoveObstacle(cfg, w, op, cs, 7);
      MoveStops(cfg, w, op, cs, k);
    }
    forall k | op.id in w.rows && 0 <= k < 7 && MoveClear(cfg, w, op, cs, k) && MoveObstacle(cfg, w, op, cs, k).Some?
      ensures Run(cfg, Begin(op), w, cs).0.err == MoveObstacle(cfg, w, op, cs, k)
      ensures Run(cfg, Begin(op), w, cs).1 == MoveStage(cfg, w, op, k)
    {
      MoveStops(cfg, w, op, cs, k);
    }
  }

  lemma MoveUnknown(cfg: Settings, w: World, op: Op, cs: seq<Choice>)
    requires op.Recreate? && |cs| >= 11 && op.id !in w.rows
    ensures var (pr', w') := Run(cfg, Begin(op), w, cs);
      pr'.pc == Done && w' == w && pr'.err == Some(if Denied(cs, 0) then StoreFailed else NotFound)
  {
    AtFirst(cfg, op, w, cs);
    Onward(cfg, op, w, cs, 0);
    OverAndDone(cfg, op, w, cs, 1);
  }

  lemma {:induction false} LeastMoveObstacle(cfg: Settings, w: World, op: Op, cs: seq<Choice>, n: nat)
    returns (k: nat)
    requires op.Recreate? && |cs| >= 11 && !MoveClear(cfg, w, op, cs, n)
    ensures k < n && MoveClear(cfg, w, op, cs, k) && MoveObstacle(cfg, w, op, cs, k).Some?
  {
    if MoveClear(cfg, w, op, cs, n - 1) { k := n - 1; } else { k := LeastMoveObstacle(cfg, w, op, cs, n - 1); }
  }

  lemma {:induction false} MoveClearBefore(cfg: Settings, w: World, op: Op, cs: seq<Choice>, n: nat, k: nat)
    requires op.Recreate? && |cs| >= 11 && MoveClear(cfg, w, op, cs, n) && k < n
    ensures MoveClear(cfg, w, op, cs, k) && MoveObstacle(cfg, w, op, cs, k).None?
  {
    if k < n - 1 { MoveClearBefore(cfg, w, op, cs, n - 1, k); }
  }

  lemma MoveLaunches(cfg: Settings, w: World, op: Op, cs: seq<Choice>)
    requires op.Recreate? && |cs| >= 11 && PortsUnique(w.rows) && op.id in w.rows && w.rows[op.id].id == op.id
    requires MoveClear(cfg, w, op, cs, 7)
    ensures var (pr', w') := Run(cfg, Begin(op), w, cs); var p, v := MovedRow(w, op), MoveStage(cfg, w, op, 7);
      pr'.pc == Done && pr'.err == MoveError(cs) && pr'.p == MoveRow(v, p, cs) && w' == MoveWorld(v, p, cs)
  {
    var p, v := MovedRow(w, op), MoveStage(cfg, w, op, 7);
    MoveReaches(cfg, w, op, cs, 7);
    MoveClearBefore(cfg, w, op, cs, 7, 4);
    SameHolders(w.rows, op.id, p, op.port);
    LaunchesFrom(cfg, w, op, cs, p, v);
  }

  lemma LaunchesFrom(cfg: Settings, w: World, op: Op, cs: seq<Choice>, p: Proxy, v: World)
    requires op.Recreate? && |cs| >= 11 && p.id in v.rows && !PortHeld(v.rows, p.port, p.id)
    requires After(cfg, op, w, cs, 7) == (At(op, SBuild, cs, 7, p), v)
    ensures EndsAsSaid(cfg, w, op, cs, p, v)
  {
    if Denied(cs, 7) { UnbuiltEnds(cfg, w, op, cs, p, v); }
    else if Denied(cs, 8) { UnstartedEnds(cfg, w, op, cs, p, v); }
    else { StartedEnds(cfg, w, op, cs, p, v); }
  }
}
