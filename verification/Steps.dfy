/** Every step keeps `Base` and its own operation's facts, and touches one proxy only. */
module Steps {
  import opened Wrappers
  import opened Entities
  import opened Machine
  import opened Invariant

  // ---- The effects, one at a time ----

  lemma PutRowKeeps(cfg: Settings, w: World, p: Proxy)
    requires Base(cfg, w) && p.id < w.nextId && PortAllowed(cfg, p.port) && !PortHeld(w.rows, p.port, p.id)
    requires p.containerId.Some? ==> p.containerId.value < w.nextCid
    requires p.containerId.Some? && p.containerId.value in w.ctrs ==> Mine(w.ctrs, p.containerId.value, p.id)
    requires forall c: Cid :: Mine(w.ctrs, c, p.id) ==> w.ctrs[c].port == p.port
    requires forall c: Cid, d: Cid :: Mine(w.ctrs, c, p.id) && Mine(w.ctrs, d, p.id) ==> c == d
    ensures Base(cfg, PutRow(w, p)) && Elsewhere(w, PutRow(w, p), p.id)
    ensures forall d: Cid, i: Id :: Mine(PutRow(w, p).ctrs, d, i) <==> Mine(w.ctrs, d, i)
  {
    var w' := PutRow(w, p);
    assert Elsewhere(w, w', p.id);
    assert forall c: Cid, i: Id :: Mine(w'.ctrs, c, i) <==> Mine(w.ctrs, c, i);
    BaseElsewhere(cfg, w, w', p.id);
  }

  lemma EraseRowKeeps(cfg: Settings, w: World, id: Id)
    requires Base(cfg, w)
    ensures Base(cfg, EraseRow(w, id)) && Elsewhere(w, EraseRow(w, id), id)
    ensures forall d: Cid, i: Id :: Mine(EraseRow(w, id).ctrs, d, i) <==> Mine(w.ctrs, d, i)
  {
    assert forall c: Cid, i: Id :: Mine(EraseRow(w, id).ctrs, c, i) <==> Mine(w.ctrs, c, i);
    BaseElsewhere(cfg, w, EraseRow(w, id), id);
  }

  lemma DirKeeps(cfg: Settings, w: World, w': World, id: Id)
    requires Base(cfg, w) && id < w.nextId && w' == w.(dirs := w'.dirs)
    requires forall i :: i != id ==> (i in w'.dirs <==> i in w.dirs) && (i in w.dirs ==> w'.dirs[i] == w.dirs[i])
    ensures Base(cfg, w') && Elsewhere(w, w', id)
    ensures forall d: Cid, i: Id :: Mine(w'.ctrs, d, i) <==> Mine(w.ctrs, d, i)
  {
    assert forall c: Cid, i: Id :: Mine(w'.ctrs, c, i) <==> Mine(w.ctrs, c, i);
    forall i | i in w'.rows ensures RowOk(cfg, w', i) { assert RowOk(cfg, w, i); }
  }

  lemma AddContainerKeeps(cfg: Settings, w: World, id: Id)
    requires Base(cfg, w) && id in w.rows && Bare(w.ctrs, id)
    ensures var w' := AddContainer(w, id, w.rows[id].port);
      && Base(cfg, w') && Elsewhere(w, w', id)
      && (forall c: Cid :: Mine(w'.ctrs, c, id) <==> c == w.nextCid)
  {
    var w' := AddContainer(w, id, w.rows[id].port);
    assert RowOk(cfg, w, id);
    assert forall c: Cid, i: Id :: Mine(w'.ctrs, c, i) <==> Mine(w.ctrs, c, i) || (c == w.nextCid && i == id);
    BaseElsewhere(cfg, w, w', id);
  }

  lemma RunContainerKeeps(cfg: Settings, w: World, c: Cid, id: Id)
    requires Base(cfg, w) && id in w.rows && Mine(w.ctrs, c, id)
    ensures Base(cfg, RunContainer(w, c)) && Elsewhere(w, RunContainer(w, c), id)
    ensures forall d: Cid, i: Id :: Mine(RunContainer(w, c).ctrs, d, i) <==> Mine(w.ctrs, d, i)
  {
    var w' := RunContainer(w, c);
    assert RowOk(cfg, w, id);
    assert forall d: Cid, i: Id :: Mine(w'.ctrs, d, i) <==> Mine(w.ctrs, d, i);
    BaseElsewhere(cfg, w, w', id);
  }

  lemma EraseContainerKeeps(cfg: Settings, w: World, c: Cid, id: Id)
    requires Base(cfg, w) && (c in w.ctrs ==> Mine(w.ctrs, c, id))
    ensures Base(cfg, EraseContainer(w, c)) && Elsewhere(w, EraseContainer(w, c), id)
    ensures forall d: Cid, i: Id :: Mine(EraseContainer(w, c).ctrs, d, i) <==> Mine(w.ctrs, d, i) && d != c
  {
    var w' := EraseContainer(w, c);
    assert forall d: Cid, i: Id :: Mine(w'.ctrs, d, i) <==> Mine(w.ctrs, d, i) && d != c;
    if id in w.rows { assert RowOk(cfg, w, id); }
    BaseElsewhere(cfg, w, w', id);
  }

  // Saving a row under the port it already holds never meets the uniqueness constraint.
  lemma SaveKeeps(cfg: Settings, w: World, p: Proxy, c: Choice)
    requires Base(cfg, w) && p.id in w.rows && w.rows[p.id].port == p.port && !c.fail
    requires p.containerId.Some? ==> p.containerId.value < w.nextCid
    requires p.containerId.Some? && p.containerId.value in w.ctrs ==> Mine(w.ctrs, p.containerId.value, p.id)
    ensures SaveRow(w, p, c) == Success(PutRow(w, p)) && TrySaveRow(w, p, c) == PutRow(w, p)
    ensures Base(cfg, PutRow(w, p)) && Elsewhere(w, PutRow(w, p), p.id)
    ensures forall d: Cid, i: Id :: Mine(PutRow(w, p).ctrs, d, i) <==> Mine(w.ctrs, d, i)
  {
    assert RowOk(cfg, w, p.id);
    assert !PortHeld(w.rows, p.port, p.id);
    PutRowKeeps(cfg, w, p);
  }

  // ---- Create ----

  // What a step of an operation on proxy `id` keeps.
  ghost predicate Kept(cfg: Settings, w: World, pr': Proc, w': World, id: Id) {
    Base(cfg, w') && Elsewhere(w, w', id) && (pr'.pc == Done ==> Linked(w'.rows, w'.ctrs, id))
  }

  lemma CreateAsksWorld(cfg: Settings, pr: Proc, w: World, c: Choice)
    requires pr.op.Create? && Asking(pr.pc) && Base(cfg, w) && CreateInv(cfg, w, pr)
    ensures var (pr', w') := CreateStep(cfg, pr, w, c); Kept(cfg, w, pr', w', pr.p.id)
  {
    if pr.pc == CInsert && CreateStep(cfg, pr, w, c).1 != w { PutRowKeeps(cfg, w, pr.p); }
  }

  lemma CreateClaimsWorld(cfg: Settings, pr: Proc, w: World, c: Choice)
    requires pr.op.Create? && (pr.pc == CMkdir || pr.pc == CWrite) && Base(cfg, w) && CreateInv(cfg, w, pr)
    ensures var (pr', w') := CreateStep(cfg, pr, w, c); Kept(cfg, w, pr', w', pr.p.id)
  {
    DirKeeps(cfg, w, CreateStep(cfg, pr, w, c).1, pr.p.id);
  }

  lemma CreateBuildsWorld(cfg: Settings, pr: Proc, w: World, c: Choice)
    requires pr.op.Create? && (pr.pc == CNetwork || pr.pc == CPull || pr.pc == CBuild || Built(pr.pc))
    requires Base(cfg, w) && CreateInv(cfg, w, pr) && Lands(pr, c)
    ensures var (pr', w') := CreateStep(cfg, pr, w, c); Kept(cfg, w, pr', w', pr.p.id)
  {
    var w' := CreateStep(cfg, pr, w, c).1;
    if pr.pc == CBuild && w' != w { AddContainerKeeps(cfg, w, pr.p.id); }
    if pr.pc == CStart && w' != w { RunContainerKeeps(cfg, w, pr.p.containerId.value, pr.p.id); }
    if pr.pc == CCommit { SaveKeeps(cfg, w, pr.p, c); }
  }

  lemma LastUndo(undo: seq<Undo>, cid: Option<Cid>)
    requires undo != [] && UndoShape(undo, cid)
    ensures undo[|undo| - 1].DropContainer? ==> cid == Some(undo[|undo| - 1].cid)
  {
  }

  // A container just created is the proxy's only one.
  lemma AddedIsOwn(w: World, p: Proxy)
    requires Issued(w) && Bare(w.ctrs, p.id)
    ensures Own(AddContainer(w, p.id, p.port).ctrs, p.(containerId := Some(w.nextCid)))
  {
    forall c: Cid | Mine(AddContainer(w, p.id, p.port).ctrs, c, p.id)
      ensures c == w.nextCid
    {
      assert !Mine(w.ctrs, c, p.id);
    }
  }

  lemma CompensateKeeps(cfg: Settings, w: World, id: Id, u: Undo, c: Choice)
    requires Base(cfg, w) && id < w.nextId
    requires u.DropContainer? && u.cid in w.ctrs ==> Mine(w.ctrs, u.cid, id)
    ensures Base(cfg, Compensate(w, id, u, c)) && Elsewhere(w, Compensate(w, id, u, c), id)
  {
    match u
    case DropRow => EraseRowKeeps(cfg, w, id);
    case DropDir => DirKeeps(cfg, w, EraseDir(w, id), id);
    case DropContainer(cid) => EraseContainerKeeps(cfg, w, cid, id);
  }

  lemma CreateUnwindsWorld(cfg: Settings, pr: Proc, w: World, c: Choice)
    requires pr.op.Create? && pr.pc == CUndo
    requires Base(cfg, w) && CreateInv(cfg, w, pr) && Lands(pr, c)
    ensures var (pr', w') := CreateStep(cfg, pr, w, c); Kept(cfg, w, pr', w', pr.p.id)
  {
    if pr.undo != [] {
      LastUndo(pr.undo, pr.p.containerId);
      CompensateKeeps(cfg, w, pr.p.id, pr.undo[|pr.undo| - 1], c);
    }
  }

  lemma CheckRequestInv(cfg: Settings, pr: Proc, w: World, c: Choice)
    requires pr.op.Create? && pr.pc == CCheck && CreateInv(cfg, w, pr) && Lands(pr, c)
    ensures var (pr', w') := CheckRequest(cfg, pr, w, c); pr'.op == pr.op && CreateInv(cfg, w', pr')
  {
  }

  lemma ClaimPortInv(cfg: Settings, pr: Proc, w: World, c: Choice)
    requires pr.op.Create? && pr.pc == CInsert && CreateInv(cfg, w, pr) && Lands(pr, c)
    ensures var (pr', w') := ClaimPort(pr, w, c); pr'.op == pr.op && CreateInv(cfg, w', pr')
  {
  }

  lemma CreateMkdirInv(cfg: Settings, pr: Proc, w: World, c: Choice)
    requires pr.op.Create? && pr.pc == CMkdir && CreateInv(cfg, w, pr) && Lands(pr, c)
    ensures var (pr', w') := Mkdir(pr, w, c, CWrite); pr'.op == pr.op && CreateInv(cfg, w', pr')
  {
  }

  lemma CreateWriteInv(cfg: Settings, pr: Proc, w: World, c: Choice)
    requires pr.op.Create? && pr.pc == CWrite && CreateInv(cfg, w, pr) && Lands(pr, c)
    ensures var (pr', w') := WriteFile(cfg, pr, w, c, pr.(pc := CNetwork, undo := pr.undo + [DropDir]));
      pr'.op == pr.op && CreateInv(cfg, w', pr')
  {
    assert [DropRow] + [DropDir] == [DropRow, DropDir];
  }

  lemma NetworkInv(cfg: Settings, pr: Proc, w: World, c: Choice)
    requires pr.op.Create? && pr.pc == CNetwork && CreateInv(cfg, w, pr) && Lands(pr, c)
    ensures var (pr', w') := Prepare(pr, w, c, CPull); pr'.op == pr.op && CreateInv(cfg, w', pr')
  {
  }

  lemma PullInv(cfg: Settings, pr: Proc, w: World, c: Choice)
    requires pr.op.Create? && pr.pc == CPull && CreateInv(cfg, w, pr) && Lands(pr, c)
    ensures var (pr', w') := Prepare(pr, w, c, CBuild); pr'.op == pr.op && CreateInv(cfg, w', pr')
  {
  }

  lemma ContainerAddedInv(cfg: Settings, pr: Proc, w: World)
    requires pr.op.Create? && pr.pc == CBuild && Base(cfg, w) && CreateInv(cfg, w, pr)
    ensures CreateInv(cfg, AddContainer(w, pr.p.id, pr.p.port), pr.(pc := CStart,
      undo := pr.undo + [DropContainer(w.nextCid)], p := pr.p.(containerId := Some(w.nextCid))))
  {
    AddedIsOwn(w, pr.p);
    assert [DropRow, DropDir] + [DropContainer(w.nextCid)] == [DropRow, DropDir, DropContainer(w.nextCid)];
  }

  lemma BuildFailedInv(cfg: Settings, pr: Proc, w: World)
    requires pr.op.Create? && pr.pc == CBuild && CreateInv(cfg, w, pr)
    ensures CreateInv(cfg, w, Fail(pr, RuntimeFailed))
  {
  }

  lemma CreateContainerInv(cfg: Settings, pr: Proc, w: World, c: Choice)
    requires pr.op.Create? && pr.pc == CBuild && Base(cfg, w) && CreateInv(cfg, w, pr) && Lands(pr, c)
    ensures var (pr', w') := CreateContainer(pr, w, c); pr'.op == pr.op && CreateInv(cfg, w', pr')
  {
    if Live(pr, c) { ContainerAddedInv(cfg, pr, w); } else { BuildFailedInv(cfg, pr, w); }
  }

  lemma StartOrUnwindInv(cfg: Settings, pr: Proc, w: World, c: Choice)
    requires pr.op.Create? && pr.pc == CStart && CreateInv(cfg, w, pr) && Lands(pr, c)
    ensures var (pr', w') := StartOrUnwind(pr, w, c); pr'.op == pr.op && CreateInv(cfg, w', pr')
  {
  }

  lemma CreateHealthInv(cfg: Settings, pr: Proc, w: World, c: Choice)
    requires pr.op.Create? && pr.pc == CHealth && CreateInv(cfg, w, pr) && Lands(pr, c)
    ensures var (pr', w') := AwaitHealth(pr, w, c, CCommit); pr'.op == pr.op && CreateInv(cfg, w', pr')
  {
  }

  lemma CommitCreateInv(cfg: Settings, pr: Proc, w: World, c: Choice)
    requires pr.op.Create? && pr.pc == CCommit && CreateInv(cfg, w, pr) && Lands(pr, c)
    ensures var (pr', w') := CommitCreate(pr, w, c); pr'.op == pr.op && CreateInv(cfg, w', pr')
  {
  }

  lemma RollbackInv(cfg: Settings, pr: Proc, w: World, c: Choice)
    requires pr.op.Create? && pr.pc == CUndo && CreateInv(cfg, w, pr) && Lands(pr, c)
    ensures var (pr', w') := Rollback(pr, w, c); pr'.op == pr.op && CreateInv(cfg, w', pr')
  {
  }

  // ---- Delete ----

  // Once a linked row's recorded container is removed, the proxy has none.
  lemma ErasedIsBare(rows: Rows, k: Ctrs, id: Id)
    requires id in rows && Linked(rows, k, id)
    ensures rows[id].containerId.None? ==> Bare(k, id)
    ensures rows[id].containerId.Some? ==> Bare(k - {rows[id].containerId.value}, id)
  {
    if rows[id].containerId.Some? {
      forall c: Cid
        ensures !Mine(k - {rows[id].containerId.value}, c, id)
      {
        assert !Mine(k, c, id) || rows[id].containerId == Some(c);
      }
    }
  }

  lemma DeleteWorld(cfg: Settings, pr: Proc, w: World, c: Choice)
    requires pr.op.Delete? && pr.pc != Done
    requires Base(cfg, w) && DeleteInv(cfg, w, pr) && Lands(pr, c)
    ensures var (pr', w') := DeleteStep(pr, w, c); Kept(cfg, w, pr', w', pr.op.id)
  {
    if pr.pc == DRemove && pr.p.containerId.Some? {
      assert RowOk(cfg, w, pr.p.id);
      EraseContainerKeeps(cfg, w, pr.p.containerId.value, pr.p.id);
    }
    if pr.pc == DDir { DirKeeps(cfg, w, EraseDir(w, pr.p.id), pr.p.id); }
    if pr.pc == DRow { EraseRowKeeps(cfg, w, pr.p.id); }
  }

  lemma FetchInv(cfg: Settings, pr: Proc, w: World, c: Choice)
    requires pr.op.Delete? && pr.pc == DGet && Base(cfg, w) && DeleteInv(cfg, w, pr) && Lands(pr, c)
    ensures var (pr', w') := Fetch(pr, w, c, pr.op.id, DRemove); pr'.op == pr.op && DeleteInv(cfg, w', pr')
  {
    if pr.op.id in w.rows { assert RowOk(cfg, w, pr.op.id); }
  }

  lemma RemoveRecordedInv(cfg: Settings, pr: Proc, w: World, c: Choice)
    requires pr.op.Delete? && pr.pc == DRemove && DeleteInv(cfg, w, pr) && Lands(pr, c)
    ensures var (pr', w') := RemoveRecorded(pr, w, c, pr.(pc := DDir)); pr'.op == pr.op && DeleteInv(cfg, w', pr')
  {
    ErasedIsBare(w.rows, w.ctrs, pr.p.id);
  }

  lemma RemoveDirInv(cfg: Settings, pr: Proc, w: World, c: Choice)
    requires pr.op.Delete? && pr.pc == DDir && DeleteInv(cfg, w, pr) && Lands(pr, c)
    ensures var (pr', w') := RemoveDir(pr, w, c); pr'.op == pr.op && DeleteInv(cfg, w', pr')
  {
  }

  lemma RemoveRowInv(cfg: Settings, pr: Proc, w: World, c: Choice)
    requires pr.op.Delete? && pr.pc == DRow && DeleteInv(cfg, w, pr) && Lands(pr, c)
    ensures var (pr', w') := RemoveRow(pr, w, c); pr'.op == pr.op && DeleteInv(cfg, w', pr')
  {
  }

  // ---- UpdateLimits ----

  lemma UpdateCommitWorld(cfg: Settings, pr: Proc, w: World, c: Choice)
    requires pr.op.UpdateLimits? && pr.pc == UCommit && Base(cfg, w) && UpdateInv(cfg, w, pr) && !c.fail
    ensures var (pr', w') := Commit(pr, w, c, Done);
      && Base(cfg, w') && Elsewhere(w, w', pr.op.id)
      && (Linked(w.rows, w.ctrs, pr.op.id) ==> Linked(w'.rows, w'.ctrs, pr.op.id))
  {
    assert RowOk(cfg, w, pr.p.id);
    SaveKeeps(cfg, w, pr.p, c);
  }

  lemma UpdateWorld(cfg: Settings, pr: Proc, w: World, c: Choice)
    requires pr.op.UpdateLimits? && pr.pc != Done
    requires Base(cfg, w) && UpdateInv(cfg, w, pr) && Lands(pr, c)
    ensures var (pr', w') := UpdateStep(cfg, pr, w, c);
      && Base(cfg, w') && Elsewhere(w, w', pr.op.id)
      && (Linked(w.rows, w.ctrs, pr.op.id) ==> Linked(w'.rows, w'.ctrs, pr.op.id))
  {
    if pr.pc == UMkdir || pr.pc == UWrite { DirKeeps(cfg, w, UpdateStep(cfg, pr, w, c).1, pr.p.id); }
    else if pr.pc == UCommit { UpdateCommitWorld(cfg, pr, w, c); }
  }

  lemma FetchAndPatchInv(cfg: Settings, pr: Proc, w: World, c: Choice)
    requires pr.op.UpdateLimits? && pr.pc == UGet && Base(cfg, w) && UpdateInv(cfg, w, pr) && Lands(pr, c)
    ensures var (pr', w') := FetchAndPatch(pr, w, c); pr'.op == pr.op && UpdateInv(cfg, w', pr')
  {
    if pr.op.id in w.rows { assert RowOk(cfg, w, pr.op.id); }
  }

  lemma UpdateMkdirInv(cfg: Settings, pr: Proc, w: World, c: Choice)
    requires pr.op.UpdateLimits? && pr.pc == UMkdir && UpdateInv(cfg, w, pr) && Lands(pr, c)
    ensures var (pr', w') := Mkdir(pr, w, c, UWrite); pr'.op == pr.op && UpdateInv(cfg, w', pr')
  {
  }

  lemma UpdateWriteInv(cfg: Settings, pr: Proc, w: World, c: Choice)
    requires pr.op.UpdateLimits? && pr.pc == UWrite && UpdateInv(cfg, w, pr) && Lands(pr, c)
    ensures var (pr', w') := WriteFile(cfg, pr, w, c, pr.(pc := UPatch)); pr'.op == pr.op && UpdateInv(cfg, w', pr')
  {
  }

  lemma LiveApplyInv(cfg: Settings, pr: Proc, w: World, c: Choice)
    requires pr.op.UpdateLimits? && pr.pc == UPatch && UpdateInv(cfg, w, pr) && Lands(pr, c)
    ensures var (pr', w') := LiveApply(pr, w, c); pr'.op == pr.op && UpdateInv(cfg, w', pr')
  {
  }

  lemma UpdateCommitInv(cfg: Settings, pr: Proc, w: World, c: Choice)
    requires pr.op.UpdateLimits? && pr.pc == UCommit && UpdateInv(cfg, w, pr) && Lands(pr, c)
    ensures var (pr', w') := Commit(pr, w, c, Done); pr'.op == pr.op && UpdateInv(cfg, w', pr')
  {
  }

  // ---- Recreate, and startContainer ----

  lemma MarkWorld(cfg: Settings, pr: Proc, w: World, c: Choice)
    requires pr.op.Recreate? && pr.pc == RMark && Base(cfg, w) && RecreateInv(cfg, w, pr)
    ensures var (pr', w') := MarkRecreating(pr, w, c); Kept(cfg, w, pr', w', pr.op.id)
  {
    assert RowOk(cfg, w, pr.p.id);
    if Live(pr, c) { SaveKeeps(cfg, w, pr.p, c); }
  }

  lemma RecreateChecksWorld(cfg: Settings, pr: Proc, w: World, c: Choice)
    requires pr.op.Recreate? && (pr.pc == RGet || pr.pc == RCheck || pr.pc == RMark)
    requires Base(cfg, w) && RecreateInv(cfg, w, pr) && Lands(pr, c)
    ensures var (pr', w') := RecreateStep(cfg, pr, w, c); Kept(cfg, w, pr', w', pr.op.id)
  {
    if pr.pc == RMark { MarkWorld(cfg, pr, w, c); }
  }

  lemma RecreateMovesWorld(cfg: Settings, pr: Proc, w: World, c: Choice)
    requires pr.op.Recreate? && (pr.pc == RRemove || pr.pc == RPort)
    requires Base(cfg, w) && RecreateInv(cfg, w, pr) && Lands(pr, c)
    ensures var (pr', w') := RecreateStep(cfg, pr, w, c); Kept(cfg, w, pr', w', pr.op.id)
  {
    if pr.pc == RRemove && pr.p.containerId.Some? {
      assert RowOk(cfg, w, pr.p.id);
      EraseContainerKeeps(cfg, w, pr.p.containerId.value, pr.p.id);
    }
    if pr.pc == RPort && !PortHeld(w.rows, pr.p.port, pr.p.id) { PutRowKeeps(cfg, w, pr.p); }
  }

  lemma RecreateWritesWorld(cfg: Settings, pr: Proc, w: World, c: Choice)
    requires pr.op.Recreate? && (pr.pc == RMkdir || pr.pc == RWrite)
    requires Base(cfg, w) && RecreateInv(cfg, w, pr) && Lands(pr, c)
    ensures var (pr', w') := RecreateStep(cfg, pr, w, c); Kept(cfg, w, pr', w', pr.op.id)
  {
    DirKeeps(cfg, w, RecreateStep(cfg, pr, w, c).1, pr.p.id);
  }

  lemma RecreateDone(cfg: Settings, pr: Proc, w: World)
    requires pr.op.Recreate? && pr.pc == Done && pr.undo == []
    ensures RecreateInv(cfg, w, pr)
  {
  }

  lemma FetchedInv(cfg: Settings, pr: Proc, w: World)
    requires pr.op.Recreate? && pr.pc == RGet && RecreateInv(cfg, w, pr) && pr.op.id in w.rows
    requires w.rows[pr.op.id].id == pr.op.id
    ensures RecreateInv(cfg, w, pr.(pc := RCheck, p := w.rows[pr.op.id]))
  {
  }

  lemma RecreateFetchInv(cfg: Settings, pr: Proc, w: World, c: Choice)
    requires pr.op.Recreate? && pr.pc == RGet && Base(cfg, w) && RecreateInv(cfg, w, pr) && Lands(pr, c)
    ensures var (pr', w') := Fetch(pr, w, c, pr.op.id, RCheck); pr'.op == pr.op && RecreateInv(cfg, w', pr')
  {
    var (pr', w') := Fetch(pr, w, c, pr.op.id, RCheck);
    if pr'.pc == Done { RecreateDone(cfg, pr', w'); }
    else { assert RowOk(cfg, w, pr.op.id); FetchedInv(cfg, pr, w); }
  }

  lemma CheckMoveInv(cfg: Settings, pr: Proc, w: World, c: Choice)
    requires pr.op.Recreate? && pr.pc == RCheck && RecreateInv(cfg, w, pr) && Lands(pr, c)
    ensures var (pr', w') := CheckMove(cfg, pr, w, c); pr'.op == pr.op && RecreateInv(cfg, w', pr')
  {
  }

  lemma MarkedInv(cfg: Settings, pr: Proc, w: World)
    requires pr.op.Recreate? && pr.pc == RMark && RecreateInv(cfg, w, pr)
    ensures RecreateInv(cfg, PutRow(w, pr.p), pr.(pc := RRemove))
  {
  }

  lemma MarkRecreatingInv(cfg: Settings, pr: Proc, w: World, c: Choice)
    requires pr.op.Recreate? && pr.pc == RMark && RecreateInv(cfg, w, pr) && Lands(pr, c)
    ensures var (pr', w') := MarkRecreating(pr, w, c); pr'.op == pr.op && RecreateInv(cfg, w', pr')
  {
    var (pr', w') := MarkRecreating(pr, w, c);
    if pr'.pc == Done { RecreateDone(cfg, pr', w'); } else { MarkedInv(cfg, pr, w); }
  }

  lemma RemovedInv(cfg: Settings, pr: Proc, w: World, w': World)
    requires pr.op.Recreate? && pr.pc == RRemove && RecreateInv(cfg, w, pr) && PortAllowed(cfg, w.rows[pr.p.id].port)
    requires w'.rows == w.rows && Bare(w'.ctrs, pr.p.id)
    ensures RecreateInv(cfg, w', pr.(pc := RPort, p := Moved(pr)))
  {
  }

  lemma RecreateRemoveInv(cfg: Settings, pr: Proc, w: World, c: Choice)
    requires pr.op.Recreate? && pr.pc == RRemove && Base(cfg, w) && RecreateInv(cfg, w, pr) && Lands(pr, c)
    ensures var (pr', w') := RemoveRecorded(pr, w, c, pr.(pc := RPort, p := Moved(pr)));
      pr'.op == pr.op && RecreateInv(cfg, w', pr')
  {
    var (pr', w') := RemoveRecorded(pr, w, c, pr.(pc := RPort, p := Moved(pr)));
    assert RowOk(cfg, w, pr.p.id);
    ErasedIsBare(w.rows, w.ctrs, pr.p.id);
    if pr'.pc == Done { RecreateDone(cfg, pr', w'); } else { RemovedInv(cfg, pr, w, w'); }
  }

  lemma RecreatePortInv(cfg: Settings, pr: Proc, w: World, c: Choice)
    requires pr.op.Recreate? && pr.pc == RPort && RecreateInv(cfg, w, pr) && Lands(pr, c)
    ensures var (pr', w') := Commit(pr, w, c, RMkdir); pr'.op == pr.op && RecreateInv(cfg, w', pr')
  {
  }

  lemma RecreateMkdirInv(cfg: Settings, pr: Proc, w: World, c: Choice)
    requires pr.op.Recreate? && pr.pc == RMkdir && RecreateInv(cfg, w, pr) && Lands(pr, c)
    ensures var (pr', w') := Mkdir(pr, w, c, RWrite); pr'.op == pr.op && RecreateInv(cfg, w', pr')
  {
  }

  lemma RecreateWriteInv(cfg: Settings, pr: Proc, w: World, c: Choice)
    requires pr.op.Recreate? && pr.pc == RWrite && RecreateInv(cfg, w, pr) && Lands(pr, c)
    ensures var (pr', w') := WriteFile(cfg, pr, w, c, pr.(pc := SBuild)); pr'.op == pr.op && RecreateInv(cfg, w', pr')
  {
  }

  // startContainer has returned, and the row records what became of its container.
  ghost predicate HasLinkedRow(w: World, id: Id) { id in w.rows && Linked(w.rows, w.ctrs, id) }

  lemma StartBuildsWorld(cfg: Settings, pr: Proc, w: World, c: Choice)
    requires Base(cfg, w) && StartInv(cfg, w, pr) && Lands(pr, c)
    requires pr.pc == SBuild || pr.pc == SStart || pr.pc == SHealth
    ensures var (pr', w') := StartStep(pr, w, c); Base(cfg, w') && Elsewhere(w, w', pr.p.id)
  {
    var w' := StartStep(pr, w, c).1;
    if pr.pc == SBuild && w' != w { AddContainerKeeps(cfg, w, pr.p.id); }
    if pr.pc == SStart && w' != w { RunContainerKeeps(cfg, w, pr.p.containerId.value, pr.p.id); }
  }

  lemma StartRecordsWorld(cfg: Settings, pr: Proc, w: World, c: Choice)
    requires Base(cfg, w) && StartInv(cfg, w, pr) && Lands(pr, c)
    requires pr.pc == SBuildFailed || pr.pc == SStartFailed || pr.pc == SCommit
    ensures var (pr', w') := StartStep(pr, w, c);
      && Base(cfg, w') && Elsewhere(w, w', pr.p.id) && HasLinkedRow(w', pr.p.id) && w' == PutRow(w, pr.p)
      && pr' == Return(pr, if pr.pc == SCommit then None else Some(RuntimeFailed))
  {
    assert RowOk(cfg, w, pr.p.id);
    SaveKeeps(cfg, w, pr.p, c);
  }

  // The locals startContainer does not touch.
  predicate SameTask(pr: Proc, pr': Proc) {
    && pr'.op == pr.op
      && pr'.p == pr.p.(containerId := pr'.p.containerId, state := pr'.p.state, message := pr'.p.message)
    && pr'.snapshot == pr.snapshot && pr'.todo == pr.todo && pr'.index == pr.index && pr'.clean == pr.clean
    && pr'.report == pr.report
  }

  lemma BuildContainerInv(cfg: Settings, pr: Proc, w: World, c: Choice)
    requires pr.pc == SBuild && Base(cfg, w) && StartInv(cfg, w, pr) && Lands(pr, c)
    ensures var (pr', w') := BuildContainer(pr, w, c);
      StartInv(cfg, w', pr') && Starting(pr'.pc) && SameTask(pr, pr')
  {
    AddedIsOwn(w, pr.p);
  }

  lemma StartContainerInv(cfg: Settings, pr: Proc, w: World, c: Choice)
    requires pr.pc == SStart && StartInv(cfg, w, pr) && Lands(pr, c)
    ensures var (pr', w') := StartContainer(pr, w, c);
      StartInv(cfg, w', pr') && Starting(pr'.pc) && SameTask(pr, pr')
  {
  }

  lemma AwaitHealthInv(cfg: Settings, pr: Proc, w: World, c: Choice)
    requires pr.pc == SHealth && StartInv(cfg, w, pr) && Lands(pr, c)
    ensures var (pr', w') := AwaitHealth(pr, w, c, SCommit);
      StartInv(cfg, w', pr') && Starting(pr'.pc) && SameTask(pr, pr')
  {
  }
}
