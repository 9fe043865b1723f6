/** The same for Reconcile and RemoveOrphan, and the one statement over every step. */
module ReconcileSteps {
  import opened Wrappers
  import opened Entities
  import opened Machine
  import opened Invariant
  import opened Steps

  // The loop's own variables.
  predicate SameLoop(pr: Proc, pr': Proc) {
    && pr'.op == pr.op && pr'.undo == pr.undo && pr'.snapshot == pr.snapshot && pr'.todo == pr.todo
    && pr'.index == pr.index && pr'.clean == pr.clean
  }

  lemma PendingFrame(w: World, w': World, pr: Proc, pr': Proc, id: Id)
    requires Pending(w, pr, id) && Elsewhere(w, w', pr.p.id) && id != pr.p.id
    requires pr'.snapshot == pr.snapshot && pr'.index == pr.index
    ensures Pending(w', pr', id)
  {
    assert forall c: Cid :: Mine(w'.ctrs, c, id) <==> Mine(w.ctrs, c, id);
  }

  lemma LinkedFrame(w: World, w': World, i: Id, id: Id)
    requires Elsewhere(w, w', i) && id != i && Linked(w.rows, w.ctrs, id)
    ensures Linked(w'.rows, w'.ctrs, id)
  {
    assert forall c: Cid :: Mine(w'.ctrs, c, id) <==> Mine(w.ctrs, c, id);
  }

  // Work on one row leaves the rest of the work list as it was.
  lemma LoopFrame(cfg: Settings, w: World, w': World, pr: Proc, pr': Proc)
    requires LoopInv(cfg, w, pr) && Elsewhere(w, w', pr.p.id) && pr.pc != KPick
    requires SameLoop(pr, pr') && pr'.p.id == pr.p.id
    requires pr'.pc == KPick && pr.clean ==> Linked(w'.rows, w'.ctrs, pr.p.id)
    ensures LoopInv(cfg, w', pr')
  {
    forall id | id in pr'.todo ensures Pending(w', pr', id) { PendingFrame(w, w', pr, pr', id); }
    forall id | pr'.clean && id in w'.rows && id !in pr'.todo && id != pr.p.id ensures Linked(w'.rows, w'.ctrs, id) {
      LinkedFrame(w, w', pr.p.id, id);
    }
  }

  // ---- Effects ----

  lemma RelinkWorld(cfg: Settings, pr: Proc, w: World, c: Choice)
    requires pr.op.Reconcile? && pr.pc == KRelink && Base(cfg, w) && ReconcileInv(cfg, w, pr)
    ensures var w' := Relink(pr, w, c).1; Base(cfg, w') && Elsewhere(w, w', pr.p.id)
  {
    if Live(pr, c) { SaveKeeps(cfg, w, pr.p, c); }
  }

  lemma ReconcileWorld(cfg: Settings, pr: Proc, w: World, c: Choice)
    requires pr.op.Reconcile? && (pr.pc == KRelink || pr.pc == KCleanDir || pr.pc == KCleanRow)
    requires Base(cfg, w) && ReconcileInv(cfg, w, pr)
    ensures var w' := ReconcileStep(pr, w, c).1; Base(cfg, w') && Elsewhere(w, w', pr.p.id)
  {
    if pr.pc == KRelink { RelinkWorld(cfg, pr, w, c); }
    else if pr.pc == KCleanDir { DirKeeps(cfg, w, EraseDir(w, pr.p.id), pr.p.id); }
    else { EraseRowKeeps(cfg, w, pr.p.id); }
  }

  // ---- Facts ----

  lemma ListRowsInv(cfg: Settings, pr: Proc, w: World, c: Choice)
    requires pr.op.Reconcile? && pr.pc == KRows && ReconcileInv(cfg, w, pr)
    ensures var (pr', w') := ListRows(pr, w, c, KCtrs); pr'.op == pr.op && ReconcileInv(cfg, w', pr')
  {
  }

  lemma ListContainersInv(cfg: Settings, pr: Proc, w: World, c: Choice)
    requires pr.op.Reconcile? && pr.pc == KCtrs && Base(cfg, w) && ReconcileInv(cfg, w, pr)
    ensures var (pr', w') := ListContainers(pr, w, c); pr'.op == pr.op && ReconcileInv(cfg, w', pr')
  {
    if Live(pr, c) && IsIndex(w, c.index) {
      var pr' := ListContainers(pr, w, c).0;
      forall id | id in pr'.todo ensures Pending(w, pr', id) { assert RowOk(cfg, w, id); }
    }
  }

  lemma PickKeepsPending(cfg: Settings, pr: Proc, w: World, c: Choice)
    requires pr.pc == KPick && LoopInv(cfg, w, pr) && c.pick in pr.todo
    ensures var pr' := PickRow(pr, c);
      pr'.todo == pr.todo - {c.pick} && forall id :: id in pr'.todo ==> Pending(w, pr', id)
  {
    var pr' := PickRow(pr, c);
    assert Pending(w, pr, c.pick);
    forall id | id in pr'.todo ensures Pending(w, pr', id) { assert Pending(w, pr, id); }
  }

  lemma PickLoopInv(cfg: Settings, pr: Proc, w: World, c: Choice)
    requires pr.pc == KPick && LoopInv(cfg, w, pr) && c.pick in pr.todo
    requires PickRow(pr, c).p.id == c.pick
    ensures LoopInv(cfg, w, PickRow(pr, c))
  {
    var pr' := PickRow(pr, c);
    PickKeepsPending(cfg, pr, w, c);
    assert Pending(w, pr, c.pick);
    forall id | pr'.clean && id in w.rows && id !in pr'.todo && !(pr'.pc != KPick && id == pr'.p.id)
      ensures Linked(w.rows, w.ctrs, id)
    {
      assert id !in pr.todo || id == c.pick;
    }
  }

  lemma TakenInv(cfg: Settings, pr: Proc, w: World, c: Choice)
    requires pr.op.Reconcile? && pr.pc == KPick && pr.undo == [] && LoopInv(cfg, w, pr) && c.pick in pr.todo
    requires c.pick in w.rows && RowOk(cfg, w, c.pick) && LoopInv(cfg, w, PickRow(pr, c))
    ensures ReconcileInv(cfg, w, PickRow(pr, c))
  {
    assert Pending(w, pr, c.pick);
  }

  lemma PickRowInv(cfg: Settings, pr: Proc, w: World, c: Choice)
    requires pr.op.Reconcile? && pr.pc == KPick && Base(cfg, w) && ReconcileInv(cfg, w, pr)
    ensures var pr' := PickRow(pr, c); pr'.op == pr.op && ReconcileInv(cfg, w, pr')
  {
    if c.pick in pr.todo {
      assert Pending(w, pr, c.pick) && RowOk(cfg, w, c.pick);
      assert PickRow(pr, c).p.id == c.pick;
      PickLoopInv(cfg, pr, w, c);
      TakenInv(cfg, pr, w, c);
    }
  }

  lemma RelinkedInv(cfg: Settings, pr: Proc, w: World)
    requires pr.op.Reconcile? && pr.pc == KRelink && Base(cfg, w) && ReconcileInv(cfg, w, pr)
    requires Elsewhere(w, PutRow(w, pr.p), pr.p.id)
    ensures ReconcileInv(cfg, PutRow(w, pr.p), pr.(pc := KPick))
  {
    LoopFrame(cfg, w, PutRow(w, pr.p), pr, pr.(pc := KPick));
  }

  lemma UnrelinkedInv(cfg: Settings, pr: Proc, w: World)
    requires pr.op.Reconcile? && pr.pc == KRelink && ReconcileInv(cfg, w, pr)
    ensures ReconcileInv(cfg, w, pr.(pc := KPick, clean := false))
  {
    var pr' := pr.(pc := KPick, clean := false);
    forall id | id in pr'.todo ensures Pending(w, pr', id) { assert Pending(w, pr, id); }
  }

  lemma RelinkInv(cfg: Settings, pr: Proc, w: World, c: Choice)
    requires pr.op.Reconcile? && pr.pc == KRelink && Base(cfg, w) && ReconcileInv(cfg, w, pr)
    ensures var (pr', w') := Relink(pr, w, c); pr'.op == pr.op && ReconcileInv(cfg, w', pr')
  {
    if Live(pr, c) { SaveKeeps(cfg, w, pr.p, c); RelinkedInv(cfg, pr, w); } else { UnrelinkedInv(cfg, pr, w); }
  }

  lemma CleanDirInv(cfg: Settings, pr: Proc, w: World, c: Choice)
    requires pr.op.Reconcile? && pr.pc == KCleanDir && Base(cfg, w) && ReconcileInv(cfg, w, pr)
    ensures var (pr', w') := CleanDir(pr, w, c); pr'.op == pr.op && ReconcileInv(cfg, w', pr')
  {
    var (pr', w') := CleanDir(pr, w, c);
    DirKeeps(cfg, w, w', pr.p.id);
    LoopFrame(cfg, w, w', pr, pr');
  }

  lemma CleanedInv(cfg: Settings, pr: Proc, pr': Proc, w: World)
    requires pr.op.Reconcile? && pr.pc == KCleanRow && ReconcileInv(cfg, w, pr)
    requires Elsewhere(w, EraseRow(w, pr.p.id), pr.p.id)
    requires pr' == pr.(pc := KPick, report := pr'.report)
    ensures ReconcileInv(cfg, EraseRow(w, pr.p.id), pr')
  {
    LoopFrame(cfg, w, EraseRow(w, pr.p.id), pr, pr');
  }

  lemma RowCleaned(pr: Proc, w: World, c: Choice)
    requires !c.fail && pr.p.id in w.rows
    ensures CleanRow(pr, w, c) ==
      (pr.(pc := KPick, report := pr.report.(cleanedUp := pr.report.cleanedUp + {pr.p.id})), EraseRow(w, pr.p.id))
  {
  }

  lemma CleanRowInv(cfg: Settings, pr: Proc, w: World, c: Choice)
    requires pr.op.Reconcile? && pr.pc == KCleanRow && Base(cfg, w) && ReconcileInv(cfg, w, pr) && !c.fail
    ensures var (pr', w') := CleanRow(pr, w, c); pr'.op == pr.op && ReconcileInv(cfg, w', pr')
  {
    EraseRowKeeps(cfg, w, pr.p.id);
    RowCleaned(pr, w, c);
    CleanedInv(cfg, pr, CleanRow(pr, w, c).0, w);
  }

  // ---- startContainer, for either caller ----

  // startContainer either goes on, or has recorded its outcome and returned.
  ghost predicate StartResult(cfg: Settings, pr: Proc, pr': Proc, w': World) {
    || (Starting(pr'.pc) && StartInv(cfg, w', pr') && SameTask(pr, pr'))
    || (HasLinkedRow(w', pr.p.id) && (pr' == Return(pr, None) || pr' == Return(pr, Some(RuntimeFailed))))
  }

  lemma StartKeeps(cfg: Settings, pr: Proc, w: World, c: Choice)
    requires Starting(pr.pc) && Base(cfg, w) && StartInv(cfg, w, pr) && Lands(pr, c)
    ensures var (pr', w') := StartStep(pr, w, c);
      Base(cfg, w') && Elsewhere(w, w', pr.p.id) && StartResult(cfg, pr, pr', w')
  {
    if pr.pc == SBuild { StartBuildsWorld(cfg, pr, w, c); BuildContainerInv(cfg, pr, w, c); }
    else if pr.pc == SStart { StartBuildsWorld(cfg, pr, w, c); StartContainerInv(cfg, pr, w, c); }
    else if pr.pc == SHealth { StartBuildsWorld(cfg, pr, w, c); AwaitHealthInv(cfg, pr, w, c); }
    else { StartRecordsWorld(cfg, pr, w, c); }
  }

  lemma RecreateStarts(cfg: Settings, pr: Proc, w: World, pr': Proc, w': World)
    requires pr.op.Recreate? && Starting(pr.pc) && RecreateInv(cfg, w, pr) && StartResult(cfg, pr, pr', w')
    ensures pr'.op == pr.op && RecreateInv(cfg, w', pr') && (pr'.pc == Done ==> Linked(w'.rows, w'.ctrs, pr.op.id))
  {
    if Starting(pr'.pc) { assert HasMoved(cfg, pr'); }
  }

  lemma ReconcileReturns(cfg: Settings, pr: Proc, w: World, pr': Proc, w': World)
    requires pr.op.Reconcile? && Starting(pr.pc) && LoopInv(cfg, w, pr) && pr.undo == []
    requires HasLinkedRow(w', pr.p.id) && (pr' == Return(pr, None) || pr' == Return(pr, Some(RuntimeFailed)))
    requires Elsewhere(w, w', pr.p.id)
    ensures pr'.op == pr.op && ReconcileInv(cfg, w', pr')
  {
    LoopFrame(cfg, w, w', pr, pr');
  }

  lemma ReconcileStarts(cfg: Settings, pr: Proc, w: World, pr': Proc, w': World)
    requires pr.op.Reconcile? && Starting(pr.pc) && ReconcileInv(cfg, w, pr) && StartResult(cfg, pr, pr', w')
    requires Elsewhere(w, w', pr.p.id)
    ensures pr'.op == pr.op && ReconcileInv(cfg, w', pr')
  {
    if Starting(pr'.pc) && StartInv(cfg, w', pr') && SameTask(pr, pr') { LoopFrame(cfg, w, w', pr, pr'); }
    else { ReconcileReturns(cfg, pr, w, pr', w'); }
  }

  // ---- RemoveOrphan ----

  // The container it removes belongs to no row, so no row's container is touched.
  ghost predicate OrphanOnly(w: World, w': World) {
    && w'.rows == w.rows && w'.dirs == w.dirs && w'.nextId == w.nextId && w'.nextCid == w.nextCid
    && (forall d :: d in w'.ctrs ==> d in w.ctrs && w'.ctrs[d] == w.ctrs[d])
    && (forall id, d: Cid :: id in w.rows && Mine(w.ctrs, d, id) ==> d in w'.ctrs)
  }

  lemma OrphanOnlyKeeps(cfg: Settings, w: World, w': World)
    requires Base(cfg, w) && OrphanOnly(w, w')
    ensures Base(cfg, w')
  {
    assert forall d: Cid, i: Id :: Mine(w'.ctrs, d, i) ==> Mine(w.ctrs, d, i);
    forall i | i in w'.rows ensures RowOk(cfg, w', i) { assert RowOk(cfg, w, i); }
  }

  lemma RemoveOrphanInvKeeps(cfg: Settings, pr: Proc, w: World, c: Choice)
    requires pr.op.RemoveOrphan? && RemoveOrphanInv(cfg, w, pr)
    ensures var (pr', w') := RemoveOrphanStep(pr, w, c); pr'.op == pr.op && RemoveOrphanInv(cfg, w', pr')
  {
  }

  lemma RemoveOrphanWorld(cfg: Settings, pr: Proc, w: World, c: Choice)
    requires pr.op.RemoveOrphan? && RemoveOrphanInv(cfg, w, pr)
    ensures OrphanOnly(w, RemoveOrphanStep(pr, w, c).1)
  {
  }
}
