/** The dispatch: one statement about every step of every operation. */
module AllSteps {
  import opened Wrappers
  import opened Entities
  import opened Machine
  import opened Invariant
  import opened Steps
  import opened ReconcileSteps

  lemma CreateClaimsInv(cfg: Settings, pr: Proc, w: World, c: Choice)
    requires pr.op.Create? && (Asking(pr.pc) || pr.pc == CMkdir || pr.pc == CWrite)
    requires Base(cfg, w) && CreateInv(cfg, w, pr) && Lands(pr, c)
    ensures var (pr', w') := CreateStep(cfg, pr, w, c); pr'.op == pr.op && CreateInv(cfg, w', pr')
  {
    if pr.pc == CCheck { CheckRequestInv(cfg, pr, w, c); }
    else if pr.pc == CInsert { ClaimPortInv(cfg, pr, w, c); }
    else if pr.pc == CMkdir { CreateMkdirInv(cfg, pr, w, c); }
    else { CreateWriteInv(cfg, pr, w, c); }
  }

  lemma CreateBuildsInv(cfg: Settings, pr: Proc, w: World, c: Choice)
    requires pr.op.Create? && (pr.pc == CNetwork || pr.pc == CPull || pr.pc == CBuild)
    requires Base(cfg, w) && CreateInv(cfg, w, pr) && Lands(pr, c)
    ensures var (pr', w') := CreateStep(cfg, pr, w, c); pr'.op == pr.op && CreateInv(cfg, w', pr')
  {
    if pr.pc == CNetwork { NetworkInv(cfg, pr, w, c); }
    else if pr.pc == CPull { PullInv(cfg, pr, w, c); }
    else { CreateContainerInv(cfg, pr, w, c); }
  }

  lemma CreateEndsInv(cfg: Settings, pr: Proc, w: World, c: Choice)
    requires pr.op.Create? && (Built(pr.pc) || pr.pc == CUndo)
    requires Base(cfg, w) && CreateInv(cfg, w, pr) && Lands(pr, c)
    ensures var (pr', w') := CreateStep(cfg, pr, w, c); pr'.op == pr.op && CreateInv(cfg, w', pr')
  {
    if pr.pc == CStart { StartOrUnwindInv(cfg, pr, w, c); }
    else if pr.pc == CHealth { CreateHealthInv(cfg, pr, w, c); }
    else if pr.pc == CCommit { CommitCreateInv(cfg, pr, w, c); }
    else { RollbackInv(cfg, pr, w, c); }
  }

  lemma CreateKeeps(cfg: Settings, pr: Proc, w: World, c: Choice)
    requires pr.op.Create? && pr.pc != Done && Base(cfg, w) && CreateInv(cfg, w, pr) && Lands(pr, c)
    ensures var (pr', w') := CreateStep(cfg, pr, w, c);
      Kept(cfg, w, pr', w', pr.op.row.id) && pr'.op == pr.op && CreateInv(cfg, w', pr')
  {
    if Asking(pr.pc) { CreateClaimsInv(cfg, pr, w, c); CreateAsksWorld(cfg, pr, w, c); }
    else if pr.pc == CMkdir || pr.pc == CWrite { CreateClaimsInv(cfg, pr, w, c); CreateClaimsWorld(cfg, pr, w, c); }
    else if pr.pc == CUndo { CreateEndsInv(cfg, pr, w, c); CreateUnwindsWorld(cfg, pr, w, c); }
    else if Built(pr.pc) { CreateEndsInv(cfg, pr, w, c); CreateBuildsWorld(cfg, pr, w, c); }
    else { CreateBuildsInv(cfg, pr, w, c); CreateBuildsWorld(cfg, pr, w, c); }
  }

  lemma DeleteKeeps(cfg: Settings, pr: Proc, w: World, c: Choice)
    requires pr.op.Delete? && pr.pc != Done && Base(cfg, w) && DeleteInv(cfg, w, pr) && Lands(pr, c)
    ensures var (pr', w') := DeleteStep(pr, w, c);
      Kept(cfg, w, pr', w', pr.op.id) && pr'.op == pr.op && DeleteInv(cfg, w', pr')
  {
    DeleteWorld(cfg, pr, w, c);
    if pr.pc == DGet { FetchInv(cfg, pr, w, c); }
    else if pr.pc == DRemove { RemoveRecordedInv(cfg, pr, w, c); }
    else if pr.pc == DDir { RemoveDirInv(cfg, pr, w, c); }
    else { RemoveRowInv(cfg, pr, w, c); }
  }

  lemma UpdateKeeps(cfg: Settings, pr: Proc, w: World, c: Choice)
    requires pr.op.UpdateLimits? && pr.pc != Done && Base(cfg, w) && UpdateInv(cfg, w, pr) && Lands(pr, c)
    ensures var (pr', w') := UpdateStep(cfg, pr, w, c);
      && Base(cfg, w') && Elsewhere(w, w', pr.op.id) && pr'.op == pr.op && UpdateInv(cfg, w', pr')
      && (Linked(w.rows, w.ctrs, pr.op.id) ==> Linked(w'.rows, w'.ctrs, pr.op.id))
  {
    UpdateWorld(cfg, pr, w, c);
    if pr.pc == UGet { FetchAndPatchInv(cfg, pr, w, c); }
    else if pr.pc == UMkdir { UpdateMkdirInv(cfg, pr, w, c); }
    else if pr.pc == UWrite { UpdateWriteInv(cfg, pr, w, c); }
    else if pr.pc == UPatch { LiveApplyInv(cfg, pr, w, c); }
    else { UpdateCommitInv(cfg, pr, w, c); }
  }

  lemma RecreateChecksKeeps(cfg: Settings, pr: Proc, w: World, c: Choice)
    requires pr.op.Recreate? && (pr.pc == RGet || pr.pc == RCheck || pr.pc == RMark)
    requires Base(cfg, w) && RecreateInv(cfg, w, pr) && Lands(pr, c)
    ensures var (pr', w') := RecreateStep(cfg, pr, w, c);
      Kept(cfg, w, pr', w', pr.op.id) && pr'.op == pr.op && RecreateInv(cfg, w', pr')
  {
    RecreateChecksWorld(cfg, pr, w, c);
    if pr.pc == RGet { RecreateFetchInv(cfg, pr, w, c); }
    else if pr.pc == RCheck { CheckMoveInv(cfg, pr, w, c); }
    else { MarkRecreatingInv(cfg, pr, w, c); }
  }

  lemma RecreateMovesKeeps(cfg: Settings, pr: Proc, w: World, c: Choice)
    requires pr.op.Recreate? && (pr.pc == RRemove || pr.pc == RPort || pr.pc == RMkdir || pr.pc == RWrite)
    requires Base(cfg, w) && RecreateInv(cfg, w, pr) && Lands(pr, c)
    ensures var (pr', w') := RecreateStep(cfg, pr, w, c);
      Kept(cfg, w, pr', w', pr.op.id) && pr'.op == pr.op && RecreateInv(cfg, w', pr')
  {
    if pr.pc == RRemove { RecreateMovesWorld(cfg, pr, w, c); RecreateRemoveInv(cfg, pr, w, c); }
    else if pr.pc == RPort { RecreateMovesWorld(cfg, pr, w, c); RecreatePortInv(cfg, pr, w, c); }
    else if pr.pc == RMkdir { RecreateWritesWorld(cfg, pr, w, c); RecreateMkdirInv(cfg, pr, w, c); }
    else { RecreateWritesWorld(cfg, pr, w, c); RecreateWriteInv(cfg, pr, w, c); }
  }

  lemma RecreateStartsKeeps(cfg: Settings, pr: Proc, w: World, c: Choice)
    requires pr.op.Recreate? && Starting(pr.pc) && Base(cfg, w) && RecreateInv(cfg, w, pr) && Lands(pr, c)
    ensures RecreateStep(cfg, pr, w, c) == StartStep(pr, w, c)
    ensures var (pr', w') := StartStep(pr, w, c);
      Kept(cfg, w, pr', w', pr.op.id) && pr'.op == pr.op && RecreateInv(cfg, w', pr')
  {
    StartKeeps(cfg, pr, w, c);
    RecreateStarts(cfg, pr, w, StartStep(pr, w, c).0, StartStep(pr, w, c).1);
  }

  lemma RecreateKeeps(cfg: Settings, pr: Proc, w: World, c: Choice)
    requires pr.op.Recreate? && pr.pc != Done && Base(cfg, w) && RecreateInv(cfg, w, pr) && Lands(pr, c)
    ensures var (pr', w') := RecreateStep(cfg, pr, w, c);
      Kept(cfg, w, pr', w', pr.op.id) && pr'.op == pr.op && RecreateInv(cfg, w', pr')
  {
    if pr.pc == RGet || pr.pc == RCheck || pr.pc == RMark { RecreateChecksKeeps(cfg, pr, w, c); }
    else if Starting(pr.pc) { RecreateStartsKeeps(cfg, pr, w, c); }
    else { RecreateMovesKeeps(cfg, pr, w, c); }
  }

  lemma ReconcileStartsKeeps(cfg: Settings, pr: Proc, w: World, c: Choice)
    requires pr.op.Reconcile? && Starting(pr.pc) && Base(cfg, w) && ReconcileInv(cfg, w, pr) && Lands(pr, c)
    ensures ReconcileStep(pr, w, c) == StartStep(pr, w, c)
    ensures var (pr', w') := StartStep(pr, w, c);
      Base(cfg, w') && Elsewhere(w, w', pr.p.id) && pr'.op == pr.op && ReconcileInv(cfg, w', pr')
  {
    StartKeeps(cfg, pr, w, c);
    ReconcileStarts(cfg, pr, w, StartStep(pr, w, c).0, StartStep(pr, w, c).1);
  }

  lemma ReconcileListsKeeps(cfg: Settings, pr: Proc, w: World, c: Choice)
    requires pr.op.Reconcile? && (pr.pc == KRows || pr.pc == KCtrs || pr.pc == KPick) && Base(cfg, w)
    requires ReconcileInv(cfg, w, pr)
    ensures var (pr', w') := ReconcileStep(pr, w, c); w' == w && pr'.op == pr.op && ReconcileInv(cfg, w', pr')
  {
    if pr.pc == KRows { ListRowsInv(cfg, pr, w, c); }
    else if pr.pc == KCtrs { ListContainersInv(cfg, pr, w, c); }
    else { PickRowInv(cfg, pr, w, c); }
  }

  lemma ReconcileRepairsKeeps(cfg: Settings, pr: Proc, w: World, c: Choice)
    requires pr.op.Reconcile? && (pr.pc == KRelink || pr.pc == KCleanDir || pr.pc == KCleanRow)
    requires Base(cfg, w) && ReconcileInv(cfg, w, pr) && Lands(pr, c)
    ensures var (pr', w') := ReconcileStep(pr, w, c);
      Base(cfg, w') && Elsewhere(w, w', pr.p.id) && pr'.op == pr.op && ReconcileInv(cfg, w', pr')
  {
    ReconcileWorld(cfg, pr, w, c);
    if pr.pc == KRelink { RelinkInv(cfg, pr, w, c); }
    else if pr.pc == KCleanDir { CleanDirInv(cfg, pr, w, c); }
    else { CleanRowInv(cfg, pr, w, c); }
  }

  lemma ReconcileKeeps(cfg: Settings, pr: Proc, w: World, c: Choice)
    requires pr.op.Reconcile? && pr.pc != Done && Base(cfg, w) && ReconcileInv(cfg, w, pr) && Lands(pr, c)
    ensures var (pr', w') := ReconcileStep(pr, w, c);
      Base(cfg, w') && Elsewhere(w, w', pr.p.id) && pr'.op == pr.op && ReconcileInv(cfg, w', pr')
  {
    if Starting(pr.pc) { ReconcileStartsKeeps(cfg, pr, w, c); }
    else if pr.pc == KRows || pr.pc == KCtrs || pr.pc == KPick { ReconcileListsKeeps(cfg, pr, w, c); }
    else { ReconcileRepairsKeeps(cfg, pr, w, c); }
  }

  lemma RemoveOrphanKeeps(cfg: Settings, pr: Proc, w: World, c: Choice)
    requires pr.op.RemoveOrphan? && Base(cfg, w) && RemoveOrphanInv(cfg, w, pr)
    ensures var (pr', w') := RemoveOrphanStep(pr, w, c);
      Base(cfg, w') && OrphanOnly(w, w') && pr'.op == pr.op && RemoveOrphanInv(cfg, w', pr')
  {
    RemoveOrphanWorld(cfg, pr, w, c);
    OrphanOnlyKeeps(cfg, w, RemoveOrphanStep(pr, w, c).1);
    RemoveOrphanInvKeeps(cfg, pr, w, c);
  }

  // ---- Any operation ----

  lemma AwareCreate(cfg: Settings, w: World, pr: Proc, c: Choice)
    requires pr.op.Create? && CreateInv(cfg, w, pr)
    ensures CreateInv(cfg, w, Aware(pr, c))
  {
  }

  lemma AwareRecreate(cfg: Settings, w: World, pr: Proc, c: Choice)
    requires pr.op.Recreate? && RecreateInv(cfg, w, pr)
    ensures RecreateInv(cfg, w, Aware(pr, c))
  {
  }

  lemma AwareReconcile(cfg: Settings, w: World, pr: Proc, c: Choice)
    requires pr.op.Reconcile? && ReconcileInv(cfg, w, pr)
    ensures ReconcileInv(cfg, w, Aware(pr, c))
  {
    var pr' := Aware(pr, c);
    if pr.pc != KRows && pr.pc != KCtrs && pr.pc != Done {
      forall id | id in pr'.todo ensures Pending(w, pr', id) { assert Pending(w, pr, id); }
    }
  }

  lemma AwareInv(cfg: Settings, w: World, pr: Proc, c: Choice)
    requires ProcInv(cfg, w, pr)
    ensures ProcInv(cfg, w, Aware(pr, c))
  {
    match pr.op
    case Create(_) => AwareCreate(cfg, w, pr, c);
    case Delete(_) =>
    case UpdateLimits(_, _) =>
    case Recreate(_, _, _) => AwareRecreate(cfg, w, pr, c);
    case Reconcile => AwareReconcile(cfg, w, pr, c);
    case RemoveOrphan(_) =>
  }

  // What a step of `op` may touch: one proxy, or for RemoveOrphan an orphan's container.
  ghost predicate Touches(pr: Proc, w: World, w': World) {
    match Subject(pr.op)
    case Some(id) => Elsewhere(w, w', id)
    case None => if pr.op.Reconcile? then Elsewhere(w, w', pr.p.id) else OrphanOnly(w, w')
  }

  // Only UpdateLimits leaves a container unrecorded that it found so; every other operation on
  // one proxy ends with the container recorded.
  ghost predicate LinksOwn(pr: Proc, w: World, pr': Proc, w': World) {
    match Subject(pr.op)
    case None => true
    case Some(id) =>
      (if pr.op.UpdateLimits? then Linked(w.rows, w.ctrs, id) else pr'.pc == Done) ==> Linked(w'.rows, w'.ctrs, id)
  }

  ghost predicate AllKept(cfg: Settings, pr: Proc, w: World, next: (Proc, World)) {
    && Base(cfg, next.1) && ProcInv(cfg, next.1, next.0) && next.0.op == pr.op
    && Touches(pr, w, next.1) && LinksOwn(pr, w, next.0, next.1)
  }

  lemma EveryCreateStep(cfg: Settings, pr: Proc, w: World, c: Choice)
    requires pr.op.Create? && pr.pc != Done && Base(cfg, w) && ProcInv(cfg, w, pr) && Lands(pr, c)
    ensures AllKept(cfg, pr, w, Step(cfg, pr, w, c))
  {
    AwareInv(cfg, w, pr, c);
    CreateKeeps(cfg, Aware(pr, c), w, c);
  }

  lemma EveryDeleteStep(cfg: Settings, pr: Proc, w: World, c: Choice)
    requires pr.op.Delete? && pr.pc != Done && Base(cfg, w) && ProcInv(cfg, w, pr) && Lands(pr, c)
    ensures AllKept(cfg, pr, w, Step(cfg, pr, w, c))
  {
    AwareInv(cfg, w, pr, c);
    DeleteKeeps(cfg, Aware(pr, c), w, c);
  }

  lemma EveryUpdateLimitsStep(cfg: Settings, pr: Proc, w: World, c: Choice)
    requires pr.op.UpdateLimits? && pr.pc != Done && Base(cfg, w) && ProcInv(cfg, w, pr) && Lands(pr, c)
    ensures AllKept(cfg, pr, w, Step(cfg, pr, w, c))
  {
    AwareInv(cfg, w, pr, c);
    UpdateKeeps(cfg, Aware(pr, c), w, c);
  }

  lemma EveryRecreateStep(cfg: Settings, pr: Proc, w: World, c: Choice)
    requires pr.op.Recreate? && pr.pc != Done && Base(cfg, w) && ProcInv(cfg, w, pr) && Lands(pr, c)
    ensures AllKept(cfg, pr, w, Step(cfg, pr, w, c))
  {
    AwareInv(cfg, w, pr, c);
    RecreateKeeps(cfg, Aware(pr, c), w, c);
  }

  lemma EveryReconcileStep(cfg: Settings, pr: Proc, w: World, c: Choice)
    requires pr.op.Reconcile? && pr.pc != Done && Base(cfg, w) && ProcInv(cfg, w, pr) && Lands(pr, c)
    ensures AllKept(cfg, pr, w, Step(cfg, pr, w, c))
  {
    AwareInv(cfg, w, pr, c);
    ReconcileKeeps(cfg, Aware(pr, c), w, c);
  }

  lemma EveryRemoveOrphanStep(cfg: Settings, pr: Proc, w: World, c: Choice)
    requires pr.op.RemoveOrphan? && pr.pc != Done && Base(cfg, w) && ProcInv(cfg, w, pr) && Lands(pr, c)
    ensures AllKept(cfg, pr, w, Step(cfg, pr, w, c))
  {
    AwareInv(cfg, w, pr, c);
    RemoveOrphanKeeps(cfg, Aware(pr, c), w, c);
  }

  lemma StepKeepsAll(cfg: Settings, pr: Proc, w: World, c: Choice)
    requires pr.pc != Done && Base(cfg, w) && ProcInv(cfg, w, pr) && Lands(pr, c)
    ensures AllKept(cfg, pr, w, Step(cfg, pr, w, c))
  {
    match pr.op
    case Create(_) => EveryCreateStep(cfg, pr, w, c);
    case Delete(_) => EveryDeleteStep(cfg, pr, w, c);
    case UpdateLimits(_, _) => EveryUpdateLimitsStep(cfg, pr, w, c);
    case Recreate(_, _, _) => EveryRecreateStep(cfg, pr, w, c);
    case Reconcile => EveryReconcileStep(cfg, pr, w, c);
    case RemoveOrphan(_) => EveryRemoveOrphanStep(cfg, pr, w, c);
  }

  lemma EveryStepKeeps(cfg: Settings, pr: Proc, w: World, c: Choice)
    requires pr.pc != Done && Base(cfg, w) && ProcInv(cfg, w, pr) && Lands(pr, c)
    ensures var (pr', w') := Step(cfg, pr, w, c);
      Base(cfg, w') && ProcInv(cfg, w', pr') && pr'.op == pr.op && Touches(pr, w, w') && LinksOwn(pr, w, pr', w')
  {
    StepKeepsAll(cfg, pr, w, c);
  }
}
