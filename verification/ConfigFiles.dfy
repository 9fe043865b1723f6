/** The config directories follow the rows: over crash-free runs each config.toml is what
    the printer makes of the current row, and there are no others. */
module ConfigFiles {
  import opened Wrappers
  import opened Entities
  import opened Machine
  import opened Invariant
  import opened Steps
  import opened ReconcileSteps
  import opened AllSteps
  import opened System
  import opened RepairLimits

  predicate TouchesFiles(pr: Proc) {
    || pr.pc == CMkdir || pr.pc == CWrite || pr.pc == UMkdir || pr.pc == UWrite || pr.pc == RMkdir || pr.pc == RWrite
    || pr.pc == DDir || pr.pc == KCleanDir || pr.pc == CUndo
  }

  // Commits land, file operations succeed, and the printer accepts the spec.
  predicate FilesGood(cfg: Settings, pr: Proc, c: Choice) {
    && Lands(pr, c) && (TouchesFiles(pr) ==> !c.fail)
    && (pr.pc == CWrite || pr.pc == UWrite || pr.pc == RWrite ==> Rendered(cfg, pr.p).Some?)
  }

  predicate GoodEvent(cfg: Settings, s: Sys, e: Event) {
    e != Crash && (e.Tick? && e.pid in s.procs ==> FilesGood(cfg, s.procs[e.pid], e.choice))
  }

  predicate GoodRun(cfg: Settings, s: Sys, es: seq<Event>) {
    es != [] ==> GoodRun(cfg, s, es[..|es| - 1]) && GoodEvent(cfg, RunAll(cfg, s, es[..|es| - 1]), es[|es| - 1])
  }

  // Directory and row exist together, and the file is the row's rendering.
  predicate Agreed(cfg: Settings, w: World, id: Id) {
    (id in w.dirs <==> id in w.rows) && (id in w.rows ==> ConfigAgrees(cfg, w, id))
  }

  // The directory holds the rendering of `p`.
  predicate FileHolds(cfg: Settings, w: World, p: Proxy) {
    p.id in w.dirs && w.dirs[p.id].Some? && w.dirs[p.id] == Rendered(cfg, p)
  }

  predicate FilesOf(cfg: Settings, w: World, pr: Proc) {
    match pr.op
    case Create(row) =>
      if Asking(pr.pc) || pr.pc == CMkdir then row.id !in w.dirs
      else if pr.pc == CWrite then row.id in w.dirs
      else if pr.pc == CUndo && |pr.undo| < 2 then row.id !in w.dirs
      else FileHolds(cfg, w, row)
    case Delete(id) => if pr.pc == DRow then id !in w.dirs else Agreed(cfg, w, id)
    case UpdateLimits(id, _) =>
      if pr.pc == UPatch || pr.pc == UCommit then FileHolds(cfg, w, pr.p) else Agreed(cfg, w, id)
    case Recreate(id, _, _) =>
      if pr.pc == RMkdir || pr.pc == RWrite then id in w.dirs else Agreed(cfg, w, id)
    case Reconcile => true
    case RemoveOrphan(_) => true
  }

  // The proxy whose files an operation is in the middle of changing.
  predicate Busy(pr: Proc, id: Id) {
    Active(pr, id) || (pr.op.Reconcile? && pr.pc == KCleanRow && pr.p.id == id)
  }

  ghost predicate AnyBusy(s: Sys, id: Id) { exists pid :: pid in s.procs && Busy(s.procs[pid], id) }

  ghost predicate FilesAgree(cfg: Settings, s: Sys) {
    && (forall pid :: pid in s.procs && s.procs[pid].pc != Done ==> FilesOf(cfg, s.world, s.procs[pid]))
    && (forall pid :: pid in s.procs && s.procs[pid].pc == KCleanRow ==> s.procs[pid].p.id !in s.world.dirs)
    && (forall id: Id :: !AnyBusy(s, id) ==> Agreed(cfg, s.world, id))
  }

  ghost predicate FilesInv(cfg: Settings, s: Sys) { Inv(cfg, s) && RowsLinked(s) && FilesAgree(cfg, s) }

  lemma SameSpecRenders(cfg: Settings, p: Proxy, q: Proxy)
    requires SameSpec(p, q)
    ensures Rendered(cfg, p) == Rendered(cfg, q)
  {
    assert SpecOf(cfg, p) == SpecOf(cfg, q);
  }

  // ---- One step, seen from the proxy it works on ----

  // While the operation lasts its own files are as its counter says; then they agree with the row.
  predicate Filed(cfg: Settings, id: Id, next: (Proc, World)) {
    if next.0.pc != Done then FilesOf(cfg, next.1, next.0) else Agreed(cfg, next.1, id)
  }

  lemma CreateFilesAsk(cfg: Settings, w: World, pr: Proc, c: Choice)
    requires pr.op.Create? && Asking(pr.pc) && CreateInv(cfg, w, pr) && FilesOf(cfg, w, pr)
    ensures Filed(cfg, pr.op.row.id, CreateStep(cfg, pr, w, c))
  {
  }

  lemma CreateFilesMkdir(cfg: Settings, w: World, pr: Proc, c: Choice)
    requires pr.op.Create? && pr.pc == CMkdir && pr.p == pr.op.row && !c.fail && FilesOf(cfg, w, pr)
    ensures Filed(cfg, pr.op.row.id, Mkdir(pr, w, c, CWrite))
  {
  }

  lemma CreateFilesWrite(cfg: Settings, w: World, pr: Proc, c: Choice)
    requires pr.op.Create? && pr.pc == CWrite && pr.p == pr.op.row && !c.fail && FilesOf(cfg, w, pr)
    requires Rendered(cfg, pr.p).Some?
    ensures Filed(cfg, pr.op.row.id, WriteFile(cfg, pr, w, c, pr.(pc := CNetwork, undo := pr.undo + [DropDir])))
  {
  }

  lemma CreateFilesEarly(cfg: Settings, w: World, pr: Proc, c: Choice)
    requires pr.op.Create? && (Asking(pr.pc) || pr.pc == CMkdir || pr.pc == CWrite)
    requires CreateInv(cfg, w, pr) && FilesOf(cfg, w, pr) && FilesGood(cfg, pr, c)
    ensures Filed(cfg, pr.op.row.id, CreateStep(cfg, pr, w, c))
  {
    if Asking(pr.pc) { CreateFilesAsk(cfg, w, pr, c); }
    else if pr.pc == CMkdir { CreateFilesMkdir(cfg, w, pr, c); }
    else { CreateFilesWrite(cfg, w, pr, c); }
  }

  lemma CreateFilesLate(cfg: Settings, w: World, pr: Proc, c: Choice)
    requires pr.op.Create?
    requires pr.pc == CNetwork || pr.pc == CPull || pr.pc == CBuild || pr.pc == CStart || pr.pc == CHealth
    requires CreateInv(cfg, w, pr) && FilesOf(cfg, w, pr)
    ensures Filed(cfg, pr.op.row.id, CreateStep(cfg, pr, w, c))
  {
  }

  lemma CreateFilesCommit(cfg: Settings, w: World, pr: Proc, c: Choice)
    requires pr.op.Create? && pr.pc == CCommit && Base(cfg, w) && CreateInv(cfg, w, pr)
    requires FilesOf(cfg, w, pr) && Lands(pr, c)
    ensures Filed(cfg, pr.op.row.id, CommitCreate(pr, w, c))
  {
    SaveKeeps(cfg, w, pr.p, c);
    SameSpecRenders(cfg, pr.p, pr.op.row);
  }

  lemma CreateFilesUndo(cfg: Settings, w: World, pr: Proc, c: Choice)
    requires pr.op.Create? && pr.pc == CUndo && CreateInv(cfg, w, pr) && FilesOf(cfg, w, pr) && FilesGood(cfg, pr, c)
    ensures Filed(cfg, pr.op.row.id, Rollback(pr, w, c))
  {
  }

  lemma CreateFiles(cfg: Settings, w: World, pr: Proc, c: Choice)
    requires pr.op.Create? && pr.pc != Done && Base(cfg, w) && CreateInv(cfg, w, pr) && FilesOf(cfg, w, pr)
    requires FilesGood(cfg, pr, c)
    ensures Filed(cfg, pr.op.row.id, CreateStep(cfg, pr, w, c))
  {
    if pr.pc == CCommit { CreateFilesCommit(cfg, w, pr, c); }
    else if pr.pc == CUndo { CreateFilesUndo(cfg, w, pr, c); }
    else if Asking(pr.pc) || pr.pc == CMkdir || pr.pc == CWrite { CreateFilesEarly(cfg, w, pr, c); }
    else { CreateFilesLate(cfg, w, pr, c); }
  }

  lemma DeleteFiles(cfg: Settings, w: World, pr: Proc, c: Choice)
    requires pr.op.Delete? && pr.pc != Done && DeleteInv(cfg, w, pr) && FilesOf(cfg, w, pr) && FilesGood(cfg, pr, c)
    ensures Filed(cfg, pr.op.id, DeleteStep(pr, w, c))
  {
  }

  lemma UpdateFiles(cfg: Settings, w: World, pr: Proc, c: Choice)
    requires pr.op.UpdateLimits? && pr.pc != Done && pr.pc != UCommit
    requires UpdateInv(cfg, w, pr) && FilesOf(cfg, w, pr) && FilesGood(cfg, pr, c)
    ensures Filed(cfg, pr.op.id, UpdateStep(cfg, pr, w, c))
  {
    if pr.pc == UPatch { SameSpecRenders(cfg, LiveApply(pr, w, c).0.p, pr.p); }
  }

  lemma UpdateFilesCommit(cfg: Settings, w: World, pr: Proc, c: Choice)
    requires pr.op.UpdateLimits? && pr.pc == UCommit && Base(cfg, w) && UpdateInv(cfg, w, pr)
    requires FilesOf(cfg, w, pr) && Lands(pr, c)
    ensures Filed(cfg, pr.op.id, Commit(pr, w, c, Done))
  {
    assert RowOk(cfg, w, pr.op.id);
    SaveKeeps(cfg, w, pr.p, c);
  }

  lemma RecreateFilesCheck(cfg: Settings, w: World, pr: Proc, c: Choice)
    requires pr.op.Recreate? && (pr.pc == RGet || pr.pc == RCheck || pr.pc == RRemove) && pr.undo == []
    requires FilesOf(cfg, w, pr)
    ensures Filed(cfg, pr.op.id, RecreateStep(cfg, pr, w, c))
  {
  }

  lemma RecreateFilesPort(cfg: Settings, w: World, pr: Proc, c: Choice)
    requires pr.op.Recreate? && pr.pc == RPort && pr.undo == [] && pr.p.id == pr.op.id
    requires pr.op.id in w.rows && FilesOf(cfg, w, pr)
    ensures Filed(cfg, pr.op.id, Commit(pr, w, c, RMkdir))
  {
  }

  lemma RecreateFilesWrite(cfg: Settings, w: World, pr: Proc, c: Choice)
    requires pr.op.Recreate? && (pr.pc == RMkdir || pr.pc == RWrite) && FilesGood(cfg, pr, c)
    requires pr.p.id == pr.op.id && Stored(w.rows, pr.p) && FilesOf(cfg, w, pr)
    ensures Filed(cfg, pr.op.id, RecreateStep(cfg, pr, w, c))
  {
  }

  lemma RecreateFilesMark(cfg: Settings, w: World, pr: Proc, c: Choice)
    requires pr.op.Recreate? && pr.pc == RMark && RecreateInv(cfg, w, pr) && FilesOf(cfg, w, pr)
    ensures Filed(cfg, pr.op.id, MarkRecreating(pr, w, c))
  {
    SameSpecRenders(cfg, pr.p, w.rows[pr.op.id]);
  }

  // startContainer saves rows with an unchanged spec and no files.
  lemma StartFiles(cfg: Settings, w: World, pr: Proc, c: Choice)
    requires Starting(pr.pc) && StartInv(cfg, w, pr) && Agreed(cfg, w, pr.p.id)
    ensures Agreed(cfg, StartStep(pr, w, c).1, pr.p.id)
  {
    SameSpecRenders(cfg, pr.p, w.rows[pr.p.id]);
  }

  lemma StartStaysStarting(pr: Proc, w: World, c: Choice)
    requires pr.op.Recreate? && Starting(pr.pc)
    ensures var pr' := StartStep(pr, w, c).0; pr'.op == pr.op && (Starting(pr'.pc) || pr'.pc == Done)
  {
  }

  lemma RecreateFilesStart(cfg: Settings, w: World, pr: Proc, c: Choice)
    requires pr.op.Recreate? && Starting(pr.pc) && RecreateInv(cfg, w, pr) && FilesOf(cfg, w, pr)
    ensures RecreateStep(cfg, pr, w, c) == StartStep(pr, w, c) && Filed(cfg, pr.op.id, StartStep(pr, w, c))
  {
    StartFiles(cfg, w, pr, c);
    StartStaysStarting(pr, w, c);
  }

  lemma RecreateFilesMove(cfg: Settings, w: World, pr: Proc, c: Choice)
    requires pr.op.Recreate? && (pr.pc == RPort || pr.pc == RMkdir || pr.pc == RWrite)
    requires RecreateInv(cfg, w, pr) && FilesOf(cfg, w, pr) && FilesGood(cfg, pr, c)
    ensures Filed(cfg, pr.op.id, RecreateStep(cfg, pr, w, c))
  {
    if pr.pc == RPort { RecreateFilesPort(cfg, w, pr, c); } else { RecreateFilesWrite(cfg, w, pr, c); }
  }

  lemma RecreateFiles(cfg: Settings, w: World, pr: Proc, c: Choice)
    requires pr.op.Recreate? && pr.pc != Done && RecreateInv(cfg, w, pr) && FilesOf(cfg, w, pr) && FilesGood(cfg, pr, c)
    ensures Filed(cfg, pr.op.id, RecreateStep(cfg, pr, w, c))
  {
    if Starting(pr.pc) { RecreateFilesStart(cfg, w, pr, c); }
    else if pr.pc == RMark { RecreateFilesMark(cfg, w, pr, c); }
    else if pr.pc == RPort || pr.pc == RMkdir || pr.pc == RWrite { RecreateFilesMove(cfg, w, pr, c); }
    else { RecreateFilesCheck(cfg, w, pr, c); }
  }

  // A row between the removal of its directory and its own has no directory; any other agrees.
  predicate Tidied(cfg: Settings, id: Id, next: (Proc, World)) {
    if next.0.pc == KCleanRow then next.0.p.id == id && id !in next.1.dirs else Agreed(cfg, next.1, id)
  }

  lemma SweepFiles(cfg: Settings, w: World, pr: Proc, c: Choice)
    requires pr.op.Reconcile? && !c.fail && (pr.pc == KCleanDir || (pr.pc == KCleanRow && pr.p.id !in w.dirs))
    ensures Tidied(cfg, pr.p.id, ReconcileStep(pr, w, c))
  {
  }

  lemma RelinkFiles(cfg: Settings, w: World, pr: Proc, c: Choice)
    requires pr.pc == KRelink && pr.p.id in w.rows && SameSpec(pr.p, w.rows[pr.p.id]) && Agreed(cfg, w, pr.p.id)
    ensures Tidied(cfg, pr.p.id, Relink(pr, w, c))
  {
    SameSpecRenders(cfg, pr.p, w.rows[pr.p.id]);
  }

  lemma ListFiles(cfg: Settings, w: World, pr: Proc, c: Choice)
    requires pr.op.Reconcile? && (pr.pc == KRows || pr.pc == KCtrs || pr.pc == KPick) && Agreed(cfg, w, pr.p.id)
    ensures Tidied(cfg, pr.p.id, ReconcileStep(pr, w, c))
  {
  }

  lemma ReconcileFilesStart(cfg: Settings, w: World, pr: Proc, c: Choice)
    requires pr.op.Reconcile? && Starting(pr.pc) && StartInv(cfg, w, pr) && Agreed(cfg, w, pr.p.id)
    ensures ReconcileStep(pr, w, c) == StartStep(pr, w, c) && Tidied(cfg, pr.p.id, StartStep(pr, w, c))
  {
    StartFiles(cfg, w, pr, c);
    StartNeverCleans(pr, w, c);
  }

  lemma StartNeverCleans(pr: Proc, w: World, c: Choice)
    requires pr.op.Reconcile? && Starting(pr.pc)
    ensures StartStep(pr, w, c).0.pc != KCleanRow
  {
  }

  lemma ReconcileFiles(cfg: Settings, w: World, pr: Proc, c: Choice)
    requires pr.op.Reconcile? && pr.pc != Done && ReconcileInv(cfg, w, pr) && FilesGood(cfg, pr, c)
    requires if pr.pc == KCleanRow then pr.p.id !in w.dirs else Agreed(cfg, w, pr.p.id)
    ensures Tidied(cfg, pr.p.id, ReconcileStep(pr, w, c))
  {
    if Starting(pr.pc) { ReconcileFilesStart(cfg, w, pr, c); }
    else if pr.pc == KRelink { RelinkFiles(cfg, w, pr, c); }
    else if pr.pc == KCleanDir || pr.pc == KCleanRow { SweepFiles(cfg, w, pr, c); }
    else { ListFiles(cfg, w, pr, c); }
  }

  // ---- Seen from every other proxy ----

  lemma AgreedFrame(cfg: Settings, w: World, w': World, i: Id, id: Id)
    requires Agreed(cfg, w, id) && Elsewhere(w, w', i) && id != i
    ensures Agreed(cfg, w', id)
  {
  }

  lemma FilesFrame(cfg: Settings, w: World, w': World, i: Id, pr: Proc)
    requires pr.op.Create? && FilesOf(cfg, w, pr) && Elsewhere(w, w', i) && pr.op.row.id != i
    ensures FilesOf(cfg, w', pr)
  {
  }

  lemma AwareFiles(cfg: Settings, w: World, pr: Proc, c: Choice)
    requires FilesOf(cfg, w, pr)
    ensures FilesOf(cfg, w, Aware(pr, c))
  {
  }

  // An operation on one proxy, whatever it is.
  lemma ActFiles(cfg: Settings, w: World, pr: Proc, c: Choice, id: Id)
    requires pr.pc != Done && Base(cfg, w) && ProcInv(cfg, w, pr) && FilesOf(cfg, w, pr) && FilesGood(cfg, pr, c)
    requires Subject(pr.op) == Some(id)
    ensures Filed(cfg, id, Act(cfg, pr, w, c))
  {
    match pr.op
    case Create(_) => CreateFiles(cfg, w, pr, c);
    case Delete(_) => DeleteFiles(cfg, w, pr, c);
    case UpdateLimits(_, _) =>
      if pr.pc == UCommit { UpdateFilesCommit(cfg, w, pr, c); } else { UpdateFiles(cfg, w, pr, c); }
    case Recreate(_, _, _) => RecreateFiles(cfg, w, pr, c);
  }

  lemma OwnFiles(cfg: Settings, w: World, pr: Proc, c: Choice, id: Id)
    requires pr.pc != Done && Base(cfg, w) && ProcInv(cfg, w, pr) && FilesOf(cfg, w, pr) && FilesGood(cfg, pr, c)
    requires Subject(pr.op) == Some(id)
    ensures Filed(cfg, id, Step(cfg, pr, w, c))
  {
    AwareInv(cfg, w, pr, c);
    AwareFiles(cfg, w, pr, c);
    ActFiles(cfg, w, Aware(pr, c), c, id);
  }

  // Only a Reconcile is ever between removing a directory and removing its row.
  lemma CleaningIsReconcile(cfg: Settings, w: World, pr: Proc)
    requires ProcInv(cfg, w, pr) && pr.pc == KCleanRow
    ensures pr.op.Reconcile?
  {
  }

  // A proxy nobody is busy with after a step of another proxy's operation was nobody's before.
  lemma IdleBefore(s: Sys, s': Sys, pid: nat, id: Id)
    requires pid in s.procs && pid in s'.procs && s'.procs == s.procs[pid := s'.procs[pid]]
    requires !AnyBusy(s', id) && !Busy(s.procs[pid], id)
    ensures !AnyBusy(s, id)
  {
    forall q | q in s.procs ensures !Busy(s.procs[q], id) { if q != pid { assert !Busy(s'.procs[q], id); } }
  }

  lemma NotBusyWith(cfg: Settings, w: World, pr: Proc, i: Id, id: Id)
    requires ProcInv(cfg, w, pr) && Subject(pr.op) == Some(i) && i != id
    ensures !Busy(pr, id)
  {
  }

  lemma TickSubjectFiles(cfg: Settings, s: Sys, s': Sys, pid: nat, c: Choice, id: Id)
    requires FilesInv(cfg, s) && Ticked(cfg, s, s', pid, c) && FilesGood(cfg, s.procs[pid], c)
    requires Subject(s.procs[pid].op).Some? && !AnyBusy(s', id)
    ensures Agreed(cfg, s'.world, id)
  {
    var pr, i := s.procs[pid], Subject(s.procs[pid].op).value;
    if i == id {
      assert !Busy(s'.procs[pid], id);
      OwnFilesAfter(cfg, s, s', pid, c, id);
    } else {
      NotBusyWith(cfg, s.world, pr, i, id);
      IdleBefore(s, s', pid, id);
      EveryStepKeeps(cfg, pr, s.world, c);
      AgreedFrame(cfg, s.world, s'.world, i, id);
    }
  }

  lemma OwnFilesAfter(cfg: Settings, s: Sys, s': Sys, pid: nat, c: Choice, id: Id)
    requires FilesInv(cfg, s) && Ticked(cfg, s, s', pid, c) && FilesGood(cfg, s.procs[pid], c)
    requires Subject(s.procs[pid].op) == Some(id) && !Busy(s'.procs[pid], id)
    ensures Agreed(cfg, s'.world, id)
  {
    EveryStepKeeps(cfg, s.procs[pid], s.world, c);
    OwnFiles(cfg, s.world, s.procs[pid], c, id);
  }

  lemma TickReconcileFiles(cfg: Settings, s: Sys, s': Sys, pid: nat, c: Choice, id: Id)
    requires FilesInv(cfg, s) && Ticked(cfg, s, s', pid, c) && FilesGood(cfg, s.procs[pid], c)
    requires s.procs[pid].op.Reconcile?
    ensures !AnyBusy(s', id) ==> Agreed(cfg, s'.world, id)
    ensures s'.procs[pid].pc == KCleanRow ==> s'.procs[pid].p.id !in s'.world.dirs
  {
    var pr := s.procs[pid];
    EveryStepKeeps(cfg, pr, s.world, c);
    AwareInv(cfg, s.world, pr, c);
    forall q | q in s.procs ensures q == pid {}
    assert forall j: Id :: AnyBusy(s, j) <==> Busy(pr, j);
    assert AnyBusy(s', id) <==> Busy(s'.procs[pid], id);
    if pr.pc != KCleanRow { assert !AnyBusy(s, pr.p.id); }
    ReconcileFiles(cfg, s.world, Aware(pr, c), c);
    if id != pr.p.id {
      assert !AnyBusy(s, id);
      AgreedFrame(cfg, s.world, s'.world, pr.p.id, id);
    }
  }

  lemma TickKeepsFilesOf(cfg: Settings, s: Sys, s': Sys, pid: nat, c: Choice, q: nat)
    requires FilesInv(cfg, s) && Ticked(cfg, s, s', pid, c) && FilesGood(cfg, s.procs[pid], c)
    requires q in s'.procs && s'.procs[q].pc != Done
    ensures FilesOf(cfg, s'.world, s'.procs[q])
    ensures s.procs[q].op == s'.procs[q].op
  {
    EveryStepKeeps(cfg, s.procs[pid], s.world, c);
    if q == pid {
      if Subject(s.procs[pid].op).Some? { OwnFiles(cfg, s.world, s.procs[pid], c, Subject(s.procs[pid].op).value); }
    } else {
      FilesFrame(cfg, s.world, s'.world, s.procs[pid].op.row.id, s.procs[q]);
    }
  }

  lemma TickRemoveOrphanFiles(cfg: Settings, s: Sys, s': Sys, pid: nat, c: Choice, id: Id)
    requires FilesInv(cfg, s) && Ticked(cfg, s, s', pid, c) && s.procs[pid].op.RemoveOrphan? && !AnyBusy(s', id)
    ensures Agreed(cfg, s'.world, id)
  {
    EveryStepKeeps(cfg, s.procs[pid], s.world, c);
    forall q | q in s.procs ensures !Busy(s.procs[q], id) { assert !Busy(s'.procs[q], id); }
    assert !AnyBusy(s, id);
  }

  lemma TickKeepsClean(cfg: Settings, s: Sys, s': Sys, pid: nat, c: Choice, q: nat)
    requires FilesInv(cfg, s) && Ticked(cfg, s, s', pid, c) && FilesGood(cfg, s.procs[pid], c) && Inv(cfg, s')
    requires q in s'.procs && s'.procs[q].pc == KCleanRow
    ensures s'.procs[q].p.id !in s'.world.dirs
  {
    assert ProcInv(cfg, s'.world, s'.procs[q]);
    CleaningIsReconcile(cfg, s'.world, s'.procs[q]);
    TickKeepsFilesOf(cfg, s, s', pid, c, q);
    if q == pid { TickReconcileFiles(cfg, s, s', pid, c, s'.procs[q].p.id); }
  }

  lemma TickKeepsAgreement(cfg: Settings, s: Sys, s': Sys, pid: nat, c: Choice, id: Id)
    requires FilesInv(cfg, s) && Ticked(cfg, s, s', pid, c) && FilesGood(cfg, s.procs[pid], c) && !AnyBusy(s', id)
    ensures Agreed(cfg, s'.world, id)
  {
    if Subject(s.procs[pid].op).Some? { TickSubjectFiles(cfg, s, s', pid, c, id); }
    else if s.procs[pid].op.Reconcile? { TickReconcileFiles(cfg, s, s', pid, c, id); }
    else { TickRemoveOrphanFiles(cfg, s, s', pid, c, id); }
  }

  lemma TickKeepsFiles(cfg: Settings, s: Sys, s': Sys, pid: nat, c: Choice)
    requires FilesInv(cfg, s) && Ticked(cfg, s, s', pid, c) && FilesGood(cfg, s.procs[pid], c)
    ensures FilesInv(cfg, s')
  {
    TickKeepsInv(cfg, s, s', pid, c);
    TickKeepsLinks(cfg, s, s', pid, c);
    forall q | q in s'.procs && s'.procs[q].pc != Done ensures FilesOf(cfg, s'.world, s'.procs[q]) {
      TickKeepsFilesOf(cfg, s, s', pid, c, q);
    }
    forall q | q in s'.procs && s'.procs[q].pc == KCleanRow ensures s'.procs[q].p.id !in s'.world.dirs {
      TickKeepsClean(cfg, s, s', pid, c, q);
    }
    forall id: Id | !AnyBusy(s', id) ensures Agreed(cfg, s'.world, id) { TickKeepsAgreement(cfg, s, s', pid, c, id); }
  }

  lemma IdleBeforeStart(s: Sys, pid: nat, op: Op, id: Id)
    requires pid !in s.procs && !AnyBusy(WithStarted(s, pid, op), id)
    ensures !AnyBusy(s, id)
  {
    forall q | q in s.procs ensures !Busy(s.procs[q], id) { assert !Busy(WithStarted(s, pid, op).procs[q], id); }
  }

  lemma StartedAgreed(cfg: Settings, s: Sys, pid: nat, op: Op, id: Id)
    requires FilesInv(cfg, s) && pid !in s.procs && !AnyBusy(WithStarted(s, pid, op), id)
    ensures Agreed(cfg, s.world, id)
  {
    IdleBeforeStart(s, pid, op, id);
  }

  // Handing out an id leaves rows and files as they are.
  lemma SameFiles(cfg: Settings, w: World, w': World, pr: Proc)
    requires w'.rows == w.rows && w'.dirs == w.dirs
    ensures FilesOf(cfg, w', pr) <==> FilesOf(cfg, w, pr)
    ensures forall id: Id :: Agreed(cfg, w', id) <==> Agreed(cfg, w, id)
  {
  }

  lemma StartedFilesOf(cfg: Settings, s: Sys, pid: nat, op: Op, q: nat)
    requires FilesInv(cfg, s) && pid !in s.procs && Admitted(s, op)
    requires q in WithStarted(s, pid, op).procs && WithStarted(s, pid, op).procs[q].pc != Done
    ensures FilesOf(cfg, WithStarted(s, pid, op).world, WithStarted(s, pid, op).procs[q])
  {
    var s' := WithStarted(s, pid, op);
    BeginFiles(cfg, s, op);
    SameFiles(cfg, s.world, s'.world, s'.procs[q]);
  }

  lemma StartedFilesAgree(cfg: Settings, s: Sys, pid: nat, op: Op)
    requires FilesInv(cfg, s) && pid !in s.procs && Admitted(s, op)
    ensures FilesAgree(cfg, WithStarted(s, pid, op))
  {
    var s' := WithStarted(s, pid, op);
    BeginFiles(cfg, s, op);
    SameFiles(cfg, s.world, s'.world, Begin(op));
    forall id: Id | !AnyBusy(s', id) ensures Agreed(cfg, s'.world, id) { StartedAgreed(cfg, s, pid, op, id); }
    forall q | q in s'.procs && s'.procs[q].pc != Done ensures FilesOf(cfg, s'.world, s'.procs[q]) {
      StartedFilesOf(cfg, s, pid, op, q);
    }
  }

  // Where every row is linked, a start finds it so.
  lemma LinkedStart(cfg: Settings, s: Sys, pid: nat, op: Op)
    requires RowsLinked(s) && Admitted(s, op)
    ensures Orderly(s, Start(pid, op))
  {
    if s.phase == Degraded && (op.Delete? || op.Recreate?) { assert op.id in s.world.rows ==> !Held(s, op.id); }
  }

  lemma StartedFiles(cfg: Settings, s: Sys, pid: nat, op: Op)
    requires FilesInv(cfg, s) && pid !in s.procs && Admitted(s, op)
    ensures FilesInv(cfg, WithStarted(s, pid, op))
  {
    LinkedStart(cfg, s, pid, op);
    StartedInv(cfg, s, pid, op);
    StartedLinks(s, pid, op);
    StartedFilesAgree(cfg, s, pid, op);
  }

  lemma BeginFiles(cfg: Settings, s: Sys, op: Op)
    requires FilesInv(cfg, s) && Admitted(s, op)
    ensures FilesOf(cfg, s.world, Begin(op)) && Begin(op).pc != KCleanRow
  {
    if !op.Create? && Subject(op).Some? { assert !AnyBusy(s, Subject(op).value); }
  }

  lemma FinishedFilesAgree(cfg: Settings, s: Sys, s': Sys, pid: nat)
    requires FilesAgree(cfg, s) && pid in s.procs && s.procs[pid].pc == Done
    requires s' == s.(procs := s.procs - {pid}, phase := s'.phase)
    ensures FilesAgree(cfg, s')
  {
    forall id: Id | !AnyBusy(s', id) ensures Agreed(cfg, s'.world, id) {
      forall q | q in s.procs ensures !Busy(s.procs[q], id) { if q != pid { assert !Busy(s'.procs[q], id); } }
      assert !AnyBusy(s, id);
    }
  }

  lemma FinishedFiles(cfg: Settings, s: Sys, pid: nat)
    requires FilesInv(cfg, s)
    ensures FilesInv(cfg, Apply(cfg, s, Finish(pid)))
  {
    FinishKeepsInv(cfg, s, pid);
    FinishKeepsLinks(cfg, s, pid);
    if pid in s.procs && s.procs[pid].pc == Done { FinishedFilesAgree(cfg, s, Apply(cfg, s, Finish(pid)), pid); }
  }

  lemma SameBusy(s: Sys, s': Sys)
    requires s'.procs == s.procs
    ensures forall id: Id :: AnyBusy(s', id) <==> AnyBusy(s, id)
  {
  }

  lemma VanishedFiles(cfg: Settings, s: Sys, cid: Cid)
    requires FilesInv(cfg, s)
    ensures FilesInv(cfg, Apply(cfg, s, Vanish(cid)))
  {
    var s' := Apply(cfg, s, Vanish(cid));
    VanishKeepsInv(cfg, s, cid);
    SameBusy(s, s');
    forall id: Id | !AnyBusy(s', id)
      ensures Agreed(cfg, s'.world, id)
    {
      SameFiles(cfg, s.world, s'.world, Begin(Reconcile));
    }
    forall q | q in s'.procs && s'.procs[q].pc != Done ensures FilesOf(cfg, s'.world, s'.procs[q]) {
      SameFiles(cfg, s.world, s'.world, s.procs[q]);
    }
  }

  lemma {:induction false} RunKeepsFiles(cfg: Settings, s: Sys, es: seq<Event>)
    requires FilesInv(cfg, s) && GoodRun(cfg, s, es)
    ensures FilesInv(cfg, RunAll(cfg, s, es))
  {
    if es != [] {
      var n := |es| - 1;
      RunKeepsFiles(cfg, s, es[..n]);
      var t, e := RunAll(cfg, s, es[..n]), es[n];
      match e
      case Start(pid, op) => if pid !in t.procs && Admitted(t, op) { StartedFiles(cfg, t, pid, op); }
      case Tick(pid, c) =>
        if pid in t.procs && t.procs[pid].pc != Done {
          TickKeepsFiles(cfg, t, Apply(cfg, t, e), pid, c);
        }
      case Finish(pid) => FinishedFiles(cfg, t, pid);
      case Vanish(cid) => VanishedFiles(cfg, t, cid);
    }
  }

  /** What a proxy is to be told: the row's own secret, port, domain, ad tag, token and limits, and the
      user name, subnet and public host every proxy shares. */
  predicate Shows(cfg: Settings, p: Proxy, s: Spec) {
    && s.username == "user" && s.apiWhitelist == [cfg.subnet] && s.publicHost == cfg.publicHost
    && s.secret == p.secret && s.port == p.port && s.tlsDomain == p.tlsDomain && s.adTag == p.adTag
    && s.apiToken == p.apiToken && s.quota == p.quota && s.expiration == p.expiration
    && s.maxConns == p.maxConns && s.maxIps == p.maxIps
  }

  lemma RenderedShows(cfg: Settings, p: Proxy)
    ensures forall s: Spec :: Shows(cfg, p, s) ==> Rendered(cfg, p) == cfg.render(s)
    ensures Shows(cfg, p, SpecOf(cfg, p))
  {
  }

  /** Over any crash-free run from a state in which rows, files and recorded containers agree:
      whenever no operation is under way, the config directories are exactly the rows' and
      every config.toml is the rendering of what its row says. */
  lemma ConfigFollowsRows(cfg: Settings, s: Sys, es: seq<Event>)
    requires Inv(cfg, s) && s.procs == map[] && GoodRun(cfg, s, es)
    requires AllLinked(s.world)
    requires s.world.dirs.Keys == s.world.rows.Keys
    requires forall id ::
      id in s.world.rows ==> s.world.dirs[id].Some? && s.world.dirs[id] == Rendered(cfg, s.world.rows[id])
    requires forall pid :: pid in RunAll(cfg, s, es).procs ==> RunAll(cfg, s, es).procs[pid].pc == Done
    ensures var w := RunAll(cfg, s, es).world;
      && w.dirs.Keys == w.rows.Keys
      && (forall id :: id in w.rows ==> w.dirs[id].Some?)
      && (forall id, spec: Spec :: id in w.rows && Shows(cfg, w.rows[id], spec) ==> w.dirs[id] == cfg.render(spec))
  {
    RunKeepsFiles(cfg, s, es);
    FilesSettled(cfg, RunAll(cfg, s, es));
    var w := RunAll(cfg, s, es).world;
    forall id, spec: Spec | id in w.rows && Shows(cfg, w.rows[id], spec) ensures w.dirs[id] == cfg.render(spec) {
      RenderedShows(cfg, w.rows[id]);
    }
  }

  lemma FilesSettled(cfg: Settings, s: Sys)
    requires FilesInv(cfg, s) && forall pid :: pid in s.procs ==> s.procs[pid].pc == Done
    ensures s.world.dirs.Keys == s.world.rows.Keys
    ensures forall id ::
      id in s.world.rows ==> s.world.dirs[id].Some? && s.world.dirs[id] == Rendered(cfg, s.world.rows[id])
  {
    forall id: Id ensures Agreed(cfg, s.world, id) { assert !AnyBusy(s, id); }
    forall id ensures id in s.world.dirs <==> id in s.world.rows {
      if id in s.world.dirs || id in s.world.rows { assert Agreed(cfg, s.world, id); }
    }
    forall id | id in s.world.rows ensures ConfigAgrees(cfg, s.world, id) { assert Agreed(cfg, s.world, id); }
  }
}
