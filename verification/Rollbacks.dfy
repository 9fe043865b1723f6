/** Any number of Creates interleaved step by step: what each one's rollback undoes. */
module Rollbacks {
  import opened Wrappers
  import opened Entities
  import opened Machine
  import opened Invariant
  import opened Steps
  import opened ReconcileSteps
  import opened AllSteps
  import opened System

  // Compensations work; runtime calls, the caller's context, live store calls, mkdir and config
  // writes may fail at will.
  predicate Compensating(pr: Proc, c: Choice) { Lands(pr, c) && (pr.pc == CUndo ==> !c.fail) }

  predicate CreateEvent(s: Sys, e: Event) {
    match e
    case Start(_, op) => op.Create?
    case Tick(pid, c) => pid in s.procs ==> Compensating(s.procs[pid], c)
    case _ => false
  }

  predicate CreatesOnly(cfg: Settings, s: Sys, es: seq<Event>) {
    es != [] ==> CreatesOnly(cfg, s, es[..|es| - 1]) && CreateEvent(RunAll(cfg, s, es[..|es| - 1]), es[|es| - 1])
  }

  // ---- What one call has put into the three stores so far ----

  predicate HasRow(pr: Proc) {
    if pr.pc == CUndo then pr.undo != [] else !Asking(pr.pc) && !(pr.pc == Done && pr.err.Some?)
  }

  // The write was refused after the directory had been made.
  predicate WriteRefused(pr: Proc) { pr.err == Some(ConfigInvalid) || pr.err == Some(WriteFailed) }

  // The directory is made before the spec is checked, and compensated only once written.
  predicate HasDir(pr: Proc) {
    if pr.pc == CUndo then |pr.undo| >= 2 || WriteRefused(pr)
    else if pr.pc == Done then pr.err.None? || WriteRefused(pr)
    else !Asking(pr.pc) && pr.pc != CMkdir
  }

  predicate HasFile(pr: Proc) { HasDir(pr) && pr.pc != CWrite && !WriteRefused(pr) }

  predicate HasCtr(pr: Proc) {
    if pr.pc == CUndo then |pr.undo| == 3 else Built(pr.pc) || (pr.pc == Done && pr.err.None?)
  }

  // The call ended before its directory was made: refused by a check or by the table, or mkdir
  // itself failed.
  predicate Early(e: Fault) {
    e == PortRange || e == PortReserved || e == PortBusy || e == DomainRequired || e == StoreFailed || e == PortTaken
    || e == MkdirFailed
  }

  ghost predicate RowExact(w: World, pr: Proc)
    requires pr.op.Create?
  {
    && (pr.op.row.id in w.rows <==> HasRow(pr))
    && (pr.pc == Done && pr.err.None? ==>
          pr.p.id == pr.op.row.id && Stored(w.rows, pr.p) && (pr.p.state == Running || pr.p.state == Error))
  }

  predicate DirExact(cfg: Settings, w: World, pr: Proc)
    requires pr.op.Create?
  {
    var id := pr.op.row.id;
    && (id in w.dirs <==> HasDir(pr))
    && (id in w.dirs ==> w.dirs[id] == if HasFile(pr) then Rendered(cfg, pr.op.row) else None)
    && (HasFile(pr) ==> Rendered(cfg, pr.op.row).Some?)
  }

  ghost predicate CtrExact(w: World, pr: Proc)
    requires pr.op.Create?
  {
    && (HasCtr(pr) ==> pr.p.containerId.Some?)
    && (forall c: Cid :: Mine(w.ctrs, c, pr.op.row.id) <==> HasCtr(pr) && pr.p.containerId == Some(c))
    && (forall c: Cid :: Mine(w.ctrs, c, pr.op.row.id) && pr.pc != CStart && pr.pc != CUndo ==> w.ctrs[c].running)
  }

  // Past the directory, the guard's error is the guard's verdict on the spec.
  predicate FaultExact(cfg: Settings, pr: Proc)
    requires pr.op.Create?
  {
    && (pr.pc != CUndo && pr.pc != Done ==> pr.err.None?)
    && (WriteRefused(pr) ==> pr.pc == Done || (pr.pc == CUndo && |pr.undo| <= 1))
    && (pr.err.Some? && !Early(pr.err.value) ==> (pr.err == Some(ConfigInvalid) <==> Rendered(cfg, pr.op.row).None?))
  }

  ghost predicate Exact(cfg: Settings, w: World, pr: Proc) {
    pr.op.Create? && RowExact(w, pr) && DirExact(cfg, w, pr) && CtrExact(w, pr) && FaultExact(cfg, pr)
  }

  // A call refused before it claims its port has left nothing.
  lemma RefusedExact(cfg: Settings, w: World, pr: Proc, e: Fault)
    requires pr.op.Create? && Asking(pr.pc) && pr.undo == [] && Early(e) && Exact(cfg, w, pr)
    ensures Exact(cfg, w, Fail(pr, e))
  {
  }

  lemma CheckOutcome(cfg: Settings, w: World, pr: Proc, c: Choice)
    ensures var (pr', w') := CheckRequest(cfg, pr, w, c);
      w' == w && (pr' == pr.(pc := CInsert)
        || (pr'.err.Some? && Early(pr'.err.value) && pr' == Fail(pr, pr'.err.value)))
  {
  }

  lemma CheckExact(cfg: Settings, w: World, pr: Proc, c: Choice)
    requires pr.op.Create? && pr.pc == CCheck && pr.undo == [] && Exact(cfg, w, pr)
    ensures Exact(cfg, CheckRequest(cfg, pr, w, c).1, CheckRequest(cfg, pr, w, c).0)
  {
    var pr' := CheckRequest(cfg, pr, w, c).0;
    CheckOutcome(cfg, w, pr, c);
    if pr' == pr.(pc := CInsert) { PassedExact(cfg, w, pr); } else { RefusedExact(cfg, w, pr, pr'.err.value); }
  }

  lemma PassedExact(cfg: Settings, w: World, pr: Proc)
    requires pr.op.Create? && pr.pc == CCheck && Exact(cfg, w, pr)
    ensures Exact(cfg, w, pr.(pc := CInsert))
  {
  }

  lemma ClaimedExact(cfg: Settings, w: World, pr: Proc)
    requires pr.op.Create? && pr.pc == CInsert && Exact(cfg, w, pr)
    ensures Exact(cfg, PutRow(w, pr.op.row), pr.(pc := CMkdir, undo := [DropRow]))
  {
  }

  lemma ClaimExact(cfg: Settings, w: World, pr: Proc, c: Choice)
    requires pr.op.Create? && pr.pc == CInsert && pr.undo == [] && pr.p == pr.op.row && Exact(cfg, w, pr)
    ensures Exact(cfg, ClaimPort(pr, w, c).1, ClaimPort(pr, w, c).0)
  {
    var (pr', w') := ClaimPort(pr, w, c);
    if pr'.pc == Done { RefusedExact(cfg, w, pr, pr'.err.value); } else { ClaimedExact(cfg, w, pr); }
  }

  lemma MkdirExact(cfg: Settings, w: World, pr: Proc, c: Choice)
    requires pr.op.Create? && pr.pc == CMkdir && pr.undo == [DropRow] && pr.p == pr.op.row && Exact(cfg, w, pr)
    ensures Exact(cfg, Mkdir(pr, w, c, CWrite).1, Mkdir(pr, w, c, CWrite).0)
  {
  }

  lemma WriteExact(cfg: Settings, w: World, pr: Proc, c: Choice)
    requires pr.op.Create? && pr.pc == CWrite && pr.undo == [DropRow] && pr.p == pr.op.row && Exact(cfg, w, pr)
    ensures var (pr', w') := WriteFile(cfg, pr, w, c, pr.(pc := CNetwork, undo := pr.undo + [DropDir]));
      Exact(cfg, w', pr')
  {
  }

  lemma ImageExact(cfg: Settings, w: World, pr: Proc, c: Choice, next: Pc)
    requires pr.op.Create? && ((pr.pc == CNetwork && next == CPull) || (pr.pc == CPull && next == CBuild))
    requires pr.undo == [DropRow, DropDir] && Exact(cfg, w, pr)
    ensures Exact(cfg, Prepare(pr, w, c, next).1, Prepare(pr, w, c, next).0)
  {
    if Live(pr, c) {} else {}
  }

  lemma BuildExact(cfg: Settings, w: World, pr: Proc, c: Choice)
    requires pr.op.Create? && pr.pc == CBuild && pr.undo == [DropRow, DropDir] && pr.p == pr.op.row && Exact(cfg, w, pr)
    requires w.nextCid !in w.ctrs
    ensures Exact(cfg, CreateContainer(pr, w, c).1, CreateContainer(pr, w, c).0)
  {
    if Live(pr, c) {
      var w' := AddContainer(w, pr.p.id, pr.p.port);
      assert forall d: Cid :: Mine(w'.ctrs, d, pr.p.id) <==> Mine(w.ctrs, d, pr.p.id) || d == w.nextCid;
    }
  }

  lemma StartExact(cfg: Settings, w: World, pr: Proc, c: Choice)
    requires pr.op.Create? && pr.pc == CStart && |pr.undo| == 3 && Exact(cfg, w, pr)
    ensures Exact(cfg, StartOrUnwind(pr, w, c).1, StartOrUnwind(pr, w, c).0)
  {
    if Responds(pr, w, c) {
      var w' := RunContainer(w, pr.p.containerId.value);
      assert forall d: Cid :: Mine(w'.ctrs, d, pr.op.row.id) <==> Mine(w.ctrs, d, pr.op.row.id);
    }
  }

  lemma HealthExact(cfg: Settings, w: World, pr: Proc, c: Choice)
    requires pr.op.Create? && pr.pc == CHealth && Exact(cfg, w, pr)
    ensures Exact(cfg, AwaitHealth(pr, w, c, CCommit).1, AwaitHealth(pr, w, c, CCommit).0)
  {
  }

  lemma CommitExact(cfg: Settings, w: World, pr: Proc)
    requires pr.op.Create? && pr.pc == CCommit && pr.p.id == pr.op.row.id
    requires pr.p.state == Running || pr.p.state == Error
    requires Exact(cfg, w, pr)
    ensures Exact(cfg, PutRow(w, pr.p), pr.(pc := Done))
  {
  }

  lemma UndoRowExact(cfg: Settings, w: World, pr: Proc, c: Choice)
    requires pr.op.Create? && pr.pc == CUndo && pr.undo == [DropRow] && pr.p.id == pr.op.row.id
    requires Exact(cfg, w, pr) && !c.fail
    ensures Exact(cfg, Rollback(pr, w, c).1, Rollback(pr, w, c).0)
  {
    assert Rollback(pr, w, c) == (pr.(undo := []), EraseRow(w, pr.p.id));
  }

  lemma UndoDirExact(cfg: Settings, w: World, pr: Proc, c: Choice)
    requires pr.op.Create? && pr.pc == CUndo && pr.undo == [DropRow, DropDir] && pr.p.id == pr.op.row.id && !c.fail
    requires Exact(cfg, w, pr)
    ensures Exact(cfg, Rollback(pr, w, c).1, Rollback(pr, w, c).0)
  {
    assert pr.undo[..1] == [DropRow];
    assert Rollback(pr, w, c) == (pr.(undo := [DropRow]), EraseDir(w, pr.p.id));
  }

  lemma UndoContainerExact(cfg: Settings, w: World, pr: Proc, c: Choice, cid: Cid)
    requires pr.op.Create? && pr.pc == CUndo && pr.undo == [DropRow, DropDir, DropContainer(cid)]
    requires pr.p.containerId == Some(cid) && !c.fail && Exact(cfg, w, pr)
    ensures Exact(cfg, Rollback(pr, w, c).1, Rollback(pr, w, c).0)
  {
    assert pr.undo[..2] == [DropRow, DropDir];
    var w' := EraseContainer(w, cid);
    assert Rollback(pr, w, c) == (pr.(undo := [DropRow, DropDir]), w');
    assert forall d: Cid :: Mine(w'.ctrs, d, pr.op.row.id) <==> Mine(w.ctrs, d, pr.op.row.id) && d != cid;
  }

  lemma UndoneExact(cfg: Settings, w: World, pr: Proc, c: Choice)
    requires pr.op.Create? && pr.pc == CUndo && pr.undo == [] && pr.err.Some? && Exact(cfg, w, pr)
    ensures Exact(cfg, Rollback(pr, w, c).1, Rollback(pr, w, c).0)
  {
    assert Rollback(pr, w, c) == (pr.(pc := Done), w);
  }

  lemma UndoExact(cfg: Settings, w: World, pr: Proc, c: Choice)
    requires pr.op.Create? && pr.pc == CUndo && CreateInv(cfg, w, pr) && Exact(cfg, w, pr) && !c.fail
    ensures Exact(cfg, Rollback(pr, w, c).1, Rollback(pr, w, c).0)
  {
    if pr.undo == [] { UndoneExact(cfg, w, pr, c); }
    else if pr.undo == [DropRow] { UndoRowExact(cfg, w, pr, c); }
    else if pr.undo == [DropRow, DropDir] { UndoDirExact(cfg, w, pr, c); }
    else { UndoContainerExact(cfg, w, pr, c, pr.p.containerId.value); }
  }

  lemma LateExact(cfg: Settings, w: World, pr: Proc, c: Choice)
    requires pr.op.Create? && (pr.pc == CStart || pr.pc == CHealth || pr.pc == CCommit)
    requires Base(cfg, w) && CreateInv(cfg, w, pr) && Exact(cfg, w, pr) && Lands(pr, c)
    ensures Exact(cfg, CreateStep(cfg, pr, w, c).1, CreateStep(cfg, pr, w, c).0)
  {
    if pr.pc == CStart { StartExact(cfg, w, pr, c); }
    else if pr.pc == CHealth { HealthExact(cfg, w, pr, c); }
    else { SaveKeeps(cfg, w, pr.p, c); CommitExact(cfg, w, pr); }
  }

  lemma EarlyExact(cfg: Settings, w: World, pr: Proc, c: Choice)
    requires pr.op.Create? && (Asking(pr.pc) || Claimed(pr.pc))
    requires Base(cfg, w) && CreateInv(cfg, w, pr) && Exact(cfg, w, pr)
    ensures Exact(cfg, CreateStep(cfg, pr, w, c).1, CreateStep(cfg, pr, w, c).0)
  {
    if pr.pc == CCheck { CheckExact(cfg, w, pr, c); }
    else if pr.pc == CInsert { ClaimExact(cfg, w, pr, c); }
    else if pr.pc == CMkdir { MkdirExact(cfg, w, pr, c); }
    else if pr.pc == CWrite { WriteExact(cfg, w, pr, c); }
    else if pr.pc == CNetwork { ImageExact(cfg, w, pr, c, CPull); }
    else if pr.pc == CPull { ImageExact(cfg, w, pr, c, CBuild); }
    else { BuildExact(cfg, w, pr, c); }
  }

  lemma StepExact(cfg: Settings, w: World, pr: Proc, c: Choice)
    requires pr.op.Create? && pr.pc != Done && Base(cfg, w) && CreateInv(cfg, w, pr) && Exact(cfg, w, pr)
    requires Compensating(pr, c)
    ensures Exact(cfg, CreateStep(cfg, pr, w, c).1, CreateStep(cfg, pr, w, c).0)
  {
    if Asking(pr.pc) || Claimed(pr.pc) { EarlyExact(cfg, w, pr, c); }
    else if pr.pc == CUndo { UndoExact(cfg, w, pr, c); }
    else { LateExact(cfg, w, pr, c); }
  }

  // ---- Everyone else's proxies ----

  ghost predicate Untouched(w: World, w': World, i: Id) {
    && (i in w'.rows <==> i in w.rows) && (i in w.rows ==> w'.rows[i] == w.rows[i])
    && (i in w'.dirs <==> i in w.dirs) && (i in w.dirs ==> w'.dirs[i] == w.dirs[i])
    && (forall c: Cid :: Mine(w'.ctrs, c, i) <==> Mine(w.ctrs, c, i))
    && (forall c: Cid :: Mine(w.ctrs, c, i) ==> w'.ctrs[c] == w.ctrs[c])
  }

  ghost predicate SameForeign(w: World, w': World) {
    && (forall c :: c in w'.ctrs && !w'.ctrs[c].managed ==> c in w.ctrs && w'.ctrs[c] == w.ctrs[c])
    && (forall c :: c in w.ctrs && !w.ctrs[c].managed ==> c in w'.ctrs && w'.ctrs[c] == w.ctrs[c])
  }

  lemma ElsewhereUntouched(w: World, w': World, id: Id, i: Id)
    requires Elsewhere(w, w', id) && i != id
    ensures Untouched(w, w', i)
  {
  }

  // Some call under way or finished is about proxy `i`.
  ghost predicate Owned(s: Sys, i: Id) { exists pid :: pid in s.procs && Subject(s.procs[pid].op) == Some(i) }

  ghost predicate CallExact(cfg: Settings, w0: World, w: World, pr: Proc) {
    pr.op.Create? && w0.nextId <= pr.op.row.id && Exact(cfg, w, pr)
  }

  ghost predicate CallsExact(cfg: Settings, w0: World, s: Sys) {
    forall pid :: pid in s.procs ==> CallExact(cfg, w0, s.world, s.procs[pid])
  }

  ghost predicate OthersUntouched(w0: World, s: Sys) { forall i: Id :: !Owned(s, i) ==> Untouched(w0, s.world, i) }

  ghost predicate NetInv(cfg: Settings, w0: World, s: Sys) {
    && Inv(cfg, s) && s.world.nextId >= w0.nextId
    && CallsExact(cfg, w0, s) && OthersUntouched(w0, s) && SameForeign(w0, s.world)
  }

  lemma ExactFrame(cfg: Settings, w: World, w': World, pr: Proc)
    requires pr.op.Create? && Exact(cfg, w, pr) && Untouched(w, w', pr.op.row.id)
    ensures Exact(cfg, w', pr)
  {
  }

  lemma AwareExact(cfg: Settings, w: World, pr: Proc, c: Choice)
    requires pr.op.Create? && Exact(cfg, w, pr)
    ensures Exact(cfg, w, Aware(pr, c))
  {
  }

  lemma OwnStepExact(cfg: Settings, w: World, pr: Proc, c: Choice)
    requires pr.op.Create? && pr.pc != Done && Base(cfg, w) && ProcInv(cfg, w, pr) && Exact(cfg, w, pr)
    requires Compensating(pr, c)
    ensures Step(cfg, pr, w, c).0.op == pr.op && Exact(cfg, Step(cfg, pr, w, c).1, Step(cfg, pr, w, c).0)
  {
    EveryStepKeeps(cfg, pr, w, c);
    AwareInv(cfg, w, pr, c);
    AwareExact(cfg, w, pr, c);
    StepExact(cfg, w, Aware(pr, c), c);
  }

  lemma ElsewhereForeign(w: World, w': World, id: Id)
    requires Elsewhere(w, w', id)
    ensures SameForeign(w, w')
  {
  }

  lemma TickUntouches(cfg: Settings, s: Sys, s': Sys, pid: nat, c: Choice, i: Id)
    requires Inv(cfg, s) && Ticked(cfg, s, s', pid, c) && s.procs[pid].op.Create? && s.procs[pid].op.row.id != i
    ensures Untouched(s.world, s'.world, i)
  {
    TickIsStep(cfg, s, s', pid, c);
    ElsewhereUntouched(s.world, s'.world, s.procs[pid].op.row.id, i);
  }

  lemma OthersStayExact(cfg: Settings, w0: World, s: Sys, s': Sys, pid: nat, c: Choice, q: nat)
    requires NetInv(cfg, w0, s) && Ticked(cfg, s, s', pid, c) && q in s.procs && q != pid
    ensures s'.procs[q] == s.procs[q] && Exact(cfg, s'.world, s'.procs[q])
  {
    TickUntouches(cfg, s, s', pid, c, s.procs[q].op.row.id);
    ExactFrame(cfg, s.world, s'.world, s.procs[q]);
  }

  lemma TickKeepsExact(cfg: Settings, w0: World, s: Sys, s': Sys, pid: nat, c: Choice, q: nat)
    requires NetInv(cfg, w0, s) && Ticked(cfg, s, s', pid, c) && Compensating(s.procs[pid], c) && q in s.procs
    ensures s'.procs[q].op == s.procs[q].op && CallExact(cfg, w0, s'.world, s'.procs[q])
  {
    assert CallExact(cfg, w0, s.world, s.procs[q]);
    if q == pid { OwnStepExact(cfg, s.world, s.procs[pid], c); } else { OthersStayExact(cfg, w0, s, s', pid, c, q); }
  }

  lemma TickKeepsUntouched(cfg: Settings, w0: World, s: Sys, s': Sys, pid: nat, c: Choice, i: Id)
    requires NetInv(cfg, w0, s) && Ticked(cfg, s, s', pid, c) && !Owned(s', i)
    requires forall q :: q in s.procs ==> s'.procs[q].op == s.procs[q].op
    ensures Untouched(w0, s'.world, i)
  {
    forall q | q in s.procs ensures Subject(s.procs[q].op) != Some(i) { assert Subject(s'.procs[q].op) != Some(i); }
    assert !Owned(s, i);
    TickUntouches(cfg, s, s', pid, c, i);
    UntouchedTransitive(w0, s.world, s'.world, i);
  }

  lemma TickKeepsCalls(cfg: Settings, w0: World, s: Sys, s': Sys, pid: nat, c: Choice)
    requires NetInv(cfg, w0, s) && Ticked(cfg, s, s', pid, c) && Compensating(s.procs[pid], c)
    ensures CallsExact(cfg, w0, s') && forall q :: q in s.procs ==> s'.procs[q].op == s.procs[q].op
  {
    forall q | q in s.procs ensures s'.procs[q].op == s.procs[q].op && CallExact(cfg, w0, s'.world, s'.procs[q]) {
      TickKeepsExact(cfg, w0, s, s', pid, c, q);
    }
  }

  lemma TickKeepsOthers(cfg: Settings, w0: World, s: Sys, s': Sys, pid: nat, c: Choice)
    requires NetInv(cfg, w0, s) && Ticked(cfg, s, s', pid, c)
    requires forall q :: q in s.procs ==> s'.procs[q].op == s.procs[q].op
    ensures OthersUntouched(w0, s')
  {
    forall i: Id | !Owned(s', i) ensures Untouched(w0, s'.world, i) { TickKeepsUntouched(cfg, w0, s, s', pid, c, i); }
  }

  lemma ForeignTransitive(w0: World, w: World, w': World)
    requires SameForeign(w0, w) && SameForeign(w, w')
    ensures SameForeign(w0, w')
  {
  }

  lemma TickKeepsForeign(cfg: Settings, w0: World, s: Sys, s': Sys, pid: nat, c: Choice)
    requires NetInv(cfg, w0, s) && Ticked(cfg, s, s', pid, c)
    ensures SameForeign(w0, s'.world) && s'.world.nextId == s.world.nextId
  {
    EveryStepKeeps(cfg, s.procs[pid], s.world, c);
    ElsewhereForeign(s.world, s'.world, s.procs[pid].op.row.id);
    ForeignTransitive(w0, s.world, s'.world);
  }

  lemma TickKeepsNet(cfg: Settings, w0: World, s: Sys, s': Sys, pid: nat, c: Choice)
    requires NetInv(cfg, w0, s) && Ticked(cfg, s, s', pid, c) && Compensating(s.procs[pid], c)
    ensures NetInv(cfg, w0, s')
  {
    TickKeepsInv(cfg, s, s', pid, c);
    TickKeepsCalls(cfg, w0, s, s', pid, c);
    TickKeepsOthers(cfg, w0, s, s', pid, c);
    TickKeepsForeign(cfg, w0, s, s', pid, c);
  }

  lemma UntouchedTransitive(w0: World, w: World, w': World, i: Id)
    requires Untouched(w0, w, i) && Untouched(w, w', i)
    ensures Untouched(w0, w', i)
  {
  }

  lemma StartKeepsExact(cfg: Settings, s: Sys, pid: nat, op: Op, q: nat)
    requires op.Create? && pid !in s.procs && q in s.procs && s.procs[q].op.Create? && Exact(cfg, s.world, s.procs[q])
    ensures Exact(cfg, WithStarted(s, pid, op).world, s.procs[q])
  {
    ExactFrame(cfg, s.world, WithStarted(s, pid, op).world, s.procs[q]);
  }

  lemma StartKeepsUntouched(w0: World, s: Sys, pid: nat, op: Op, i: Id)
    requires (!Owned(s, i) ==> Untouched(w0, s.world, i)) && op.Create? && pid !in s.procs
    requires !Owned(WithStarted(s, pid, op), i)
    ensures Untouched(w0, WithStarted(s, pid, op).world, i)
  {
    var s' := WithStarted(s, pid, op);
    forall q | q in s.procs ensures Subject(s.procs[q].op) != Some(i) { assert Subject(s'.procs[q].op) != Some(i); }
    assert !Owned(s, i);
    UntouchedTransitive(w0, s.world, s'.world, i);
  }

  lemma StartIsExact(cfg: Settings, s: Sys, pid: nat, op: Op)
    requires Inv(cfg, s) && op.Create? && Admitted(s, op)
    ensures Exact(cfg, WithStarted(s, pid, op).world, Begin(op))
  {
  }

  lemma StartKeepsCalls(cfg: Settings, w0: World, s: Sys, pid: nat, op: Op)
    requires NetInv(cfg, w0, s) && op.Create? && pid !in s.procs && Admitted(s, op)
    ensures CallsExact(cfg, w0, WithStarted(s, pid, op))
  {
    var s' := WithStarted(s, pid, op);
    StartIsExact(cfg, s, pid, op);
    forall q | q in s.procs ensures CallExact(cfg, w0, s'.world, s.procs[q]) {
      assert CallExact(cfg, w0, s.world, s.procs[q]);
      StartKeepsExact(cfg, s, pid, op, q);
    }
  }

  lemma StartKeepsNet(cfg: Settings, w0: World, s: Sys, pid: nat, op: Op)
    requires NetInv(cfg, w0, s) && op.Create? && pid !in s.procs && Admitted(s, op)
    ensures NetInv(cfg, w0, WithStarted(s, pid, op))
  {
    var s' := WithStarted(s, pid, op);
    StartedInv(cfg, s, pid, op);
    StartKeepsCalls(cfg, w0, s, pid, op);
    forall i: Id | !Owned(s', i) ensures Untouched(w0, s'.world, i) { StartKeepsUntouched(w0, s, pid, op, i); }
  }

  lemma {:induction false} CreatesKeepNet(cfg: Settings, s: Sys, es: seq<Event>)
    requires Inv(cfg, s) && s.procs == map[] && CreatesOnly(cfg, s, es)
    ensures NetInv(cfg, s.world, RunAll(cfg, s, es))
  {
    if es != [] {
      var n := |es| - 1;
      CreatesKeepNet(cfg, s, es[..n]);
      var t, e := RunAll(cfg, s, es[..n]), es[n];
      match e
      case Start(pid, op) => if pid !in t.procs && Admitted(t, op) { StartKeepsNet(cfg, s.world, t, pid, op); }
      case Tick(pid, c) =>
        if pid in t.procs && t.procs[pid].pc != Done { TickKeepsNet(cfg, s.world, t, Apply(cfg, t, e), pid, c); }
    }
  }

  // ---- The statements ----

  // This event is the call's write into the directory it has made, and the guard refuses the spec or
  // the write fails.
  predicate Stumbles(cfg: Settings, s: Sys, e: Event, pid: nat) {
    && e.Tick? && e.pid == pid && pid in s.procs && s.procs[pid].op.Create? && s.procs[pid].pc == CWrite
    && (Rendered(cfg, s.procs[pid].op.row).None? || e.choice.fail)
  }

  // One of the events was.
  predicate Stumbled(cfg: Settings, s: Sys, es: seq<Event>, pid: nat) {
    && es != []
    && (Stumbled(cfg, s, es[..|es| - 1], pid) || Stumbles(cfg, RunAll(cfg, s, es[..|es| - 1]), es[|es| - 1], pid))
  }

  lemma WriteStepRefuses(cfg: Settings, w: World, pr: Proc, c: Choice)
    requires pr.op.Create? && pr.pc == CWrite && pr.p == pr.op.row && pr.err.None?
    ensures WriteRefused(CreateStep(cfg, pr, w, c).0) <==> Rendered(cfg, pr.op.row).None? || c.fail
  {
  }

  lemma EarlyStepRefuses(cfg: Settings, w: World, pr: Proc, c: Choice)
    requires pr.op.Create? && (Asking(pr.pc) || (Claimed(pr.pc) && pr.pc != CWrite)) && pr.err.None?
    ensures !WriteRefused(CreateStep(cfg, pr, w, c).0)
  {
  }

  lemma LateStepRefuses(cfg: Settings, w: World, pr: Proc, c: Choice)
    requires pr.op.Create? && ((Built(pr.pc) && pr.err.None?) || pr.pc == CUndo)
    ensures WriteRefused(CreateStep(cfg, pr, w, c).0) <==> WriteRefused(pr)
  {
  }

  lemma StepRefuses(cfg: Settings, w: World, pr: Proc, c: Choice)
    requires pr.op.Create? && pr.pc != Done && CreateInv(cfg, w, pr)
    ensures WriteRefused(CreateStep(cfg, pr, w, c).0) <==>
      if pr.pc == CWrite then Rendered(cfg, pr.op.row).None? || c.fail else WriteRefused(pr)
  {
    if pr.pc == CWrite { WriteStepRefuses(cfg, w, pr, c); }
    else if Asking(pr.pc) || Claimed(pr.pc) { EarlyStepRefuses(cfg, w, pr, c); }
    else { LateStepRefuses(cfg, w, pr, c); }
  }

  // What the call has met is what its error says.
  ghost predicate ToldSo(cfg: Settings, s: Sys, es: seq<Event>, t: Sys, pid: nat) {
    Stumbled(cfg, s, es, pid) <==> pid in t.procs && WriteRefused(t.procs[pid])
  }

  lemma TickToldSo(cfg: Settings, t: Sys, pid: nat, c: Choice)
    requires Inv(cfg, t) && pid in t.procs && t.procs[pid].op.Create? && t.procs[pid].pc != Done
    ensures var t' := Apply(cfg, t, Tick(pid, c));
      pid in t'.procs
        && (WriteRefused(t'.procs[pid]) <==> WriteRefused(t.procs[pid]) || Stumbles(cfg, t, Tick(pid, c), pid))
  {
    var pr := t.procs[pid];
    assert ProcInv(cfg, t.world, pr);
    AwareInv(cfg, t.world, pr, c);
    StepRefuses(cfg, t.world, Aware(pr, c), c);
  }

  lemma CallIsCreate(cfg: Settings, w0: World, t: Sys, pid: nat)
    requires NetInv(cfg, w0, t) && pid in t.procs
    ensures t.procs[pid].op.Create?
  {
    assert CallExact(cfg, w0, t.world, t.procs[pid]);
  }

  lemma EventToldSo(cfg: Settings, t: Sys, e: Event, pid: nat)
    requires Inv(cfg, t) && CreateEvent(t, e) && (pid in t.procs ==> t.procs[pid].op.Create?)
    ensures var t' := Apply(cfg, t, e);
      (pid in t'.procs && WriteRefused(t'.procs[pid]))
        <==> (pid in t.procs && WriteRefused(t.procs[pid])) || Stumbles(cfg, t, e, pid)
  {
    if e.Tick? && e.pid == pid && pid in t.procs && t.procs[pid].pc != Done { TickToldSo(cfg, t, pid, e.choice); }
  }

  lemma {:induction false} AlwaysToldSo(cfg: Settings, s: Sys, es: seq<Event>, pid: nat)
    requires Inv(cfg, s) && s.procs == map[] && CreatesOnly(cfg, s, es)
    ensures ToldSo(cfg, s, es, RunAll(cfg, s, es), pid)
  {
    if es != [] {
      var n := |es| - 1;
      var t, e := RunAll(cfg, s, es[..n]), es[n];
      AlwaysToldSo(cfg, s, es[..n], pid);
      CreatesKeepNet(cfg, s, es[..n]);
      if pid in t.procs { CallIsCreate(cfg, s.world, t, pid); }
      EventToldSo(cfg, t, e, pid);
    }
  }

  /** A call that failed leaves no row and no container, and a directory exactly when it `stumbled` at
      writing into one it had made; then its error is the guard's if the guard refuses its spec, and
      the write's if not. */
  ghost predicate FailedCall(cfg: Settings, w: World, pr: Proc, stumbled: bool)
    requires pr.op.Create?
  {
    && pr.op.row.id !in w.rows && (forall c: Cid :: !Mine(w.ctrs, c, pr.op.row.id))
    && (pr.op.row.id in w.dirs <==> stumbled)
    && (stumbled ==> pr.err == Some(if Rendered(cfg, pr.op.row).None? then ConfigInvalid else WriteFailed))
  }

  /** A call that succeeded has its row as returned, the rendered config, and one container, running. */
  ghost predicate SucceededCall(cfg: Settings, w: World, pr: Proc)
    requires pr.op.Create?
  {
    var id := pr.op.row.id;
    && id in w.rows && w.rows[id] == pr.p && (pr.p.state == Running || pr.p.state == Error)
    && id in w.dirs && w.dirs[id].Some? && w.dirs[id] == Rendered(cfg, pr.op.row)
    && (exists c: Cid :: && pr.p.containerId == Some(c) && Mine(w.ctrs, c, id) && w.ctrs[c].port == pr.op.row.port
                         && w.ctrs[c].running && (forall d: Cid :: Mine(w.ctrs, d, id) ==> d == c))
  }

  lemma FailureIsExact(cfg: Settings, w: World, pr: Proc)
    requires pr.op.Create? && pr.pc == Done && pr.err.Some? && Exact(cfg, w, pr)
    ensures FailedCall(cfg, w, pr, WriteRefused(pr))
  {
  }

  // The one container of a call that succeeded.
  lemma ItsContainer(cfg: Settings, w: World, pr: Proc)
    requires pr.op.Create? && pr.pc == Done && pr.err.None? && Base(cfg, w) && Exact(cfg, w, pr)
    requires pr.p.port == pr.op.row.port
    ensures exists c: Cid ::
      && pr.p.containerId == Some(c) && Mine(w.ctrs, c, pr.op.row.id) && w.ctrs[c].port == pr.op.row.port
      && w.ctrs[c].running && (forall d: Cid :: Mine(w.ctrs, d, pr.op.row.id) ==> d == c)
  {
    assert RowOk(cfg, w, pr.op.row.id);
    assert Mine(w.ctrs, pr.p.containerId.value, pr.op.row.id);
  }

  lemma SuccessIsExact(cfg: Settings, w: World, pr: Proc)
    requires pr.op.Create? && pr.pc == Done && pr.err.None? && Base(cfg, w) && Exact(cfg, w, pr)
    requires pr.p.port == pr.op.row.port
    ensures SucceededCall(cfg, w, pr)
  {
    ItsContainer(cfg, w, pr);
  }

  // What a finished call has done.
  ghost predicate CallDone(cfg: Settings, w: World, pr: Proc, stumbled: bool)
    requires pr.op.Create?
  {
    if pr.err.Some? then FailedCall(cfg, w, pr, stumbled) else SucceededCall(cfg, w, pr)
  }

  lemma DoneCall(cfg: Settings, w: World, pr: Proc)
    requires pr.op.Create? && pr.pc == Done && Base(cfg, w) && CreateInv(cfg, w, pr) && Exact(cfg, w, pr)
    ensures CallDone(cfg, w, pr, WriteRefused(pr))
  {
    if pr.err.Some? { FailureIsExact(cfg, w, pr); } else { SuccessIsExact(cfg, w, pr); }
  }

  /** For any number of Creates interleaved step by step with failing runtime calls, mkdirs, writes
      and cancellations: each finished call has its exact effect, whatever the others' rollbacks
      did, every proxy that no call is about is as it was, and no port is held twice. */
  lemma InterleavedCreates(cfg: Settings, s: Sys, es: seq<Event>)
    requires Inv(cfg, s) && s.procs == map[] && CreatesOnly(cfg, s, es)
    ensures var t := RunAll(cfg, s, es);
      && (forall pid :: pid in t.procs ==> t.procs[pid].op.Create?)
      && (forall pid :: pid in t.procs && t.procs[pid].pc == Done ==>
            CallDone(cfg, t.world, t.procs[pid], Stumbled(cfg, s, es, pid)))
      && (forall i: Id :: !Owned(t, i) ==> Untouched(s.world, t.world, i))
      && PortsUnique(t.world.rows)
  {
    CreatesKeepNet(cfg, s, es);
    var t := RunAll(cfg, s, es);
    forall pid | pid in t.procs ensures CallExact(cfg, s.world, t.world, t.procs[pid]) {}
    forall pid | pid in t.procs && t.procs[pid].pc == Done
      ensures CallDone(cfg, t.world, t.procs[pid], Stumbled(cfg, s, es, pid))
    {
      assert ProcInv(cfg, t.world, t.procs[pid]);
      DoneCall(cfg, t.world, t.procs[pid]);
      AlwaysToldSo(cfg, s, es, pid);
    }
  }

  predicate AllFailed(s: Sys) {
    forall pid :: pid in s.procs ==> s.procs[pid].pc == Done && s.procs[pid].err.Some?
  }

  // No call has left a directory.
  predicate NoneLeft(s: Sys) { forall pid :: pid in s.procs ==> !WriteRefused(s.procs[pid]) }

  // Proxy `i` has the row and the containers it had.
  ghost predicate RowUntouched(w: World, w': World, i: Id) {
    && (i in w'.rows <==> i in w.rows) && (i in w.rows ==> w'.rows[i] == w.rows[i])
    && (forall c: Cid :: Mine(w'.ctrs, c, i) <==> Mine(w.ctrs, c, i))
    && (forall c: Cid :: Mine(w.ctrs, c, i) ==> w'.ctrs[c] == w.ctrs[c])
  }

  lemma FailedRow(cfg: Settings, w0: World, w: World, pr: Proc)
    requires Issued(w0) && pr.op.Create? && pr.op.row.id >= w0.nextId && Exact(cfg, w, pr)
    requires pr.pc == Done && pr.err.Some?
    ensures RowUntouched(w0, w, pr.op.row.id)
    ensures pr.op.row.id !in w0.dirs && (pr.op.row.id in w.dirs <==> WriteRefused(pr))
  {
  }

  lemma RowsUntouched(cfg: Settings, w0: World, s: Sys, i: Id)
    requires Issued(w0) && NetInv(cfg, w0, s) && AllFailed(s)
    ensures RowUntouched(w0, s.world, i)
    ensures NoneLeft(s) ==> (i in s.world.dirs <==> i in w0.dirs) && (i in w0.dirs ==> s.world.dirs[i] == w0.dirs[i])
  {
    if Owned(s, i) {
      var pid :| pid in s.procs && Subject(s.procs[pid].op) == Some(i);
      assert CallExact(cfg, w0, s.world, s.procs[pid]);
      FailedRow(cfg, w0, s.world, s.procs[pid]);
    } else {
      assert Untouched(w0, s.world, i);
    }
  }

  lemma FailuresCancelOut(cfg: Settings, w0: World, s: Sys)
    requires Issued(w0) && NetInv(cfg, w0, s) && AllFailed(s)
    ensures s.world.rows == w0.rows && s.world.ctrs == w0.ctrs && (NoneLeft(s) ==> s.world.dirs == w0.dirs)
  {
    forall i: Id
      ensures RowUntouched(w0, s.world, i)
      ensures NoneLeft(s) ==> (i in s.world.dirs <==> i in w0.dirs) && (i in w0.dirs ==> s.world.dirs[i] == w0.dirs[i])
    {
      RowsUntouched(cfg, w0, s, i);
    }
    UntouchedEverywhere(w0, s.world);
    if NoneLeft(s) { assert s.world.dirs == w0.dirs; }
  }

  lemma LeftBehind(cfg: Settings, w0: World, s: Sys, pid: nat)
    requires Issued(w0) && NetInv(cfg, w0, s) && AllFailed(s) && pid in s.procs && WriteRefused(s.procs[pid])
    ensures s.world.dirs != w0.dirs
  {
    assert CallExact(cfg, w0, s.world, s.procs[pid]);
    FailedRow(cfg, w0, s.world, s.procs[pid]);
  }

  /** If every call failed, rows and containers are what they were, and so are the directories if and
      only if no call stumbled at its write; none does when the guard accepts every spec asked for
      and no write fails. */
  lemma FailedCreatesLeaveNothing(cfg: Settings, s: Sys, es: seq<Event>)
    requires Inv(cfg, s) && s.procs == map[] && CreatesOnly(cfg, s, es) && AllFailed(RunAll(cfg, s, es))
    ensures var t := RunAll(cfg, s, es);
      && t.world.rows == s.world.rows && t.world.ctrs == s.world.ctrs
      && (t.world.dirs == s.world.dirs <==> forall pid :: pid in t.procs ==> !Stumbled(cfg, s, es, pid))
      && (AllPrintable(cfg, t) && NoWriteFails(cfg, s, es) ==> t.world.dirs == s.world.dirs)
  {
    var t := RunAll(cfg, s, es);
    CreatesKeepNet(cfg, s, es);
    FailuresCancelOut(cfg, s.world, t);
    forall pid | pid in t.procs
      ensures Stumbled(cfg, s, es, pid) <==> WriteRefused(t.procs[pid])
    {
      AlwaysToldSo(cfg, s, es, pid);
    }
    if !NoneLeft(t) {
      var pid :| pid in t.procs && WriteRefused(t.procs[pid]);
      LeftBehind(cfg, s.world, t, pid);
    }
    if AllPrintable(cfg, t) && NoWriteFails(cfg, s, es) {
      forall pid | pid in t.procs ensures !WriteRefused(t.procs[pid]) { NoneStumbled(cfg, s, es, pid); }
    }
  }

  // The guard accepts the spec of every call.
  predicate AllPrintable(cfg: Settings, s: Sys) {
    forall pid :: pid in s.procs && s.procs[pid].op.Create? ==> Rendered(cfg, s.procs[pid].op.row).Some?
  }

  predicate NoWriteFails(cfg: Settings, s: Sys, es: seq<Event>) {
    es != [] ==> NoWriteFails(cfg, s, es[..|es| - 1]) && WriteWorks(RunAll(cfg, s, es[..|es| - 1]), es[|es| - 1])
  }

  predicate WriteWorks(s: Sys, e: Event) {
    e.Tick? && e.pid in s.procs && s.procs[e.pid].pc == CWrite ==> !e.choice.fail
  }

  // A call keeps the request it was started with.
  lemma SameRequest(cfg: Settings, s: Sys, e: Event, pid: nat)
    requires Inv(cfg, s) && CreateEvent(s, e) && pid in s.procs
    ensures pid in Apply(cfg, s, e).procs && Apply(cfg, s, e).procs[pid].op == s.procs[pid].op
  {
    if e.Tick? && e.pid == pid && s.procs[pid].pc != Done {
      assert ProcInv(cfg, s.world, s.procs[pid]);
      EveryStepKeeps(cfg, s.procs[pid], s.world, e.choice);
    }
  }

  lemma {:induction false} NoneStumbled(cfg: Settings, s: Sys, es: seq<Event>, pid: nat)
    requires Inv(cfg, s) && s.procs == map[] && CreatesOnly(cfg, s, es) && NoWriteFails(cfg, s, es)
    requires pid in RunAll(cfg, s, es).procs && RunAll(cfg, s, es).procs[pid].op.Create?
    requires Rendered(cfg, RunAll(cfg, s, es).procs[pid].op.row).Some?
    ensures !Stumbled(cfg, s, es, pid)
  {
    if es != [] {
      var n := |es| - 1;
      var t, e := RunAll(cfg, s, es[..n]), es[n];
      CreatesKeepNet(cfg, s, es[..n]);
      if pid in t.procs {
        SameRequest(cfg, t, e, pid);
        NoneStumbled(cfg, s, es[..n], pid);
      } else {
        AlwaysToldSo(cfg, s, es[..n], pid);
      }
    }
  }

  lemma UntouchedEverywhere(w0: World, w: World)
    requires SameForeign(w0, w) && forall i: Id :: RowUntouched(w0, w, i)
    ensures w.rows == w0.rows && w.ctrs == w0.ctrs
  {
    forall i: Id ensures i in w.rows <==> i in w0.rows { assert RowUntouched(w0, w, i); }
    forall i | i in w0.rows ensures w.rows[i] == w0.rows[i] { assert RowUntouched(w0, w, i); }
    forall c | c in w.ctrs ensures c in w0.ctrs && w.ctrs[c] == w0.ctrs[c] {
      if w.ctrs[c].managed { assert Mine(w.ctrs, c, w.ctrs[c].owner) && RowUntouched(w0, w, w.ctrs[c].owner); }
    }
    forall c | c in w0.ctrs ensures c in w.ctrs {
      if w0.ctrs[c].managed { assert Mine(w0.ctrs, c, w0.ctrs[c].owner) && RowUntouched(w0, w, w0.ctrs[c].owner); }
    }
  }
}
