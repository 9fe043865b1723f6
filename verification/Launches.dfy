/** A container an operation has started runs for as long as it is there. */
module Launches {
  import opened Wrappers
  import opened Entities
  import opened Machine
  import opened Invariant
  import opened Steps
  import opened AllSteps
  import opened System

  // Past the start of its container, or returned without an error from there.
  predicate HasLaunched(pr: Proc) {
    || pr.pc == CHealth || pr.pc == CCommit || pr.pc == SHealth || pr.pc == SCommit
    || (pr.pc == Done && pr.err.None? && (pr.op.Create? || pr.op.Recreate?))
  }

  // The container the operation holds runs, unless it has been removed.
  ghost predicate Lit(w: World, p: Proxy) {
    && p.containerId.Some? && p.containerId.value < w.nextCid
    && (p.containerId.value in w.ctrs ==>
          Mine(w.ctrs, p.containerId.value, p.id) && w.ctrs[p.containerId.value].running)
  }

  ghost predicate LitOnceLaunched(w: World, pr: Proc) { HasLaunched(pr) ==> Lit(w, pr.p) }

  ghost predicate AllLit(s: Sys) { forall pid :: pid in s.procs ==> LitOnceLaunched(s.world, s.procs[pid]) }

  // ---- An operation's own steps ----

  lemma CreateLaunches(cfg: Settings, w: World, pr: Proc, c: Choice)
    requires pr.op.Create? && pr.pc == CStart && CreateInv(cfg, w, pr)
    ensures LitOnceLaunched(StartOrUnwind(pr, w, c).1, StartOrUnwind(pr, w, c).0)
  {
  }

  lemma CreateUnlaunched(cfg: Settings, w: World, pr: Proc, c: Choice)
    requires pr.op.Create? && Claimed(pr.pc) && pr.undo != []
    ensures !HasLaunched(CreateStep(cfg, pr, w, c).0)
  {
  }

  lemma AskUnlaunched(cfg: Settings, w: World, pr: Proc, c: Choice)
    requires pr.op.Create? && Asking(pr.pc) && pr.undo == []
    ensures !HasLaunched(CreateStep(cfg, pr, w, c).0)
  {
  }

  lemma UndoUnlaunched(cfg: Settings, w: World, pr: Proc, c: Choice)
    requires pr.op.Create? && pr.pc == CUndo && pr.err.Some?
    ensures !HasLaunched(CreateStep(cfg, pr, w, c).0)
  {
  }

  lemma CreateStaysLit(cfg: Settings, w: World, pr: Proc, c: Choice)
    requires pr.op.Create? && (pr.pc == CHealth || pr.pc == CCommit) && Lit(w, pr.p)
    ensures LitOnceLaunched(CreateStep(cfg, pr, w, c).1, CreateStep(cfg, pr, w, c).0)
  {
  }

  lemma CreateLit(cfg: Settings, w: World, pr: Proc, c: Choice)
    requires pr.op.Create? && pr.pc != Done && CreateInv(cfg, w, pr) && LitOnceLaunched(w, pr)
    ensures LitOnceLaunched(CreateStep(cfg, pr, w, c).1, CreateStep(cfg, pr, w, c).0)
  {
    if pr.pc == CStart { CreateLaunches(cfg, w, pr, c); }
    else if pr.pc == CHealth || pr.pc == CCommit { CreateStaysLit(cfg, w, pr, c); }
    else if pr.pc == CUndo { UndoUnlaunched(cfg, w, pr, c); }
    else if Asking(pr.pc) { AskUnlaunched(cfg, w, pr, c); }
    else { CreateUnlaunched(cfg, w, pr, c); }
  }

  lemma StartLaunches(w: World, pr: Proc, c: Choice)
    requires pr.pc == SStart && Holding(w, pr.p)
    ensures LitOnceLaunched(StartContainer(pr, w, c).1, StartContainer(pr, w, c).0)
  {
  }

  lemma StartStaysLit(w: World, pr: Proc, c: Choice)
    requires pr.pc == SHealth || pr.pc == SCommit
    requires Lit(w, pr.p)
    ensures LitOnceLaunched(StartStep(pr, w, c).1, StartStep(pr, w, c).0)
  {
  }

  lemma StartUnlaunched(w: World, pr: Proc, c: Choice)
    requires pr.pc == SBuild || pr.pc == SBuildFailed || pr.pc == SStartFailed
    ensures !HasLaunched(StartStep(pr, w, c).0)
  {
  }

  lemma StartLit(cfg: Settings, w: World, pr: Proc, c: Choice)
    requires Starting(pr.pc) && StartInv(cfg, w, pr) && LitOnceLaunched(w, pr)
    ensures LitOnceLaunched(StartStep(pr, w, c).1, StartStep(pr, w, c).0)
  {
    if pr.pc == SStart { StartLaunches(w, pr, c); }
    else if pr.pc == SHealth || pr.pc == SCommit { StartStaysLit(w, pr, c); }
    else { StartUnlaunched(w, pr, c); }
  }

  lemma MoveUnlaunched(cfg: Settings, w: World, pr: Proc, c: Choice)
    requires pr.op.Recreate? && (pr.pc == RGet || pr.pc == RCheck || pr.pc == RMark || pr.pc == RRemove)
    requires pr.undo == []
    ensures !HasLaunched(RecreateStep(cfg, pr, w, c).0)
  {
  }

  lemma WriteUnlaunched(cfg: Settings, w: World, pr: Proc, c: Choice)
    requires pr.op.Recreate? && (pr.pc == RPort || pr.pc == RMkdir || pr.pc == RWrite) && pr.undo == []
    ensures !HasLaunched(RecreateStep(cfg, pr, w, c).0)
  {
  }

  lemma RecreateLit(cfg: Settings, w: World, pr: Proc, c: Choice)
    requires pr.op.Recreate? && pr.pc != Done && RecreateInv(cfg, w, pr) && LitOnceLaunched(w, pr)
    ensures LitOnceLaunched(RecreateStep(cfg, pr, w, c).1, RecreateStep(cfg, pr, w, c).0)
  {
    if Starting(pr.pc) { StartLit(cfg, w, pr, c); }
    else if pr.pc == RPort || pr.pc == RMkdir || pr.pc == RWrite { WriteUnlaunched(cfg, w, pr, c); }
    else { MoveUnlaunched(cfg, w, pr, c); }
  }

  lemma LoopUnlaunched(w: World, pr: Proc, c: Choice)
    requires pr.op.Reconcile? && (pr.pc == KRows || pr.pc == KCtrs || pr.pc == KPick || pr.pc == KRelink)
    ensures !HasLaunched(ReconcileStep(pr, w, c).0)
  {
  }

  lemma CleanUnlaunched(w: World, pr: Proc, c: Choice)
    requires pr.op.Reconcile? && (pr.pc == KCleanDir || pr.pc == KCleanRow)
    ensures !HasLaunched(ReconcileStep(pr, w, c).0)
  {
  }

  lemma ReconcileLit(cfg: Settings, w: World, pr: Proc, c: Choice)
    requires pr.op.Reconcile? && pr.pc != Done && ReconcileInv(cfg, w, pr) && LitOnceLaunched(w, pr)
    ensures LitOnceLaunched(ReconcileStep(pr, w, c).1, ReconcileStep(pr, w, c).0)
  {
    if Starting(pr.pc) { StartLit(cfg, w, pr, c); }
    else if pr.pc == KCleanDir || pr.pc == KCleanRow { CleanUnlaunched(w, pr, c); }
    else { LoopUnlaunched(w, pr, c); }
  }

  // The other three launch nothing.
  lemma DeleteUnlaunched(cfg: Settings, w: World, pr: Proc, c: Choice)
    requires pr.op.Delete? && DeleteInv(cfg, w, pr)
    ensures !HasLaunched(DeleteStep(pr, w, c).0)
  {
  }

  lemma UpdateUnlaunched(cfg: Settings, w: World, pr: Proc, c: Choice)
    requires pr.op.UpdateLimits? && pr.undo == []
    requires pr.pc == UGet || pr.pc == UMkdir || pr.pc == UWrite || pr.pc == UPatch || pr.pc == UCommit
    ensures !HasLaunched(UpdateStep(cfg, pr, w, c).0)
  {
  }

  lemma OrphanUnlaunched(cfg: Settings, w: World, pr: Proc, c: Choice)
    requires pr.op.RemoveOrphan? && RemoveOrphanInv(cfg, w, pr)
    ensures !HasLaunched(RemoveOrphanStep(pr, w, c).0)
  {
  }

  lemma ActStaysLit(cfg: Settings, w: World, pr: Proc, c: Choice)
    requires pr.pc != Done && ProcInv(cfg, w, pr) && LitOnceLaunched(w, pr)
    ensures LitOnceLaunched(Act(cfg, pr, w, c).1, Act(cfg, pr, w, c).0)
  {
    if pr.op.Create? { CreateLit(cfg, w, pr, c); }
    else if pr.op.Recreate? { RecreateLit(cfg, w, pr, c); }
    else if pr.op.Reconcile? { ReconcileLit(cfg, w, pr, c); }
    else if pr.op.Delete? { DeleteUnlaunched(cfg, w, pr, c); }
    else if pr.op.UpdateLimits? { UpdateUnlaunched(cfg, w, pr, c); }
    else { OrphanUnlaunched(cfg, w, pr, c); }
  }

  lemma StepStaysLit(cfg: Settings, w: World, pr: Proc, c: Choice)
    requires ProcInv(cfg, w, pr) && LitOnceLaunched(w, pr)
    ensures LitOnceLaunched(Step(cfg, pr, w, c).1, Step(cfg, pr, w, c).0)
  {
    AwareInv(cfg, w, pr, c);
    if pr.pc != Done { ActStaysLit(cfg, w, Aware(pr, c), c); }
  }

  // ---- Everyone else's ----

  lemma LitFrame(w: World, w': World, i: Id, p: Proxy)
    requires Elsewhere(w, w', i) && i != p.id && Lit(w, p)
    ensures Lit(w', p)
  {
  }

  lemma TickKeepsOtherLit(cfg: Settings, s: Sys, s': Sys, pid: nat, c: Choice, q: nat)
    requires Inv(cfg, s) && Ticked(cfg, s, s', pid, c) && q in s.procs && q != pid
    requires LitOnceLaunched(s.world, s.procs[q])
    ensures LitOnceLaunched(s'.world, s'.procs[q])
  {
    TickIsStep(cfg, s, s', pid, c);
    assert ProcInv(cfg, s.world, s.procs[q]);
    if HasLaunched(s.procs[q]) { LitFrame(s.world, s'.world, s.procs[pid].op.row.id, s.procs[q].p); }
  }

  lemma TickKeepsLit(cfg: Settings, s: Sys, s': Sys, pid: nat, c: Choice)
    requires Inv(cfg, s) && AllLit(s) && Ticked(cfg, s, s', pid, c)
    ensures AllLit(s')
  {
    assert ProcInv(cfg, s.world, s.procs[pid]);
    forall q | q in s'.procs ensures LitOnceLaunched(s'.world, s'.procs[q]) {
      if q == pid { StepStaysLit(cfg, s.world, s.procs[pid], c); } else { TickKeepsOtherLit(cfg, s, s', pid, c, q); }
    }
  }

  lemma ApplyKeepsLit(cfg: Settings, s: Sys, e: Event)
    requires Inv(cfg, s) && AllLit(s) && Orderly(s, e)
    ensures AllLit(Apply(cfg, s, e))
  {
    match e
    case Tick(pid, c) =>
      if pid in s.procs && s.procs[pid].pc != Done { TickKeepsLit(cfg, s, Apply(cfg, s, e), pid, c); }
    case Start(_, _) =>
    case Finish(_) =>
    case Vanish(_) =>
    case Crash =>
  }

  /** In every state of every run: a Create past the start of its container or returned without an
      error, a Recreate likewise, and a Reconcile past the start of one, holds a container that runs,
      unless somebody has removed it since. */
  lemma {:induction false} LaunchedRuns(cfg: Settings, s: Sys, es: seq<Event>)
    requires Inv(cfg, s) && AllLit(s) && OrderlyRun(cfg, s, es)
    ensures AllLit(RunAll(cfg, s, es))
  {
    if es != [] {
      var n := |es| - 1;
      LaunchedRuns(cfg, s, es[..n]);
      RunKeepsInv(cfg, s, es[..n]);
      ApplyKeepsLit(cfg, RunAll(cfg, s, es[..n]), es[n]);
    }
  }
}
