/** What every Reconcile keeps and reports, and where its repair stops. */
module Convergence {
  import opened Wrappers
  import opened Entities
  import opened Machine
  import opened Invariant
  import opened Steps
  import opened ReconcileSteps
  import opened AllSteps
  import opened System
  import opened Recovery

  // ---- A second pass changes nothing ----

  ghost predicate AllRestored(w: World) { forall id :: id in w.rows ==> Restored(w.rows, w.ctrs, id) }

  ghost predicate Idle(w: World, pr: Proc) {
    && pr.op.Reconcile? && pr.undo == [] && pr.report.restarted == {} && pr.report.cleanedUp == {}
    && (BeforeLoop(pr.pc) || BetweenRows(pr.pc))
    && (pr.pc == KCtrs || pr.pc == KPick ==> pr.snapshot == w.rows && pr.todo <= w.rows.Keys)
    && (pr.pc == KPick ==>
          forall id :: id in w.rows ==> id in pr.index && w.rows[id].containerId == Some(pr.index[id]))
  }

  lemma IdleStep(cfg: Settings, w: World, pr: Proc, c: Choice)
    requires Base(cfg, w) && AllRestored(w) && Idle(w, pr)
    ensures Step(cfg, pr, w, c).1 == w && Idle(w, Step(cfg, pr, w, c).0)
  {
    if pr.pc == KCtrs && IsIndex(w, c.index) {
      forall id | id in w.rows ensures id in c.index && w.rows[id].containerId == Some(c.index[id]) {
        assert RowOk(cfg, w, id) && Restored(w.rows, w.ctrs, id);
      }
    }
  }

  lemma {:induction false} IdlePass(cfg: Settings, w: World, cs: seq<Choice>)
    requires Base(cfg, w) && AllRestored(w)
    ensures var (pr', w') := Run(cfg, Begin(Reconcile), w, cs); w' == w && Idle(w, pr')
  {
    if cs != [] {
      IdlePass(cfg, w, cs[..|cs| - 1]);
      IdleStep(cfg, w, Run(cfg, Begin(Reconcile), w, cs[..|cs| - 1]).0, cs[|cs| - 1]);
    }
  }

  /** After an undisturbed pass in which the runtime refused no rebuild, another pass - even
      a disturbed one - changes nothing and reports nothing restarted or cleaned up. */
  lemma ReconcileConverges(cfg: Settings, w: World, first: seq<Choice>, second: seq<Choice>)
    requires Base(cfg, w) && QuietRun(cfg, Begin(Reconcile), w, first)
    requires Run(cfg, Begin(Reconcile), w, first).0.pc == Done && Run(cfg, Begin(Reconcile), w, first).0.unbuilt == {}
    ensures var w' := Run(cfg, Begin(Reconcile), w, first).1;
      && Run(cfg, Begin(Reconcile), w', second).1 == w'
      && Run(cfg, Begin(Reconcile), w', second).0.report.restarted == {}
      && Run(cfg, Begin(Reconcile), w', second).0.report.cleanedUp == {}
  {
    var (pr, w') := Run(cfg, Begin(Reconcile), w, first);
    PassRestores(cfg, w, first);
    PassRestoresAll(w', pr);
    IdlePass(cfg, w', second);
  }

  lemma PassRestoresAll(w: World, pr: Proc)
    requires Restoring(w, pr) && pr.pc == Done && pr.unbuilt == {}
    ensures AllRestored(w)
  {
    forall id | id in w.rows ensures Restored(w.rows, w.ctrs, id) { assert Ready(w.rows, w.ctrs, pr.unbuilt, id); }
  }

  // ---- No pass removes a container ----

  ghost predicate Keeps(k: Ctrs, k': Ctrs) {
    forall c :: c in k ==>
      c in k' && k'[c].managed == k[c].managed && k'[c].owner == k[c].owner && k'[c].port == k[c].port
  }

  lemma StartKeepsContainers(w: World, pr: Proc, c: Choice)
    requires pr.op.Reconcile? && w.nextCid !in w.ctrs
    ensures Keeps(w.ctrs, StartStep(pr, w, c).1.ctrs) && StartStep(pr, w, c).0.op == pr.op
  {
    if pr.pc == SBuild {} else if pr.pc == SStart {} else {}
  }

  lemma RepairKeepsContainers(w: World, pr: Proc, c: Choice)
    requires pr.op.Reconcile?
    requires BeforeLoop(pr.pc) || pr.pc == KPick || pr.pc == KRelink || pr.pc == KCleanDir || pr.pc == KCleanRow
    ensures ReconcileStep(pr, w, c).1.ctrs == w.ctrs && ReconcileStep(pr, w, c).0.op == pr.op
  {
  }

  lemma ReconcileStepKeepsContainers(cfg: Settings, w: World, pr: Proc, c: Choice)
    requires pr.op.Reconcile? && w.nextCid !in w.ctrs
    ensures Keeps(w.ctrs, Step(cfg, pr, w, c).1.ctrs) && Step(cfg, pr, w, c).0.op == pr.op
  {
    if BeforeLoop(pr.pc) || pr.pc == KPick || pr.pc == KRelink || pr.pc == KCleanDir || pr.pc == KCleanRow {
      RepairKeepsContainers(w, Aware(pr, c), c);
    } else {
      StartKeepsContainers(w, Aware(pr, c), c);
    }
  }

  lemma KeepsOn(k: Ctrs, k': Ctrs, k'': Ctrs)
    requires Keeps(k, k') && Keeps(k', k'')
    ensures Keeps(k, k'')
  {
  }

  ghost predicate KeptSince(cfg: Settings, k: Ctrs, pr: Proc, w: World) {
    Keeps(k, w.ctrs) && pr.op.Reconcile? && Base(cfg, w) && ProcInv(cfg, w, pr)
  }

  lemma StepKeepsSince(cfg: Settings, k: Ctrs, pr: Proc, w: World, c: Choice)
    requires KeptSince(cfg, k, pr, w) && Lands(pr, c)
    ensures KeptSince(cfg, k, Step(cfg, pr, w, c).0, Step(cfg, pr, w, c).1)
  {
    if pr.pc == Done {
      AwareInv(cfg, w, pr, c);
    } else {
      EveryStepKeeps(cfg, pr, w, c);
      ReconcileStepKeepsContainers(cfg, w, pr, c);
      KeepsOn(k, w.ctrs, Step(cfg, pr, w, c).1.ctrs);
    }
  }

  /** Every pass, however disturbed, keeps every container with its labels and port. */
  lemma {:induction false} ReconcileKeepsContainers(cfg: Settings, w: World, cs: seq<Choice>)
    requires Base(cfg, w) && RunLands(cfg, Begin(Reconcile), w, cs)
    ensures Keeps(w.ctrs, Run(cfg, Begin(Reconcile), w, cs).1.ctrs)
    ensures KeptSince(cfg, w.ctrs, Run(cfg, Begin(Reconcile), w, cs).0, Run(cfg, Begin(Reconcile), w, cs).1)
  {
    if cs != [] {
      var n := |cs| - 1;
      RunLandsPrefix(cfg, Begin(Reconcile), w, cs);
      ReconcileKeepsContainers(cfg, w, cs[..n]);
      StepKeepsSince(cfg, w.ctrs, Run(cfg, Begin(Reconcile), w, cs[..n]).0, Run(cfg, Begin(Reconcile), w, cs[..n]).1,
        cs[n]);
    }
  }

  // ---- The report ----

  // The row records a container that carries its label and runs.
  ghost predicate Restarted(w: World, id: Id) { id in w.rows && HoldsRunning(w, w.rows[id]) && w.rows[id].id == id }

  ghost predicate HoldsRunning(w: World, p: Proxy) {
    HasContainer(w, p) && w.ctrs[p.containerId.value].running
  }

  ghost predicate ReportSound(w: World, pr: Proc) {
    && (pr.pc == KRows ==> pr.report == Report({}, {}, {}))
    && (pr.pc == KCtrs ==> pr.report == Report({}, {}, {}))
    && (forall c :: c in pr.report.orphans ==> c in w.ctrs && w.ctrs[c].managed && w.ctrs[c].owner !in w.rows)
    && (forall id :: id in pr.report.restarted ==>
          id !in pr.todo && Restarted(w, id) && !(!BetweenRows(pr.pc) && id == pr.p.id))
    && (forall id :: id in pr.report.cleanedUp ==> id !in w.rows)
    && (pr.pc == SStart || pr.pc == SStartFailed || pr.pc == SHealth || pr.pc == SCommit ==> HasContainer(w, pr.p))
    && (pr.pc == SHealth || pr.pc == SCommit ==> HoldsRunning(w, pr.p))
  }

  // The ids whose abandoned directory the pass has removed; the source drops the error of a
  // removal that fails.
  function Dropped(cfg: Settings, w: World, cs: seq<Choice>): set<Id> {
    if cs == [] then {}
    else
      var pr := Run(cfg, Begin(Reconcile), w, cs[..|cs| - 1]).0;
      Dropped(cfg, w, cs[..|cs| - 1]) + if pr.pc == KCleanDir && !cs[|cs| - 1].fail then {pr.p.id} else {}
  }

  lemma StartKeepsDirs(pr: Proc, w: World, c: Choice)
    ensures StartStep(pr, w, c).1.dirs == w.dirs && StartStep(pr, w, c).0.op == pr.op
  {
  }

  lemma RepairDirs(pr: Proc, w: World, c: Choice)
    requires pr.op.Reconcile? && (pr.pc == KRelink || pr.pc == KCleanDir || pr.pc == KCleanRow)
    ensures ReconcileStep(pr, w, c).1.dirs == w.dirs - if pr.pc == KCleanDir && !c.fail then {pr.p.id} else {}
    ensures ReconcileStep(pr, w, c).0.op == pr.op
  {
  }

  lemma RestKeepsDirs(pr: Proc, w: World, c: Choice)
    requires pr.op.Reconcile? && pr.pc != KRelink && pr.pc != KCleanDir && pr.pc != KCleanRow
    ensures ReconcileStep(pr, w, c).1.dirs == w.dirs && ReconcileStep(pr, w, c).0.op == pr.op
  {
    if pr.pc != KRows && pr.pc != KCtrs && pr.pc != KPick { StartKeepsDirs(pr, w, c); }
  }

  lemma StepDirs(cfg: Settings, pr: Proc, w: World, c: Choice)
    requires pr.op.Reconcile?
    ensures Step(cfg, pr, w, c).1.dirs == w.dirs - if pr.pc == KCleanDir && !c.fail then {pr.p.id} else {}
    ensures Step(cfg, pr, w, c).0.op == pr.op
  {
    if pr.pc == KRelink || pr.pc == KCleanDir || pr.pc == KCleanRow { RepairDirs(Aware(pr, c), w, c); }
    else if pr.pc != Done { RestKeepsDirs(Aware(pr, c), w, c); }
  }

  /** A pass, however disturbed, takes away exactly the directories it removed. */
  lemma {:induction false} PassDirs(cfg: Settings, w: World, cs: seq<Choice>)
    ensures var (pr', w') := Run(cfg, Begin(Reconcile), w, cs);
      pr'.op.Reconcile? && w'.dirs == w.dirs - Dropped(cfg, w, cs)
  {
    if cs != [] {
      var n := |cs| - 1;
      var (pr, v) := Run(cfg, Begin(Reconcile), w, cs[..n]);
      PassDirs(cfg, w, cs[..n]);
      StepDirs(cfg, pr, v, cs[n]);
    }
  }

  lemma RestartedFrame(w: World, w': World, i: Id, id: Id)
    requires Elsewhere(w, w', i) && id != i && Restarted(w, id)
    ensures Restarted(w', id)
  {
  }

  lemma AllRestartedFrame(w: World, w': World, i: Id, ids: set<Id>)
    requires Elsewhere(w, w', i) && i !in ids && forall id :: id in ids ==> Restarted(w, id)
    ensures forall id :: id in ids ==> Restarted(w', id)
  {
    forall id | id in ids ensures Restarted(w', id) { RestartedFrame(w, w', i, id); }
  }

  lemma OrphansFrame(w: World, w': World, i: Id, orphans: set<Cid>)
    requires Elsewhere(w, w', i) && i in w.rows && Keeps(w.ctrs, w'.ctrs)
    requires forall c :: c in orphans ==> c in w.ctrs && w.ctrs[c].managed && w.ctrs[c].owner !in w.rows
    ensures forall c :: c in orphans ==> c in w'.ctrs && w'.ctrs[c].managed && w'.ctrs[c].owner !in w'.rows
  {
  }

  lemma CleanFrame(w: World, w': World, i: Id, ids: set<Id>)
    requires Elsewhere(w, w', i) && i !in ids && forall id :: id in ids ==> id !in w.rows
    ensures forall id :: id in ids ==> id !in w'.rows
  {
  }

  lemma ReportFrame(w: World, w': World, pr: Proc, pr': Proc)
    requires ReportSound(w, pr) && Elsewhere(w, w', pr.p.id) && !BeforeLoop(pr.pc) && !BetweenRows(pr.pc)
    requires Keeps(w.ctrs, w'.ctrs) && pr'.todo == pr.todo && pr.p.id in w.rows
    requires pr'.report.orphans == pr.report.orphans && pr.p.id !in pr.todo && pr'.p.id == pr.p.id
    requires pr'.report.restarted == pr.report.restarted
          || (pr'.report.restarted == pr.report.restarted + {pr.p.id} && Restarted(w', pr.p.id)
            && BetweenRows(pr'.pc))
    requires pr'.report.cleanedUp == pr.report.cleanedUp
          || (pr'.report.cleanedUp == pr.report.cleanedUp + {pr.p.id} && pr.p.id !in w'.rows)
    requires pr'.pc == SStart || pr'.pc == SStartFailed || pr'.pc == SHealth || pr'.pc == SCommit
      ==> HasContainer(w', pr'.p)
    requires pr'.pc == SHealth || pr'.pc == SCommit ==> HoldsRunning(w', pr'.p)
    requires !BeforeLoop(pr'.pc)
    ensures ReportSound(w', pr')
  {
    OrphansFrame(w, w', pr.p.id, pr.report.orphans);
    AllRestartedFrame(w, w', pr.p.id, pr.report.restarted);
    CleanFrame(w, w', pr.p.id, pr.report.cleanedUp);
  }

  lemma RelinkReport(w: World, pr: Proc, c: Choice)
    requires pr.pc == KRelink && pr.p.id !in pr.todo && pr.p.id in w.rows && ReportSound(w, pr)
    requires Elsewhere(w, Relink(pr, w, c).1, pr.p.id)
    ensures ReportSound(Relink(pr, w, c).1, Relink(pr, w, c).0)
  {
    ReportFrame(w, Relink(pr, w, c).1, pr, Relink(pr, w, c).0);
  }

  lemma CleanDirReport(w: World, pr: Proc, c: Choice)
    requires pr.pc == KCleanDir && pr.p.id !in pr.todo && pr.p.id in w.rows && ReportSound(w, pr)
    requires Elsewhere(w, CleanDir(pr, w, c).1, pr.p.id)
    ensures ReportSound(CleanDir(pr, w, c).1, CleanDir(pr, w, c).0)
  {
    ReportFrame(w, CleanDir(pr, w, c).1, pr, CleanDir(pr, w, c).0);
  }

  lemma CleanRowReport(w: World, pr: Proc, c: Choice)
    requires pr.pc == KCleanRow && pr.p.id !in pr.todo && pr.p.id in w.rows && ReportSound(w, pr) && !c.fail
    requires Elsewhere(w, CleanRow(pr, w, c).1, pr.p.id)
    ensures ReportSound(CleanRow(pr, w, c).1, CleanRow(pr, w, c).0)
  {
    ReportFrame(w, CleanRow(pr, w, c).1, pr, CleanRow(pr, w, c).0);
  }

  lemma BuildReport(w: World, pr: Proc, c: Choice)
    requires pr.pc == SBuild && pr.p.id !in pr.todo && pr.p.id in w.rows && w.nextCid !in w.ctrs && ReportSound(w, pr)
    requires Elsewhere(w, BuildContainer(pr, w, c).1, pr.p.id)
    ensures ReportSound(BuildContainer(pr, w, c).1, BuildContainer(pr, w, c).0)
  {
    ReportFrame(w, BuildContainer(pr, w, c).1, pr, BuildContainer(pr, w, c).0);
  }

  lemma LaunchReport(w: World, pr: Proc)
    requires pr.pc == SStart && pr.p.id !in pr.todo && pr.p.id in w.rows && ReportSound(w, pr)
    requires pr.p.containerId.value in w.ctrs && Elsewhere(w, RunContainer(w, pr.p.containerId.value), pr.p.id)
    ensures ReportSound(RunContainer(w, pr.p.containerId.value), pr.(pc := SHealth))
  {
    ReportFrame(w, RunContainer(w, pr.p.containerId.value), pr, pr.(pc := SHealth));
  }

  lemma StartReport(w: World, pr: Proc, c: Choice)
    requires pr.pc == SStart && pr.p.id !in pr.todo && pr.p.id in w.rows && ReportSound(w, pr)
    requires Elsewhere(w, StartContainer(pr, w, c).1, pr.p.id)
    ensures ReportSound(StartContainer(pr, w, c).1, StartContainer(pr, w, c).0)
  {
    if Responds(pr, w, c) { LaunchReport(w, pr); }
  }

  lemma HealthReport(w: World, pr: Proc, c: Choice)
    requires pr.pc == SHealth && ReportSound(w, pr)
    ensures ReportSound(w, AwaitHealth(pr, w, c, SCommit).0)
  {
  }

  lemma RecordReport(w: World, pr: Proc, pr': Proc)
    requires pr.op.Reconcile? && (pr.pc == SBuildFailed || pr.pc == SStartFailed || pr.pc == SCommit)
    requires pr.p.id !in pr.todo && pr.p.id in w.rows && ReportSound(w, pr) && Elsewhere(w, PutRow(w, pr.p), pr.p.id)
    requires pr' == Return(pr, if pr.pc == SCommit then None else Some(RuntimeFailed))
    ensures ReportSound(PutRow(w, pr.p), pr')
  {
    var w' := PutRow(w, pr.p);
    assert pr.pc == SCommit ==> Restarted(w', pr.p.id);
    ReportFrame(w, w', pr, pr');
  }

  lemma PickReport(w: World, pr: Proc, c: Choice)
    requires pr.pc == KPick && ReportSound(w, pr)
    requires c.pick in pr.todo && c.pick in pr.snapshot ==> pr.snapshot[c.pick].id == c.pick
    ensures ReportSound(w, PickRow(pr, c))
  {
    if pr.todo == {} {} else if c.pick !in pr.todo || c.pick !in pr.snapshot {} else {}
  }

  lemma PickedRow(cfg: Settings, w: World, pr: Proc, id: Id)
    requires Base(cfg, w) && LoopInv(cfg, w, pr) && id in pr.todo
    ensures id in pr.snapshot && pr.snapshot[id].id == id
  {
    assert Pending(w, pr, id) && RowOk(cfg, w, id);
  }

  lemma ListRowsReport(w: World, pr: Proc, c: Choice)
    requires pr.pc == KRows && ReportSound(w, pr)
    ensures ReportSound(w, ListRows(pr, w, c, KCtrs).0)
  {
  }

  lemma ListContainersReport(w: World, pr: Proc, c: Choice)
    requires pr.pc == KCtrs && pr.snapshot == w.rows && ReportSound(w, pr)
    ensures ReportSound(w, ListContainers(pr, w, c).0)
  {
  }

  lemma ListReport(cfg: Settings, w: World, pr: Proc, c: Choice)
    requires pr.op.Reconcile? && BeforeLoop(pr.pc) && ReconcileInv(cfg, w, pr) && ReportSound(w, pr)
    ensures ReportSound(ReconcileStep(pr, w, c).1, ReconcileStep(pr, w, c).0)
  {
    if pr.pc == KRows { ListRowsReport(w, pr, c); } else { ListContainersReport(w, pr, c); }
  }

  lemma AwareReport(w: World, pr: Proc, c: Choice)
    requires ReportSound(w, pr)
    ensures ReportSound(w, Aware(pr, c))
  {
  }

  lemma StartingReport(cfg: Settings, w: World, pr: Proc, c: Choice)
    requires pr.op.Reconcile? && Starting(pr.pc) && Base(cfg, w) && StartInv(cfg, w, pr) && pr.p.id !in pr.todo
    requires ReportSound(w, pr) && Lands(pr, c)
    ensures ReportSound(StartStep(pr, w, c).1, StartStep(pr, w, c).0)
  {
    if pr.pc == SBuild { StartBuildsWorld(cfg, pr, w, c); BuildReport(w, pr, c); }
    else if pr.pc == SStart { StartBuildsWorld(cfg, pr, w, c); StartReport(w, pr, c); }
    else if pr.pc == SHealth { HealthReport(w, pr, c); }
    else { StartRecordsWorld(cfg, pr, w, c); RecordReport(w, pr, StartStep(pr, w, c).0); }
  }

  lemma RepairReport(cfg: Settings, w: World, pr: Proc, c: Choice)
    requires pr.op.Reconcile? && (pr.pc == KRelink || pr.pc == KCleanDir || pr.pc == KCleanRow)
    requires Base(cfg, w) && ReconcileInv(cfg, w, pr) && ReportSound(w, pr) && Lands(pr, c)
    ensures ReportSound(ReconcileStep(pr, w, c).1, ReconcileStep(pr, w, c).0)
  {
    ReconcileWorld(cfg, pr, w, c);
    if pr.pc == KRelink { RelinkReport(w, pr, c); }
    else if pr.pc == KCleanDir { CleanDirReport(w, pr, c); }
    else { CleanRowReport(w, pr, c); }
  }

  lemma StepReport(cfg: Settings, w: World, pr: Proc, c: Choice)
    requires pr.op.Reconcile? && pr.pc != Done && Base(cfg, w) && ReconcileInv(cfg, w, pr)
    requires ReportSound(w, pr) && Lands(pr, c)
    ensures ReportSound(ReconcileStep(pr, w, c).1, ReconcileStep(pr, w, c).0)
  {
    if BeforeLoop(pr.pc) { ListReport(cfg, w, pr, c); }
    else if pr.pc == KPick {
      if c.pick in pr.todo { PickedRow(cfg, w, pr, c.pick); }
      PickReport(w, pr, c);
    }
    else if Starting(pr.pc) { StartingReport(cfg, w, pr, c); }
    else { RepairReport(cfg, w, pr, c); }
  }

  ghost predicate Reporting(cfg: Settings, pr: Proc, w: World) {
    pr.op.Reconcile? && Base(cfg, w) && ProcInv(cfg, w, pr) && ReportSound(w, pr)
  }

  lemma StepKeepsReport(cfg: Settings, pr: Proc, w: World, c: Choice)
    requires Reporting(cfg, pr, w) && Lands(pr, c)
    ensures Reporting(cfg, Step(cfg, pr, w, c).0, Step(cfg, pr, w, c).1)
  {
    AwareInv(cfg, w, pr, c);
    AwareReport(w, pr, c);
    if pr.pc != Done {
      EveryStepKeeps(cfg, pr, w, c);
      StepReport(cfg, w, Aware(pr, c), c);
    }
  }

  lemma {:induction false} PassReport(cfg: Settings, w: World, cs: seq<Choice>)
    requires Base(cfg, w) && RunLands(cfg, Begin(Reconcile), w, cs)
    ensures Reporting(cfg, Run(cfg, Begin(Reconcile), w, cs).0, Run(cfg, Begin(Reconcile), w, cs).1)
  {
    if cs != [] {
      var n := |cs| - 1;
      RunLandsPrefix(cfg, Begin(Reconcile), w, cs);
      PassReport(cfg, w, cs[..n]);
      StepKeepsReport(cfg, Run(cfg, Begin(Reconcile), w, cs[..n]).0, Run(cfg, Begin(Reconcile), w, cs[..n]).1, cs[n]);
    }
  }

  /** When a pass ends, each restarted id has its container, running; each cleaned-up id has no row, and
      its directory only if it had one that the pass failed to remove; each orphan has no row;
      and the lists do not overlap. */
  lemma ReportIsTrue(cfg: Settings, w: World, cs: seq<Choice>)
    requires Base(cfg, w) && RunLands(cfg, Begin(Reconcile), w, cs)
    ensures var (pr', w') := Run(cfg, Begin(Reconcile), w, cs); var rep := pr'.report;
      && (forall id :: id in rep.restarted && pr'.pc == Done ==>
            id in w'.rows
            && exists c: Cid :: Mine(w'.ctrs, c, id) && w'.rows[id].containerId == Some(c) && w'.ctrs[c].running)
      && (forall id :: id in rep.cleanedUp ==>
            id !in w'.rows && (id in w'.dirs <==> id in w.dirs && id !in Dropped(cfg, w, cs)))
      && (forall c :: c in rep.orphans ==> c in w'.ctrs && w'.ctrs[c].managed && w'.ctrs[c].owner !in w'.rows)
      && rep.restarted !! rep.cleanedUp
  {
    PassReport(cfg, w, cs);
    PassDirs(cfg, w, cs);
    var (pr', w') := Run(cfg, Begin(Reconcile), w, cs);
    forall id | id in pr'.report.restarted
      ensures id in w'.rows
      ensures exists c: Cid :: Mine(w'.ctrs, c, id) && w'.rows[id].containerId == Some(c) && w'.ctrs[c].running
    {
      assert Restarted(w', id) && Mine(w'.ctrs, w'.rows[id].containerId.value, id);
    }
  }
}
