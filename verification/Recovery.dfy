/** Reconcile after a crash: what one undisturbed pass restores, and that a second changes nothing. */
module Recovery {
  import opened Wrappers
  import opened Entities
  import opened Machine
  import opened Invariant
  import opened Steps
  import opened ReconcileSteps
  import opened AllSteps
  import opened System

  // An undisturbed step: the context is live, listings answer and store writes land.
  predicate Quiet(pr: Proc, c: Choice) {
    && !c.cancel && Lands(pr, c)
    && (pr.pc == KRows || pr.pc == KCtrs || pr.pc == KRelink ==> !c.fail)
  }

  predicate QuietRun(cfg: Settings, pr: Proc, w: World, cs: seq<Choice>) {
    cs != [] ==>
      QuietRun(cfg, pr, w, cs[..|cs| - 1]) && Quiet(Run(cfg, pr, w, cs[..|cs| - 1]).0, cs[|cs| - 1])
  }

  // The row records a container that exists and carries its label; RowOk makes it the
  // only one and its port the row's.
  ghost predicate Restored(rows: Rows, k: Ctrs, id: Id) {
    id in rows && rows[id].containerId.Some? && Mine(k, rows[id].containerId.value, id)
  }

  ghost predicate Ready(rows: Rows, k: Ctrs, unbuilt: set<Id>, id: Id) {
    id in rows ==> if id in unbuilt then Bare(k, id) && rows[id].state == Error else Restored(rows, k, id)
  }

  predicate BetweenRows(pc: Pc) { pc == KPick || pc == Done }

  predicate BeforeLoop(pc: Pc) { pc == KRows || pc == KCtrs }

  ghost predicate HasContainer(w: World, p: Proxy) {
    p.containerId.Some? && Mine(w.ctrs, p.containerId.value, p.id)
  }

  // The rows done with are ready; those still to do have kept the container they were listed with.
  ghost predicate RestoringLoop(w: World, pr: Proc) {
    && (forall id :: id in pr.todo ==> id !in pr.unbuilt && (id in pr.index ==> Mine(w.ctrs, pr.index[id], id)))
    && (forall id ::
      id !in pr.todo && !(!BetweenRows(pr.pc) && id == pr.p.id) ==> Ready(w.rows, w.ctrs, pr.unbuilt, id))
  }

  // What holds throughout an undisturbed pass, on top of ReconcileInv.
  ghost predicate Restoring(w: World, pr: Proc) {
    && !pr.cancelled && pr.clean
    && (BeforeLoop(pr.pc) ==> pr.unbuilt == {})
    && (!BeforeLoop(pr.pc) ==> RestoringLoop(w, pr))
    && (pr.pc == Done ==> pr.todo == {})
    && (!BeforeLoop(pr.pc) && !BetweenRows(pr.pc) ==> (pr.p.id in pr.unbuilt <==> pr.pc == SBuildFailed))
    && (pr.pc == KRelink || pr.pc == SStart || pr.pc == SStartFailed || pr.pc == SHealth || pr.pc == SCommit ==>
          HasContainer(w, pr.p))
  }

  lemma ReadyFrame(w: World, w': World, i: Id, u: set<Id>, u': set<Id>, id: Id)
    requires Elsewhere(w, w', i) && id != i && (id in u <==> id in u') && Ready(w.rows, w.ctrs, u, id)
    ensures Ready(w'.rows, w'.ctrs, u', id)
  {
    assert forall d: Cid :: Mine(w'.ctrs, d, id) <==> Mine(w.ctrs, d, id);
  }

  // Work on one row leaves every other row as ready, or as pending, as it was.
  lemma RestoringFrame(cfg: Settings, w: World, w': World, pr: Proc, pr': Proc)
    requires RestoringLoop(w, pr) && Elsewhere(w, w', pr.p.id) && !BetweenRows(pr.pc) && pr.p.id !in pr.todo
    requires pr'.todo == pr.todo && pr'.index == pr.index && pr'.p.id == pr.p.id
    requires forall id :: id != pr.p.id ==> (id in pr'.unbuilt <==> id in pr.unbuilt)
    requires BetweenRows(pr'.pc) ==> Ready(w'.rows, w'.ctrs, pr'.unbuilt, pr.p.id)
    ensures RestoringLoop(w', pr')
  {
    forall id | id !in pr'.todo && id != pr.p.id ensures Ready(w'.rows, w'.ctrs, pr'.unbuilt, id) {
      ReadyFrame(w, w', pr.p.id, pr.unbuilt, pr'.unbuilt, id);
    }
  }

  lemma ListingRestores(cfg: Settings, pr: Proc, w: World, c: Choice)
    requires pr.op.Reconcile? && BeforeLoop(pr.pc) && Base(cfg, w) && ReconcileInv(cfg, w, pr)
    requires Restoring(w, pr) && !c.fail
    ensures Restoring(ReconcileStep(pr, w, c).1, ReconcileStep(pr, w, c).0)
  {
  }

  lemma TakenRestores(cfg: Settings, pr: Proc, w: World, c: Choice)
    requires pr.pc == KPick && RestoringLoop(w, pr) && c.pick in pr.todo && Pending(w, pr, c.pick)
    requires PickRow(pr, c).p.id == c.pick
    ensures RestoringLoop(w, PickRow(pr, c))
  {
    var pr' := PickRow(pr, c);
    forall id | id !in pr'.todo && !(!BetweenRows(pr'.pc) && id == pr'.p.id)
      ensures Ready(w.rows, w.ctrs, pr'.unbuilt, id)
    {
      assert id !in pr.todo || id == c.pick;
    }
  }

  lemma PickedHasContainer(cfg: Settings, pr: Proc, w: World, c: Choice)
    requires pr.pc == KPick && RestoringLoop(w, pr) && c.pick in pr.todo && Pending(w, pr, c.pick)
    requires w.rows[c.pick].id == c.pick
    ensures PickRow(pr, c).pc == KRelink ==> HasContainer(w, PickRow(pr, c).p)
    ensures PickRow(pr, c).p.id == c.pick && c.pick !in PickRow(pr, c).unbuilt
  {
  }

  lemma PickRestores(cfg: Settings, pr: Proc, w: World, c: Choice)
    requires pr.op.Reconcile? && pr.pc == KPick && Base(cfg, w) && ReconcileInv(cfg, w, pr) && Restoring(w, pr)
    ensures Restoring(w, PickRow(pr, c))
  {
    if c.pick in pr.todo {
      assert Pending(w, pr, c.pick) && RowOk(cfg, w, c.pick);
      PickedHasContainer(cfg, pr, w, c);
      TakenRestores(cfg, pr, w, c);
    }
  }

  lemma RelinkRestores(cfg: Settings, pr: Proc, w: World, c: Choice)
    requires pr.op.Reconcile? && pr.pc == KRelink && Base(cfg, w) && ReconcileInv(cfg, w, pr)
    requires Restoring(w, pr) && !c.fail
    ensures Restoring(Relink(pr, w, c).1, Relink(pr, w, c).0)
  {
    var (pr', w') := Relink(pr, w, c);
    SaveKeeps(cfg, w, pr.p, c);
    assert Restored(w'.rows, w'.ctrs, pr.p.id);
    RestoringFrame(cfg, w, w', pr, pr');
  }

  lemma CleanRestores(cfg: Settings, pr: Proc, w: World, c: Choice)
    requires pr.op.Reconcile? && (pr.pc == KCleanDir || pr.pc == KCleanRow) && Base(cfg, w) && ReconcileInv(cfg, w, pr)
    requires Restoring(w, pr) && Lands(pr, c)
    ensures Restoring(ReconcileStep(pr, w, c).1, ReconcileStep(pr, w, c).0)
  {
    ReconcileWorld(cfg, pr, w, c);
    if pr.pc == KCleanDir { DirGone(cfg, pr, w, c); } else { RowGone(cfg, pr, w, c); }
  }

  lemma DirGone(cfg: Settings, pr: Proc, w: World, c: Choice)
    requires pr.pc == KCleanDir && pr.p.id !in pr.todo && Restoring(w, pr)
    requires Elsewhere(w, CleanDir(pr, w, c).1, pr.p.id)
    ensures Restoring(CleanDir(pr, w, c).1, CleanDir(pr, w, c).0)
  {
    RestoringFrame(cfg, w, CleanDir(pr, w, c).1, pr, CleanDir(pr, w, c).0);
  }

  lemma RowGone(cfg: Settings, pr: Proc, w: World, c: Choice)
    requires pr.pc == KCleanRow && pr.p.id !in pr.todo && Restoring(w, pr)
    requires Elsewhere(w, CleanRow(pr, w, c).1, pr.p.id)
    requires !c.fail && pr.p.id in w.rows
    ensures Restoring(CleanRow(pr, w, c).1, CleanRow(pr, w, c).0)
  {
    assert pr.p.id !in CleanRow(pr, w, c).1.rows;
    RestoringFrame(cfg, w, CleanRow(pr, w, c).1, pr, CleanRow(pr, w, c).0);
  }

  lemma BuildRestores(cfg: Settings, pr: Proc, w: World, c: Choice)
    requires pr.pc == SBuild && pr.p.id !in pr.todo && Restoring(w, pr)
    requires Elsewhere(w, BuildContainer(pr, w, c).1, pr.p.id)
    ensures Restoring(BuildContainer(pr, w, c).1, BuildContainer(pr, w, c).0)
  {
    RestoringFrame(cfg, w, BuildContainer(pr, w, c).1, pr, BuildContainer(pr, w, c).0);
  }

  lemma StartRestores(cfg: Settings, pr: Proc, w: World, c: Choice)
    requires pr.pc == SStart && pr.p.id !in pr.todo && Restoring(w, pr)
    requires Elsewhere(w, StartContainer(pr, w, c).1, pr.p.id)
    ensures Restoring(StartContainer(pr, w, c).1, StartContainer(pr, w, c).0)
  {
    RestoringFrame(cfg, w, StartContainer(pr, w, c).1, pr, StartContainer(pr, w, c).0);
  }

  lemma HealthRestores(pr: Proc, w: World, c: Choice)
    requires pr.pc == SHealth && Restoring(w, pr)
    ensures Restoring(w, AwaitHealth(pr, w, c, SCommit).0)
  {
    assert RestoringLoop(w, pr);
  }

  lemma RecordedRestores(cfg: Settings, pr: Proc, w: World, pr': Proc)
    requires pr.op.Reconcile? && (pr.pc == SBuildFailed || pr.pc == SStartFailed || pr.pc == SCommit)
    requires Restoring(w, pr)
    requires Elsewhere(w, PutRow(w, pr.p), pr.p.id) && pr.p.id !in pr.todo
    requires pr.pc == SBuildFailed ==> Bare(w.ctrs, pr.p.id) && pr.p.state == Error
    requires pr' == Return(pr, if pr.pc == SCommit then None else Some(RuntimeFailed))
    ensures Restoring(PutRow(w, pr.p), pr')
  {
    var w' := PutRow(w, pr.p);
    assert Ready(w'.rows, w'.ctrs, pr'.unbuilt, pr.p.id);
    RestoringFrame(cfg, w, w', pr, pr');
  }

  lemma RecordRestores(cfg: Settings, pr: Proc, w: World, c: Choice)
    requires pr.op.Reconcile? && (pr.pc == SBuildFailed || pr.pc == SStartFailed || pr.pc == SCommit)
    requires Base(cfg, w) && ReconcileInv(cfg, w, pr) && Restoring(w, pr) && Lands(pr, c)
    ensures Restoring(StartStep(pr, w, c).1, StartStep(pr, w, c).0)
  {
    StartRecordsWorld(cfg, pr, w, c);
    RecordedRestores(cfg, pr, w, StartStep(pr, w, c).0);
  }

  lemma StartingRestores(cfg: Settings, pr: Proc, w: World, c: Choice)
    requires pr.op.Reconcile? && Starting(pr.pc) && Base(cfg, w) && ReconcileInv(cfg, w, pr)
    requires Restoring(w, pr) && Lands(pr, c)
    ensures ReconcileStep(pr, w, c) == StartStep(pr, w, c)
    ensures Restoring(StartStep(pr, w, c).1, StartStep(pr, w, c).0)
  {
    if pr.pc == SBuild { StartBuildsWorld(cfg, pr, w, c); BuildRestores(cfg, pr, w, c); }
    else if pr.pc == SStart { StartBuildsWorld(cfg, pr, w, c); StartRestores(cfg, pr, w, c); }
    else if pr.pc == SHealth { HealthRestores(pr, w, c); }
    else { RecordRestores(cfg, pr, w, c); }
  }

  lemma LoopRestores(cfg: Settings, pr: Proc, w: World, c: Choice)
    requires pr.op.Reconcile? && !Starting(pr.pc) && pr.pc != Done && Base(cfg, w) && ReconcileInv(cfg, w, pr)
    requires Restoring(w, pr) && Quiet(pr, c)
    ensures Restoring(ReconcileStep(pr, w, c).1, ReconcileStep(pr, w, c).0)
  {
    if BeforeLoop(pr.pc) { ListingRestores(cfg, pr, w, c); }
    else if pr.pc == KPick { PickRestores(cfg, pr, w, c); }
    else if pr.pc == KRelink { RelinkRestores(cfg, pr, w, c); }
    else { CleanRestores(cfg, pr, w, c); }
  }

  lemma QuietIsReconcile(cfg: Settings, pr: Proc, w: World, c: Choice)
    requires pr.op.Reconcile? && pr.pc != Done && !pr.cancelled && !c.cancel
    ensures Step(cfg, pr, w, c) == ReconcileStep(pr, w, c)
  {
    assert Aware(pr, c) == pr;
  }

  lemma StepRestores(cfg: Settings, pr: Proc, w: World, c: Choice)
    requires pr.op.Reconcile? && pr.pc != Done && Base(cfg, w) && ProcInv(cfg, w, pr)
    requires Restoring(w, pr) && Quiet(pr, c)
    ensures Restoring(Step(cfg, pr, w, c).1, Step(cfg, pr, w, c).0)
  {
    QuietIsReconcile(cfg, pr, w, c);
    if Starting(pr.pc) { StartingRestores(cfg, pr, w, c); } else { LoopRestores(cfg, pr, w, c); }
  }

  lemma {:induction false} PassRestores(cfg: Settings, w: World, cs: seq<Choice>)
    requires Base(cfg, w) && QuietRun(cfg, Begin(Reconcile), w, cs)
    ensures var (pr', w') := Run(cfg, Begin(Reconcile), w, cs);
      Base(cfg, w') && pr'.op.Reconcile? && ProcInv(cfg, w', pr') && Restoring(w', pr')
  {
    if cs != [] {
      PassRestores(cfg, w, cs[..|cs| - 1]);
      var (pr, v) := Run(cfg, Begin(Reconcile), w, cs[..|cs| - 1]);
      if pr.pc != Done {
        EveryStepKeeps(cfg, pr, v, cs[|cs| - 1]);
        StepRestores(cfg, pr, v, cs[|cs| - 1]);
      }
    }
  }

  /** What a completed, undisturbed Reconcile leaves. `unbuilt` are the rows whose rebuild
      the runtime refused. */
  ghost predicate Recovered(w: World, unbuilt: set<Id>) {
    forall id :: id in w.rows ==>
      if id in unbuilt then
        w.rows[id].state == Error && (forall c: Cid :: !Mine(w.ctrs, c, id))
      else
        exists c: Cid :: && Mine(w.ctrs, c, id) && w.rows[id].containerId == Some(c)
                         && w.ctrs[c].port == w.rows[id].port
                         && (forall d: Cid :: Mine(w.ctrs, d, id) ==> d == c)
  }

  lemma ReadyIsRecovered(cfg: Settings, w: World, unbuilt: set<Id>)
    requires Base(cfg, w) && forall id :: Ready(w.rows, w.ctrs, unbuilt, id)
    ensures Recovered(w, unbuilt)
  {
    forall id | id in w.rows && id !in unbuilt
      ensures exists c: Cid :: && Mine(w.ctrs, c, id) && w.rows[id].containerId == Some(c)
                               && w.ctrs[c].port == w.rows[id].port
                               && (forall d: Cid :: Mine(w.ctrs, d, id) ==> d == c)
    {
      assert RowOk(cfg, w, id) && Ready(w.rows, w.ctrs, unbuilt, id);
      assert Mine(w.ctrs, w.rows[id].containerId.value, id);
    }
    forall id | id in w.rows && id in unbuilt ensures w.rows[id].state == Error && Bare(w.ctrs, id) {
      assert Ready(w.rows, w.ctrs, unbuilt, id);
    }
  }

  lemma DoneIsReady(w: World, pr: Proc)
    requires pr.pc == Done && Restoring(w, pr)
    ensures forall id :: Ready(w.rows, w.ctrs, pr.unbuilt, id)
  {
  }

  lemma PassRecovers(cfg: Settings, w: World, pr: Proc)
    requires Base(cfg, w) && pr.pc == Done && Restoring(w, pr)
    ensures Recovered(w, pr.unbuilt)
  {
    DoneIsReady(w, pr);
    ReadyIsRecovered(cfg, w, pr.unbuilt);
  }

  lemma NoStrays(w: World, unbuilt: set<Id>)
    requires Recovered(w, unbuilt)
    ensures forall id :: id in w.rows && w.rows[id].state == Creating ==> exists c: Cid :: Mine(w.ctrs, c, id)
  {
  }

  /** Crash anywhere - between two steps of any operations, inside a rollback, inside an
      earlier Reconcile - and run one undisturbed Reconcile: every row whose rebuild the
      runtime accepted has exactly one container, recorded and on its port, and no row is
      left "creating" without one. */
  lemma CrashRecovery(cfg: Settings, s: Sys, es: seq<Event>, cs: seq<Choice>)
    requires Inv(cfg, s) && OrderlyRun(cfg, s, es)
    requires QuietRun(cfg, Begin(Reconcile), RunAll(cfg, s, es).world, cs)
    requires Run(cfg, Begin(Reconcile), RunAll(cfg, s, es).world, cs).0.pc == Done
    ensures var (pr', w') := Run(cfg, Begin(Reconcile), RunAll(cfg, s, es).world, cs);
      && pr'.err.None? && Recovered(w', pr'.unbuilt)
      && (forall id :: id in w'.rows && w'.rows[id].state == Creating ==> exists c: Cid :: Mine(w'.ctrs, c, id))
  {
    RunKeepsInv(cfg, s, es);
    var w := RunAll(cfg, s, es).world;
    var (pr', w') := Run(cfg, Begin(Reconcile), w, cs);
    PassRestores(cfg, w, cs);
    PassRecovers(cfg, w', pr');
    QuietHasNoError(cfg, w, cs);
    NoStrays(w', pr'.unbuilt);
  }

  lemma {:induction false} QuietHasNoError(cfg: Settings, w: World, cs: seq<Choice>)
    requires Base(cfg, w) && QuietRun(cfg, Begin(Reconcile), w, cs)
    ensures Run(cfg, Begin(Reconcile), w, cs).0.err.None?
  {
    if cs != [] {
      QuietHasNoError(cfg, w, cs[..|cs| - 1]);
      PassRestores(cfg, w, cs[..|cs| - 1]);
      var (pr, v) := Run(cfg, Begin(Reconcile), w, cs[..|cs| - 1]);
      QuietStepNoError(cfg, pr, v, cs[|cs| - 1]);
    }
  }

  lemma QuietStepNoError(cfg: Settings, pr: Proc, w: World, c: Choice)
    requires pr.op.Reconcile? && !pr.cancelled && pr.err.None? && Quiet(pr, c)
    ensures Step(cfg, pr, w, c).0.err.None?
  {
  }
}
