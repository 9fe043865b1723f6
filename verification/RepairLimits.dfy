/** Where Reconcile's repair stops: the config file and the state field. */
module RepairLimits {
  import opened Wrappers
  import opened Entities
  import opened Machine
  import opened Invariant
  import opened Steps
  import opened ReconcileSteps
  import opened AllSteps
  import opened System

  // ---- The config file is never rewritten ----

  // config.toml exists and is what the printer makes of the current row.
  predicate ConfigAgrees(cfg: Settings, w: World, id: Id) {
    id in w.rows && id in w.dirs && w.dirs[id].Some? && w.dirs[id] == Rendered(cfg, w.rows[id])
  }

  // The rows ask for the same configuration.
  predicate SameSpec(p: Proxy, q: Proxy) {
    p == q.(containerId := p.containerId, state := p.state, message := p.message)
  }

  ghost predicate Unwritten(w0: World, w: World, pr: Proc, id: Id) {
    && id in w0.rows && id in w.rows && SameSpec(w.rows[id], w0.rows[id]) && w.rows[id].state != Creating
    && (id in w.dirs <==> id in w0.dirs) && (id in w.dirs ==> w.dirs[id] == w0.dirs[id])
    && (pr.pc == KCleanDir || pr.pc == KCleanRow ==> pr.p.id != id)
  }

  lemma PickUnwritten(cfg: Settings, w0: World, w: World, pr: Proc, c: Choice, id: Id)
    requires pr.pc == KPick && LoopInv(cfg, w, pr) && Unwritten(w0, w, pr, id) && Base(cfg, w)
    ensures Unwritten(w0, w, PickRow(pr, c), id)
  {
    if c.pick in pr.todo { assert Pending(w, pr, c.pick) && RowOk(cfg, w, c.pick); }
  }

  lemma RelinkUnwritten(cfg: Settings, w0: World, w: World, pr: Proc, c: Choice, id: Id)
    requires pr.op.Reconcile? && pr.pc == KRelink && ReconcileInv(cfg, w, pr) && Unwritten(w0, w, pr, id)
    ensures Unwritten(w0, Relink(pr, w, c).1, Relink(pr, w, c).0, id)
  {
  }

  lemma CleaningUnwritten(w0: World, w: World, pr: Proc, c: Choice, id: Id)
    requires (pr.pc == KCleanDir || pr.pc == KCleanRow) && Unwritten(w0, w, pr, id)
    ensures Unwritten(w0, ReconcileStep(pr, w, c).1, ReconcileStep(pr, w, c).0, id)
  {
  }

  lemma ListingUnwritten(w0: World, w: World, pr: Proc, c: Choice, id: Id)
    requires (pr.pc == KRows || pr.pc == KCtrs) && Unwritten(w0, w, pr, id)
    ensures Unwritten(w0, ReconcileStep(pr, w, c).1, ReconcileStep(pr, w, c).0, id)
  {
  }

  lemma LoopUnwritten(cfg: Settings, w0: World, w: World, pr: Proc, c: Choice, id: Id)
    requires pr.op.Reconcile? && pr.pc != Done && !Starting(pr.pc) && ReconcileInv(cfg, w, pr)
    requires Unwritten(w0, w, pr, id)
    requires Base(cfg, w)
    ensures Unwritten(w0, ReconcileStep(pr, w, c).1, ReconcileStep(pr, w, c).0, id)
  {
    if pr.pc == KPick { PickUnwritten(cfg, w0, w, pr, c, id); }
    else if pr.pc == KRelink { RelinkUnwritten(cfg, w0, w, pr, c, id); }
    else if pr.pc == KRows || pr.pc == KCtrs { ListingUnwritten(w0, w, pr, c, id); }
    else { CleaningUnwritten(w0, w, pr, c, id); }
  }

  lemma BuildUnwritten(w0: World, w: World, pr: Proc, c: Choice, id: Id)
    requires pr.op.Reconcile? && (pr.pc == SBuild || pr.pc == SStart || pr.pc == SHealth) && Unwritten(w0, w, pr, id)
    ensures Unwritten(w0, StartStep(pr, w, c).1, StartStep(pr, w, c).0, id)
  {
  }

  lemma RecordUnwritten(w0: World, w: World, pr: Proc, c: Choice, id: Id)
    requires pr.op.Reconcile? && (pr.pc == SBuildFailed || pr.pc == SStartFailed || pr.pc == SCommit)
    requires Unwritten(w0, w, pr, id)
    requires Draft(w.rows, pr.p) && (pr.p.state == Running || pr.p.state == Error)
    ensures Unwritten(w0, StartStep(pr, w, c).1, StartStep(pr, w, c).0, id)
  {
  }

  lemma StartingIsStart(pr: Proc, w: World, c: Choice)
    requires pr.op.Reconcile? && Starting(pr.pc)
    ensures ReconcileStep(pr, w, c) == StartStep(pr, w, c)
  {
  }

  lemma StartUnwritten(cfg: Settings, w0: World, w: World, pr: Proc, c: Choice, id: Id)
    requires pr.op.Reconcile? && Starting(pr.pc) && StartInv(cfg, w, pr) && Unwritten(w0, w, pr, id)
    ensures ReconcileStep(pr, w, c) == StartStep(pr, w, c)
    ensures Unwritten(w0, StartStep(pr, w, c).1, StartStep(pr, w, c).0, id)
  {
    StartingIsStart(pr, w, c);
    if pr.pc == SBuild || pr.pc == SStart || pr.pc == SHealth { BuildUnwritten(w0, w, pr, c, id); }
    else { RecordUnwritten(w0, w, pr, c, id); }
  }

  ghost predicate UnwrittenSince(cfg: Settings, w0: World, pr: Proc, w: World, id: Id) {
    pr.op.Reconcile? && Base(cfg, w) && ProcInv(cfg, w, pr) && Unwritten(w0, w, pr, id)
  }

  lemma AwareUnwritten(w0: World, w: World, pr: Proc, c: Choice, id: Id)
    requires Unwritten(w0, w, pr, id)
    ensures Unwritten(w0, w, Aware(pr, c), id)
  {
  }

  lemma TurnUnwritten(cfg: Settings, w0: World, w: World, pr: Proc, c: Choice, id: Id)
    requires pr.op.Reconcile? && pr.pc != Done && Base(cfg, w) && ReconcileInv(cfg, w, pr) && Unwritten(w0, w, pr, id)
    ensures Unwritten(w0, ReconcileStep(pr, w, c).1, ReconcileStep(pr, w, c).0, id)
  {
    if Starting(pr.pc) { StartUnwritten(cfg, w0, w, pr, c, id); } else { LoopUnwritten(cfg, w0, w, pr, c, id); }
  }

  lemma StepUnwritten(cfg: Settings, w0: World, pr: Proc, w: World, c: Choice, id: Id)
    requires UnwrittenSince(cfg, w0, pr, w, id) && Lands(pr, c)
    ensures UnwrittenSince(cfg, w0, Step(cfg, pr, w, c).0, Step(cfg, pr, w, c).1, id)
  {
    AwareInv(cfg, w, pr, c);
    AwareUnwritten(w0, w, pr, c, id);
    if pr.pc != Done {
      EveryStepKeeps(cfg, pr, w, c);
      TurnUnwritten(cfg, w0, w, Aware(pr, c), c, id);
    }
  }

  lemma {:induction false} PassUnwritten(cfg: Settings, w: World, cs: seq<Choice>, id: Id)
    requires Base(cfg, w) && RunLands(cfg, Begin(Reconcile), w, cs) && id in w.rows && w.rows[id].state != Creating
    ensures UnwrittenSince(cfg, w, Run(cfg, Begin(Reconcile), w, cs).0, Run(cfg, Begin(Reconcile), w, cs).1, id)
  {
    if cs != [] {
      var n := |cs| - 1;
      RunLandsPrefix(cfg, Begin(Reconcile), w, cs);
      PassUnwritten(cfg, w, cs[..n], id);
      var (pr, v) := Run(cfg, Begin(Reconcile), w, cs[..n]);
      StepUnwritten(cfg, w, pr, v, cs[n], id);
    }
  }

  /** For a row past creation, a pass mends its config file exactly when it needed no mending. */
  lemma ReconcileNeverMendsConfig(cfg: Settings, w: World, cs: seq<Choice>, id: Id)
    requires Base(cfg, w) && RunLands(cfg, Begin(Reconcile), w, cs) && id in w.rows && w.rows[id].state != Creating
    ensures var w' := Run(cfg, Begin(Reconcile), w, cs).1;
      id in w'.rows && SameSpec(w'.rows[id], w.rows[id]) && (ConfigAgrees(cfg, w', id) <==> ConfigAgrees(cfg, w, id))
  {
    PassUnwritten(cfg, w, cs, id);
    var w' := Run(cfg, Begin(Reconcile), w, cs).1;
    assert SpecOf(cfg, w'.rows[id]) == SpecOf(cfg, w.rows[id]);
  }

  /** So a crash between Recreate's port commit and its config write leaves the old file in
      place, and after Reconcile it agrees with the row only if the change did not show in it. */
  lemma StaleConfigSurvives(cfg: Settings, w: World, pr: Proc, text: string, cs: seq<Choice>)
    requires pr.op.Recreate? && (pr.pc == RMkdir || pr.pc == RWrite) && Base(cfg, w) && ProcInv(cfg, w, pr)
    requires pr.p.id in w.dirs && w.dirs[pr.p.id] == Some(text)
    requires RunLands(cfg, Begin(Reconcile), w, cs)
    ensures var w' := Run(cfg, Begin(Reconcile), w, cs).1;
      ConfigAgrees(cfg, w', pr.p.id) <==> Rendered(cfg, pr.p) == Some(text)
  {
    assert RecreateInv(cfg, w, pr);
    ReconcileNeverMendsConfig(cfg, w, cs, pr.p.id);
  }

  // ---- The state field is never repaired ----

  ghost predicate Spared(w0: World, w: World, pr: Proc, id: Id, d: Cid) {
    && id in w0.rows && id in w.rows && w.rows[id] == w0.rows[id].(containerId := w.rows[id].containerId)
    && Mine(w.ctrs, d, id)
    && (pr.p.id == id ==> !Starting(pr.pc) && pr.pc != KCleanDir && pr.pc != KCleanRow)
  }

  lemma PickSpares(cfg: Settings, w0: World, w: World, pr: Proc, c: Choice, id: Id, d: Cid)
    requires pr.pc == KPick && LoopInv(cfg, w, pr) && Spared(w0, w, pr, id, d) && Base(cfg, w)
    ensures Spared(w0, w, PickRow(pr, c), id, d)
  {
    if c.pick in pr.todo { assert Pending(w, pr, c.pick) && RowOk(cfg, w, c.pick); }
  }

  lemma RelinkSpares(cfg: Settings, w0: World, w: World, pr: Proc, c: Choice, id: Id, d: Cid)
    requires pr.op.Reconcile? && pr.pc == KRelink && ReconcileInv(cfg, w, pr) && Spared(w0, w, pr, id, d)
    ensures Spared(w0, Relink(pr, w, c).1, Relink(pr, w, c).0, id, d)
  {
  }

  lemma CleaningSpares(w0: World, w: World, pr: Proc, c: Choice, id: Id, d: Cid)
    requires (pr.pc == KCleanDir || pr.pc == KCleanRow) && Spared(w0, w, pr, id, d)
    ensures Spared(w0, ReconcileStep(pr, w, c).1, ReconcileStep(pr, w, c).0, id, d)
  {
  }

  lemma ListingSpares(w0: World, w: World, pr: Proc, c: Choice, id: Id, d: Cid)
    requires (pr.pc == KRows || pr.pc == KCtrs) && Spared(w0, w, pr, id, d)
    ensures Spared(w0, ReconcileStep(pr, w, c).1, ReconcileStep(pr, w, c).0, id, d)
  {
  }

  lemma LoopSpares(cfg: Settings, w0: World, w: World, pr: Proc, c: Choice, id: Id, d: Cid)
    requires pr.op.Reconcile? && pr.pc != Done && !Starting(pr.pc) && ReconcileInv(cfg, w, pr)
    requires Spared(w0, w, pr, id, d)
    requires Base(cfg, w)
    ensures Spared(w0, ReconcileStep(pr, w, c).1, ReconcileStep(pr, w, c).0, id, d)
  {
    if pr.pc == KPick { PickSpares(cfg, w0, w, pr, c, id, d); }
    else if pr.pc == KRelink { RelinkSpares(cfg, w0, w, pr, c, id, d); }
    else if pr.pc == KRows || pr.pc == KCtrs { ListingSpares(w0, w, pr, c, id, d); }
    else { CleaningSpares(w0, w, pr, c, id, d); }
  }

  lemma BuildSpares(w0: World, w: World, pr: Proc, c: Choice, id: Id, d: Cid)
    requires pr.op.Reconcile? && (pr.pc == SBuild || pr.pc == SStart || pr.pc == SHealth) && Spared(w0, w, pr, id, d)
    requires w.nextCid !in w.ctrs
    ensures Spared(w0, StartStep(pr, w, c).1, StartStep(pr, w, c).0, id, d)
  {
  }

  lemma RecordSpares(w0: World, w: World, pr: Proc, c: Choice, id: Id, d: Cid)
    requires pr.op.Reconcile? && (pr.pc == SBuildFailed || pr.pc == SStartFailed || pr.pc == SCommit)
    requires Spared(w0, w, pr, id, d)
    ensures Spared(w0, StartStep(pr, w, c).1, StartStep(pr, w, c).0, id, d)
  {
  }

  lemma StartSpares(cfg: Settings, w0: World, w: World, pr: Proc, c: Choice, id: Id, d: Cid)
    requires pr.op.Reconcile? && Starting(pr.pc) && Spared(w0, w, pr, id, d) && w.nextCid !in w.ctrs
    ensures ReconcileStep(pr, w, c) == StartStep(pr, w, c)
    ensures Spared(w0, StartStep(pr, w, c).1, StartStep(pr, w, c).0, id, d)
  {
    StartingIsStart(pr, w, c);
    if pr.pc == SBuild || pr.pc == SStart || pr.pc == SHealth { BuildSpares(w0, w, pr, c, id, d); }
    else { RecordSpares(w0, w, pr, c, id, d); }
  }

  ghost predicate SparedSince(cfg: Settings, w0: World, pr: Proc, w: World, id: Id, d: Cid) {
    pr.op.Reconcile? && Base(cfg, w) && ProcInv(cfg, w, pr) && Spared(w0, w, pr, id, d)
  }

  lemma AwareSpares(w0: World, w: World, pr: Proc, c: Choice, id: Id, d: Cid)
    requires Spared(w0, w, pr, id, d)
    ensures Spared(w0, w, Aware(pr, c), id, d)
  {
  }

  lemma TurnSpares(cfg: Settings, w0: World, w: World, pr: Proc, c: Choice, id: Id, d: Cid)
    requires pr.op.Reconcile? && pr.pc != Done && Base(cfg, w) && ReconcileInv(cfg, w, pr) && Spared(w0, w, pr, id, d)
    ensures Spared(w0, ReconcileStep(pr, w, c).1, ReconcileStep(pr, w, c).0, id, d)
  {
    if Starting(pr.pc) { StartSpares(cfg, w0, w, pr, c, id, d); } else { LoopSpares(cfg, w0, w, pr, c, id, d); }
  }

  lemma StepSpares(cfg: Settings, w0: World, pr: Proc, w: World, c: Choice, id: Id, d: Cid)
    requires SparedSince(cfg, w0, pr, w, id, d) && Lands(pr, c)
    ensures SparedSince(cfg, w0, Step(cfg, pr, w, c).0, Step(cfg, pr, w, c).1, id, d)
  {
    AwareInv(cfg, w, pr, c);
    AwareSpares(w0, w, pr, c, id, d);
    if pr.pc != Done {
      EveryStepKeeps(cfg, pr, w, c);
      TurnSpares(cfg, w0, w, Aware(pr, c), c, id, d);
    }
  }

  lemma {:induction false} PassSpares(cfg: Settings, w: World, cs: seq<Choice>, id: Id, d: Cid)
    requires Base(cfg, w) && RunLands(cfg, Begin(Reconcile), w, cs) && id in w.rows && Mine(w.ctrs, d, id)
    ensures SparedSince(cfg, w, Run(cfg, Begin(Reconcile), w, cs).0, Run(cfg, Begin(Reconcile), w, cs).1, id, d)
  {
    if cs != [] {
      var n := |cs| - 1;
      RunLandsPrefix(cfg, Begin(Reconcile), w, cs);
      PassSpares(cfg, w, cs[..n], id, d);
      var (pr, v) := Run(cfg, Begin(Reconcile), w, cs[..n]);
      StepSpares(cfg, w, pr, v, cs[n], id, d);
    }
  }

  /** A row whose container survived keeps everything but its recorded container id: one the
      panel died on while "creating" stays "creating", running container or not. */
  lemma ReconcileLeavesState(cfg: Settings, w: World, cs: seq<Choice>, id: Id, d: Cid)
    requires Base(cfg, w) && RunLands(cfg, Begin(Reconcile), w, cs) && id in w.rows && Mine(w.ctrs, d, id)
    ensures var w' := Run(cfg, Begin(Reconcile), w, cs).1;
      id in w'.rows && w'.rows[id] == w.rows[id].(containerId := w'.rows[id].containerId) && Mine(w'.ctrs, d, id)
  {
    PassSpares(cfg, w, cs, id, d);
  }
}
