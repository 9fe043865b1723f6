/** An undisturbed Reconcile always comes to its end. */
module Progress {
  import opened Wrappers
  import opened Entities
  import opened Machine
  import opened Invariant
  import opened ReconcileSteps
  import opened System
  import opened Recovery

  lemma IndexExists(w: World) returns (index: map<Id, Cid>)
    ensures IsIndex(w, index)
  {
    var owners := set c | c in w.ctrs && w.ctrs[c].managed :: w.ctrs[c].owner;
    forall i | i in owners ensures exists c: Cid :: Mine(w.ctrs, c, i) {
      var c :| c in w.ctrs && w.ctrs[c].managed && w.ctrs[c].owner == i;
      assert Mine(w.ctrs, c, i);
    }
    index := map i | i in owners :: var c: Cid :| Mine(w.ctrs, c, i); c;
  }

  // How far a pass is from its end: the listings, the rows still to do, the current row.
  function Ahead(pc: Pc): nat { if pc == KRows then 2 else if pc == KCtrs then 1 else 0 }

  function Left(pc: Pc): nat {
    if pc == Done then 0
    else if pc == KPick then 1
    else if pc == KRelink || pc == KCleanRow || pc == SBuildFailed || pc == SStartFailed || pc == SCommit then 2
    else if pc == KCleanDir || pc == SHealth then 3
    else if pc == SStart then 4
    else 5
  }

  // Nearer the end, no further rebuild refused.
  predicate Nearer(a: Proc, b: Proc) {
    && a.unbuilt == b.unbuilt
    && (|| Ahead(a.pc) < Ahead(b.pc)
        || (Ahead(a.pc) == Ahead(b.pc) && |a.todo| < |b.todo|)
        || (Ahead(a.pc) == Ahead(b.pc) && |a.todo| == |b.todo| && Left(a.pc) < Left(b.pc)))
  }

  lemma ListingNearer(cfg: Settings, pr: Proc, w: World) returns (c: Choice)
    requires pr.op.Reconcile? && BeforeLoop(pr.pc) && !pr.cancelled
    ensures Quiet(pr, c) && Nearer(ReconcileStep(Aware(pr, c), w, c).0, pr)
  {
    var index := IndexExists(w);
    c := Choice(false, false, "", 0, index);
  }

  lemma TakenStays(pr: Proc, c: Choice)
    requires pr.pc == KPick
    ensures Ahead(PickRow(pr, c).pc) == Ahead(pr.pc) && PickRow(pr, c).unbuilt == pr.unbuilt
  {
  }

  lemma TakenNearer(cfg: Settings, pr: Proc, w: World, id: Id)
    requires pr.op.Reconcile? && pr.pc == KPick && LoopInv(cfg, w, pr) && id in pr.todo
    ensures Nearer(PickRow(pr, GOOD.(pick := id)), pr)
  {
    TakenStays(pr, GOOD.(pick := id));
    PickKeepsPending(cfg, pr, w, GOOD.(pick := id));
    assert |pr.todo - {id}| < |pr.todo|;
  }

  lemma PickNearer(cfg: Settings, pr: Proc, w: World) returns (c: Choice)
    requires pr.op.Reconcile? && pr.pc == KPick && !pr.cancelled && LoopInv(cfg, w, pr)
    ensures Quiet(pr, c) && Nearer(ReconcileStep(Aware(pr, c), w, c).0, pr)
  {
    assert Aware(pr, GOOD) == pr;
    if pr.todo == {} {
      c := GOOD;
    } else {
      var id: Id :| id in pr.todo;
      c := GOOD.(pick := id);
      TakenNearer(cfg, pr, w, id);
    }
  }

  lemma BuildNearer(pr: Proc, w: World)
    requires pr.op.Reconcile? && (pr.pc == SBuild || pr.pc == SStart || pr.pc == SHealth) && !pr.cancelled
    ensures Nearer(StartStep(pr, w, GOOD).0, pr)
  {
  }

  lemma RecordNearer(pr: Proc, w: World)
    requires pr.op.Reconcile? && (pr.pc == SBuildFailed || pr.pc == SStartFailed || pr.pc == SCommit)
    ensures Nearer(StartStep(pr, w, GOOD).0, pr)
  {
  }

  lemma StartNearer(cfg: Settings, pr: Proc, w: World)
    requires pr.op.Reconcile? && Starting(pr.pc) && !pr.cancelled
    ensures Quiet(pr, GOOD) && Nearer(StartStep(Aware(pr, GOOD), w, GOOD).0, pr)
  {
    assert Aware(pr, GOOD) == pr;
    if pr.pc == SBuild || pr.pc == SStart || pr.pc == SHealth { BuildNearer(pr, w); } else { RecordNearer(pr, w); }
  }

  lemma RepairNearer(cfg: Settings, pr: Proc, w: World)
    requires pr.op.Reconcile? && (pr.pc == KRelink || pr.pc == KCleanDir || pr.pc == KCleanRow) && !pr.cancelled
    ensures Quiet(pr, GOOD) && Nearer(ReconcileStep(Aware(pr, GOOD), w, GOOD).0, pr)
  {
  }

  lemma StepNearer(cfg: Settings, pr: Proc, w: World) returns (c: Choice)
    requires pr.op.Reconcile? && pr.pc != Done && !pr.cancelled && ReconcileInv(cfg, w, pr)
    ensures Quiet(pr, c) && Nearer(Step(cfg, pr, w, c).0, pr)
  {
    c := TurnNearer(cfg, pr, w);
    QuietIsReconcile(cfg, pr, w, c);
    assert Aware(pr, c) == pr;
  }

  lemma TurnNearer(cfg: Settings, pr: Proc, w: World) returns (c: Choice)
    requires pr.op.Reconcile? && pr.pc != Done && !pr.cancelled && ReconcileInv(cfg, w, pr)
    ensures Quiet(pr, c) && Nearer(ReconcileStep(Aware(pr, c), w, c).0, pr)
  {
    if BeforeLoop(pr.pc) { c := ListingNearer(cfg, pr, w); }
    else if pr.pc == KPick { c := PickNearer(cfg, pr, w); }
    else if Starting(pr.pc) { StartNearer(cfg, pr, w); c := GOOD; }
    else { RepairNearer(cfg, pr, w); c := GOOD; }
  }

  lemma {:induction false} Complete(cfg: Settings, w: World, cs: seq<Choice>) returns (ds: seq<Choice>)
    requires Base(cfg, w) && QuietRun(cfg, Begin(Reconcile), w, cs) && Run(cfg, Begin(Reconcile), w, cs).0.unbuilt == {}
    ensures QuietRun(cfg, Begin(Reconcile), w, ds)
    ensures Run(cfg, Begin(Reconcile), w, ds).0.pc == Done && Run(cfg, Begin(Reconcile), w, ds).0.unbuilt == {}
    decreases Ahead(Run(cfg, Begin(Reconcile), w, cs).0.pc), |Run(cfg, Begin(Reconcile), w, cs).0.todo|,
          Left(Run(cfg, Begin(Reconcile), w, cs).0.pc)
  {
    var (pr, v) := Run(cfg, Begin(Reconcile), w, cs);
    PassRestores(cfg, w, cs);
    if pr.pc == Done {
      ds := cs;
    } else {
      var c := StepNearer(cfg, pr, v);
      RunSnoc(cfg, Begin(Reconcile), w, cs, c);
      assert (cs + [c])[..|cs|] == cs;
      ds := Complete(cfg, w, cs + [c]);
    }
  }

  /** However the panel was killed, an undisturbed pass can always reach its end, and when the
      runtime refuses no rebuild it leaves every row with its container. */
  lemma RecoveryIsReachable(cfg: Settings, s: Sys, es: seq<Event>) returns (cs: seq<Choice>)
    requires Inv(cfg, s) && OrderlyRun(cfg, s, es)
    ensures var (pr', w') := Run(cfg, Begin(Reconcile), RunAll(cfg, s, es).world, cs);
      && QuietRun(cfg, Begin(Reconcile), RunAll(cfg, s, es).world, cs)
      && pr'.pc == Done && pr'.err.None? && Recovered(w', {})
  {
    RunKeepsInv(cfg, s, es);
    cs := Complete(cfg, RunAll(cfg, s, es).world, []);
    CrashRecovery(cfg, s, es, cs);
  }
}
