/** A whole Reconcile, however disturbed: what becomes of each row, and what the report says. */
module Passes {
  import opened Wrappers
  import opened Entities
  import opened Machine
  import opened Invariant
  import opened Steps
  import opened ReconcileSteps
  import opened AllSteps
  import opened Recovery
  import opened Calls

  // What the runtime made of rebuilding a row: its container refused, or created but not started, or
  // started and found ill or well.
  datatype Fate = Untried | Unbuilt(text: string) | Unstarted(text: string) | Ill(text: string) | Well

  function Told(f: Fate, pc: Pc, down: bool, text: string): Fate {
    if pc == SBuild && down then Unbuilt(text)
    else if pc == SStart && down then Unstarted(text)
    else if pc == SHealth then (if down then Ill(text) else Well)
    else f
  }

  // What the choices of a pass told it of row `id`.
  function FateOf(cfg: Settings, w: World, cs: seq<Choice>, id: Id): Fate {
    if cs == [] then Untried
    else
      var n := |cs| - 1;
      var pr := Run(cfg, Begin(Reconcile), w, cs[..n]).0;
      if pr.p.id == id then Told(FateOf(cfg, w, cs[..n], id), pr.pc, Denied(cs, n), cs[n].text)
      else FateOf(cfg, w, cs[..n], id)
  }

  // The write that was to record the row's container did not come through.
  predicate Lost(cfg: Settings, w: World, cs: seq<Choice>, id: Id) {
    cs != [] &&
    var n := |cs| - 1; var pr := Run(cfg, Begin(Reconcile), w, cs[..n]).0;
    Lost(cfg, w, cs[..n], id) || (pr.pc == KRelink && pr.p.id == id && Denied(cs, n))
  }

  // ---- One row over a pass ----

  // Its row and its containers are as they were.
  ghost predicate Same(w0: World, w: World, id: Id)
    requires id in w0.rows
  {
    && id in w.rows && w.rows[id] == w0.rows[id]
    && (forall c: Cid :: Mine(w.ctrs, c, id) <==> Mine(w0.ctrs, c, id))
    && (forall c: Cid :: Mine(w0.ctrs, c, id) ==> w.ctrs[c] == w0.ctrs[c])
  }

  predicate Unreported(pr: Proc, id: Id) { id !in pr.report.restarted && id !in pr.report.cleanedUp }

  // The row's only container is a new one, on its port, and `q` records it.
  ghost predicate HasNew(w0: World, w: World, id: Id, q: Proxy, running: bool)
    requires id in w0.rows
  {
    && q.containerId.Some? && q.containerId.value >= w0.nextCid && q.containerId.value in w.ctrs
    && w.ctrs[q.containerId.value] == Container(true, id, w0.rows[id].port, running)
    && (forall d: Cid :: Mine(w.ctrs, d, id) ==> q.containerId == Some(d))
  }

  // The pass is at this row.
  ghost predicate Working(w0: World, w: World, pr: Proc, id: Id, f: Fate, lost: bool)
    requires id in w0.rows
  {
    var p0, p := w0.rows[id], pr.p; var q := p0.(containerId := p.containerId);
    && Unreported(pr, id) && !lost && id in w.rows && w.rows[id] == p0
    && (if pr.pc == KRelink then
          Same(w0, w, id) && f.Untried? && p == q && q.containerId.Some? && Mine(w0.ctrs, q.containerId.value, id)
        else
          && Bare(w0.ctrs, id)
          && (if pr.pc == KCleanDir || pr.pc == KCleanRow then
                Same(w0, w, id) && f.Untried? && p == p0 && p0.state == Creating
              else p0.state != Creating && Rebuilding(w0, w, pr, id, f, q)))
  }

  ghost predicate Rebuilding(w0: World, w: World, pr: Proc, id: Id, f: Fate, q: Proxy)
    requires id in w0.rows
  {
    var p0, p := w0.rows[id], pr.p;
    if pr.pc == SBuild then f.Untried? && p == p0 && Bare(w.ctrs, id)
    else if pr.pc == SBuildFailed then f.Unbuilt? && p == Found(p0, true, f.text) && Bare(w.ctrs, id)
    else if pr.pc == SStart then f.Untried? && p == q && HasNew(w0, w, id, q, false)
    else if pr.pc == SStartFailed then f.Unstarted? && p == Found(q, true, f.text) && HasNew(w0, w, id, q, false)
    else if pr.pc == SHealth then f.Untried? && p == q && HasNew(w0, w, id, q, true)
    else
      && pr.pc == SCommit && (f.Ill? || f.Well?) && HasNew(w0, w, id, q, true)
      && p == Found(q, f.Ill?, if f.Ill? then f.text else "")
  }

  /** What a pass leaves of row `id` of `w0`, having been told `f` of it: its container, recorded unless
      that was `lost`; or nothing, if it was being created and has none; or what became of a new one. */
  ghost predicate Repaired(w0: World, w: World, id: Id, f: Fate, lost: bool)
    requires id in w0.rows
  {
    var p0 := w0.rows[id];
    if !Bare(w0.ctrs, id) then
      && id in w.rows && (forall c: Cid :: Mine(w.ctrs, c, id) <==> Mine(w0.ctrs, c, id))
      && (forall c: Cid :: Mine(w0.ctrs, c, id) ==>
            && w.ctrs[c] == w0.ctrs[c]
            && w.rows[id] == if lost then p0 else p0.(containerId := Some(c)))
    else if p0.state == Creating then id !in w.rows && Bare(w.ctrs, id)
    else
      && id in w.rows
      && (if f.Unbuilt? then w.rows[id] == Found(p0, true, f.text) && Bare(w.ctrs, id)
          else
            var q := p0.(containerId := w.rows[id].containerId);
            && !f.Untried? && HasNew(w0, w, id, q, !f.Unstarted?)
            && w.rows[id] == Found(q, !f.Well?, if f.Well? then "" else f.text))
  }

  // A row without a container whose creation was not under way.
  ghost predicate Missing(w0: World, id: Id) {
    id in w0.rows && Bare(w0.ctrs, id) && w0.rows[id].state != Creating
  }

  // A create that was cut short before its container.
  ghost predicate Abandoned(w0: World, id: Id) {
    id in w0.rows && Bare(w0.ctrs, id) && w0.rows[id].state == Creating
  }

  ghost predicate Settled(w0: World, w: World, pr: Proc, id: Id, f: Fate, lost: bool)
    requires id in w0.rows
  {
    && Repaired(w0, w, id, f, lost)
    && (id in pr.report.restarted <==> Missing(w0, id) && (f.Ill? || f.Well?))
    && (id in pr.report.cleanedUp <==> Abandoned(w0, id))
  }

  ghost predicate Tracked(w0: World, w: World, pr: Proc, id: Id, f: Fate, lost: bool)
    requires id in w0.rows
  {
    if BeforeLoop(pr.pc) || id in pr.todo then Same(w0, w, id) && Unreported(pr, id) && f.Untried? && !lost
    else if !BetweenRows(pr.pc) && pr.p.id == id then Working(w0, w, pr, id, f, lost)
    else Settled(w0, w, pr, id, f, lost)
  }

  // ---- The steps ----

  lemma ListTracks(w0: World, w: World, pr: Proc, c: Choice, id: Id)
    requires pr.op.Reconcile? && BeforeLoop(pr.pc) && id in w0.rows && Tracked(w0, w, pr, id, Untried, false)
    requires pr.pc == KCtrs ==> pr.todo == w.rows.Keys
    ensures var (pr', w') := ReconcileStep(pr, w, c);
      w' == w && (pr'.err.None? ==> Tracked(w0, w, pr', id, Untried, false))
  {
  }

  // A row taken up that has a container, already recorded or not.
  lemma PickRecorded(w0: World, w: World, pr: Proc, c: Choice, d: Cid)
    requires pr.pc == KPick && c.pick in pr.todo && c.pick in pr.snapshot && c.pick in w0.rows
    requires pr.snapshot[c.pick] == w0.rows[c.pick] && w0.rows[c.pick].id == c.pick
    requires c.pick in pr.index && pr.index[c.pick] == d && w0.rows[c.pick].containerId == Some(d)
    requires Mine(w0.ctrs, d, c.pick) && (forall e: Cid :: Mine(w0.ctrs, e, c.pick) ==> e == d)
    requires Same(w0, w, c.pick) && Unreported(pr, c.pick)
    ensures Tracked(w0, w, PickRow(pr, c), c.pick, Untried, false)
  {
  }

  lemma PickUnrecorded(w0: World, w: World, pr: Proc, c: Choice, d: Cid)
    requires pr.pc == KPick && c.pick in pr.todo && c.pick in pr.snapshot && c.pick in w0.rows
    requires pr.snapshot[c.pick] == w0.rows[c.pick] && w0.rows[c.pick].id == c.pick
    requires c.pick in pr.index && pr.index[c.pick] == d && w0.rows[c.pick].containerId != Some(d)
    requires Mine(w0.ctrs, d, c.pick) && Same(w0, w, c.pick) && Unreported(pr, c.pick)
    ensures Tracked(w0, w, PickRow(pr, c), c.pick, Untried, false)
  {
    var p := w0.rows[c.pick].(containerId := Some(d));
    var pr' := pr.(todo := pr.todo - {c.pick}, pc := KRelink, p := p);
    assert PickRow(pr, c) == pr';
    assert Working(w0, w, pr', c.pick, Untried, false);
  }

  lemma PickLinked(cfg: Settings, w0: World, w: World, pr: Proc, c: Choice)
    requires pr.op.Reconcile? && pr.pc == KPick && LoopInv(cfg, w, pr) && Base(cfg, w0)
    requires c.pick in pr.todo && c.pick in w0.rows && c.pick in pr.index
    requires Mine(w.ctrs, pr.index[c.pick], c.pick) && Tracked(w0, w, pr, c.pick, Untried, false)
    ensures Tracked(w0, w, PickRow(pr, c), c.pick, Untried, false)
  {
    var d := pr.index[c.pick];
    assert Pending(w, pr, c.pick) && RowOk(cfg, w0, c.pick);
    assert Mine(w0.ctrs, d, c.pick);
    if w0.rows[c.pick].containerId == Some(d) { PickRecorded(w0, w, pr, c, d); }
    else { PickUnrecorded(w0, w, pr, c, d); }
  }

  lemma PickBare(cfg: Settings, w0: World, w: World, pr: Proc, c: Choice)
    requires pr.op.Reconcile? && pr.pc == KPick && Base(cfg, w) && LoopInv(cfg, w, pr)
    requires c.pick in pr.todo && c.pick in w0.rows && c.pick !in pr.index
    requires Tracked(w0, w, pr, c.pick, Untried, false)
    ensures Tracked(w0, w, PickRow(pr, c), c.pick, Untried, false)
  {
    assert Pending(w, pr, c.pick) && RowOk(cfg, w, c.pick);
  }

  lemma PickOther(w0: World, w: World, pr: Proc, c: Choice, id: Id, f: Fate, lost: bool)
    requires pr.op.Reconcile? && pr.pc == KPick && id in w0.rows && Tracked(w0, w, pr, id, f, lost)
    requires id != c.pick || c.pick !in pr.todo
    requires c.pick in pr.todo && c.pick in pr.snapshot ==> pr.snapshot[c.pick].id == c.pick
    ensures Tracked(w0, w, PickRow(pr, c), id, f, lost)
  {
    var pr' := PickRow(pr, c);
    PickTakesOne(pr, c);
    if id in pr.todo { assert Same(w0, w, id); } else { assert Settled(w0, w, pr, id, f, lost); }
  }

  lemma PickTakesOne(pr: Proc, c: Choice)
    requires pr.pc == KPick
    requires c.pick in pr.todo && c.pick in pr.snapshot ==> pr.snapshot[c.pick].id == c.pick
    ensures var pr' := PickRow(pr, c);
      && !BeforeLoop(pr'.pc) && pr'.report == pr.report && (pr'.todo == pr.todo || pr'.todo == pr.todo - {c.pick})
      && (!BetweenRows(pr'.pc) ==> c.pick in pr.todo && pr'.p.id == c.pick)
  {
  }

  // Work on another row.
  lemma OtherTracks(w0: World, w: World, pr: Proc, w': World, pr': Proc, id: Id, f: Fate, lost: bool)
    requires id in w0.rows && Tracked(w0, w, pr, id, f, lost) && Elsewhere(w, w', pr.p.id) && pr.p.id != id
    requires !BeforeLoop(pr.pc) && !BeforeLoop(pr'.pc) && pr'.todo == pr.todo && pr'.p.id == pr.p.id
    requires id in pr'.report.restarted <==> id in pr.report.restarted
    requires id in pr'.report.cleanedUp <==> id in pr.report.cleanedUp
    ensures Tracked(w0, w', pr', id, f, lost)
  {
    if id in pr.todo { SameFrame(w0, w, w', pr.p.id, id); } else { RepairedFrame(w0, w, w', pr.p.id, id, f, lost); }
  }

  lemma SameFrame(w0: World, w: World, w': World, i: Id, id: Id)
    requires id in w0.rows && Same(w0, w, id) && Elsewhere(w, w', i) && i != id
    ensures Same(w0, w', id)
  {
  }

  lemma RepairedFrame(w0: World, w: World, w': World, i: Id, id: Id, f: Fate, lost: bool)
    requires id in w0.rows && Repaired(w0, w, id, f, lost) && Elsewhere(w, w', i) && i != id
    ensures Repaired(w0, w', id, f, lost)
  {
    if Missing(w0, id) && !f.Unbuilt? { assert Mine(w.ctrs, w.rows[id].containerId.value, id); }
  }

  lemma RelinkTracks(cfg: Settings, w0: World, w: World, pr: Proc, c: Choice)
    requires pr.op.Reconcile? && pr.pc == KRelink && Base(cfg, w) && ReconcileInv(cfg, w, pr) && Base(cfg, w0)
    requires pr.p.id in w0.rows && Working(w0, w, pr, pr.p.id, Untried, false) && pr.p.id !in pr.todo
    ensures var (pr', w') := Relink(pr, w, c); Tracked(w0, w', pr', pr.p.id, Untried, !Live(pr, c))
  {
    if Live(pr, c) {
      RelinkedIsSaved(cfg, w, pr, c);
      RelinkLands(cfg, w0, w, pr);
    } else {
      RelinkIsLost(cfg, w0, w, pr);
    }
  }

  lemma RelinkIsLost(cfg: Settings, w0: World, w: World, pr: Proc)
    requires pr.pc == KRelink && Base(cfg, w0)
    requires pr.p.id in w0.rows && Working(w0, w, pr, pr.p.id, Untried, false) && pr.p.id !in pr.todo
    ensures Tracked(w0, w, pr.(pc := KPick, clean := false), pr.p.id, Untried, true)
  {
    assert RowOk(cfg, w0, pr.p.id);
  }

  lemma RelinkLands(cfg: Settings, w0: World, w: World, pr: Proc)
    requires pr.pc == KRelink && Base(cfg, w0)
    requires pr.p.id in w0.rows && Working(w0, w, pr, pr.p.id, Untried, false) && pr.p.id !in pr.todo
    ensures Tracked(w0, PutRow(w, pr.p), pr.(pc := KPick), pr.p.id, Untried, false)
  {
    assert RowOk(cfg, w0, pr.p.id);
  }

  lemma RelinkedIsSaved(cfg: Settings, w: World, pr: Proc, c: Choice)
    requires pr.op.Reconcile? && pr.pc == KRelink && Base(cfg, w) && ReconcileInv(cfg, w, pr) && Live(pr, c)
    ensures Relink(pr, w, c) == (pr.(pc := KPick), PutRow(w, pr.p))
  {
    SaveKeeps(cfg, w, pr.p, c);
  }

  lemma CleanDirTracks(w0: World, w: World, pr: Proc, c: Choice)
    requires pr.pc == KCleanDir && pr.p.id in w0.rows && Working(w0, w, pr, pr.p.id, Untried, false)
    requires pr.p.id !in pr.todo
    ensures var (pr', w') := CleanDir(pr, w, c); Tracked(w0, w', pr', pr.p.id, Untried, false)
  {
  }

  lemma CleanRowTracks(w0: World, w: World, pr: Proc, c: Choice)
    requires pr.pc == KCleanRow && pr.p.id in w0.rows && Working(w0, w, pr, pr.p.id, Untried, false) && !c.fail
    requires pr.p.id !in pr.todo
    ensures var (pr', w') := CleanRow(pr, w, c); Tracked(w0, w', pr', pr.p.id, Untried, false)
  {
    RowCleaned(pr, w, c);
  }

  lemma BuildTracks(w0: World, w: World, pr: Proc, c: Choice)
    requires pr.pc == SBuild && pr.p.id in w0.rows && Working(w0, w, pr, pr.p.id, Untried, false)
    requires w.nextCid >= w0.nextCid && w0.rows[pr.p.id].id == pr.p.id && pr.p.id !in pr.todo
    ensures var (pr', w') := BuildContainer(pr, w, c);
      Tracked(w0, w', pr', pr.p.id, if Live(pr, c) then Untried else Unbuilt(c.text), false)
  {
    if Live(pr, c) {
      var w' := AddContainer(w, pr.p.id, pr.p.port);
      assert forall d: Cid :: Mine(w'.ctrs, d, pr.p.id) ==> d == w.nextCid || Mine(w.ctrs, d, pr.p.id);
    }
  }

  lemma StartTracks(w0: World, w: World, pr: Proc, c: Choice)
    requires pr.pc == SStart && pr.p.id in w0.rows && Working(w0, w, pr, pr.p.id, Untried, false)
    requires pr.p.id !in pr.todo
    ensures var (pr', w') := StartContainer(pr, w, c);
      Tracked(w0, w', pr', pr.p.id, if Live(pr, c) then Untried else Unstarted(c.text), false)
  {
    if Live(pr, c) {
      var w' := RunContainer(w, pr.p.containerId.value);
      assert forall d: Cid :: Mine(w'.ctrs, d, pr.p.id) <==> Mine(w.ctrs, d, pr.p.id);
    }
  }

  lemma HealthTracks(w0: World, w: World, pr: Proc, c: Choice)
    requires pr.pc == SHealth && pr.p.id in w0.rows && Working(w0, w, pr, pr.p.id, Untried, false)
    requires pr.p.id !in pr.todo
    ensures var (pr', w') := AwaitHealth(pr, w, c, SCommit);
      Tracked(w0, w', pr', pr.p.id, if Live(pr, c) then Well else Ill(c.text), false)
  {
  }

  lemma RecordTracks(w0: World, w: World, pr: Proc, f: Fate)
    requires pr.op.Reconcile? && (pr.pc == SBuildFailed || pr.pc == SStartFailed || pr.pc == SCommit)
    requires pr.p.id in w0.rows && Working(w0, w, pr, pr.p.id, f, false) && pr.p.id !in pr.todo
    ensures var pr' := Return(pr, if pr.pc == SCommit then None else Some(RuntimeFailed));
      Tracked(w0, PutRow(w, pr.p), pr', pr.p.id, f, false)
  {
    assert forall d: Cid :: Mine(PutRow(w, pr.p).ctrs, d, pr.p.id) <==> Mine(w.ctrs, d, pr.p.id);
  }

  // What the pass is told of row `id` by its next step, and whether its relink is lost with it.
  function NextFate(pr: Proc, c: Choice, id: Id, f: Fate): Fate {
    if pr.p.id == id then Told(f, pr.pc, !Live(pr, c), c.text) else f
  }

  predicate NextLost(pr: Proc, c: Choice, id: Id, lost: bool) {
    lost || (pr.pc == KRelink && pr.p.id == id && !Live(pr, c))
  }

  ghost predicate TracksOn(w0: World, pr: Proc, c: Choice, next: (Proc, World), id: Id, f: Fate, lost: bool)
    requires id in w0.rows
  {
    next.0.err.None? ==> Tracked(w0, next.1, next.0, id, NextFate(pr, c, id, f), NextLost(pr, c, id, lost))
  }

  lemma PickTracks(cfg: Settings, w0: World, w: World, pr: Proc, c: Choice, id: Id, f: Fate, lost: bool)
    requires pr.op.Reconcile? && pr.pc == KPick && Base(cfg, w) && ReconcileInv(cfg, w, pr) && Base(cfg, w0)
    requires id in w0.rows && Tracked(w0, w, pr, id, f, lost) && IndexKnown(w, pr)
    ensures Tracked(w0, w, PickRow(pr, c), id, f, lost)
  {
    if c.pick in pr.todo { assert Pending(w, pr, c.pick) && RowOk(cfg, w, c.pick); }
    if id != c.pick || c.pick !in pr.todo { PickOther(w0, w, pr, c, id, f, lost); }
    else if id in pr.index { PickLinked(cfg, w0, w, pr, c); }
    else { PickBare(cfg, w0, w, pr, c); }
  }

  // The lookup table names containers that are there.
  ghost predicate IndexKnown(w: World, pr: Proc) {
    forall id :: id in pr.todo && id in pr.index && !BeforeLoop(pr.pc) ==> Mine(w.ctrs, pr.index[id], id)
  }

  lemma IndexFrame(w: World, w': World, pr: Proc, pr': Proc)
    requires IndexKnown(w, pr) && Elsewhere(w, w', pr.p.id) && pr.p.id !in pr.todo && !BeforeLoop(pr.pc)
    requires pr'.todo == pr.todo && pr'.index == pr.index
    ensures IndexKnown(w', pr')
  {
  }

  // Working on a row touches neither the work list nor what is reported of others.
  predicate SameWork(pr: Proc, pr': Proc) {
    && pr'.op == pr.op && pr'.err == pr.err && pr'.todo == pr.todo && pr'.index == pr.index && pr'.p.id == pr.p.id
    && !BeforeLoop(pr'.pc) && pr'.report.orphans == pr.report.orphans
    && (pr'.report.restarted == pr.report.restarted || pr'.report.restarted == pr.report.restarted + {pr.p.id})
    && (pr'.report.cleanedUp == pr.report.cleanedUp || pr'.report.cleanedUp == pr.report.cleanedUp + {pr.p.id})
  }

  lemma RepairSameWork(w: World, pr: Proc, c: Choice)
    requires pr.op.Reconcile? && (pr.pc == KRelink || pr.pc == KCleanDir || pr.pc == KCleanRow)
    ensures SameWork(pr, ReconcileStep(pr, w, c).0)
  {
  }

  lemma StartSameWork(w: World, pr: Proc, c: Choice)
    requires pr.op.Reconcile? && Starting(pr.pc)
    ensures SameWork(pr, StartStep(pr, w, c).0)
  {
    if pr.pc == SBuild || pr.pc == SStart || pr.pc == SHealth { BuildSameWork(w, pr, c); }
    else { RecordSameWork(w, pr, c); }
  }

  lemma BuildSameWork(w: World, pr: Proc, c: Choice)
    requires pr.op.Reconcile? && (pr.pc == SBuild || pr.pc == SStart || pr.pc == SHealth)
    ensures SameWork(pr, StartStep(pr, w, c).0)
  {
  }

  lemma RecordSameWork(w: World, pr: Proc, c: Choice)
    requires pr.op.Reconcile? && (pr.pc == SBuildFailed || pr.pc == SStartFailed || pr.pc == SCommit)
    ensures SameWork(pr, StartStep(pr, w, c).0)
  {
  }

  lemma RowSameWork(cfg: Settings, w: World, pr: Proc, c: Choice)
    requires pr.op.Reconcile? && pr.pc != Done && pr.pc != KPick && !BeforeLoop(pr.pc) && ReconcileInv(cfg, w, pr)
    ensures SameWork(pr, ReconcileStep(pr, w, c).0) && pr.p.id !in pr.todo && pr.p.id in w.rows
  {
    if Starting(pr.pc) { StartSameWork(w, pr, c); } else { RepairSameWork(w, pr, c); }
  }

  // Another row's step.
  lemma OthersTurn(cfg: Settings, w0: World, w: World, pr: Proc, c: Choice, id: Id, f: Fate, lost: bool)
    requires pr.op.Reconcile? && pr.pc != Done && pr.pc != KPick && !BeforeLoop(pr.pc) && ReconcileInv(cfg, w, pr)
    requires id in w0.rows && pr.p.id != id && Tracked(w0, w, pr, id, f, lost)
    requires Elsewhere(w, ReconcileStep(pr, w, c).1, pr.p.id)
    ensures Tracked(w0, ReconcileStep(pr, w, c).1, ReconcileStep(pr, w, c).0, id, f, lost)
  {
    RowSameWork(cfg, w, pr, c);
    OtherTracks(w0, w, pr, ReconcileStep(pr, w, c).1, ReconcileStep(pr, w, c).0, id, f, lost);
  }

  // Its own, before a container is started for it.
  lemma RepairTurn(cfg: Settings, w0: World, w: World, pr: Proc, c: Choice, f: Fate, lost: bool)
    requires pr.op.Reconcile? && (pr.pc == KRelink || pr.pc == KCleanDir || pr.pc == KCleanRow)
    requires Base(cfg, w0) && Base(cfg, w) && ReconcileInv(cfg, w, pr) && Lands(pr, c) && pr.p.id !in pr.todo
    requires pr.p.id in w0.rows && Working(w0, w, pr, pr.p.id, f, lost)
    ensures var (pr', w') := ReconcileStep(pr, w, c); var id := pr.p.id;
      Tracked(w0, w', pr', id, f, NextLost(pr, c, id, lost))
  {
    if pr.pc == KRelink { RelinkTracks(cfg, w0, w, pr, c); }
    else if pr.pc == KCleanDir { CleanDirTracks(w0, w, pr, c); }
    else { CleanRowTracks(w0, w, pr, c); }
  }

  // ... and from there.
  lemma BuildTurn(cfg: Settings, w0: World, w: World, pr: Proc, c: Choice, f: Fate, lost: bool)
    requires pr.op.Reconcile? && (pr.pc == SBuild || pr.pc == SStart || pr.pc == SHealth) && pr.p.id !in pr.todo
    requires Base(cfg, w0) && w.nextCid >= w0.nextCid && pr.p.id in w0.rows && Working(w0, w, pr, pr.p.id, f, lost)
    ensures var (pr', w') := StartStep(pr, w, c); Tracked(w0, w', pr', pr.p.id, NextFate(pr, c, pr.p.id, f), lost)
  {
    assert RowOk(cfg, w0, pr.p.id);
    if pr.pc == SBuild { BuildTracks(w0, w, pr, c); }
    else if pr.pc == SStart { StartTracks(w0, w, pr, c); }
    else { HealthTracks(w0, w, pr, c); }
  }

  lemma RecordTurn(cfg: Settings, w0: World, w: World, pr: Proc, c: Choice, f: Fate, lost: bool)
    requires pr.op.Reconcile? && (pr.pc == SBuildFailed || pr.pc == SStartFailed || pr.pc == SCommit)
    requires Base(cfg, w) && ReconcileInv(cfg, w, pr) && Lands(pr, c) && pr.p.id !in pr.todo
    requires pr.p.id in w0.rows && Working(w0, w, pr, pr.p.id, f, lost)
    ensures var (pr', w') := StartStep(pr, w, c); Tracked(w0, w', pr', pr.p.id, f, lost)
  {
    StartRecordsWorld(cfg, pr, w, c);
    RecordTracks(w0, w, pr, f);
  }

  // Told nothing new.
  lemma RecordTellsNothing(pr: Proc, c: Choice, id: Id, f: Fate)
    requires pr.pc == SBuildFailed || pr.pc == SStartFailed || pr.pc == SCommit || !Starting(pr.pc)
    ensures NextFate(pr, c, id, f) == f
  {
  }

  lemma TrackedIsWorking(w0: World, w: World, pr: Proc, f: Fate, lost: bool)
    requires pr.p.id in w0.rows && Tracked(w0, w, pr, pr.p.id, f, lost)
    requires pr.p.id !in pr.todo && !BeforeLoop(pr.pc) && !BetweenRows(pr.pc)
    ensures Working(w0, w, pr, pr.p.id, f, lost)
  {
  }

  lemma StartIsTurn(w: World, pr: Proc, c: Choice)
    requires pr.op.Reconcile? && Starting(pr.pc)
    ensures ReconcileStep(pr, w, c) == StartStep(pr, w, c)
  {
  }

  lemma StartTurn(cfg: Settings, w0: World, w: World, pr: Proc, c: Choice, f: Fate, lost: bool)
    requires pr.op.Reconcile? && Starting(pr.pc) && ReconcileInv(cfg, w, pr) && pr.p.id !in pr.todo
    requires Base(cfg, w0) && Base(cfg, w) && Lands(pr, c) && w.nextCid >= w0.nextCid
    requires pr.p.id in w0.rows && Working(w0, w, pr, pr.p.id, f, lost)
    ensures var (pr', w') := StartStep(pr, w, c); Tracked(w0, w', pr', pr.p.id, NextFate(pr, c, pr.p.id, f), lost)
  {
    if pr.pc == SBuild || pr.pc == SStart || pr.pc == SHealth { BuildTurn(cfg, w0, w, pr, c, f, lost); }
    else { RecordTellsNothing(pr, c, pr.p.id, f); RecordTurn(cfg, w0, w, pr, c, f, lost); }
  }

  lemma OwnTurn(cfg: Settings, w0: World, w: World, pr: Proc, c: Choice, f: Fate, lost: bool)
    requires pr.op.Reconcile? && pr.pc != Done && pr.pc != KPick && !BeforeLoop(pr.pc) && ReconcileInv(cfg, w, pr)
    requires Base(cfg, w0) && Base(cfg, w) && Lands(pr, c) && w.nextCid >= w0.nextCid && pr.p.id !in pr.todo
    requires pr.p.id in w0.rows && Tracked(w0, w, pr, pr.p.id, f, lost)
    ensures var (pr', w') := ReconcileStep(pr, w, c); var id := pr.p.id;
      Tracked(w0, w', pr', id, NextFate(pr, c, id, f), NextLost(pr, c, id, lost))
  {
    TrackedIsWorking(w0, w, pr, f, lost);
    if Starting(pr.pc) {
      StartIsTurn(w, pr, c);
      StartTurn(cfg, w0, w, pr, c, f, lost);
    } else {
      RecordTellsNothing(pr, c, pr.p.id, f);
      RepairTurn(cfg, w0, w, pr, c, f, lost);
    }
  }

  // The pass so far, of the row `id`.
  ghost predicate Following(cfg: Settings, w0: World, w: World, pr: Proc, id: Id, f: Fate, lost: bool)
    requires id in w0.rows
  {
    && pr.op.Reconcile? && Base(cfg, w) && ReconcileInv(cfg, w, pr) && w.nextCid >= w0.nextCid
    && (pr.err.None? ==> IndexKnown(w, pr) && Tracked(w0, w, pr, id, f, lost))
    && (pr.err.Some? ==> pr.pc == Done)
  }

  lemma RowTurn(cfg: Settings, w0: World, w: World, pr: Proc, c: Choice, id: Id, f: Fate, lost: bool)
    requires pr.op.Reconcile? && pr.pc != Done && pr.pc != KPick && !BeforeLoop(pr.pc) && ReconcileInv(cfg, w, pr)
    requires Base(cfg, w0) && Base(cfg, w) && Lands(pr, c) && w.nextCid >= w0.nextCid
    requires id in w0.rows && Tracked(w0, w, pr, id, f, lost) && IndexKnown(w, pr)
    requires Elsewhere(w, ReconcileStep(pr, w, c).1, pr.p.id)
    ensures var (pr', w') := ReconcileStep(pr, w, c);
      IndexKnown(w', pr') && Tracked(w0, w', pr', id, NextFate(pr, c, id, f), NextLost(pr, c, id, lost))
  {
    var (pr', w') := ReconcileStep(pr, w, c);
    RowSameWork(cfg, w, pr, c);
    IndexFrame(w, w', pr, pr');
    if pr.p.id == id { OwnTurn(cfg, w0, w, pr, c, f, lost); } else { OthersTurn(cfg, w0, w, pr, c, id, f, lost); }
  }

  lemma ListTurn(cfg: Settings, w0: World, w: World, pr: Proc, c: Choice, id: Id, f: Fate, lost: bool)
    requires pr.op.Reconcile? && BeforeLoop(pr.pc) && ReconcileInv(cfg, w, pr) && pr.err.None?
    requires id in w0.rows && Tracked(w0, w, pr, id, f, lost)
    ensures var (pr', w') := ReconcileStep(pr, w, c);
      && w' == w && (pr'.err.Some? ==> pr'.pc == Done)
      && (pr'.err.None? ==> IndexKnown(w', pr') && Tracked(w0, w', pr', id, f, lost))
  {
    ListTracks(w0, w, pr, c, id);
    ListedIndex(w, pr, c);
  }

  lemma ListedIndex(w: World, pr: Proc, c: Choice)
    requires pr.op.Reconcile? && BeforeLoop(pr.pc) && pr.err.None?
    ensures var pr' := ReconcileStep(pr, w, c).0;
      && (pr'.err.Some? ==> pr'.pc == Done || pr'.pc == CUndo)
      && (pr'.err.None? ==> IndexKnown(w, pr'))
  {
  }

  lemma TurnTracks(cfg: Settings, w0: World, w: World, pr: Proc, c: Choice, id: Id, f: Fate, lost: bool)
    requires pr.op.Reconcile? && pr.pc != Done && pr.err.None? && ReconcileInv(cfg, w, pr) && Lands(pr, c)
    requires Base(cfg, w0) && Base(cfg, w) && w.nextCid >= w0.nextCid
    requires id in w0.rows && Tracked(w0, w, pr, id, f, lost) && IndexKnown(w, pr)
    ensures var (pr', w') := ReconcileStep(pr, w, c);
      && (pr'.err.Some? ==> pr'.pc == Done)
      && (pr'.err.None? ==>
            IndexKnown(w', pr') && Tracked(w0, w', pr', id, NextFate(pr, c, id, f), NextLost(pr, c, id, lost)))
  {
    if BeforeLoop(pr.pc) { RecordTellsNothing(pr, c, id, f); ListTurn(cfg, w0, w, pr, c, id, f, lost); }
    else if pr.pc == KPick {
      RecordTellsNothing(pr, c, id, f);
      PickTracks(cfg, w0, w, pr, c, id, f, lost);
      PickedIndex(w, pr, c);
    } else {
      ReconcileKeeps(cfg, pr, w, c);
      RowSameWork(cfg, w, pr, c);
      RowTurn(cfg, w0, w, pr, c, id, f, lost);
    }
  }

  lemma PickedIndex(w: World, pr: Proc, c: Choice)
    requires pr.pc == KPick && pr.err.None? && IndexKnown(w, pr)
    ensures IndexKnown(w, PickRow(pr, c)) && PickRow(pr, c).err.None?
  {
    if pr.todo == {} {} else if c.pick !in pr.todo || c.pick !in pr.snapshot {} else {}
  }

  lemma AwareFollows(cfg: Settings, w0: World, w: World, pr: Proc, c: Choice, id: Id, f: Fate, lost: bool)
    requires id in w0.rows && Following(cfg, w0, w, pr, id, f, lost)
    ensures Following(cfg, w0, w, Aware(pr, c), id, f, lost)
  {
    AwareReconcile(cfg, w, pr, c);
    if pr.err.None? { AwareIsTracked(w0, w, pr, c, id, f, lost); }
  }

  lemma AwareIsTracked(w0: World, w: World, pr: Proc, c: Choice, id: Id, f: Fate, lost: bool)
    requires id in w0.rows && IndexKnown(w, pr) && Tracked(w0, w, pr, id, f, lost)
    ensures IndexKnown(w, Aware(pr, c)) && Tracked(w0, w, Aware(pr, c), id, f, lost)
  {
  }

  lemma TurnFollows(cfg: Settings, w0: World, w: World, pr: Proc, c: Choice, id: Id, f: Fate, lost: bool)
    requires id in w0.rows && Base(cfg, w0) && Following(cfg, w0, w, pr, id, f, lost) && Lands(pr, c) && pr.pc != Done
    ensures var (pr', w') := ReconcileStep(pr, w, c);
      Following(cfg, w0, w', pr', id, NextFate(pr, c, id, f), NextLost(pr, c, id, lost))
  {
    TurnTracks(cfg, w0, w, pr, c, id, f, lost);
    ReconcileKeeps(cfg, pr, w, c);
  }

  lemma StepIsTurn(cfg: Settings, pr: Proc, w: World, c: Choice)
    requires pr.op.Reconcile? && pr.pc != Done
    ensures Step(cfg, pr, w, c) == ReconcileStep(Aware(pr, c), w, c)
  {
  }

  lemma DoneTellsNothing(cfg: Settings, pr: Proc, w: World, c: Choice, id: Id, f: Fate)
    requires pr.pc == Done
    ensures Step(cfg, pr, w, c) == (Aware(pr, c), w) && NextFate(Aware(pr, c), c, id, f) == f
  {
  }

  lemma StepFollows(cfg: Settings, w0: World, w: World, pr: Proc, c: Choice, id: Id, f: Fate, lost: bool)
    requires id in w0.rows && Base(cfg, w0) && Following(cfg, w0, w, pr, id, f, lost) && Lands(pr, c)
    ensures var (pr', w') := Step(cfg, pr, w, c); var a := Aware(pr, c);
      Following(cfg, w0, w', pr', id, NextFate(a, c, id, f), NextLost(a, c, id, lost))
  {
    AwareFollows(cfg, w0, w, pr, c, id, f, lost);
    if pr.pc != Done {
      StepIsTurn(cfg, pr, w, c);
      TurnFollows(cfg, w0, w, Aware(pr, c), c, id, f, lost);
    } else {
      DoneTellsNothing(cfg, pr, w, c, id, f);
    }
  }

  lemma StartHears(pr: Proc, w: World, c: Choice)
    requires pr.op.Reconcile?
    ensures StartStep(pr, w, c).0.cancelled == pr.cancelled && StartStep(pr, w, c).0.op == pr.op
  {
  }

  lemma LoopHears(pr: Proc, w: World, c: Choice)
    requires pr.op.Reconcile?
    requires BeforeLoop(pr.pc) || pr.pc == KPick || pr.pc == KRelink || pr.pc == KCleanDir || pr.pc == KCleanRow
    ensures ReconcileStep(pr, w, c).0.cancelled == pr.cancelled && ReconcileStep(pr, w, c).0.op == pr.op
  {
  }

  lemma StepHears(cfg: Settings, pr: Proc, w: World, c: Choice)
    requires pr.op.Reconcile?
    ensures Step(cfg, pr, w, c).0.cancelled == (pr.cancelled || c.cancel) && Step(cfg, pr, w, c).0.op == pr.op
  {
    if BeforeLoop(pr.pc) || pr.pc == KPick || pr.pc == KRelink || pr.pc == KCleanDir || pr.pc == KCleanRow {
      LoopHears(Aware(pr, c), w, c);
    } else {
      StartHears(Aware(pr, c), w, c);
    }
  }

  lemma {:induction false} CancelledIsHung(cfg: Settings, w: World, cs: seq<Choice>)
    ensures Run(cfg, Begin(Reconcile), w, cs).0.op.Reconcile?
    ensures Run(cfg, Begin(Reconcile), w, cs).0.cancelled <==> Hung(cs, |cs|)
  {
    if cs != [] {
      var n := |cs| - 1;
      CancelledIsHung(cfg, w, cs[..n]);
      HungOn(cs, n);
      SameHung(cs, n);
      var (pr, v) := Run(cfg, Begin(Reconcile), w, cs[..n]);
      StepHears(cfg, pr, v, cs[n]);
    }
  }

  lemma SameHung(cs: seq<Choice>, n: nat)
    requires n <= |cs|
    ensures Hung(cs[..n], n) <==> Hung(cs, n)
  {
    if Hung(cs, n) {
      var j :| 0 <= j < n && j < |cs| && cs[j].cancel;
      assert cs[..n][j].cancel;
    }
  }

  lemma {:induction false} PassFollows(cfg: Settings, w: World, cs: seq<Choice>, id: Id)
    requires Base(cfg, w) && id in w.rows && RunLands(cfg, Begin(Reconcile), w, cs)
    ensures var (pr', w') := Run(cfg, Begin(Reconcile), w, cs);
      Following(cfg, w, w', pr', id, FateOf(cfg, w, cs, id), Lost(cfg, w, cs, id))
  {
    if cs != [] {
      var n := |cs| - 1;
      var (pr, v) := Run(cfg, Begin(Reconcile), w, cs[..n]);
      RunLandsPrefix(cfg, Begin(Reconcile), w, cs);
      PassFollows(cfg, w, cs[..n], id);
      StepFollows(cfg, w, v, pr, cs[n], id, FateOf(cfg, w, cs[..n], id), Lost(cfg, w, cs[..n], id));
      CancelledIsHung(cfg, w, cs[..n]);
      SameHung(cs, n);
      HungOn(cs, n);
    }
  }

  // ---- The report and the set of rows ----

  // The containers with the panel's label whose proxy has no row.
  function Strays(w: World): set<Cid> { set c | c in w.ctrs && w.ctrs[c].managed && w.ctrs[c].owner !in w.rows }

  const NOTHING := Report({}, {}, {})

  ghost predicate Accounted(w0: World, w: World, pr: Proc) {
    if pr.err.Some? then pr.pc == Done && w == w0 && pr.report == NOTHING
    else
      && w.rows.Keys <= w0.rows.Keys && pr.todo <= w0.rows.Keys && (pr.pc == Done ==> pr.todo == {})
      && pr.report.restarted <= w0.rows.Keys && pr.report.cleanedUp <= w0.rows.Keys
      && (BeforeLoop(pr.pc) ==> w == w0 && pr.report == NOTHING && (pr.pc == KCtrs ==> pr.snapshot == w.rows))
      && (!BeforeLoop(pr.pc) ==> pr.report.orphans == Strays(w0))
  }

  lemma ListAccounts(w0: World, w: World, pr: Proc, c: Choice)
    requires pr.op.Reconcile? && BeforeLoop(pr.pc) && pr.undo == [] && pr.err.None? && Accounted(w0, w, pr)
    ensures Accounted(w0, ReconcileStep(pr, w, c).1, ReconcileStep(pr, w, c).0)
  {
  }

  lemma PickAccounts(w0: World, w: World, pr: Proc, c: Choice)
    requires pr.pc == KPick && pr.err.None? && Accounted(w0, w, pr)
    ensures Accounted(w0, w, PickRow(pr, c))
  {
  }

  lemma RowAccounts(w0: World, w: World, pr: Proc, w': World, pr': Proc)
    requires !BeforeLoop(pr.pc) && pr.pc != Done && pr.err.None? && Accounted(w0, w, pr) && SameWork(pr, pr')
    requires pr'.pc != Done && pr.p.id in w.rows && Elsewhere(w, w', pr.p.id)
    ensures Accounted(w0, w', pr')
  {
    forall i | i in w'.rows ensures i in w0.rows { if i != pr.p.id { assert i in w.rows; } }
  }

  lemma RowGoesOn(w: World, pr: Proc, c: Choice)
    requires pr.op.Reconcile? && (pr.pc == KRelink || pr.pc == KCleanDir || pr.pc == KCleanRow || Starting(pr.pc))
    ensures ReconcileStep(pr, w, c).0.pc != Done
  {
    if Starting(pr.pc) { StartGoesOn(w, pr, c); }
  }

  lemma StartGoesOn(w: World, pr: Proc, c: Choice)
    requires pr.op.Reconcile? && Starting(pr.pc)
    ensures StartStep(pr, w, c).0.pc != Done
  {
  }

  lemma TurnAccounts(cfg: Settings, w0: World, w: World, pr: Proc, c: Choice)
    requires pr.op.Reconcile? && pr.pc != Done && pr.err.None? && Base(cfg, w) && ReconcileInv(cfg, w, pr)
    requires Lands(pr, c) && Accounted(w0, w, pr)
    ensures Accounted(w0, ReconcileStep(pr, w, c).1, ReconcileStep(pr, w, c).0)
  {
    if BeforeLoop(pr.pc) { ListAccounts(w0, w, pr, c); }
    else if pr.pc == KPick { PickAccounts(w0, w, pr, c); }
    else {
      ReconcileKeeps(cfg, pr, w, c);
      RowSameWork(cfg, w, pr, c);
      RowGoesOn(w, pr, c);
      RowAccounts(w0, w, pr, ReconcileStep(pr, w, c).1, ReconcileStep(pr, w, c).0);
    }
  }

  ghost predicate Accounting(cfg: Settings, w0: World, w: World, pr: Proc) {
    pr.op.Reconcile? && Base(cfg, w) && ProcInv(cfg, w, pr) && Accounted(w0, w, pr)
  }

  lemma StepAccounts(cfg: Settings, w0: World, w: World, pr: Proc, c: Choice)
    requires Accounting(cfg, w0, w, pr) && Lands(pr, c)
    ensures Accounting(cfg, w0, Step(cfg, pr, w, c).1, Step(cfg, pr, w, c).0)
  {
    AwareInv(cfg, w, pr, c);
    if pr.pc != Done {
      EveryStepKeeps(cfg, pr, w, c);
      TurnAccounts(cfg, w0, w, Aware(pr, c), c);
    }
  }

  lemma {:induction false} PassAccounts(cfg: Settings, w: World, cs: seq<Choice>)
    requires Base(cfg, w) && RunLands(cfg, Begin(Reconcile), w, cs)
    ensures Accounting(cfg, w, Run(cfg, Begin(Reconcile), w, cs).1, Run(cfg, Begin(Reconcile), w, cs).0)
  {
    if cs != [] {
      var n := |cs| - 1;
      RunLandsPrefix(cfg, Begin(Reconcile), w, cs);
      PassAccounts(cfg, w, cs[..n]);
      StepAccounts(cfg, w, Run(cfg, Begin(Reconcile), w, cs[..n]).1, Run(cfg, Begin(Reconcile), w, cs[..n]).0, cs[n]);
    }
  }

  /** What a pass that listed both stores leaves of `w`, and reports. */
  ghost predicate PassLeaves(cfg: Settings, w: World, w': World, rep: Report, cs: seq<Choice>) {
    && rep.orphans == (set c | c in w.ctrs && w.ctrs[c].managed && w.ctrs[c].owner !in w.rows)
    && (forall id :: id in rep.restarted <==>
          Missing(w, id) && (FateOf(cfg, w, cs, id).Ill? || FateOf(cfg, w, cs, id).Well?))
    && (forall id :: id in rep.cleanedUp <==> Abandoned(w, id))
    && (forall id :: id in w.rows ==> Repaired(w, w', id, FateOf(cfg, w, cs, id), Lost(cfg, w, cs, id)))
    && w'.rows.Keys == w.rows.Keys - rep.cleanedUp
  }

  /** Any completed pass whose uncancellable writes land, whatever else fails or is cancelled: either a
      listing failed, and nothing has happened; or every row is repaired as far as the runtime let it be,
      the abandoned creates are gone and nothing else is, and the report lists exactly the labelled
      containers without a row, the rows whose new container was started, and the abandoned creates. */
  lemma PassOutcome(cfg: Settings, w: World, cs: seq<Choice>)
    requires Base(cfg, w) && RunLands(cfg, Begin(Reconcile), w, cs)
    requires Run(cfg, Begin(Reconcile), w, cs).0.pc == Done
    ensures var (pr', w') := Run(cfg, Begin(Reconcile), w, cs);
      if pr'.err.Some? then w' == w && pr'.report == NOTHING else PassLeaves(cfg, w, w', pr'.report, cs)
  {
    var (pr', w') := Run(cfg, Begin(Reconcile), w, cs);
    PassAccounts(cfg, w, cs);
    if pr'.err.None? {
      EveryRowIsSettled(cfg, w, cs);
      SettledOutcome(cfg, w, w', pr', cs);
    }
  }

  lemma SettledOutcome(cfg: Settings, w: World, w': World, pr': Proc, cs: seq<Choice>)
    requires pr'.pc == Done && pr'.err.None? && Accounted(w, w', pr') && AllSettled(cfg, w, w', pr', cs)
    ensures PassLeaves(cfg, w, w', pr'.report, cs)
  {
    ReportRead(cfg, w, w', pr', cs);
    RowsLeft(cfg, w, w', pr', cs);
  }

  ghost predicate AllSettled(cfg: Settings, w0: World, w: World, pr: Proc, cs: seq<Choice>) {
    forall id :: id in w0.rows ==> Settled(w0, w, pr, id, FateOf(cfg, w0, cs, id), Lost(cfg, w0, cs, id))
  }

  lemma EveryRowIsSettled(cfg: Settings, w: World, cs: seq<Choice>)
    requires Base(cfg, w) && RunLands(cfg, Begin(Reconcile), w, cs)
    requires var pr' := Run(cfg, Begin(Reconcile), w, cs).0; pr'.pc == Done && pr'.err.None? && pr'.todo == {}
    ensures var (pr', w') := Run(cfg, Begin(Reconcile), w, cs); AllSettled(cfg, w, w', pr', cs)
  {
    var (pr', w') := Run(cfg, Begin(Reconcile), w, cs);
    forall id | id in w.rows
      ensures Settled(w, w', pr', id, FateOf(cfg, w, cs, id), Lost(cfg, w, cs, id))
    {
      PassFollows(cfg, w, cs, id);
      FollowedIsSettled(cfg, w, w', pr', id, FateOf(cfg, w, cs, id), Lost(cfg, w, cs, id));
    }
  }

  lemma ReportRead(cfg: Settings, w0: World, w: World, pr: Proc, cs: seq<Choice>)
    requires AllSettled(cfg, w0, w, pr, cs)
    requires pr.report.restarted <= w0.rows.Keys && pr.report.cleanedUp <= w0.rows.Keys
    ensures forall id :: id in pr.report.restarted <==>
      Missing(w0, id) && (FateOf(cfg, w0, cs, id).Ill? || FateOf(cfg, w0, cs, id).Well?)
    ensures forall id :: id in pr.report.cleanedUp <==> Abandoned(w0, id)
    ensures forall id :: id in w0.rows ==> Repaired(w0, w, id, FateOf(cfg, w0, cs, id), Lost(cfg, w0, cs, id))
  {
  }

  lemma FollowedIsSettled(cfg: Settings, w0: World, w: World, pr: Proc, id: Id, f: Fate, lost: bool)
    requires id in w0.rows && Following(cfg, w0, w, pr, id, f, lost) && pr.pc == Done && pr.err.None? && pr.todo == {}
    ensures Settled(w0, w, pr, id, f, lost)
  {
  }

  lemma SettledRow(w0: World, w: World, pr: Proc, id: Id, f: Fate, lost: bool)
    requires id in w0.rows && Settled(w0, w, pr, id, f, lost)
    ensures id in w.rows <==> id !in pr.report.cleanedUp
  {
  }

  lemma RowsLeft(cfg: Settings, w0: World, w: World, pr: Proc, cs: seq<Choice>)
    requires w.rows.Keys <= w0.rows.Keys && pr.report.cleanedUp <= w0.rows.Keys
    requires AllSettled(cfg, w0, w, pr, cs)
    ensures w.rows.Keys == w0.rows.Keys - pr.report.cleanedUp
  {
    forall id | id in w0.rows ensures id in w.rows <==> id !in pr.report.cleanedUp {
      SettledRow(w0, w, pr, id, FateOf(cfg, w0, cs, id), Lost(cfg, w0, cs, id));
    }
  }

  lemma RowsUnlisted(cfg: Settings, w: World, cs: seq<Choice>)
    requires |cs| >= 2
    ensures var (pr, v) := After(cfg, Reconcile, w, cs, 1);
      && v == w && (Denied(cs, 0) ==> pr.pc == Done && pr.err == Some(StoreFailed))
      && (!Denied(cs, 0) ==> pr == Known(Reconcile, KCtrs, cs, 1, w))
  {
    AtFirst(cfg, Reconcile, w, cs);
    Onward(cfg, Reconcile, w, cs, 0);
  }

  lemma ContainersUnlisted(cfg: Settings, w: World, cs: seq<Choice>)
    requires |cs| >= 2 && !Denied(cs, 0) && Denied(cs, 1)
    ensures var (pr, v) := After(cfg, Reconcile, w, cs, 2); pr.pc == Done && pr.err == Some(RuntimeFailed)
  {
    RowsUnlisted(cfg, w, cs);
    Onward(cfg, Reconcile, w, cs, 1);
  }

  /** A listing that fails is the error the pass returns. */
  lemma PassFails(cfg: Settings, w: World, cs: seq<Choice>)
    requires |cs| >= 2
    ensures var (pr', w') := Run(cfg, Begin(Reconcile), w, cs);
      && (Denied(cs, 0) ==> pr'.pc == Done && pr'.err == Some(StoreFailed))
      && (!Denied(cs, 0) && Denied(cs, 1) ==> pr'.pc == Done && pr'.err == Some(RuntimeFailed))
  {
    RowsUnlisted(cfg, w, cs);
    if Denied(cs, 0) { OverAndDone(cfg, Reconcile, w, cs, 1); }
    else if Denied(cs, 1) {
      ContainersUnlisted(cfg, w, cs);
      OverAndDone(cfg, Reconcile, w, cs, 2);
    }
  }
}
