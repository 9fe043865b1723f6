/** The panel over whole runs: operations start, step, finish and are killed, and
    containers disappear by hand. Creates interleave step by step; every other operation
    runs alone, and Reconcile runs before the server takes requests. */
module System {
  import opened Wrappers
  import opened Entities
  import opened Machine
  import opened Invariant
  import opened Steps
  import opened ReconcileSteps
  import opened AllSteps

  // Down: after a crash, until a Reconcile has ended. The server takes requests whatever that
  // Reconcile came to: Serving if it listed both stores and landed every relink, Degraded if not.
  datatype Phase = Down | Serving | Degraded

  datatype Sys = Sys(world: World, procs: map<nat, Proc>, phase: Phase)

  datatype Event =
    | Start(pid: nat, op: Op)
    | Tick(pid: nat, choice: Choice)
    | Finish(pid: nat)
    | Vanish(cid: Cid)
    | Crash

  // A Create takes the next unused id.
  predicate Admitted(s: Sys, op: Op) {
    if op.Create? then
      && s.phase != Down && (forall pid :: pid in s.procs ==> s.procs[pid].op.Create?)
      && op.row.id == s.world.nextId && op.row.containerId.None? && op.row.state == Creating
    else s.procs == map[] && (op.Reconcile? <==> s.phase == Down)
  }

  function WithStarted(s: Sys, pid: nat, op: Op): Sys {
    s.(procs := s.procs[pid := Begin(op)],
       world := if op.Create? then s.world.(nextId := s.world.nextId + 1) else s.world)
  }

  // An event that is not enabled changes nothing.
  function Apply(cfg: Settings, s: Sys, e: Event): Sys {
    match e
    case Start(pid, op) =>
      if pid in s.procs || !Admitted(s, op) then s else WithStarted(s, pid, op)
    case Tick(pid, c) =>
      if pid !in s.procs || s.procs[pid].pc == Done then s
      else
        var (pr', w') := Step(cfg, s.procs[pid], s.world, c);
        s.(procs := s.procs[pid := pr'], world := w')
    case Finish(pid) =>
      if pid !in s.procs || s.procs[pid].pc != Done then s
      else s.(procs := s.procs - {pid},
              phase := if !s.procs[pid].op.Reconcile? then s.phase
                       else if s.procs[pid].clean then Serving else Degraded)
    case Vanish(cid) => s.(world := EraseContainer(s.world, cid))
    case Crash => s.(procs := map[], phase := Down)
  }

  // What the statements about containers rest on: uncancellable store writes land, and while
  // the panel serves after an unfinished Reconcile, nobody deletes or moves a proxy whose row
  // does not record the container it has.
  ghost predicate Orderly(s: Sys, e: Event) {
    match e
    case Tick(pid, c) => pid in s.procs ==> Lands(s.procs[pid], c)
    case Start(_, op) =>
      s.phase == Degraded && (op.Delete? || op.Recreate?) ==> Linked(s.world.rows, s.world.ctrs, op.id)
    case _ => true
  }

  function RunAll(cfg: Settings, s: Sys, es: seq<Event>): Sys {
    if es == [] then s else Apply(cfg, RunAll(cfg, s, es[..|es| - 1]), es[|es| - 1])
  }

  ghost predicate OrderlyRun(cfg: Settings, s: Sys, es: seq<Event>) {
    es != [] ==> OrderlyRun(cfg, s, es[..|es| - 1]) && Orderly(RunAll(cfg, s, es[..|es| - 1]), es[|es| - 1])
  }

  // ---- The whole-run invariant ----

  predicate Active(pr: Proc, id: Id) { pr.pc != Done && Subject(pr.op) == Some(id) }

  // An operation that may leave the proxy's container unrecorded for a while.
  predicate Moving(pr: Proc, id: Id) {
    (Active(pr, id) && !pr.op.UpdateLimits?) || (pr.op.Reconcile? && Starting(pr.pc) && pr.p.id == id)
  }

  ghost predicate Held(s: Sys, id: Id) { exists pid :: pid in s.procs && Moving(s.procs[pid], id) }

  ghost predicate RowsLinked(s: Sys) {
    forall id :: id in s.world.rows && !Held(s, id) ==> Linked(s.world.rows, s.world.ctrs, id)
  }

  predicate Exclusive(procs: map<nat, Proc>) {
    forall a, b :: a in procs && b in procs && a != b ==>
      procs[a].op.Create? && procs[b].op.Create? && procs[a].op.row.id != procs[b].op.row.id
  }

  ghost predicate ProcsInv(cfg: Settings, w: World, procs: map<nat, Proc>) {
    forall pid :: pid in procs ==> ProcInv(cfg, w, procs[pid])
  }

  ghost predicate Inv(cfg: Settings, s: Sys) {
    && Base(cfg, s.world) && Exclusive(s.procs)
    && ProcsInv(cfg, s.world, s.procs)
    && (forall pid :: pid in s.procs ==> (s.procs[pid].op.Reconcile? <==> s.phase == Down))
    && (s.phase == Serving ==> RowsLinked(s))
  }

  // ---- Removing a container never disturbs anybody ----

  ghost predicate Fewer(w: World, w': World) {
    w' == w.(ctrs := w'.ctrs) && forall d :: d in w'.ctrs ==> d in w.ctrs && w'.ctrs[d] == w.ctrs[d]
  }

  lemma FewerBase(cfg: Settings, w: World, w': World)
    requires Base(cfg, w) && Fewer(w, w')
    ensures Base(cfg, w')
  {
    assert forall d: Cid, i: Id :: Mine(w'.ctrs, d, i) ==> Mine(w.ctrs, d, i);
    forall i | i in w'.rows ensures RowOk(cfg, w', i) { assert RowOk(cfg, w, i); }
  }

  lemma FewerCreate(cfg: Settings, w: World, w': World, pr: Proc)
    requires pr.op.Create? && Fewer(w, w') && CreateInv(cfg, w, pr)
    ensures CreateInv(cfg, w', pr)
  {
    assert forall d: Cid, i: Id :: Mine(w'.ctrs, d, i) ==> Mine(w.ctrs, d, i);
  }

  lemma FewerStart(cfg: Settings, w: World, w': World, pr: Proc)
    requires Fewer(w, w') && StartInv(cfg, w, pr)
    ensures StartInv(cfg, w', pr)
  {
    assert forall d: Cid, i: Id :: Mine(w'.ctrs, d, i) ==> Mine(w.ctrs, d, i);
  }

  lemma FewerRecreate(cfg: Settings, w: World, w': World, pr: Proc)
    requires pr.op.Recreate? && Fewer(w, w') && RecreateInv(cfg, w, pr)
    ensures RecreateInv(cfg, w', pr)
  {
    if Starting(pr.pc) { FewerStart(cfg, w, w', pr); }
    assert forall d: Cid, i: Id :: Mine(w'.ctrs, d, i) ==> Mine(w.ctrs, d, i);
  }

  lemma FewerLoop(cfg: Settings, w: World, w': World, pr: Proc)
    requires Fewer(w, w') && LoopInv(cfg, w, pr)
    ensures LoopInv(cfg, w', pr)
  {
    assert forall d: Cid, i: Id :: Mine(w'.ctrs, d, i) ==> Mine(w.ctrs, d, i);
    forall id | id in pr.todo ensures Pending(w', pr, id) { assert Pending(w, pr, id); }
  }

  lemma FewerReconcile(cfg: Settings, w: World, w': World, pr: Proc)
    requires pr.op.Reconcile? && Fewer(w, w') && ReconcileInv(cfg, w, pr)
    ensures ReconcileInv(cfg, w', pr)
  {
    if Starting(pr.pc) { FewerStart(cfg, w, w', pr); FewerLoop(cfg, w, w', pr); }
    else if pr.pc != KRows && pr.pc != KCtrs && pr.pc != Done { FewerLoop(cfg, w, w', pr); }
    assert forall d: Cid, i: Id :: Mine(w'.ctrs, d, i) ==> Mine(w.ctrs, d, i);
  }

  lemma FewerProc(cfg: Settings, w: World, w': World, pr: Proc)
    requires Fewer(w, w') && ProcInv(cfg, w, pr)
    ensures ProcInv(cfg, w', pr)
  {
    assert forall d: Cid, i: Id :: Mine(w'.ctrs, d, i) ==> Mine(w.ctrs, d, i);
    match pr.op
    case Create(_) => FewerCreate(cfg, w, w', pr);
    case Delete(_) =>
    case UpdateLimits(_, _) =>
    case Recreate(_, _, _) => FewerRecreate(cfg, w, w', pr);
    case Reconcile => FewerReconcile(cfg, w, w', pr);
    case RemoveOrphan(_) =>
  }

  lemma FewerLinks(s: Sys, s': Sys)
    requires RowsLinked(s) && s'.procs == s.procs && Fewer(s.world, s'.world)
    ensures RowsLinked(s')
  {
    forall id | id in s'.world.rows && !Held(s', id) ensures Linked(s'.world.rows, s'.world.ctrs, id) {
      assert !Held(s, id);
      assert forall d: Cid :: Mine(s'.world.ctrs, d, id) ==> Mine(s.world.ctrs, d, id);
    }
  }

  lemma VanishKeepsInv(cfg: Settings, s: Sys, cid: Cid)
    requires Inv(cfg, s)
    ensures Inv(cfg, Apply(cfg, s, Vanish(cid)))
    ensures RowsLinked(s) ==> RowsLinked(Apply(cfg, s, Vanish(cid)))
  {
    var w, s' := s.world, Apply(cfg, s, Vanish(cid));
    FewerBase(cfg, w, s'.world);
    forall pid | pid in s'.procs
      ensures ProcInv(cfg, s'.world, s'.procs[pid])
    {
      FewerProc(cfg, w, s'.world, s.procs[pid]);
    }
    if RowsLinked(s) { FewerLinks(s, s'); }
  }

  // ---- Interleaved creates do not disturb one another ----

  // Proxy `id` is as it was.
  ghost predicate SameAt(w: World, w': World, id: Id) {
    && w'.nextId == w.nextId && w'.nextCid >= w.nextCid
    && (id in w'.rows <==> id in w.rows) && (id in w.rows ==> w'.rows[id] == w.rows[id])
    && (forall d: Cid :: Mine(w'.ctrs, d, id) <==> Mine(w.ctrs, d, id))
    && (forall d :: d in w'.ctrs ==> d in w.ctrs || d >= w.nextCid)
  }

  lemma ElsewhereSameAt(w: World, w': World, i: Id, id: Id)
    requires Elsewhere(w, w', i) && id != i
    ensures SameAt(w, w', id)
  {
  }

  lemma CreateFrame(cfg: Settings, w: World, w': World, pr: Proc)
    requires pr.op.Create? && CreateInv(cfg, w, pr) && SameAt(w, w', pr.op.row.id)
    ensures CreateInv(cfg, w', pr)
  {
    assert pr.p.id == pr.op.row.id;
    if Built(pr.pc) { assert Holding(w', pr.p); }
  }

  ghost predicate Ticked(cfg: Settings, s: Sys, s': Sys, pid: nat, c: Choice) {
    && pid in s.procs && s.procs[pid].pc != Done && Lands(s.procs[pid], c)
    && s' == Sys(Step(cfg, s.procs[pid], s.world, c).1, s.procs[pid := Step(cfg, s.procs[pid], s.world, c).0], s.phase)
  }

  lemma TickKeepsProc(cfg: Settings, s: Sys, s': Sys, pid: nat, c: Choice, q: nat)
    requires Inv(cfg, s) && Ticked(cfg, s, s', pid, c) && q in s.procs && q != pid
    requires Touches(s.procs[pid], s.world, s'.world)
    ensures ProcInv(cfg, s'.world, s'.procs[q])
  {
    assert ProcInv(cfg, s.world, s.procs[q]);
    OtherCreateKeeps(cfg, s.world, s'.world, s.procs[pid], s.procs[q]);
  }

  lemma TickIsStep(cfg: Settings, s: Sys, s': Sys, pid: nat, c: Choice)
    requires Inv(cfg, s) && Ticked(cfg, s, s', pid, c)
    ensures Base(cfg, s'.world) && ProcInv(cfg, s'.world, s'.procs[pid]) && s'.procs[pid].op == s.procs[pid].op
    ensures Touches(s.procs[pid], s.world, s'.world) && LinksOwn(s.procs[pid], s.world, s'.procs[pid], s'.world)
  {
    EveryStepKeeps(cfg, s.procs[pid], s.world, c);
  }

  lemma TickKeepsProcs(cfg: Settings, s: Sys, s': Sys, pid: nat, c: Choice)
    requires Inv(cfg, s) && Ticked(cfg, s, s', pid, c)
    ensures Base(cfg, s'.world) && Exclusive(s'.procs) && s'.procs[pid].op == s.procs[pid].op
    ensures ProcsInv(cfg, s'.world, s'.procs)
  {
    TickIsStep(cfg, s, s', pid, c);
    SameOps(s.procs, s'.procs, pid);
    TickKeepsOthers(cfg, s, s', pid, c);
  }

  // Who runs beside whom depends on the operations only.
  lemma SameOps(procs: map<nat, Proc>, procs': map<nat, Proc>, pid: nat)
    requires Exclusive(procs) && pid in procs && pid in procs' && procs' == procs[pid := procs'[pid]]
    requires procs'[pid].op == procs[pid].op
    ensures Exclusive(procs')
  {
  }

  lemma TickKeepsOthers(cfg: Settings, s: Sys, s': Sys, pid: nat, c: Choice)
    requires Inv(cfg, s) && Ticked(cfg, s, s', pid, c)
    requires Touches(s.procs[pid], s.world, s'.world) && ProcInv(cfg, s'.world, s'.procs[pid])
    ensures ProcsInv(cfg, s'.world, s'.procs)
  {
    forall q | q in s'.procs ensures ProcInv(cfg, s'.world, s'.procs[q]) {
      if q != pid { TickKeepsProc(cfg, s, s', pid, c, q); }
    }
  }

  lemma OtherCreateKeeps(cfg: Settings, w: World, w': World, pr: Proc, other: Proc)
    requires pr.op.Create? && other.op.Create? && pr.op.row.id != other.op.row.id
    requires Touches(pr, w, w') && ProcInv(cfg, w, other)
    ensures ProcInv(cfg, w', other)
  {
    ElsewhereSameAt(w, w', pr.op.row.id, other.op.row.id);
    CreateFrame(cfg, w, w', other);
  }

  // Nobody else's hold ends with this step.
  lemma FreeBefore(s: Sys, s': Sys, pid: nat, id: Id)
    requires pid in s.procs && pid in s'.procs && s'.procs == s.procs[pid := s'.procs[pid]]
    requires !Held(s', id) && !Moving(s.procs[pid], id)
    ensures !Held(s, id)
  {
    forall q | q in s.procs ensures !Moving(s.procs[q], id) { if q != pid { assert !Moving(s'.procs[q], id); } }
  }

  lemma OwnLink(s: Sys, s': Sys, pid: nat, id: Id)
    requires pid in s.procs && pid in s'.procs && s'.procs == s.procs[pid := s'.procs[pid]] && s.procs[pid].pc != Done
    requires RowsLinked(s) && LinksOwn(s.procs[pid], s.world, s'.procs[pid], s'.world)
    requires s'.procs[pid].op == s.procs[pid].op && Subject(s.procs[pid].op) == Some(id)
    requires id in s'.world.rows && !Held(s', id) && (id in s.world.rows || !s.procs[pid].op.UpdateLimits?)
    ensures Linked(s'.world.rows, s'.world.ctrs, id)
  {
    assert !Moving(s'.procs[pid], id);
    if s.procs[pid].op.UpdateLimits? { FreeBefore(s, s', pid, id); }
  }

  // UpdateLimits brings no row back.
  lemma UpdateFindsRow(cfg: Settings, w: World, pr: Proc, c: Choice)
    requires pr.op.UpdateLimits? && UpdateInv(cfg, w, pr) && pr.op.id in Step(cfg, pr, w, c).1.rows
    ensures pr.op.id in w.rows
  {
  }

  lemma LoopOwnLink(cfg: Settings, w: World, pr: Proc, c: Choice)
    requires pr.op.Reconcile? && pr.pc != Done && !Starting(pr.pc) && ReconcileInv(cfg, w, pr)
    requires pr.p.id in w.rows ==> Linked(w.rows, w.ctrs, pr.p.id)
    ensures var w' := ReconcileStep(pr, w, c).1; Linked(w'.rows, w'.ctrs, pr.p.id)
  {
  }

  // The row a Reconcile is at is linked when it leaves it, if it was when it came to it.
  lemma ReconcileOwnLink(cfg: Settings, w: World, pr: Proc, c: Choice)
    requires pr.op.Reconcile? && pr.pc != Done && Base(cfg, w) && ReconcileInv(cfg, w, pr) && Lands(pr, c)
    requires Starting(pr.pc) || (pr.p.id in w.rows ==> Linked(w.rows, w.ctrs, pr.p.id))
    ensures var (pr', w') := ReconcileStep(pr, w, c);
      (Starting(pr'.pc) && pr'.p.id == pr.p.id) || Linked(w'.rows, w'.ctrs, pr.p.id)
  {
    if Starting(pr.pc) { StartKeeps(cfg, pr, w, c); } else { LoopOwnLink(cfg, w, pr, c); }
  }

  lemma TickKeepsLink(cfg: Settings, s: Sys, s': Sys, pid: nat, c: Choice, id: Id)
    requires Inv(cfg, s) && Ticked(cfg, s, s', pid, c) && RowsLinked(s) && Subject(s.procs[pid].op).Some?
    requires id in s'.world.rows && !Held(s', id)
    ensures Linked(s'.world.rows, s'.world.ctrs, id)
  {
    var w, pr, w' := s.world, s.procs[pid], s'.world;
    TickIsStep(cfg, s, s', pid, c);
    if Subject(pr.op) == Some(id) {
      assert ProcInv(cfg, w, pr);
      if pr.op.UpdateLimits? { UpdateFindsRow(cfg, w, pr, c); }
      OwnLink(s, s', pid, id);
    } else {
      FreeBefore(s, s', pid, id);
      LinkedFrame(w, w', Subject(pr.op).value, id);
    }
  }

  lemma OrphanTickKeepsLink(cfg: Settings, s: Sys, s': Sys, pid: nat, c: Choice, id: Id)
    requires Inv(cfg, s) && Ticked(cfg, s, s', pid, c) && RowsLinked(s) && s.procs[pid].op.RemoveOrphan?
    requires id in s'.world.rows && !Held(s', id)
    ensures Linked(s'.world.rows, s'.world.ctrs, id)
  {
    TickIsStep(cfg, s, s', pid, c);
    FreeBefore(s, s', pid, id);
    assert forall d: Cid :: Mine(s'.world.ctrs, d, id) ==> Mine(s.world.ctrs, d, id);
  }

  lemma OtherRowKeepsLink(cfg: Settings, s: Sys, s': Sys, pid: nat, c: Choice, id: Id)
    requires Inv(cfg, s) && Ticked(cfg, s, s', pid, c) && RowsLinked(s) && s.procs[pid].op.Reconcile?
    requires s.procs[pid].p.id != id
    requires id in s'.world.rows && !Held(s', id)
    ensures Linked(s'.world.rows, s'.world.ctrs, id)
  {
    TickIsStep(cfg, s, s', pid, c);
    FreeBefore(s, s', pid, id);
    LinkedFrame(s.world, s'.world, s.procs[pid].p.id, id);
  }

  // The row a Reconcile is at, before it starts a container for it: linked by the invariant.
  lemma LoopRowIsLinked(cfg: Settings, s: Sys, s': Sys, pid: nat, c: Choice, id: Id)
    requires Inv(cfg, s) && Ticked(cfg, s, s', pid, c) && RowsLinked(s) && s.procs[pid].op.Reconcile?
    requires s.procs[pid].p.id == id
    requires !Starting(s.procs[pid].pc) && !Held(s', id)
    ensures id in s.world.rows ==> Linked(s.world.rows, s.world.ctrs, id)
  {
    FreeBefore(s, s', pid, id);
  }

  lemma SameRowKeepsLink(cfg: Settings, s: Sys, s': Sys, pid: nat, c: Choice, id: Id)
    requires Inv(cfg, s) && Ticked(cfg, s, s', pid, c) && RowsLinked(s) && s.procs[pid].op.Reconcile?
    requires s.procs[pid].p.id == id
    requires id in s'.world.rows && !Held(s', id)
    ensures Linked(s'.world.rows, s'.world.ctrs, id)
  {
    if !Starting(s.procs[pid].pc) { LoopRowIsLinked(cfg, s, s', pid, c, id); }
    assert !Moving(s'.procs[pid], id) && ProcInv(cfg, s.world, s.procs[pid]);
    StepOwnLink(cfg, s.world, s.procs[pid], c);
  }

  lemma StepOwnLink(cfg: Settings, w: World, pr: Proc, c: Choice)
    requires pr.op.Reconcile? && pr.pc != Done && Base(cfg, w) && ProcInv(cfg, w, pr) && Lands(pr, c)
    requires Starting(pr.pc) || (pr.p.id in w.rows ==> Linked(w.rows, w.ctrs, pr.p.id))
    ensures var (pr', w') := Step(cfg, pr, w, c);
      pr'.op == pr.op && ((Starting(pr'.pc) && pr'.p.id == pr.p.id) || Linked(w'.rows, w'.ctrs, pr.p.id))
  {
    EveryStepKeeps(cfg, pr, w, c);
    AwareInv(cfg, w, pr, c);
    ReconcileOwnLink(cfg, w, Aware(pr, c), c);
  }

  lemma ReconcileTickKeepsLink(cfg: Settings, s: Sys, s': Sys, pid: nat, c: Choice, id: Id)
    requires Inv(cfg, s) && Ticked(cfg, s, s', pid, c) && RowsLinked(s) && s.procs[pid].op.Reconcile?
    requires id in s'.world.rows && !Held(s', id)
    ensures Linked(s'.world.rows, s'.world.ctrs, id)
  {
    if id == s.procs[pid].p.id {
      SameRowKeepsLink(cfg, s, s', pid, c, id);
    } else {
      OtherRowKeepsLink(cfg, s, s', pid, c, id);
    }
  }

  lemma TickKeepsLinks(cfg: Settings, s: Sys, s': Sys, pid: nat, c: Choice)
    requires Inv(cfg, s) && Ticked(cfg, s, s', pid, c) && RowsLinked(s)
    ensures RowsLinked(s')
  {
    forall id | id in s'.world.rows && !Held(s', id) ensures Linked(s'.world.rows, s'.world.ctrs, id) {
      if s.procs[pid].op.Reconcile? { ReconcileTickKeepsLink(cfg, s, s', pid, c, id); }
      else if s.procs[pid].op.RemoveOrphan? { OrphanTickKeepsLink(cfg, s, s', pid, c, id); }
      else { TickKeepsLink(cfg, s, s', pid, c, id); }
    }
  }

  lemma TickKeepsInv(cfg: Settings, s: Sys, s': Sys, pid: nat, c: Choice)
    requires Inv(cfg, s) && Ticked(cfg, s, s', pid, c)
    ensures Inv(cfg, s')
  {
    TickKeepsProcs(cfg, s, s', pid, c);
    if s.phase == Serving { TickKeepsLinks(cfg, s, s', pid, c); }
  }

  // ---- Starting, finishing, crashing ----

  lemma StartedOther(cfg: Settings, s: Sys, pid: nat, op: Op, q: nat)
    requires Inv(cfg, s) && pid !in s.procs && Admitted(s, op) && q in s.procs
    ensures ProcInv(cfg, WithStarted(s, pid, op).world, s.procs[q])
    ensures op.Create? && s.procs[q].op.Create? && s.procs[q].op.row.id < op.row.id
  {
    assert ProcInv(cfg, s.world, s.procs[q]);
    GrowCreate(cfg, s.world, WithStarted(s, pid, op).world, s.procs[q]);
  }

  lemma StartedLinks(s: Sys, pid: nat, op: Op)
    requires RowsLinked(s) && pid !in s.procs
    ensures RowsLinked(WithStarted(s, pid, op))
  {
    var s' := WithStarted(s, pid, op);
    forall id | id in s'.world.rows && !Held(s', id) ensures Linked(s'.world.rows, s'.world.ctrs, id) {
      forall q | q in s.procs ensures !Moving(s.procs[q], id) { assert !Moving(s'.procs[q], id); }
      assert !Held(s, id);
    }
  }

  lemma StartedProcsInv(cfg: Settings, s: Sys, pid: nat, op: Op)
    requires Inv(cfg, s) && pid !in s.procs && Admitted(s, op) && Orderly(s, Start(pid, op))
    ensures ProcsInv(cfg, WithStarted(s, pid, op).world, WithStarted(s, pid, op).procs)
  {
    var s' := WithStarted(s, pid, op);
    BeginInv(cfg, s, pid, op);
    forall q | q in s'.procs ensures ProcInv(cfg, s'.world, s'.procs[q]) {
      if q != pid { StartedOther(cfg, s, pid, op, q); }
    }
  }

  lemma StartedExclusive(cfg: Settings, s: Sys, pid: nat, op: Op)
    requires Inv(cfg, s) && pid !in s.procs && Admitted(s, op)
    ensures Exclusive(WithStarted(s, pid, op).procs)
  {
    forall q | q in s.procs ensures op.Create? && s.procs[q].op.Create? && s.procs[q].op.row.id < op.row.id {
      StartedOther(cfg, s, pid, op, q);
    }
  }

  lemma StartedInv(cfg: Settings, s: Sys, pid: nat, op: Op)
    requires Inv(cfg, s) && pid !in s.procs && Admitted(s, op) && Orderly(s, Start(pid, op))
    ensures Inv(cfg, WithStarted(s, pid, op))
  {
    var s' := WithStarted(s, pid, op);
    GrowBase(cfg, s.world, s'.world);
    StartedProcsInv(cfg, s, pid, op);
    StartedExclusive(cfg, s, pid, op);
    if s.phase == Serving { StartedLinks(s, pid, op); }
  }

  lemma GrowBase(cfg: Settings, w: World, w': World)
    requires Base(cfg, w) && w' == w.(nextId := w'.nextId) && w'.nextId >= w.nextId
    ensures Base(cfg, w')
  {
    forall i | i in w'.rows ensures RowOk(cfg, w', i) { assert RowOk(cfg, w, i); }
  }

  lemma GrowCreate(cfg: Settings, w: World, w': World, pr: Proc)
    requires pr.op.Create? && w' == w.(nextId := w.nextId + 1) && CreateInv(cfg, w, pr)
    ensures CreateInv(cfg, w', pr)
  {
  }

  // A row nobody works on is linked, or is one whose link a start is asked to check.
  lemma StartFindsLink(cfg: Settings, s: Sys, pid: nat, op: Op)
    requires Inv(cfg, s) && Admitted(s, op) && (op.Delete? || op.Recreate?) && Orderly(s, Start(pid, op))
    ensures Linked(s.world.rows, s.world.ctrs, op.id)
  {
    if s.phase == Serving && op.id in s.world.rows { assert !Held(s, op.id); }
  }

  lemma BeginInv(cfg: Settings, s: Sys, pid: nat, op: Op)
    requires Inv(cfg, s) && Admitted(s, op) && Orderly(s, Start(pid, op))
    ensures ProcInv(cfg, if op.Create? then s.world.(nextId := s.world.nextId + 1) else s.world, Begin(op))
  {
    if op.Delete? || op.Recreate? { StartFindsLink(cfg, s, pid, op); }
  }

  // A finished Reconcile was alone; when clean, it has linked every row.
  lemma FinishReconcile(cfg: Settings, s: Sys, s': Sys, pid: nat)
    requires Inv(cfg, s) && pid in s.procs && s.procs[pid].pc == Done && s.procs[pid].op.Reconcile?
    requires s' == Sys(s.world, s.procs - {pid}, if s.procs[pid].clean then Serving else Degraded)
    ensures Inv(cfg, s')
  {
    AloneEmpties(s.procs, pid);
    assert s'.procs == map[] && ProcInv(cfg, s.world, s.procs[pid]);
    if s.procs[pid].clean { ReconciledLinks(cfg, s.world, s.procs[pid]); }
  }

  lemma ReconciledLinks(cfg: Settings, w: World, pr: Proc)
    requires pr.op.Reconcile? && pr.pc == Done && ReconcileInv(cfg, w, pr) && pr.clean
    ensures AllLinked(w)
  {
  }

  lemma FinishedLinks(s: Sys, s': Sys, pid: nat)
    requires RowsLinked(s) && pid in s.procs && s.procs[pid].pc == Done
    requires s' == s.(procs := s.procs - {pid}, phase := s'.phase)
    ensures RowsLinked(s')
  {
    forall id | !Held(s', id) ensures !Held(s, id) {
      forall q | q in s.procs ensures !Moving(s.procs[q], id) { if q != pid { assert !Moving(s'.procs[q], id); } }
    }
  }

  lemma FinishOther(cfg: Settings, s: Sys, s': Sys, pid: nat)
    requires Inv(cfg, s) && pid in s.procs && s.procs[pid].pc == Done && s' == s.(procs := s.procs - {pid})
    requires !s.procs[pid].op.Reconcile?
    ensures Inv(cfg, s')
  {
    if s.phase == Serving { FinishedLinks(s, s', pid); }
  }

  lemma FinishKeepsInv(cfg: Settings, s: Sys, pid: nat)
    requires Inv(cfg, s)
    ensures Inv(cfg, Apply(cfg, s, Finish(pid)))
  {
    if pid in s.procs && s.procs[pid].pc == Done {
      var s' := Apply(cfg, s, Finish(pid));
      if s.procs[pid].op.Reconcile? { FinishReconcile(cfg, s, s', pid); } else { FinishOther(cfg, s, s', pid); }
    }
  }

  lemma FinishKeepsLinks(cfg: Settings, s: Sys, pid: nat)
    requires RowsLinked(s)
    ensures RowsLinked(Apply(cfg, s, Finish(pid)))
  {
    if pid in s.procs && s.procs[pid].pc == Done { FinishedLinks(s, Apply(cfg, s, Finish(pid)), pid); }
  }

  // Only creates run side by side.
  lemma AloneEmpties(procs: map<nat, Proc>, pid: nat)
    requires Exclusive(procs) && pid in procs && !procs[pid].op.Create?
    ensures procs - {pid} == map[]
  {
    assert forall q :: q in procs ==> q == pid;
  }

  lemma ApplyKeepsInv(cfg: Settings, s: Sys, e: Event)
    requires Inv(cfg, s) && Orderly(s, e)
    ensures Inv(cfg, Apply(cfg, s, e))
  {
    match e
    case Start(pid, op) =>
      if pid !in s.procs && Admitted(s, op) { StartedInv(cfg, s, pid, op); }
    case Tick(pid, c) =>
      if pid in s.procs && s.procs[pid].pc != Done { TickKeepsInv(cfg, s, Apply(cfg, s, e), pid, c); }
    case Finish(pid) => FinishKeepsInv(cfg, s, pid);
    case Vanish(cid) => VanishKeepsInv(cfg, s, cid);
    case Crash =>
  }

  /** Every run keeps the invariant. */
  lemma {:induction false} RunKeepsInv(cfg: Settings, s: Sys, es: seq<Event>)
    requires Inv(cfg, s) && OrderlyRun(cfg, s, es)
    ensures Inv(cfg, RunAll(cfg, s, es))
  {
    if es != [] {
      RunKeepsInv(cfg, s, es[..|es| - 1]);
      ApplyKeepsInv(cfg, RunAll(cfg, s, es[..|es| - 1]), es[|es| - 1]);
    }
  }
}
