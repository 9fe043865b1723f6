/** What the whole-run invariant gives an operator. */
module Guarantees {
  import opened Wrappers
  import opened Entities
  import opened Machine
  import opened Invariant
  import opened Steps
  import opened ReconcileSteps
  import opened AllSteps
  import opened System

  // A panel that has just been installed; a world of other people's containers will do too.
  lemma FirstBootIsSound(cfg: Settings, ctrs: Ctrs, nextCid: Cid)
    requires forall c :: c in ctrs ==> c < nextCid && !ctrs[c].managed
    ensures Inv(cfg, Sys(World(map[], ctrs, map[], 0, nextCid), map[], Serving))
  {
  }

  /** Safety, spelled out. */
  ghost predicate Safe(cfg: Settings, s: Sys) {
    var w := s.world;
    && (forall i, j :: i in w.rows && j in w.rows && i != j ==> w.rows[i].port != w.rows[j].port)
    && (forall i :: i in w.rows ==> 1 <= w.rows[i].port <= 65535 && w.rows[i].port !in cfg.reserved)
    && (forall c :: c in w.ctrs && w.ctrs[c].managed && w.ctrs[c].owner in w.rows ==>
          && w.ctrs[c].port == w.rows[w.ctrs[c].owner].port
          && (forall d :: d in w.ctrs && w.ctrs[d].managed && w.ctrs[d].owner == w.ctrs[c].owner ==> d == c)
          && (s.phase == Serving && !Held(s, w.ctrs[c].owner) ==> w.rows[w.ctrs[c].owner].containerId == Some(c)))
  }

  /** Over every sequence of operations, runtime failures, cancellations, crashes and hand
      removals: ports are unique, in range and unreserved; a managed container belongs to no
      row, or is its row's only one, publishes its port and, between operations of a panel whose
      Reconcile finished, is recorded. */
  lemma SafeOverEveryRun(cfg: Settings, s: Sys, es: seq<Event>)
    requires Inv(cfg, s) && OrderlyRun(cfg, s, es)
    ensures Safe(cfg, RunAll(cfg, s, es))
  {
    RunKeepsInv(cfg, s, es);
    InvIsSafe(cfg, RunAll(cfg, s, es));
  }

  lemma InvIsSafe(cfg: Settings, s: Sys)
    requires Inv(cfg, s)
    ensures Safe(cfg, s)
  {
    var w := s.world;
    forall c | c in w.ctrs && w.ctrs[c].managed && w.ctrs[c].owner in w.rows
      ensures w.ctrs[c].port == w.rows[w.ctrs[c].owner].port
      ensures forall d :: d in w.ctrs && w.ctrs[d].managed && w.ctrs[d].owner == w.ctrs[c].owner ==> d == c
      ensures s.phase == Serving && !Held(s, w.ctrs[c].owner) ==> w.rows[w.ctrs[c].owner].containerId == Some(c)
    {
      assert RowOk(cfg, w, w.ctrs[c].owner) && Mine(w.ctrs, c, w.ctrs[c].owner);
      forall d | d in w.ctrs && w.ctrs[d].managed && w.ctrs[d].owner == w.ctrs[c].owner ensures d == c {
        assert Mine(w.ctrs, d, w.ctrs[c].owner);
      }
    }
    forall i | i in w.rows ensures PortAllowed(cfg, w.rows[i].port) { assert RowOk(cfg, w, i); }
  }

  // ---- What never comes back, and what never changes ----

  // The id has been handed out and no Create is still about to insert it.
  ghost predicate Settled(s: Sys, id: Id) {
    && id < s.world.nextId
    && (forall pid ::
      pid in s.procs && s.procs[pid].op.Create? && Asking(s.procs[pid].pc) ==> s.procs[pid].op.row.id != id)
  }

  ghost predicate Gone(w: World, id: Id) { id !in w.rows && id !in w.dirs && Bare(w.ctrs, id) }

  lemma RowIsSettled(cfg: Settings, s: Sys, id: Id)
    requires Inv(cfg, s) && id in s.world.rows
    ensures Settled(s, id)
  {
    forall pid | pid in s.procs && s.procs[pid].op.Create? && Asking(s.procs[pid].pc)
      ensures s.procs[pid].op.row.id != id
    {
      assert CreateInv(cfg, s.world, s.procs[pid]);
    }
  }

  // An operation past its first read works on a stored row.
  lemma AbsentIsIdle(cfg: Settings, w: World, pr: Proc, id: Id)
    requires ProcInv(cfg, w, pr) && pr.pc != Done && Subject(pr.op) == Some(id) && id !in w.rows
    ensures pr.pc == DGet || pr.pc == UGet || pr.pc == RGet
         || (pr.op.Create? && (Asking(pr.pc) || (pr.pc == CUndo && pr.undo == [])))
  {
    match pr.op
    case Create(_) => assert CreateInv(cfg, w, pr);
    case Delete(_) =>
    case UpdateLimits(_, _) =>
    case Recreate(_, _, _) =>
  }

  lemma AbsentStaysAbsent(cfg: Settings, w: World, pr: Proc, c: Choice, id: Id)
    requires ProcInv(cfg, w, pr) && pr.pc != Done && Subject(pr.op) == Some(id) && id !in w.rows
    requires pr.op.Create? ==> !Asking(pr.pc)
    ensures Step(cfg, pr, w, c).1 == w
  {
    AbsentIsIdle(cfg, w, pr, id);
  }

  // Reconcile works on stored rows only.
  lemma ReconcileAbsent(cfg: Settings, w: World, pr: Proc, c: Choice, id: Id)
    requires pr.op.Reconcile? && ProcInv(cfg, w, pr) && pr.pc != Done && pr.p.id == id && id !in w.rows
    ensures Step(cfg, pr, w, c).1 == w
  {
    assert ReconcileInv(cfg, w, pr);
    assert pr.pc == KRows || pr.pc == KCtrs || pr.pc == KPick;
  }

  lemma StepKeepsGone(cfg: Settings, w: World, pr: Proc, c: Choice, id: Id)
    requires Base(cfg, w) && ProcInv(cfg, w, pr) && pr.pc != Done && Lands(pr, c) && Gone(w, id)
    requires pr.op.Create? && Asking(pr.pc) ==> pr.op.row.id != id
    ensures Gone(Step(cfg, pr, w, c).1, id)
  {
    EveryStepKeeps(cfg, pr, w, c);
    var w' := Step(cfg, pr, w, c).1;
    if Subject(pr.op) == Some(id) { AbsentStaysAbsent(cfg, w, pr, c, id); }
    else if pr.op.Reconcile? && pr.p.id == id { ReconcileAbsent(cfg, w, pr, c, id); }
    else { assert forall d: Cid :: Mine(w'.ctrs, d, id) ==> Mine(w.ctrs, d, id); }
  }

  lemma ApplyKeepsGone(cfg: Settings, s: Sys, e: Event, id: Id)
    requires Inv(cfg, s) && Orderly(s, e) && Settled(s, id) && Gone(s.world, id)
    ensures Gone(Apply(cfg, s, e).world, id)
  {
    match e
    case Start(_, _) =>
    case Tick(pid, c) =>
      if pid in s.procs && s.procs[pid].pc != Done { StepKeepsGone(cfg, s.world, s.procs[pid], c, id); }
    case Finish(_) =>
    case Vanish(cid) =>
      assert forall d: Cid :: Mine(EraseContainer(s.world, cid).ctrs, d, id) ==> Mine(s.world.ctrs, d, id);
    case Crash =>
  }

  lemma TickKeepsSettled(cfg: Settings, s: Sys, pid: nat, c: Choice, id: Id)
    requires Inv(cfg, s) && pid in s.procs && s.procs[pid].pc != Done && Lands(s.procs[pid], c) && Settled(s, id)
    ensures var (pr', w') := Step(cfg, s.procs[pid], s.world, c);
      Settled(Sys(w', s.procs[pid := pr'], s.phase), id)
  {
    EveryStepKeeps(cfg, s.procs[pid], s.world, c);
    if s.procs[pid].op.Create? && Asking(Step(cfg, s.procs[pid], s.world, c).0.pc) {
      AskingIsFirst(cfg, s.procs[pid], s.world, c);
    }
    ReplacedIsSettled(s, Step(cfg, s.procs[pid], s.world, c).1, pid, Step(cfg, s.procs[pid], s.world, c).0, id);
  }

  lemma ReplacedIsSettled(s: Sys, w': World, pid: nat, pr': Proc, id: Id)
    requires Settled(s, id) && pid in s.procs && pr'.op == s.procs[pid].op && w'.nextId >= s.world.nextId
    requires pr'.op.Create? && Asking(pr'.pc) ==> Asking(s.procs[pid].pc)
    ensures Settled(Sys(w', s.procs[pid := pr'], s.phase), id)
  {
  }

  lemma ApplyKeepsSettled(cfg: Settings, s: Sys, e: Event, id: Id)
    requires Inv(cfg, s) && Orderly(s, e) && Settled(s, id)
    ensures Settled(Apply(cfg, s, e), id)
  {
    match e
    case Start(_, _) =>
    case Tick(pid, c) =>
      if pid in s.procs && s.procs[pid].pc != Done { TickKeepsSettled(cfg, s, pid, c, id); }
    case Finish(_) =>
    case Vanish(_) =>
    case Crash =>
  }

  lemma ClaimedAskNoMore(cfg: Settings, pr: Proc, w: World, c: Choice)
    requires Claimed(pr.pc)
    ensures !Asking(CreateStep(cfg, pr, w, c).0.pc)
  {
  }

  lemma BuiltAskNoMore(cfg: Settings, pr: Proc, w: World, c: Choice)
    requires !Asking(pr.pc) && !Claimed(pr.pc)
    ensures !Asking(CreateStep(cfg, pr, w, c).0.pc)
  {
  }

  lemma AskingIsFirst(cfg: Settings, pr: Proc, w: World, c: Choice)
    requires pr.op.Create? && Asking(Step(cfg, pr, w, c).0.pc)
    ensures Asking(pr.pc)
  {
    if Claimed(pr.pc) { ClaimedAskNoMore(cfg, Aware(pr, c), w, c); }
    else if !Asking(pr.pc) && pr.pc != Done { BuiltAskNoMore(cfg, Aware(pr, c), w, c); }
  }

  /** A proxy without row, directory or container never reappears under its id. */
  lemma {:induction false} GoneForever(cfg: Settings, s: Sys, es: seq<Event>, id: Id)
    requires Inv(cfg, s) && OrderlyRun(cfg, s, es) && Settled(s, id) && Gone(s.world, id)
    ensures Settled(RunAll(cfg, s, es), id) && Gone(RunAll(cfg, s, es).world, id)
  {
    if es != [] {
      var n := |es| - 1;
      GoneForever(cfg, s, es[..n], id);
      RunKeepsInv(cfg, s, es[..n]);
      ApplyKeepsSettled(cfg, RunAll(cfg, s, es[..n]), es[n], id);
      ApplyKeepsGone(cfg, RunAll(cfg, s, es[..n]), es[n], id);
    }
  }

  // ---- Delete ----

  lemma LastStepLeavesNothing(cfg: Settings, w: World, pr: Proc, c: Choice)
    requires pr.op.Delete? && pr.pc == DRow && DeleteInv(cfg, w, pr)
    requires Step(cfg, pr, w, c).0.pc == Done && Step(cfg, pr, w, c).0.err.None?
    ensures Gone(Step(cfg, pr, w, c).1, pr.op.id)
  {
  }

  lemma OnlyLastStepEnds(cfg: Settings, w: World, pr: Proc, c: Choice)
    requires pr.op.Delete? && pr.pc != Done && pr.pc != DRow && DeleteInv(cfg, w, pr)
    ensures Step(cfg, pr, w, c).0.pc == Done ==> Step(cfg, pr, w, c).0.err.Some?
  {
  }

  ghost predicate BeingDeleted(cfg: Settings, id: Id, pr: Proc, w: World) {
    && pr.op == Delete(id) && Base(cfg, w) && ProcInv(cfg, w, pr)
    && (pr.pc == Done && pr.err.None? ==> Gone(w, id))
  }

  lemma StepDeletes(cfg: Settings, id: Id, pr: Proc, w: World, c: Choice)
    requires BeingDeleted(cfg, id, pr, w) && Lands(pr, c)
    ensures BeingDeleted(cfg, id, Step(cfg, pr, w, c).0, Step(cfg, pr, w, c).1)
  {
    if pr.pc == Done { AwareInv(cfg, w, pr, c); }
    else {
      EveryStepKeeps(cfg, pr, w, c);
      if pr.pc != DRow { OnlyLastStepEnds(cfg, w, pr, c); }
      else if Step(cfg, pr, w, c).0.pc == Done && Step(cfg, pr, w, c).0.err.None? {
        LastStepLeavesNothing(cfg, w, pr, c);
      }
    }
  }

  lemma {:induction false} RunDeletes(cfg: Settings, w: World, id: Id, cs: seq<Choice>)
    requires Base(cfg, w) && Linked(w.rows, w.ctrs, id) && RunLands(cfg, Begin(Delete(id)), w, cs)
    ensures BeingDeleted(cfg, id, Run(cfg, Begin(Delete(id)), w, cs).0, Run(cfg, Begin(Delete(id)), w, cs).1)
  {
    if cs != [] {
      var n := |cs| - 1;
      RunLandsPrefix(cfg, Begin(Delete(id)), w, cs);
      RunDeletes(cfg, w, id, cs[..n]);
      StepDeletes(cfg, id, Run(cfg, Begin(Delete(id)), w, cs[..n]).0, Run(cfg, Begin(Delete(id)), w, cs[..n]).1, cs[n]);
    }
  }

  /** A Delete of a proxy whose row records its container, and that returns no error, has left no
      row, no directory and no container. */
  lemma DeleteLeavesNothing(cfg: Settings, w: World, id: Id, cs: seq<Choice>)
    requires Base(cfg, w) && Linked(w.rows, w.ctrs, id) && RunLands(cfg, Begin(Delete(id)), w, cs)
    requires Run(cfg, Begin(Delete(id)), w, cs).0.pc == Done && Run(cfg, Begin(Delete(id)), w, cs).0.err.None?
    ensures Gone(Run(cfg, Begin(Delete(id)), w, cs).1, id)
  {
    RunDeletes(cfg, w, id, cs);
  }

  /** ... and, whatever happens afterwards, nothing of it ever comes back. */
  lemma DeleteIsFinal(cfg: Settings, s: Sys, pid: nat, c: Choice, es: seq<Event>)
    requires Inv(cfg, s) && pid in s.procs && s.procs[pid].op.Delete? && s.procs[pid].pc == DRow
    requires Orderly(s, Tick(pid, c)) && OrderlyRun(cfg, Apply(cfg, s, Tick(pid, c)), es)
    ensures Gone(RunAll(cfg, Apply(cfg, s, Tick(pid, c)), es).world, s.procs[pid].op.id)
  {
    var id, s' := s.procs[pid].op.id, Apply(cfg, s, Tick(pid, c));
    ApplyKeepsInv(cfg, s, Tick(pid, c));
    assert ProcInv(cfg, s.world, s.procs[pid]);
    LastStepLeavesNothing(cfg, s.world, s.procs[pid], c);
    RowIsSettled(cfg, s, id);
    ApplyKeepsSettled(cfg, s, Tick(pid, c), id);
    GoneForever(cfg, s', es, id);
  }

  // ---- RemoveOrphan ----

  /** RemoveOrphan never touches a container that belongs to a row. */
  lemma RemoveOrphanSparesRows(cfg: Settings, w: World, pr: Proc, c: Choice, id: Id, d: Cid)
    requires pr.op.RemoveOrphan? && pr.pc != Done && Base(cfg, w) && ProcInv(cfg, w, pr) && Lands(pr, c)
    requires id in w.rows && (Mine(w.ctrs, d, id) || (w.rows[id].containerId == Some(d) && d in w.ctrs))
    ensures var w' := Step(cfg, pr, w, c).1; w'.rows == w.rows && d in w'.ctrs && w'.ctrs[d] == w.ctrs[d]
  {
    EveryStepKeeps(cfg, pr, w, c);
    assert RowOk(cfg, w, id);
  }
}
