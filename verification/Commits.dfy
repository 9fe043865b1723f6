/** The point of no return: once a container has been started, or the old one removed,
    the outcome is recorded whatever happens to the caller. */
module Commits {
  import opened Wrappers
  import opened Entities
  import opened Machine
  import opened Invariant
  import opened Steps
  import opened ReconcileSteps
  import opened AllSteps
  import opened System
  import opened Launches

  predicate Outcome(p: Proxy) { p.state == Running || p.state == Error }

  // Neither a crash nor the end of the call itself.
  predicate During(e: Event, pid: nat) { e != Crash && e != Finish(pid) }

  predicate AllDuring(es: seq<Event>, pid: nat) { forall e :: e in es ==> During(e, pid) }

  // ---- Create ----

  // Past the start of the container, with the request unchanged; when done, stored.
  ghost predicate Committing(s: Sys, pid: nat, row: Proxy, cid: Cid) {
    && pid in s.procs && s.procs[pid].op == Create(row) && s.procs[pid].err.None?
    && (s.procs[pid].pc == CHealth || s.procs[pid].pc == CCommit || s.procs[pid].pc == Done)
    && s.procs[pid].p
      == row.(containerId := Some(cid), state := s.procs[pid].p.state, message := s.procs[pid].p.message)
    && (s.procs[pid].pc == Done ==> Stored(s.world.rows, s.procs[pid].p) && Outcome(s.procs[pid].p))
  }

  lemma CommittingStep(cfg: Settings, w: World, pr: Proc, c: Choice)
    requires pr.op.Create? && (pr.pc == CHealth || pr.pc == CCommit) && Base(cfg, w)
    requires CreateInv(cfg, w, pr) && Lands(pr, c)
    ensures var (pr', w') := CreateStep(cfg, pr, w, c);
      && pr'.op == pr.op && pr'.err == pr.err && pr'.pc == (if pr.pc == CHealth then CCommit else Done)
      && pr'.p == pr.p.(state := pr'.p.state, message := pr'.p.message) && Outcome(pr'.p)
      && (pr.pc == CCommit ==> Stored(w'.rows, pr'.p) && pr'.p == pr.p)
  {
    if pr.pc == CCommit { SaveKeeps(cfg, w, pr.p, c); }
  }

  lemma OwnTickCommits(cfg: Settings, s: Sys, s': Sys, pid: nat, row: Proxy, cid: Cid, c: Choice)
    requires pid in s.procs && Base(cfg, s.world) && ProcInv(cfg, s.world, s.procs[pid])
    requires Committing(s, pid, row, cid) && Ticked(cfg, s, s', pid, c)
    ensures Committing(s', pid, row, cid)
  {
    AwareInv(cfg, s.world, s.procs[pid], c);
    CommittingStep(cfg, s.world, Aware(s.procs[pid], c), c);
  }

  lemma OtherTickCommits(s: Sys, s': Sys, pid: nat, row: Proxy, cid: Cid, i: Id)
    requires Committing(s, pid, row, cid) && pid in s'.procs && s'.procs[pid] == s.procs[pid]
    requires Elsewhere(s.world, s'.world, i) && i != row.id
    ensures Committing(s', pid, row, cid)
  {
  }

  lemma OthersTickCommits(cfg: Settings, s: Sys, s': Sys, pid: nat, row: Proxy, cid: Cid, q: nat, c: Choice)
    requires Inv(cfg, s) && Committing(s, pid, row, cid) && Ticked(cfg, s, s', q, c) && q != pid
    ensures Committing(s', pid, row, cid)
  {
    TickIsStep(cfg, s, s', q, c);
    OtherTickCommits(s, s', pid, row, cid, s.procs[q].op.row.id);
  }

  lemma TickKeepsCommitting(cfg: Settings, s: Sys, s': Sys, pid: nat, row: Proxy, cid: Cid, q: nat, c: Choice)
    requires Inv(cfg, s) && Committing(s, pid, row, cid) && Ticked(cfg, s, s', q, c)
    ensures Committing(s', pid, row, cid)
  {
    if q == pid {
      assert ProcInv(cfg, s.world, s.procs[q]);
      OwnTickCommits(cfg, s, s', pid, row, cid, c);
    } else {
      OthersTickCommits(cfg, s, s', pid, row, cid, q, c);
    }
  }

  // Events that leave the call's own process and row alone.
  lemma StillCommitting(s: Sys, s': Sys, pid: nat, row: Proxy, cid: Cid)
    requires Committing(s, pid, row, cid) && pid in s'.procs && s'.procs[pid] == s.procs[pid]
    requires s'.world.rows == s.world.rows
    ensures Committing(s', pid, row, cid)
  {
  }

  predicate Ticks(s: Sys, e: Event) { e.Tick? && e.pid in s.procs && s.procs[e.pid].pc != Done }

  lemma RestKeepsCommitting(cfg: Settings, s: Sys, e: Event, pid: nat, row: Proxy, cid: Cid)
    requires During(e, pid) && Committing(s, pid, row, cid) && !Ticks(s, e)
    ensures Committing(Apply(cfg, s, e), pid, row, cid)
  {
    StillCommitting(s, Apply(cfg, s, e), pid, row, cid);
  }

  lemma ApplyKeepsCommitting(cfg: Settings, s: Sys, e: Event, pid: nat, row: Proxy, cid: Cid)
    requires Inv(cfg, s) && Orderly(s, e) && During(e, pid) && Committing(s, pid, row, cid)
    ensures Committing(Apply(cfg, s, e), pid, row, cid)
  {
    if Ticks(s, e) { TickKeepsCommitting(cfg, s, Apply(cfg, s, e), pid, row, cid, e.pid, e.choice); }
    else { RestKeepsCommitting(cfg, s, e, pid, row, cid); }
  }

  /** Once a Create's container has started, then for as long as the call lasts - its own
      steps, other calls, cancellation, failures, containers removed by hand - it is on its
      way to, or has reached, a stored row that is "running" or "error", carries everything
      the request asked for and records that container; it returns that row; and the container
      runs, unless somebody has removed it. */
  lemma {:induction false} StartedCreateIsRecorded(cfg: Settings, s: Sys, pid: nat, es: seq<Event>)
    requires Inv(cfg, s) && AllLit(s) && pid in s.procs && s.procs[pid].op.Create? && s.procs[pid].pc == CHealth
    requires OrderlyRun(cfg, s, es) && AllDuring(es, pid)
    ensures s.procs[pid].p.containerId.Some?
    ensures var t, cid := RunAll(cfg, s, es), s.procs[pid].p.containerId.value;
      Committing(t, pid, s.procs[pid].op.row, cid) && (cid in t.world.ctrs ==> t.world.ctrs[cid].running)
  {
    assert CreateInv(cfg, s.world, s.procs[pid]);
    LaunchedRuns(cfg, s, es);
    if es != [] {
      var n := |es| - 1;
      StartedCreateIsRecorded(cfg, s, pid, es[..n]);
      RunKeepsInv(cfg, s, es[..n]);
      ApplyKeepsCommitting(cfg, RunAll(cfg, s, es[..n]), es[n], pid, s.procs[pid].op.row,
        s.procs[pid].p.containerId.value);
    }
  }

  // ---- Recreate ----

  // From the removal of the old container on.
  predicate PastRemoval(pc: Pc) { pc == RPort || pc == RMkdir || pc == RWrite || Starting(pc) || pc == Done }

  ghost predicate Replacing(cfg: Settings, w: World, pr: Proc, op: Op) {
    && op.Recreate? && pr.op == op && PastRemoval(pr.pc)
    && pr.p.id == op.id && pr.p.port == op.port && pr.p.tlsDomain == op.tlsDomain
    && (pr.pc == RPort ==> !PortHeld(w.rows, pr.p.port, op.id))
    && (pr.pc == RPort || pr.pc == RMkdir || pr.pc == RWrite ==> Rendered(cfg, pr.p).Some?)
    && (pr.pc == RPort || pr.pc == RMkdir || pr.pc == RWrite || pr.pc == SBuild ==>
          pr.unbuilt == {} && pr.p.containerId.None?)
    && (pr.p.containerId.None? && pr.pc != Done
      ==> pr.pc != SStart && pr.pc != SStartFailed && pr.pc != SHealth && pr.pc != SCommit)
    && (Starting(pr.pc) || pr.pc == Done ==> (op.id in pr.unbuilt <==> pr.p.containerId.None? && pr.pc != SBuild))
    && (pr.pc == Done ==> Stored(w.rows, pr.p) && Outcome(pr.p))
  }

  // The config file can be written.
  predicate Writable(pr: Proc, c: Choice) { Lands(pr, c) && (pr.pc == RMkdir || pr.pc == RWrite ==> !c.fail) }

  lemma ReplacingWrites(cfg: Settings, w: World, pr: Proc, c: Choice)
    requires pr.op.Recreate? && (pr.pc == RPort || pr.pc == RMkdir || pr.pc == RWrite)
    requires RecreateInv(cfg, w, pr) && Replacing(cfg, w, pr, pr.op) && Writable(pr, c)
    ensures Replacing(cfg, RecreateStep(cfg, pr, w, c).1, RecreateStep(cfg, pr, w, c).0, pr.op)
  {
  }

  lemma ReplacingBuilds(cfg: Settings, w: World, pr: Proc, c: Choice)
    requires pr.op.Recreate? && (pr.pc == SBuild || pr.pc == SStart || pr.pc == SHealth)
    requires RecreateInv(cfg, w, pr) && Replacing(cfg, w, pr, pr.op)
    ensures Replacing(cfg, StartStep(pr, w, c).1, StartStep(pr, w, c).0, pr.op)
  {
  }

  lemma ReplacingRecords(cfg: Settings, w: World, pr: Proc, c: Choice)
    requires pr.op.Recreate? && (pr.pc == SBuildFailed || pr.pc == SStartFailed || pr.pc == SCommit)
    requires Base(cfg, w) && RecreateInv(cfg, w, pr) && Replacing(cfg, w, pr, pr.op) && Lands(pr, c)
    ensures Replacing(cfg, StartStep(pr, w, c).1, StartStep(pr, w, c).0, pr.op)
  {
    StartRecordsWorld(cfg, pr, w, c);
  }

  lemma ReplacingStep(cfg: Settings, w: World, pr: Proc, c: Choice)
    requires pr.op.Recreate? && pr.pc != Done && Base(cfg, w) && RecreateInv(cfg, w, pr)
    requires Replacing(cfg, w, pr, pr.op) && Writable(pr, c)
    ensures Replacing(cfg, RecreateStep(cfg, pr, w, c).1, RecreateStep(cfg, pr, w, c).0, pr.op)
  {
    if pr.pc == SBuild || pr.pc == SStart || pr.pc == SHealth { ReplacingBuilds(cfg, w, pr, c); }
    else if Starting(pr.pc) { ReplacingRecords(cfg, w, pr, c); }
    else { ReplacingWrites(cfg, w, pr, c); }
  }

  // The rest of the call, with any environment.
  predicate WritableRun(cfg: Settings, pr: Proc, w: World, cs: seq<Choice>) {
    cs != [] ==> WritableRun(cfg, pr, w, cs[..|cs| - 1]) && Writable(Run(cfg, pr, w, cs[..|cs| - 1]).0, cs[|cs| - 1])
  }

  // The new port turns out to be another row's: the call ends there, having stored nothing.
  predicate Clashing(w0: World, pr: Proc, w: World, op: Op) {
    pr.op == op && w == w0 && pr.undo == [] && (pr.pc == RPort || (pr.pc == Done && pr.err == Some(PortTaken)))
  }

  // The guard refuses the new spec: the call ends with the move stored, but not carried out.
  predicate Refusing(w0: World, p: Proxy, pr: Proc, w: World, op: Op) {
    && pr.op == op && pr.p == p && w.ctrs == w0.ctrs && pr.undo == []
    && (if pr.pc == RPort then w == w0 else w.rows == w0.rows[p.id := p])
    && (pr.pc == RPort || pr.pc == RMkdir || pr.pc == RWrite || (pr.pc == Done && pr.err == Some(ConfigInvalid)))
  }

  lemma ClashingStep(cfg: Settings, w0: World, pr: Proc, w: World, op: Op, c: Choice)
    requires Clashing(w0, pr, w, op) && op.Recreate? && pr.pc == RPort && pr.p.id == op.id && op.id in w.rows
    requires PortHeld(w.rows, pr.p.port, op.id) && !c.fail
    ensures Clashing(w0, RecreateStep(cfg, pr, w, c).0, RecreateStep(cfg, pr, w, c).1, op)
  {
    assert RecreateStep(cfg, pr, w, c) == Commit(pr, w, c, RMkdir);
  }

  lemma RefusingPort(cfg: Settings, w0: World, pr: Proc, w: World, op: Op, c: Choice)
    requires Refusing(w0, pr.p, pr, w, op) && op.Recreate? && pr.pc == RPort && pr.p.id in w.rows
    requires !PortHeld(w.rows, pr.p.port, pr.p.id) && !c.fail
    ensures Refusing(w0, pr.p, RecreateStep(cfg, pr, w, c).0, RecreateStep(cfg, pr, w, c).1, op)
  {
    assert RecreateStep(cfg, pr, w, c) == Commit(pr, w, c, RMkdir);
  }

  lemma RefusingWrite(cfg: Settings, w0: World, pr: Proc, w: World, op: Op, c: Choice)
    requires Refusing(w0, pr.p, pr, w, op) && op.Recreate? && (pr.pc == RMkdir || pr.pc == RWrite)
    requires Rendered(cfg, pr.p).None? && !c.fail
    ensures Refusing(w0, pr.p, RecreateStep(cfg, pr, w, c).0, RecreateStep(cfg, pr, w, c).1, op)
  {
  }

  // Which of the three the call is heading for is settled when the old container is gone.
  ghost predicate PastRemovalOf(cfg: Settings, w0: World, p: Proxy, pr: Proc, w: World, op: Op) {
    && op.Recreate? && pr.op == op && Base(cfg, w) && ProcInv(cfg, w, pr)
    && (if PortHeld(w0.rows, p.port, op.id) then Clashing(w0, pr, w, op) && pr.p == p
        else if Rendered(cfg, p).None? then Refusing(w0, p, pr, w, op)
        else Replacing(cfg, w, pr, op))
  }

  lemma AwareTracks(cfg: Settings, w0: World, p: Proxy, pr: Proc, w: World, op: Op, c: Choice)
    requires PastRemovalOf(cfg, w0, p, pr, w, op)
    ensures PastRemovalOf(cfg, w0, p, Aware(pr, c), w, op)
  {
    AwareInv(cfg, w, pr, c);
  }

  lemma ClashingTracks(cfg: Settings, w0: World, p: Proxy, pr: Proc, w: World, op: Op, c: Choice)
    requires PastRemovalOf(cfg, w0, p, pr, w, op) && pr.pc != Done && Writable(pr, c)
    requires PortHeld(w0.rows, p.port, op.id)
    ensures var (pr', w') := RecreateStep(cfg, pr, w, c); Clashing(w0, pr', w', op) && pr'.p == p
  {
    assert RecreateInv(cfg, w, pr);
    ClashingStep(cfg, w0, pr, w, op, c);
  }

  lemma RefusingTracks(cfg: Settings, w0: World, p: Proxy, pr: Proc, w: World, op: Op, c: Choice)
    requires PastRemovalOf(cfg, w0, p, pr, w, op) && pr.pc != Done && Writable(pr, c)
    requires !PortHeld(w0.rows, p.port, op.id) && Rendered(cfg, p).None?
    ensures var (pr', w') := RecreateStep(cfg, pr, w, c); Refusing(w0, p, pr', w', op)
  {
    assert RecreateInv(cfg, w, pr);
    if pr.pc == RPort { RefusingPort(cfg, w0, pr, w, op, c); } else { RefusingWrite(cfg, w0, pr, w, op, c); }
  }

  lemma StepTracks(cfg: Settings, w0: World, p: Proxy, pr: Proc, w: World, op: Op, c: Choice)
    requires PastRemovalOf(cfg, w0, p, pr, w, op) && Writable(pr, c)
    ensures PastRemovalOf(cfg, w0, p, Step(cfg, pr, w, c).0, Step(cfg, pr, w, c).1, op)
  {
    AwareTracks(cfg, w0, p, pr, w, op, c);
    if pr.pc != Done {
      EveryStepKeeps(cfg, pr, w, c);
      StepIsRecreate(cfg, w, pr, c);
      if PortHeld(w0.rows, p.port, op.id) { ClashingTracks(cfg, w0, p, Aware(pr, c), w, op, c); }
      else if Rendered(cfg, p).None? { RefusingTracks(cfg, w0, p, Aware(pr, c), w, op, c); }
      else { ReplacingStep(cfg, w, Aware(pr, c), c); }
    }
  }

  lemma {:induction false} RunTracks(cfg: Settings, w: World, pr: Proc, cs: seq<Choice>)
    requires PastRemovalOf(cfg, w, pr.p, pr, w, pr.op) && WritableRun(cfg, pr, w, cs)
    ensures PastRemovalOf(cfg, w, pr.p, Run(cfg, pr, w, cs).0, Run(cfg, pr, w, cs).1, pr.op)
  {
    if cs != [] {
      var n := |cs| - 1;
      RunTracks(cfg, w, pr, cs[..n]);
      StepTracks(cfg, w, pr.p, Run(cfg, pr, w, cs[..n]).0, Run(cfg, pr, w, cs[..n]).1, pr.op, cs[n]);
    }
  }

  lemma RemovalTracks(cfg: Settings, w: World, pr: Proc)
    requires pr.op.Recreate? && pr.pc == RPort && Base(cfg, w) && ProcInv(cfg, w, pr)
    ensures PastRemovalOf(cfg, w, pr.p, pr, w, pr.op)
    ensures pr.p.id == pr.op.id && pr.op.id in w.rows && Bare(w.ctrs, pr.op.id) && pr.p.port == pr.op.port
    ensures pr.p.state == Recreating
  {
    assert RecreateInv(cfg, w, pr);
  }

  // The row is at the requested port and domain, running or in error.
  predicate MoveStored(w: World, op: Op)
    requires op.Recreate?
  {
    op.id in w.rows && w.rows[op.id].port == op.port && w.rows[op.id].tlsDomain == op.tlsDomain
      && Outcome(w.rows[op.id])
  }

  // How a call that found its new port taken, or its new spec refused, has left things.
  predicate Stranded(cfg: Settings, w0: World, p: Proxy, pr: Proc, w: World) {
    if PortHeld(w0.rows, p.port, p.id) then pr.err == Some(PortTaken) && w == w0
    else pr.err == Some(ConfigInvalid) && w.rows == w0.rows[p.id := p] && w.ctrs == w0.ctrs
  }

  /** Once Recreate has removed the old container - its config directory being writable - the move
      ends up stored, running or in error, whatever the context does, if and only if no other row
      holds the new port and the config guard accepts the new spec; the row then records a
      container exactly when the runtime created one. Otherwise the proxy is left without a
      container: on its old port, or on the new one still "recreating". */
  lemma RemovedRecreateIsRecorded(cfg: Settings, w: World, pr: Proc, cs: seq<Choice>)
    requires pr.op.Recreate? && pr.pc == RPort && Base(cfg, w) && ProcInv(cfg, w, pr)
    requires WritableRun(cfg, pr, w, cs) && Run(cfg, pr, w, cs).0.pc == Done
    ensures var (pr', w') := Run(cfg, pr, w, cs);
      && Base(cfg, w')
      && (MoveStored(w', pr.op) <==> !PortHeld(w.rows, pr.op.port, pr.op.id) && Rendered(cfg, pr.p).Some?)
      && (MoveStored(w', pr.op) ==>
            w'.rows[pr.op.id] == pr'.p && (pr'.p.containerId.None? <==> pr.op.id in pr'.unbuilt))
      && (!MoveStored(w', pr.op) ==> Stranded(cfg, w, pr.p, pr', w') && Bare(w'.ctrs, pr.op.id))
  {
    RemovalTracks(cfg, w, pr);
    RunTracks(cfg, w, pr, cs);
    TrackEnds(cfg, w, pr.p, Run(cfg, pr, w, cs).0, Run(cfg, pr, w, cs).1, pr.op);
  }

  // Where each of the three tracks ends.
  lemma TrackEnds(cfg: Settings, w0: World, p: Proxy, pr: Proc, w: World, op: Op)
    requires PastRemovalOf(cfg, w0, p, pr, w, op) && pr.pc == Done && Base(cfg, w0) && Bare(w0.ctrs, op.id)
    requires op.id in w0.rows && p.id == op.id && p.port == op.port && p.state == Recreating
    ensures MoveStored(w, op) <==> !PortHeld(w0.rows, op.port, op.id) && Rendered(cfg, p).Some?
    ensures MoveStored(w, op) ==> w.rows[op.id] == pr.p && (pr.p.containerId.None? <==> op.id in pr.unbuilt)
    ensures !MoveStored(w, op) ==> Stranded(cfg, w0, p, pr, w) && Bare(w.ctrs, op.id)
  {
    if PortHeld(w0.rows, op.port, op.id) { ClashIsNoMove(cfg, w0, op); }
    else if Rendered(cfg, p).Some? { ReplacedIsStored(cfg, w, pr, op); }
    else { RefusedIsNoMove(cfg, w0, p, pr, w, op); }
  }

  lemma RefusedIsNoMove(cfg: Settings, w0: World, p: Proxy, pr: Proc, w: World, op: Op)
    requires Refusing(w0, p, pr, w, op) && pr.pc == Done && op.Recreate? && p.id == op.id && p.state == Recreating
    requires !PortHeld(w0.rows, p.port, p.id) && Bare(w0.ctrs, op.id)
    ensures !MoveStored(w, op) && Stranded(cfg, w0, p, pr, w) && Bare(w.ctrs, op.id)
  {
  }

  lemma ReplacedIsStored(cfg: Settings, w: World, pr: Proc, op: Op)
    requires Replacing(cfg, w, pr, op) && pr.pc == Done
    ensures MoveStored(w, op) && w.rows[op.id] == pr.p && (pr.p.containerId.None? <==> op.id in pr.unbuilt)
  {
  }

  // Ports being unique, a proxy whose new port is another's is not at it.
  lemma ClashIsNoMove(cfg: Settings, w: World, op: Op)
    requires op.Recreate? && Base(cfg, w) && PortHeld(w.rows, op.port, op.id)
    ensures !MoveStored(w, op)
  {
  }

  // ---- Recreate, from its start ----

  predicate Calm(c: Choice) { !c.cancel && !c.fail }

  // The request passes the checks made before anything is touched.
  predicate MoveChecks(cfg: Settings, w: World, op: Op)
    requires op.Recreate? && op.id in w.rows
  {
    (op.port == w.rows[op.id].port || PortAllowed(cfg, op.port)) && op.tlsDomain != ""
  }

  function MovedRow(w: World, op: Op): Proxy
    requires op.Recreate? && op.id in w.rows
  {
    w.rows[op.id].(state := Recreating, port := op.port, tlsDomain := op.tlsDomain, containerId := None)
  }

  // The row marked, its recorded container removed.
  function Removed(w: World, op: Op): World
    requires op.Recreate? && op.id in w.rows
  {
    var p := w.rows[op.id];
    w.(rows := w.rows[op.id := p.(state := Recreating)],
       ctrs := if p.containerId.Some? then w.ctrs - {p.containerId.value} else w.ctrs)
  }

  lemma FetchStep(cfg: Settings, w: World, op: Op, c: Choice)
    requires op.Recreate? && op.id in w.rows && Calm(c)
    ensures Step(cfg, Begin(op), w, c) == (Begin(op).(pc := RCheck, p := w.rows[op.id]), w)
  {
  }

  lemma CheckStep(cfg: Settings, w: World, op: Op, c: Choice)
    requires op.Recreate? && op.id in w.rows && Calm(c)
    ensures var (pr', w') := Step(cfg, Begin(op).(pc := RCheck, p := w.rows[op.id]), w, c);
      && w' == w
      && (MoveChecks(cfg, w, op) ==> pr' == Begin(op).(pc := RMark, p := w.rows[op.id].(state := Recreating)))
      && (!MoveChecks(cfg, w, op) ==> pr'.pc == Done && pr'.err.Some? && !pr'.cancelled)
  {
  }

  lemma MarkStep(cfg: Settings, w: World, op: Op, c: Choice)
    requires op.Recreate? && op.id in w.rows && w.rows[op.id].id == op.id && PortsUnique(w.rows) && Calm(c)
    ensures var p := w.rows[op.id].(state := Recreating);
      Step(cfg, Begin(op).(pc := RMark, p := p), w, c)
        == (Begin(op).(pc := RRemove, p := p), w.(rows := w.rows[op.id := p]))
  {
    var p := w.rows[op.id].(state := Recreating);
    assert !PortHeld(w.rows, p.port, p.id);
  }

  lemma RemoveStep(cfg: Settings, w: World, op: Op, c: Choice)
    requires op.Recreate? && op.id in w.rows && Calm(c)
    ensures var p := w.rows[op.id].(state := Recreating);
      Step(cfg, Begin(op).(pc := RRemove, p := p), w.(rows := w.rows[op.id := p]), c)
        == (Begin(op).(pc := RPort, p := MovedRow(w, op)), Removed(w, op))
  {
  }

  lemma DoneStays(cfg: Settings, pr: Proc, w: World, c: Choice)
    requires pr.pc == Done
    ensures Step(cfg, pr, w, c) == (Aware(pr, c), w)
  {
  }

  predicate FourCalm(cs: seq<Choice>) { |cs| == 4 && Calm(cs[0]) && Calm(cs[1]) && Calm(cs[2]) && Calm(cs[3]) }

  lemma FourSteps(cfg: Settings, pr: Proc, w: World, cs: seq<Choice>)
    requires |cs| == 4
    ensures var r1 := Step(cfg, pr, w, cs[0]); var r2 := Step(cfg, r1.0, r1.1, cs[1]);
      var r3 := Step(cfg, r2.0, r2.1, cs[2]);
      Run(cfg, pr, w, cs) == Step(cfg, r3.0, r3.1, cs[3])
  {
    RunSnoc(cfg, pr, w, [], cs[0]);
    RunSnoc(cfg, pr, w, [cs[0]], cs[1]);
    RunSnoc(cfg, pr, w, [cs[0], cs[1]], cs[2]);
    RunSnoc(cfg, pr, w, [cs[0], cs[1], cs[2]], cs[3]);
    assert [] + [cs[0]] == [cs[0]] && [cs[0]] + [cs[1]] == [cs[0], cs[1]]
      && [cs[0], cs[1]] + [cs[2]] == [cs[0], cs[1], cs[2]];
    assert cs == [cs[0], cs[1], cs[2]] + [cs[3]];
  }

  // Four undisturbed steps refuse the request, or remove the old container.
  lemma CalmRemoval(cfg: Settings, w: World, op: Op, cs: seq<Choice>)
    requires op.Recreate? && op.id in w.rows && w.rows[op.id].id == op.id && PortsUnique(w.rows) && FourCalm(cs)
    ensures var (pr', w') := Run(cfg, Begin(op), w, cs);
      if MoveChecks(cfg, w, op) then pr' == Begin(op).(pc := RPort, p := MovedRow(w, op)) && w' == Removed(w, op)
      else pr'.pc == Done && pr'.err.Some? && w' == w
  {
    FourSteps(cfg, Begin(op), w, cs);
    FetchStep(cfg, w, op, cs[0]);
    CheckStep(cfg, w, op, cs[1]);
    if MoveChecks(cfg, w, op) {
      MarkStep(cfg, w, op, cs[2]);
      RemoveStep(cfg, w, op, cs[3]);
    } else {
      var r := Step(cfg, Begin(op).(pc := RCheck, p := w.rows[op.id]), w, cs[1]);
      DoneStays(cfg, r.0, r.1, cs[2]);
      DoneStays(cfg, Aware(r.0, cs[2]), r.1, cs[3]);
    }
  }

  // What the caller could check: the request is in order, no other row holds the port and the
  // config guard accepts what the row becomes.
  predicate MoveWorks(cfg: Settings, w: World, op: Op)
    requires op.Recreate? && op.id in w.rows
  {
    MoveChecks(cfg, w, op) && !PortHeld(w.rows, op.port, op.id) && Rendered(cfg, MovedRow(w, op)).Some?
  }

  lemma RemovedIsSound(cfg: Settings, w: World, op: Op)
    requires op.Recreate? && op.id in w.rows && Base(cfg, w) && Linked(w.rows, w.ctrs, op.id) && MoveChecks(cfg, w, op)
    ensures Base(cfg, Removed(w, op)) && ProcInv(cfg, Removed(w, op), Begin(op).(pc := RPort, p := MovedRow(w, op)))
    ensures PortHeld(Removed(w, op).rows, op.port, op.id) <==> PortHeld(w.rows, op.port, op.id)
  {
    var p := w.rows[op.id].(state := Recreating);
    var marked := PutRow(w, p);
    assert RowOk(cfg, w, op.id);
    SaveKeeps(cfg, w, p, GOOD);
    ErasedIsBare(w.rows, w.ctrs, op.id);
    if p.containerId.Some? { EraseContainerKeeps(cfg, marked, p.containerId.value, op.id); }
  }

  /** A move called on a proxy whose row records its container, undisturbed until the container is
      removed and able to write its config, is stored if and only if the request is in order, no
      other row holds the new port, and the config guard accepts the new spec. A request out of
      order changes nothing; a port another row holds, or a refused spec, costs the proxy its
      container. */
  lemma MoveIsStored(cfg: Settings, w: World, op: Op, calm: seq<Choice>, rest: seq<Choice>)
    requires op.Recreate? && op.id in w.rows && Base(cfg, w) && Linked(w.rows, w.ctrs, op.id) && FourCalm(calm)
    requires WritableRun(cfg, Run(cfg, Begin(op), w, calm).0, Run(cfg, Begin(op), w, calm).1, rest)
    requires Run(cfg, Begin(op), w, calm + rest).0.pc == Done
    ensures var (pr', w') := Run(cfg, Begin(op), w, calm + rest);
      && Base(cfg, w')
      && (!MoveChecks(cfg, w, op) ==> pr'.err.Some? && w' == w)
      && (MoveChecks(cfg, w, op) ==> (MoveStored(w', op) <==> MoveWorks(cfg, w, op)))
      && (MoveChecks(cfg, w, op) && !MoveWorks(cfg, w, op) ==>
            Stranded(cfg, Removed(w, op), MovedRow(w, op), pr', w') && Bare(w'.ctrs, op.id))
  {
    assert RowOk(cfg, w, op.id);
    CalmRemoval(cfg, w, op, calm);
    RunAppend(cfg, Begin(op), w, calm, rest);
    if MoveChecks(cfg, w, op) {
      RemovedIsSound(cfg, w, op);
      RemovedRecreateIsRecorded(cfg, Removed(w, op), Begin(op).(pc := RPort, p := MovedRow(w, op)), rest);
    } else {
      RunStaysDone(cfg, Run(cfg, Begin(op), w, calm).0, w, rest);
    }
  }

  lemma {:induction false} RunStaysDone(cfg: Settings, pr: Proc, w: World, cs: seq<Choice>)
    requires pr.pc == Done
    ensures Run(cfg, pr, w, cs).1 == w && Run(cfg, pr, w, cs).0.pc == Done && Run(cfg, pr, w, cs).0.err == pr.err
  {
    if cs != [] { RunStaysDone(cfg, pr, w, cs[..|cs| - 1]); }
  }

  // ---- A proxy moved onto another's port ----

  // An undisturbed move onto a port another row holds.
  lemma ClashingRun(cfg: Settings, w: World, op: Op, calm: seq<Choice>, c: Choice)
    requires op.Recreate? && op.id in w.rows && w.rows[op.id].id == op.id && PortsUnique(w.rows)
    requires FourCalm(calm) && Calm(c)
    requires MoveChecks(cfg, w, op) && PortHeld(w.rows, op.port, op.id)
    ensures var (pr', w') := Run(cfg, Begin(op), w, calm + [c]);
      pr'.pc == Done && pr'.err == Some(PortTaken) && w' == Removed(w, op)
  {
    CalmRemoval(cfg, w, op, calm);
    RunSnoc(cfg, Begin(op), w, calm, c);
    var pr, v := Begin(op).(pc := RPort, p := MovedRow(w, op)), Removed(w, op);
    var i :| i in w.rows && i != op.id && w.rows[i].port == op.port;
    assert v.rows[i].port == op.port;
    ClashingStep(cfg, v, Aware(pr, c), v, op, c);
  }

  /** Without a single failure, asking for the port of another proxy takes this one's container away
      and leaves its row where it was, "recreating". */
  lemma TakenPortStopsTheProxy(cfg: Settings, w: World, id: Id, other: Id, tlsDomain: string)
    requires Base(cfg, w) && id in w.rows && other in w.rows && id != other
    requires Linked(w.rows, w.ctrs, id) && tlsDomain != ""
    ensures var op := Recreate(id, w.rows[other].port, tlsDomain);
      var (pr', w') := Run(cfg, Begin(op), w, [GOOD, GOOD, GOOD, GOOD] + [GOOD]);
      && pr'.pc == Done && pr'.err == Some(PortTaken) && Bare(w'.ctrs, id)
      && id in w'.rows && w'.rows[id] == w.rows[id].(state := Recreating)
  {
    assert RowOk(cfg, w, id) && RowOk(cfg, w, other);
    ClashingRun(cfg, w, Recreate(id, w.rows[other].port, tlsDomain), [GOOD, GOOD, GOOD, GOOD], GOOD);
    ErasedIsBare(w.rows, w.ctrs, id);
  }

  // ---- Both end: each own step brings the end nearer ----

  function StepsLeft(pc: Pc): nat {
    if pc == CCommit || pc == SCommit || pc == SBuildFailed || pc == SStartFailed then 1
    else if pc == CHealth || pc == SHealth then 2
    else if pc == SStart then 3
    else if pc == SBuild then 4
    else if pc == RWrite then 5
    else if pc == RMkdir then 6
    else if pc == RPort then 7
    else 0
  }

  lemma StepIsCreate(cfg: Settings, w: World, pr: Proc, c: Choice)
    requires pr.op.Create? && pr.pc != Done
    ensures Step(cfg, pr, w, c) == CreateStep(cfg, Aware(pr, c), w, c)
  {
  }

  lemma HealthIsNext(cfg: Settings, w: World, pr: Proc, c: Choice)
    requires pr.op.Create? && pr.pc == CHealth
    ensures CreateStep(cfg, pr, w, c).0.pc == CCommit
  {
  }

  lemma CommitIsLast(cfg: Settings, w: World, pr: Proc, c: Choice)
    requires pr.op.Create? && pr.pc == CCommit
    ensures CreateStep(cfg, pr, w, c).0.pc == Done
  {
  }

  lemma CreateEnds(cfg: Settings, w: World, pr: Proc, c: Choice)
    requires pr.op.Create? && (pr.pc == CHealth || pr.pc == CCommit)
    ensures StepsLeft(Step(cfg, pr, w, c).0.pc) < StepsLeft(pr.pc)
  {
    StepIsCreate(cfg, w, pr, c);
    if pr.pc == CHealth { HealthIsNext(cfg, w, Aware(pr, c), c); } else { CommitIsLast(cfg, w, Aware(pr, c), c); }
  }

  // Where a move can go from where it is.
  predicate Follows(pc: Pc, next: Pc) {
    || (next == Done
      && (pc == RPort || pc == RMkdir || pc == RWrite || pc == SCommit || pc == SBuildFailed || pc == SStartFailed))
    || (pc == RPort && next == RMkdir) || (pc == RMkdir && next == RWrite) || (pc == RWrite && next == SBuild)
    || (pc == SBuild && (next == SStart || next == SBuildFailed))
      || (pc == SStart && (next == SHealth || next == SStartFailed))
    || (pc == SHealth && next == SCommit)
  }

  lemma FollowingIsNearer(pc: Pc, next: Pc)
    requires Follows(pc, next)
    ensures StepsLeft(next) < StepsLeft(pc)
  {
  }

  lemma BuildIsNext(w: World, pr: Proc, c: Choice)
    requires pr.op.Recreate? && (pr.pc == SBuild || pr.pc == SStart || pr.pc == SHealth)
    ensures Follows(pr.pc, StartStep(pr, w, c).0.pc)
  {
  }

  lemma RecordIsLast(w: World, pr: Proc, c: Choice)
    requires pr.op.Recreate? && (pr.pc == SBuildFailed || pr.pc == SStartFailed || pr.pc == SCommit)
    ensures StartStep(pr, w, c).0.pc == Done
  {
  }

  lemma StartFollows(w: World, pr: Proc, c: Choice)
    requires pr.op.Recreate? && Starting(pr.pc)
    ensures Follows(pr.pc, StartStep(pr, w, c).0.pc)
  {
    if pr.pc == SBuild || pr.pc == SStart || pr.pc == SHealth {
      BuildIsNext(w, pr, c);
    } else {
      RecordIsLast(w, pr, c);
    }
  }

  lemma WriteIsNext(cfg: Settings, w: World, pr: Proc, c: Choice)
    requires pr.op.Recreate? && (pr.pc == RMkdir || pr.pc == RWrite) && pr.undo == []
    ensures Follows(pr.pc, RecreateStep(cfg, pr, w, c).0.pc)
  {
  }

  lemma PortIsNext(cfg: Settings, w: World, pr: Proc, c: Choice)
    requires pr.op.Recreate? && pr.pc == RPort && pr.undo == []
    ensures Follows(pr.pc, RecreateStep(cfg, pr, w, c).0.pc)
  {
    assert RecreateStep(cfg, pr, w, c) == Commit(pr, w, c, RMkdir);
  }

  lemma StepIsRecreate(cfg: Settings, w: World, pr: Proc, c: Choice)
    requires pr.op.Recreate? && pr.pc != Done
    ensures Step(cfg, pr, w, c) == RecreateStep(cfg, Aware(pr, c), w, c)
    ensures Starting(pr.pc) ==> Step(cfg, pr, w, c) == StartStep(Aware(pr, c), w, c)
  {
  }

  lemma RecreateFollows(cfg: Settings, w: World, pr: Proc, c: Choice)
    requires pr.op.Recreate? && pr.pc != Done && PastRemoval(pr.pc) && pr.undo == []
    ensures Follows(pr.pc, Step(cfg, pr, w, c).0.pc)
  {
    StepIsRecreate(cfg, w, pr, c);
    if Starting(pr.pc) { StartFollows(w, Aware(pr, c), c); }
    else if pr.pc == RPort { PortIsNext(cfg, w, Aware(pr, c), c); }
    else { WriteIsNext(cfg, w, Aware(pr, c), c); }
  }

  lemma RecreateEnds(cfg: Settings, w: World, pr: Proc, c: Choice)
    requires pr.op.Recreate? && pr.pc != Done && PastRemoval(pr.pc) && pr.undo == []
    ensures StepsLeft(Step(cfg, pr, w, c).0.pc) < StepsLeft(pr.pc)
  {
    RecreateFollows(cfg, w, pr, c);
    FollowingIsNearer(pr.pc, Step(cfg, pr, w, c).0.pc);
  }
}
