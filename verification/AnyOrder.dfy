/** What holds whatever the order: every operation interleaved with every other, at any moment,
    store writes lost, relinks lost, the server serving before, during and after a Reconcile. */
module AnyOrder {
  import opened Wrappers
  import opened Entities
  import opened Machine
  import opened Invariant
  import opened System
  import Forms

  // ---- The events, with nothing held back but a Create's fresh id ----

  predicate Fresh(s: Sys, op: Op) {
    op.Create? ==> op.row.id == s.world.nextId && op.row.containerId.None? && op.row.state == Creating
  }

  function Jump(cfg: Settings, s: Sys, e: Event): Sys {
    if !e.Start? then Apply(cfg, s, e)
    else if e.pid in s.procs || !Fresh(s, e.op) then s
    else WithStarted(s, e.pid, e.op)
  }

  function JumpAll(cfg: Settings, s: Sys, es: seq<Event>): Sys {
    if es == [] then s else Jump(cfg, JumpAll(cfg, s, es[..|es| - 1]), es[|es| - 1])
  }

  lemma ApplyIsJump(cfg: Settings, s: Sys, e: Event)
    ensures Apply(cfg, s, e) == s || Apply(cfg, s, e) == Jump(cfg, s, e)
  {
  }

  // The runs of `System`, in which most operations wait for one another, are among these.
  lemma {:induction false} RunIsJumps(cfg: Settings, s: Sys, es: seq<Event>) returns (js: seq<Event>)
    ensures JumpAll(cfg, s, js) == RunAll(cfg, s, es) && forall e :: e in js ==> e in es
  {
    if es == [] {
      js := [];
    } else {
      var n := |es| - 1;
      js := RunIsJumps(cfg, s, es[..n]);
      ApplyIsJump(cfg, RunAll(cfg, s, es[..n]), es[n]);
      if RunAll(cfg, s, es) != RunAll(cfg, s, es[..n]) {
        assert (js + [es[n]])[..|js|] == js;
        js := js + [es[n]];
      }
    }
  }

  // ---- What is watched ----

  // The credentials of one proxy, if they are followed, and whether the rows' limits are.
  datatype Watch = Watch(q: Option<Proxy>, forms: bool)

  predicate OpFits(k: Watch, op: Op) {
    && (k.forms && op.Create? ==> Forms.FormBorn(op.row))
    && (k.forms && op.UpdateLimits? ==> Forms.FormPatch(op.patch))
  }

  // What a row, or a row an operation holds, must be apart from its port.
  predicate Holds(w: World, k: Watch, p: Proxy) {
    && p.id < w.nextId
    && (p.containerId.Some? ==>
          p.containerId.value < w.nextCid
            && (p.containerId.value in w.ctrs ==> Mine(w.ctrs, p.containerId.value, p.id)))
    && (k.q.Some? && p.id == k.q.value.id ==> SameIdentity(p, k.q.value))
    && (k.forms ==> Forms.FormBorn(p))
  }

  predicate RowFits(cfg: Settings, w: World, k: Watch, p: Proxy) { Holds(w, k, p) && PortAllowed(cfg, p.port) }

  ghost predicate WorldFits(cfg: Settings, w: World, k: Watch) {
    && Issued(w) && PortsUnique(w.rows) && (k.q.Some? ==> k.q.value.id < w.nextId)
    && (forall i :: i in w.rows ==> w.rows[i].id == i && RowFits(cfg, w, k, w.rows[i]))
  }

  // The counters at which an operation holds a row.
  predicate Carries(pc: Pc) {
    pc != DGet && pc != UGet && pc != RGet && pc != KRows && pc != KCtrs && pc != KPick
    && pc != ORows && pc != OCtrs && pc != ORemove && pc != Done
  }

  ghost predicate ListsFit(cfg: Settings, w: World, k: Watch, pr: Proc) {
    && (forall i :: i in pr.snapshot ==> pr.snapshot[i].id == i && RowFits(cfg, w, k, pr.snapshot[i]))
    && (forall i ::
      i in pr.index ==> pr.index[i] < w.nextCid && (pr.index[i] in w.ctrs ==> Mine(w.ctrs, pr.index[i], i)))
  }

  predicate PastCheck(pc: Pc) { pc != CCheck && pc != CUndo }

  predicate HeldFits(cfg: Settings, w: World, k: Watch, pr: Proc) {
    && OpFits(k, pr.op)
    && (Carries(pr.pc) ==> Holds(w, k, pr.p) && (PastCheck(pr.pc) ==> PortAllowed(cfg, pr.p.port)))
    && (!pr.op.Create? ==> pr.undo == [])
    && (pr.op.Recreate? && (pr.pc == RMark || pr.pc == RRemove) ==> MoveAllowed(cfg, pr))
  }

  ghost predicate ProcFits(cfg: Settings, w: World, k: Watch, pr: Proc) {
    HeldFits(cfg, w, k, pr) && ListsFit(cfg, w, k, pr)
  }

  // ---- Containers keep their labels ----

  predicate Later(w: World, w': World) {
    && w'.nextId >= w.nextId && w'.nextCid >= w.nextCid
    && (forall c :: c in w'.ctrs && c < w.nextCid ==>
          c in w.ctrs && w'.ctrs[c].managed == w.ctrs[c].managed && w'.ctrs[c].owner == w.ctrs[c].owner)
  }

  lemma ProcLater(cfg: Settings, w: World, w': World, k: Watch, pr: Proc)
    requires ProcFits(cfg, w, k, pr) && Later(w, w')
    ensures ProcFits(cfg, w', k, pr)
  {
  }

  // ---- The effects, one at a time ----

  lemma PutFits(cfg: Settings, w: World, k: Watch, p: Proxy)
    requires WorldFits(cfg, w, k) && RowFits(cfg, w, k, p) && !PortHeld(w.rows, p.port, p.id)
    ensures WorldFits(cfg, PutRow(w, p), k) && Later(w, PutRow(w, p))
  {
    var w' := PutRow(w, p);
    forall i, j | i in w'.rows && j in w'.rows && w'.rows[i].port == w'.rows[j].port ensures i == j {
      if i == p.id && j != p.id { assert PortHeld(w.rows, p.port, p.id); }
    }
  }

  lemma SaveFits(cfg: Settings, w: World, k: Watch, p: Proxy, c: Choice)
    requires WorldFits(cfg, w, k) && RowFits(cfg, w, k, p)
    ensures SaveRow(w, p, c).Success? ==> SaveRow(w, p, c).value == PutRow(w, p) && !PortHeld(w.rows, p.port, p.id)
    ensures SaveRow(w, p, c).Success? ==> WorldFits(cfg, PutRow(w, p), k) && Later(w, PutRow(w, p))
    ensures WorldFits(cfg, TrySaveRow(w, p, c), k) && Later(w, TrySaveRow(w, p, c))
  {
    if SaveRow(w, p, c).Success? { PutFits(cfg, w, k, p); }
  }

  lemma EraseRowFits(cfg: Settings, w: World, k: Watch, id: Id)
    requires WorldFits(cfg, w, k)
    ensures WorldFits(cfg, EraseRow(w, id), k) && Later(w, EraseRow(w, id))
  {
  }

  lemma DirFits(cfg: Settings, w: World, w': World, k: Watch, id: Id)
    requires WorldFits(cfg, w, k) && id < w.nextId && w' == w.(dirs := w'.dirs)
    requires forall i :: i != id && i in w'.dirs ==> i in w.dirs
    ensures WorldFits(cfg, w', k) && Later(w, w')
  {
  }

  lemma AddFits(cfg: Settings, w: World, k: Watch, id: Id, port: int)
    requires WorldFits(cfg, w, k) && id < w.nextId
    ensures WorldFits(cfg, AddContainer(w, id, port), k) && Later(w, AddContainer(w, id, port))
  {
  }

  lemma RunFits(cfg: Settings, w: World, k: Watch, c: Cid)
    requires WorldFits(cfg, w, k) && c in w.ctrs
    ensures WorldFits(cfg, RunContainer(w, c), k) && Later(w, RunContainer(w, c))
  {
  }

  lemma EraseContainerFits(cfg: Settings, w: World, k: Watch, c: Cid)
    requires WorldFits(cfg, w, k)
    ensures WorldFits(cfg, EraseContainer(w, c), k) && Later(w, EraseContainer(w, c))
  {
  }

  // ---- The actions ----

  // A step that lists nothing.
  ghost predicate Good(cfg: Settings, w: World, k: Watch, pr: Proc, next: (Proc, World)) {
    var (pr', w') := next;
    && WorldFits(cfg, w', k) && Later(w, w') && HeldFits(cfg, w', k, pr')
    && pr'.op == pr.op && pr'.snapshot == pr.snapshot && pr'.index == pr.index
  }

  lemma HeldLater(w: World, w': World, k: Watch, p: Proxy)
    requires Holds(w, k, p) && Later(w, w')
    ensures Holds(w', k, p)
  {
  }

  // An operation that has ended holds nothing.
  lemma DoneFits(cfg: Settings, w: World, w': World, k: Watch, pr: Proc, err: Option<Fault>)
    requires WorldFits(cfg, w', k) && Later(w, w') && HeldFits(cfg, w, k, pr)
    ensures Good(cfg, w, k, pr, (pr.(pc := Done, err := err), w'))
  {
  }

  lemma FailFits(cfg: Settings, w: World, k: Watch, pr: Proc, e: Fault)
    requires WorldFits(cfg, w, k) && HeldFits(cfg, w, k, pr) && Carries(pr.pc)
    ensures Good(cfg, w, k, pr, (Fail(pr, e), w))
  {
  }

  lemma PassedFits(cfg: Settings, w: World, k: Watch, pr: Proc)
    requires pr.op.Create? && pr.pc == CCheck && PortAllowed(cfg, pr.p.port) && WorldFits(cfg, w, k)
    requires HeldFits(cfg, w, k, pr)
    ensures Good(cfg, w, k, pr, (pr.(pc := CInsert), w))
  {
  }

  lemma CheckRequestFits(cfg: Settings, w: World, k: Watch, pr: Proc, c: Choice)
    requires pr.op.Create? && pr.pc == CCheck
    requires WorldFits(cfg, w, k) && HeldFits(cfg, w, k, pr)
    ensures Good(cfg, w, k, pr, CheckRequest(cfg, pr, w, c))
  {
    FailFits(cfg, w, k, pr, PortRange);
    FailFits(cfg, w, k, pr, PortReserved);
    FailFits(cfg, w, k, pr, PortBusy);
    FailFits(cfg, w, k, pr, DomainRequired);
    if PortAllowed(cfg, pr.p.port) { PassedFits(cfg, w, k, pr); }
  }

  lemma ClaimPortFits(cfg: Settings, w: World, k: Watch, pr: Proc, c: Choice)
    requires pr.op.Create? && pr.pc == CInsert
    requires WorldFits(cfg, w, k) && HeldFits(cfg, w, k, pr)
    ensures Good(cfg, w, k, pr, ClaimPort(pr, w, c))
  {
    if Live(pr, c) && TableInsert(w.rows, pr.p).Success? { PutFits(cfg, w, k, pr.p); }
  }

  lemma MkdirFits(cfg: Settings, w: World, k: Watch, pr: Proc, c: Choice, next: Pc)
    requires (pr.pc == CMkdir && next == CWrite) || (pr.pc == UMkdir && next == UWrite)
      || (pr.pc == RMkdir && next == RWrite)
    requires WorldFits(cfg, w, k) && HeldFits(cfg, w, k, pr)
    ensures Good(cfg, w, k, pr, Mkdir(pr, w, c, next))
  {
    DirFits(cfg, w, MakeDir(w, pr.p.id), k, pr.p.id);
  }

  lemma WriteFits(cfg: Settings, w: World, k: Watch, pr: Proc, c: Choice, next: Proc)
    requires (pr.pc == CWrite && next.pc == CNetwork) || (pr.pc == UWrite && next.pc == UPatch)
      || (pr.pc == RWrite && next.pc == SBuild)
    requires next.op == pr.op && next.p == pr.p && next.snapshot == pr.snapshot && next.index == pr.index
    requires !pr.op.Create? ==> next.undo == pr.undo
    requires WorldFits(cfg, w, k) && HeldFits(cfg, w, k, pr)
    ensures Good(cfg, w, k, pr, WriteFile(cfg, pr, w, c, next))
  {
    if Rendered(cfg, pr.p).Some? { DirFits(cfg, w, PutDir(w, pr.p.id, Rendered(cfg, pr.p).value), k, pr.p.id); }
  }

  lemma PrepareFits(cfg: Settings, w: World, k: Watch, pr: Proc, c: Choice)
    requires pr.op.Create? && (pr.pc == CNetwork || pr.pc == CPull)
    requires WorldFits(cfg, w, k) && HeldFits(cfg, w, k, pr)
    ensures Good(cfg, w, k, pr, Prepare(pr, w, c, if pr.pc == CNetwork then CPull else CBuild))
  {
  }

  lemma CreateContainerFits(cfg: Settings, w: World, k: Watch, pr: Proc, c: Choice)
    requires pr.op.Create? && pr.pc == CBuild
    requires WorldFits(cfg, w, k) && HeldFits(cfg, w, k, pr)
    ensures Good(cfg, w, k, pr, CreateContainer(pr, w, c))
  {
    AddFits(cfg, w, k, pr.p.id, pr.p.port);
  }

  lemma StartOrUnwindFits(cfg: Settings, w: World, k: Watch, pr: Proc, c: Choice)
    requires pr.op.Create? && pr.pc == CStart
    requires WorldFits(cfg, w, k) && HeldFits(cfg, w, k, pr)
    ensures Good(cfg, w, k, pr, StartOrUnwind(pr, w, c))
  {
    if Responds(pr, w, c) {
      RunFits(cfg, w, k, pr.p.containerId.value);
      HeldLater(w, RunContainer(w, pr.p.containerId.value), k, pr.p);
    }
  }

  lemma HealthFits(cfg: Settings, w: World, k: Watch, pr: Proc, c: Choice, next: Pc)
    requires (pr.pc == CHealth && next == CCommit) || (pr.pc == SHealth && next == SCommit)
    requires WorldFits(cfg, w, k) && HeldFits(cfg, w, k, pr)
    ensures Good(cfg, w, k, pr, AwaitHealth(pr, w, c, next))
  {
  }

  lemma CommitCreateFits(cfg: Settings, w: World, k: Watch, pr: Proc, c: Choice)
    requires pr.op.Create? && pr.pc == CCommit
    requires WorldFits(cfg, w, k) && HeldFits(cfg, w, k, pr)
    ensures Good(cfg, w, k, pr, CommitCreate(pr, w, c))
  {
    SaveFits(cfg, w, k, pr.p, c);
  }

  lemma CompensateFits(cfg: Settings, w: World, k: Watch, id: Id, u: Undo, c: Choice)
    requires WorldFits(cfg, w, k) && id < w.nextId
    ensures WorldFits(cfg, Compensate(w, id, u, c), k) && Later(w, Compensate(w, id, u, c))
  {
    match u
    case DropRow => EraseRowFits(cfg, w, k, id);
    case DropDir => DirFits(cfg, w, EraseDir(w, id), k, id);
    case DropContainer(cid) => EraseContainerFits(cfg, w, k, cid);
  }

  lemma RollbackFits(cfg: Settings, w: World, k: Watch, pr: Proc, c: Choice)
    requires pr.op.Create? && pr.pc == CUndo
    requires WorldFits(cfg, w, k) && HeldFits(cfg, w, k, pr)
    ensures Good(cfg, w, k, pr, Rollback(pr, w, c))
  {
    if pr.undo != [] {
      var u := pr.undo[|pr.undo| - 1];
      CompensateFits(cfg, w, k, pr.p.id, u, c);
      HeldLater(w, Compensate(w, pr.p.id, u, c), k, pr.p);
    }
  }

  lemma FetchFits(cfg: Settings, w: World, k: Watch, pr: Proc, c: Choice, next: Pc)
    requires (pr.op.Delete? && pr.pc == DGet && next == DRemove) || (pr.op.Recreate? && pr.pc == RGet && next == RCheck)
    requires WorldFits(cfg, w, k) && HeldFits(cfg, w, k, pr)
    ensures Good(cfg, w, k, pr, Fetch(pr, w, c, pr.op.id, next))
  {
  }

  lemma RemoveRecordedFits(cfg: Settings, w: World, k: Watch, pr: Proc, c: Choice, next: Proc)
    requires (pr.op.Delete? && pr.pc == DRemove && next == pr.(pc := DDir))
          || (pr.op.Recreate? && pr.pc == RRemove && next == pr.(pc := RPort, p := Moved(pr)))
    requires WorldFits(cfg, w, k) && HeldFits(cfg, w, k, pr)
    ensures Good(cfg, w, k, pr, RemoveRecorded(pr, w, c, next))
  {
    if pr.p.containerId.Some? {
      EraseContainerFits(cfg, w, k, pr.p.containerId.value);
      HeldLater(w, EraseContainer(w, pr.p.containerId.value), k, next.p);
    }
  }

  lemma RemoveDirFits(cfg: Settings, w: World, k: Watch, pr: Proc, c: Choice)
    requires pr.op.Delete? && pr.pc == DDir
    requires WorldFits(cfg, w, k) && HeldFits(cfg, w, k, pr)
    ensures Good(cfg, w, k, pr, RemoveDir(pr, w, c))
  {
    DirFits(cfg, w, EraseDir(w, pr.p.id), k, pr.p.id);
  }

  lemma RemoveRowFits(cfg: Settings, w: World, k: Watch, pr: Proc, c: Choice)
    requires pr.op.Delete? && pr.pc == DRow
    requires WorldFits(cfg, w, k) && HeldFits(cfg, w, k, pr)
    ensures Good(cfg, w, k, pr, RemoveRow(pr, w, c))
  {
    EraseRowFits(cfg, w, k, pr.p.id);
    DoneFits(cfg, w, w, k, pr, Some(StoreFailed));
    DoneFits(cfg, w, w, k, pr, Some(NotFound));
    DoneFits(cfg, w, EraseRow(w, pr.p.id), k, pr, pr.err);
  }

  lemma PatchFits(w: World, k: Watch, p: Proxy, patch: LimitsPatch)
    requires Holds(w, k, p) && (k.forms ==> Forms.FormPatch(patch))
    ensures Holds(w, k, ApplyPatch(p, patch))
  {
    if k.forms { Forms.PatchKeepsFormBorn(p, patch); }
  }

  lemma FetchAndPatchFits(cfg: Settings, w: World, k: Watch, pr: Proc, c: Choice)
    requires pr.op.UpdateLimits? && pr.pc == UGet
    requires WorldFits(cfg, w, k) && HeldFits(cfg, w, k, pr)
    ensures Good(cfg, w, k, pr, FetchAndPatch(pr, w, c))
  {
    if pr.op.id in w.rows { PatchFits(w, k, w.rows[pr.op.id], pr.op.patch); }
  }

  lemma LiveApplyFits(cfg: Settings, w: World, k: Watch, pr: Proc, c: Choice)
    requires pr.op.UpdateLimits? && pr.pc == UPatch
    requires WorldFits(cfg, w, k) && HeldFits(cfg, w, k, pr)
    ensures Good(cfg, w, k, pr, LiveApply(pr, w, c))
  {
  }

  lemma CommittedFits(cfg: Settings, w: World, k: Watch, pr: Proc, next: Pc)
    requires (pr.pc == UCommit && next == Done) || (pr.pc == RPort && next == RMkdir)
      || (pr.pc == RMark && next == RRemove)
    requires WorldFits(cfg, PutRow(w, pr.p), k) && Later(w, PutRow(w, pr.p)) && HeldFits(cfg, w, k, pr)
    ensures Good(cfg, w, k, pr, (pr.(pc := next), PutRow(w, pr.p)))
  {
  }

  lemma CommitFits(cfg: Settings, w: World, k: Watch, pr: Proc, c: Choice, next: Pc)
    requires (pr.pc == UCommit && next == Done) || (pr.pc == RPort && next == RMkdir)
      || (pr.pc == RMark && next == RRemove)
    requires WorldFits(cfg, w, k) && HeldFits(cfg, w, k, pr)
    ensures Good(cfg, w, k, pr, Commit(pr, w, c, next))
  {
    SaveFits(cfg, w, k, pr.p, c);
    match SaveRow(w, pr.p, c)
    case Success(_) => CommittedFits(cfg, w, k, pr, next);
    case Failure(e) => FailFits(cfg, w, k, pr, e);
  }

  lemma MarkedFits(cfg: Settings, w: World, k: Watch, pr: Proc)
    requires WorldFits(cfg, w, k) && HeldFits(cfg, w, k, pr) && pr.op.Recreate? && pr.pc == RCheck
    requires MoveAllowed(cfg, pr)
    ensures Good(cfg, w, k, pr, (pr.(pc := RMark, p := pr.p.(state := Recreating)), w))
  {
  }

  lemma CheckMoveFits(cfg: Settings, w: World, k: Watch, pr: Proc, c: Choice)
    requires pr.op.Recreate? && pr.pc == RCheck
    requires WorldFits(cfg, w, k) && HeldFits(cfg, w, k, pr)
    ensures Good(cfg, w, k, pr, CheckMove(cfg, pr, w, c))
  {
    FailFits(cfg, w, k, pr, PortRange);
    FailFits(cfg, w, k, pr, PortReserved);
    FailFits(cfg, w, k, pr, PortBusy);
    FailFits(cfg, w, k, pr, DomainRequired);
    if MoveAllowed(cfg, pr) { MarkedFits(cfg, w, k, pr); }
  }

  lemma BuildFits(cfg: Settings, w: World, k: Watch, pr: Proc, c: Choice)
    requires pr.pc == SBuild
    requires WorldFits(cfg, w, k) && HeldFits(cfg, w, k, pr)
    ensures Good(cfg, w, k, pr, BuildContainer(pr, w, c))
  {
    AddFits(cfg, w, k, pr.p.id, pr.p.port);
  }

  lemma StartFits(cfg: Settings, w: World, k: Watch, pr: Proc, c: Choice)
    requires pr.pc == SStart
    requires WorldFits(cfg, w, k) && HeldFits(cfg, w, k, pr)
    ensures Good(cfg, w, k, pr, StartContainer(pr, w, c))
  {
    if Responds(pr, w, c) {
      RunFits(cfg, w, k, pr.p.containerId.value);
      HeldLater(w, RunContainer(w, pr.p.containerId.value), k, pr.p);
    }
  }

  lemma RecordFits(cfg: Settings, w: World, k: Watch, pr: Proc, c: Choice)
    requires pr.pc == SBuildFailed || pr.pc == SStartFailed
    requires WorldFits(cfg, w, k) && HeldFits(cfg, w, k, pr)
    ensures Good(cfg, w, k, pr, RecordFailure(pr, w, c))
  {
    SaveFits(cfg, w, k, pr.p, c);
  }

  lemma ReturnFits(cfg: Settings, w: World, w': World, k: Watch, pr: Proc, e: Option<Fault>)
    requires Starting(pr.pc) && HeldFits(cfg, w, k, pr) && WorldFits(cfg, w', k) && Later(w, w')
    ensures Good(cfg, w, k, pr, (Return(pr, e), w'))
  {
  }

  lemma OutcomeFits(cfg: Settings, w: World, k: Watch, pr: Proc, c: Choice)
    requires pr.pc == SCommit
    requires WorldFits(cfg, w, k) && HeldFits(cfg, w, k, pr)
    ensures Good(cfg, w, k, pr, RecordOutcome(pr, w, c))
  {
    SaveFits(cfg, w, k, pr.p, c);
    match SaveRow(w, pr.p, c)
    case Success(w') => ReturnFits(cfg, w, w', k, pr, None);
    case Failure(e) => ReturnFits(cfg, w, w, k, pr, Some(e));
  }

  // The listed row, with the container the lookup table knows or without.
  lemma PickedHolds(cfg: Settings, w: World, k: Watch, pr: Proc, id: Id)
    requires ListsFit(cfg, w, k, pr) && id in pr.snapshot
    ensures RowFits(cfg, w, k, pr.snapshot[id])
    ensures id in pr.index ==> RowFits(cfg, w, k, pr.snapshot[id].(containerId := Some(pr.index[id])))
  {
  }

  // The loop takes a row, or none, and holds it.
  predicate Takes(pr: Proc, pr': Proc, p: Proxy) {
    && pr'.op == pr.op && pr'.snapshot == pr.snapshot && pr'.index == pr.index && pr'.undo == pr.undo
    && (pr'.pc == KPick || pr'.pc == Done
        || (pr'.p == p && (pr'.pc == KRelink || pr'.pc == KCleanDir || pr'.pc == SBuild)))
  }

  lemma PickTakes(pr: Proc, c: Choice)
    requires pr.pc == KPick
    ensures !(c.pick in pr.todo && c.pick in pr.snapshot) ==> Takes(pr, PickRow(pr, c), pr.p)
    ensures c.pick in pr.snapshot ==> Takes(pr, PickRow(pr, c),
      if c.pick in pr.index then pr.snapshot[c.pick].(containerId := Some(pr.index[c.pick])) else pr.snapshot[c.pick])
  {
  }

  lemma TakenFits(cfg: Settings, w: World, k: Watch, pr: Proc, pr': Proc, p: Proxy)
    requires pr.op.Reconcile? && WorldFits(cfg, w, k) && HeldFits(cfg, w, k, pr) && Takes(pr, pr', p)
    requires pr'.pc == KPick || pr'.pc == Done || RowFits(cfg, w, k, p)
    ensures Good(cfg, w, k, pr, (pr', w))
  {
  }

  lemma PickFits(cfg: Settings, w: World, k: Watch, pr: Proc, c: Choice)
    requires pr.op.Reconcile? && pr.pc == KPick && ListsFit(cfg, w, k, pr)
    requires WorldFits(cfg, w, k) && HeldFits(cfg, w, k, pr)
    ensures Good(cfg, w, k, pr, (PickRow(pr, c), w))
  {
    PickTakes(pr, c);
    if c.pick in pr.todo && c.pick in pr.snapshot {
      PickedHolds(cfg, w, k, pr, c.pick);
      TakenFits(cfg, w, k, pr, PickRow(pr, c),
        if c.pick in pr.index
        then pr.snapshot[c.pick].(containerId := Some(pr.index[c.pick]))
        else pr.snapshot[c.pick]);
    } else {
      TakenFits(cfg, w, k, pr, PickRow(pr, c), pr.p);
    }
  }

  lemma RelinkFits(cfg: Settings, w: World, k: Watch, pr: Proc, c: Choice)
    requires pr.op.Reconcile? && pr.pc == KRelink
    requires WorldFits(cfg, w, k) && HeldFits(cfg, w, k, pr)
    ensures Good(cfg, w, k, pr, Relink(pr, w, c))
  {
    SaveFits(cfg, w, k, pr.p, c);
  }

  lemma CleanDirFits(cfg: Settings, w: World, k: Watch, pr: Proc, c: Choice)
    requires pr.op.Reconcile? && pr.pc == KCleanDir
    requires WorldFits(cfg, w, k) && HeldFits(cfg, w, k, pr)
    ensures Good(cfg, w, k, pr, CleanDir(pr, w, c))
  {
    DirFits(cfg, w, EraseDir(w, pr.p.id), k, pr.p.id);
    HeldLater(w, EraseDir(w, pr.p.id), k, pr.p);
  }

  lemma CleanRowFits(cfg: Settings, w: World, k: Watch, pr: Proc, c: Choice)
    requires pr.op.Reconcile? && pr.pc == KCleanRow
    requires WorldFits(cfg, w, k) && HeldFits(cfg, w, k, pr)
    ensures Good(cfg, w, k, pr, CleanRow(pr, w, c))
  {
    EraseRowFits(cfg, w, k, pr.p.id);
  }

  lemma RemoveListedFits(cfg: Settings, w: World, k: Watch, pr: Proc, c: Choice)
    requires pr.op.RemoveOrphan? && pr.pc == ORemove
    requires WorldFits(cfg, w, k) && HeldFits(cfg, w, k, pr)
    ensures Good(cfg, w, k, pr, RemoveListed(pr, w, c))
  {
    EraseContainerFits(cfg, w, k, pr.op.cid);
    DoneFits(cfg, w, w, k, pr, Some(RuntimeFailed));
    DoneFits(cfg, w, EraseContainer(w, pr.op.cid), k, pr, pr.err);
  }

  lemma ListFits(cfg: Settings, w: World, k: Watch, pr: Proc, c: Choice, next: Pc)
    requires WorldFits(cfg, w, k) && ProcFits(cfg, w, k, pr)
    requires (pr.op.Reconcile? && pr.pc == KRows && next == KCtrs)
      || (pr.op.RemoveOrphan? && pr.pc == ORows && next == OCtrs)
    ensures var (pr', w') := ListRows(pr, w, c, next); w' == w && pr'.op == pr.op && ProcFits(cfg, w, k, pr')
  {
  }

  lemma ListContainersFits(cfg: Settings, w: World, k: Watch, pr: Proc, c: Choice)
    requires WorldFits(cfg, w, k) && ProcFits(cfg, w, k, pr) && pr.op.Reconcile? && pr.pc == KCtrs
    ensures var (pr', w') := ListContainers(pr, w, c); w' == w && pr'.op == pr.op && ProcFits(cfg, w, k, pr')
  {
  }

  lemma CheckOrphanFits(cfg: Settings, w: World, k: Watch, pr: Proc, c: Choice)
    requires WorldFits(cfg, w, k) && ProcFits(cfg, w, k, pr) && pr.op.RemoveOrphan? && pr.pc == OCtrs
    ensures var (pr', w') := CheckOrphan(pr, w, c); w' == w && pr'.op == pr.op && ProcFits(cfg, w, k, pr')
  {
  }

  // ---- Any step of any operation ----

  lemma CreateFits(cfg: Settings, w: World, k: Watch, pr: Proc, c: Choice)
    requires pr.op.Create? && pr.pc != Done && WorldFits(cfg, w, k) && HeldFits(cfg, w, k, pr)
    ensures Good(cfg, w, k, pr, CreateStep(cfg, pr, w, c))
  {
    if pr.pc == CCheck { CheckRequestFits(cfg, w, k, pr, c); }
    else if pr.pc == CInsert { ClaimPortFits(cfg, w, k, pr, c); }
    else if pr.pc == CMkdir { MkdirFits(cfg, w, k, pr, c, CWrite); }
    else if pr.pc == CWrite { WriteFits(cfg, w, k, pr, c, pr.(pc := CNetwork, undo := pr.undo + [DropDir])); }
    else if pr.pc == CNetwork || pr.pc == CPull { PrepareFits(cfg, w, k, pr, c); }
    else if pr.pc == CBuild { CreateContainerFits(cfg, w, k, pr, c); }
    else if pr.pc == CStart { StartOrUnwindFits(cfg, w, k, pr, c); }
    else if pr.pc == CHealth { HealthFits(cfg, w, k, pr, c, CCommit); }
    else if pr.pc == CCommit { CommitCreateFits(cfg, w, k, pr, c); }
    else if pr.pc == CUndo { RollbackFits(cfg, w, k, pr, c); }
    else { StayFits(cfg, w, k, pr); }
  }

  // A counter the operation does not use: nothing happens.
  lemma StayFits(cfg: Settings, w: World, k: Watch, pr: Proc)
    requires WorldFits(cfg, w, k) && HeldFits(cfg, w, k, pr)
    ensures Good(cfg, w, k, pr, (pr, w))
  {
  }

  lemma DeleteFits(cfg: Settings, w: World, k: Watch, pr: Proc, c: Choice)
    requires pr.op.Delete? && pr.pc != Done && WorldFits(cfg, w, k) && HeldFits(cfg, w, k, pr)
    ensures Good(cfg, w, k, pr, DeleteStep(pr, w, c))
  {
    if pr.pc == DGet { FetchFits(cfg, w, k, pr, c, DRemove); }
    else if pr.pc == DRemove { RemoveRecordedFits(cfg, w, k, pr, c, pr.(pc := DDir)); }
    else if pr.pc == DDir { RemoveDirFits(cfg, w, k, pr, c); }
    else if pr.pc == DRow { RemoveRowFits(cfg, w, k, pr, c); }
    else { StayFits(cfg, w, k, pr); }
  }

  lemma UpdateFits(cfg: Settings, w: World, k: Watch, pr: Proc, c: Choice)
    requires pr.op.UpdateLimits? && pr.pc != Done && WorldFits(cfg, w, k) && HeldFits(cfg, w, k, pr)
    ensures Good(cfg, w, k, pr, UpdateStep(cfg, pr, w, c))
  {
    if pr.pc == UGet { FetchAndPatchFits(cfg, w, k, pr, c); }
    else if pr.pc == UMkdir { MkdirFits(cfg, w, k, pr, c, UWrite); }
    else if pr.pc == UWrite { WriteFits(cfg, w, k, pr, c, pr.(pc := UPatch)); }
    else if pr.pc == UPatch { LiveApplyFits(cfg, w, k, pr, c); }
    else if pr.pc == UCommit { CommitFits(cfg, w, k, pr, c, Done); }
    else { StayFits(cfg, w, k, pr); }
  }

  lemma StartingFits(cfg: Settings, w: World, k: Watch, pr: Proc, c: Choice)
    requires WorldFits(cfg, w, k) && HeldFits(cfg, w, k, pr)
    ensures Good(cfg, w, k, pr, StartStep(pr, w, c))
  {
    if pr.pc == SBuild { BuildFits(cfg, w, k, pr, c); }
    else if pr.pc == SBuildFailed || pr.pc == SStartFailed { RecordFits(cfg, w, k, pr, c); }
    else if pr.pc == SStart { StartFits(cfg, w, k, pr, c); }
    else if pr.pc == SHealth { HealthFits(cfg, w, k, pr, c, SCommit); }
    else if pr.pc == SCommit { OutcomeFits(cfg, w, k, pr, c); }
    else { StayFits(cfg, w, k, pr); }
  }

  lemma MarkFits(cfg: Settings, w: World, k: Watch, pr: Proc, c: Choice)
    requires pr.op.Recreate? && pr.pc == RMark && WorldFits(cfg, w, k) && HeldFits(cfg, w, k, pr)
    ensures Good(cfg, w, k, pr, MarkRecreating(pr, w, c))
  {
    if Live(pr, c) { CommitFits(cfg, w, k, pr, c, RRemove); } else { FailFits(cfg, w, k, pr, StoreFailed); }
  }

  lemma RecreateFits(cfg: Settings, w: World, k: Watch, pr: Proc, c: Choice)
    requires pr.op.Recreate? && pr.pc != Done && WorldFits(cfg, w, k) && HeldFits(cfg, w, k, pr)
    ensures Good(cfg, w, k, pr, RecreateStep(cfg, pr, w, c))
  {
    if pr.pc == RGet { FetchFits(cfg, w, k, pr, c, RCheck); }
    else if pr.pc == RCheck { CheckMoveFits(cfg, w, k, pr, c); }
    else if pr.pc == RMark { MarkFits(cfg, w, k, pr, c); }
    else if pr.pc == RRemove { RemoveRecordedFits(cfg, w, k, pr, c, pr.(pc := RPort, p := Moved(pr))); }
    else if pr.pc == RPort { CommitFits(cfg, w, k, pr, c, RMkdir); }
    else if pr.pc == RMkdir { MkdirFits(cfg, w, k, pr, c, RWrite); }
    else if pr.pc == RWrite { WriteFits(cfg, w, k, pr, c, pr.(pc := SBuild)); }
    else { StartingFits(cfg, w, k, pr, c); }
  }

  lemma LoopFits(cfg: Settings, w: World, k: Watch, pr: Proc, c: Choice)
    requires pr.op.Reconcile? && pr.pc != Done && pr.pc != KRows && pr.pc != KCtrs
    requires WorldFits(cfg, w, k) && ProcFits(cfg, w, k, pr)
    ensures Good(cfg, w, k, pr, ReconcileStep(pr, w, c))
  {
    if pr.pc == KPick { PickFits(cfg, w, k, pr, c); }
    else if pr.pc == KRelink { RelinkFits(cfg, w, k, pr, c); }
    else if pr.pc == KCleanDir { CleanDirFits(cfg, w, k, pr, c); }
    else if pr.pc == KCleanRow { CleanRowFits(cfg, w, k, pr, c); }
    else { StartingFits(cfg, w, k, pr, c); }
  }

  ghost predicate Stepped(cfg: Settings, w: World, k: Watch, pr: Proc, next: (Proc, World)) {
    WorldFits(cfg, next.1, k) && Later(w, next.1) && ProcFits(cfg, next.1, k, next.0) && next.0.op == pr.op
  }

  lemma GoodIsStepped(cfg: Settings, w: World, k: Watch, pr: Proc, next: (Proc, World))
    requires ListsFit(cfg, w, k, pr) && Good(cfg, w, k, pr, next)
    ensures Stepped(cfg, w, k, pr, next)
  {
  }

  lemma ReconcileFits(cfg: Settings, w: World, k: Watch, pr: Proc, c: Choice)
    requires pr.op.Reconcile? && pr.pc != Done && WorldFits(cfg, w, k) && ProcFits(cfg, w, k, pr)
    ensures Stepped(cfg, w, k, pr, ReconcileStep(pr, w, c))
  {
    if pr.pc == KRows { ListFits(cfg, w, k, pr, c, KCtrs); }
    else if pr.pc == KCtrs { ListContainersFits(cfg, w, k, pr, c); }
    else {
      LoopFits(cfg, w, k, pr, c);
      GoodIsStepped(cfg, w, k, pr, ReconcileStep(pr, w, c));
    }
  }

  lemma RemoveOrphanFits(cfg: Settings, w: World, k: Watch, pr: Proc, c: Choice)
    requires pr.op.RemoveOrphan? && pr.pc != Done && WorldFits(cfg, w, k) && ProcFits(cfg, w, k, pr)
    ensures Stepped(cfg, w, k, pr, RemoveOrphanStep(pr, w, c))
  {
    if pr.pc == ORows { ListFits(cfg, w, k, pr, c, OCtrs); }
    else if pr.pc == OCtrs { CheckOrphanFits(cfg, w, k, pr, c); }
    else {
      if pr.pc == ORemove { RemoveListedFits(cfg, w, k, pr, c); } else { StayFits(cfg, w, k, pr); }
      GoodIsStepped(cfg, w, k, pr, RemoveOrphanStep(pr, w, c));
    }
  }

  lemma ActFits(cfg: Settings, w: World, k: Watch, pr: Proc, c: Choice)
    requires pr.pc != Done && WorldFits(cfg, w, k) && ProcFits(cfg, w, k, pr)
    ensures Stepped(cfg, w, k, pr, Act(cfg, pr, w, c))
  {
    match pr.op
    case Create(_) => CreateFits(cfg, w, k, pr, c); GoodIsStepped(cfg, w, k, pr, CreateStep(cfg, pr, w, c));
    case Delete(_) => DeleteFits(cfg, w, k, pr, c); GoodIsStepped(cfg, w, k, pr, DeleteStep(pr, w, c));
    case UpdateLimits(_, _) => UpdateFits(cfg, w, k, pr, c); GoodIsStepped(cfg, w, k, pr, UpdateStep(cfg, pr, w, c));
    case Recreate(_, _, _) => RecreateFits(cfg, w, k, pr, c); GoodIsStepped(cfg, w, k, pr, RecreateStep(cfg, pr, w, c));
    case Reconcile => ReconcileFits(cfg, w, k, pr, c);
    case RemoveOrphan(_) => RemoveOrphanFits(cfg, w, k, pr, c);
  }

  lemma AwareFits(cfg: Settings, w: World, k: Watch, pr: Proc, c: Choice)
    requires ProcFits(cfg, w, k, pr)
    ensures ProcFits(cfg, w, k, Aware(pr, c))
  {
  }

  lemma StepFits(cfg: Settings, w: World, k: Watch, pr: Proc, c: Choice)
    requires pr.pc != Done && WorldFits(cfg, w, k) && ProcFits(cfg, w, k, pr)
    ensures Stepped(cfg, w, k, pr, Step(cfg, pr, w, c))
  {
    AwareFits(cfg, w, k, pr, c);
    ActFits(cfg, w, k, Aware(pr, c), c);
  }

  // ---- Any run ----

  ghost predicate SysFits(cfg: Settings, s: Sys, k: Watch) {
    WorldFits(cfg, s.world, k) && forall pid :: pid in s.procs ==> ProcFits(cfg, s.world, k, s.procs[pid])
  }

  predicate EventFits(k: Watch, e: Event) { e.Start? ==> OpFits(k, e.op) }

  lemma TickFits(cfg: Settings, s: Sys, k: Watch, pid: nat, c: Choice)
    requires SysFits(cfg, s, k) && pid in s.procs && s.procs[pid].pc != Done
    ensures SysFits(cfg, Jump(cfg, s, Tick(pid, c)), k)
  {
    var s' := Jump(cfg, s, Tick(pid, c));
    StepFits(cfg, s.world, k, s.procs[pid], c);
    forall q | q in s'.procs ensures ProcFits(cfg, s'.world, k, s'.procs[q]) {
      if q != pid { ProcLater(cfg, s.world, s'.world, k, s.procs[q]); }
    }
  }

  lemma BeginFits(cfg: Settings, s: Sys, k: Watch, op: Op)
    requires WorldFits(cfg, s.world, k) && Fresh(s, op) && OpFits(k, op)
    ensures var w' := if op.Create? then s.world.(nextId := s.world.nextId + 1) else s.world;
      WorldFits(cfg, w', k) && Later(s.world, w') && ProcFits(cfg, w', k, Begin(op))
  {
  }

  lemma StartedFits(cfg: Settings, s: Sys, k: Watch, pid: nat, op: Op)
    requires SysFits(cfg, s, k) && pid !in s.procs && Fresh(s, op) && OpFits(k, op)
    ensures SysFits(cfg, WithStarted(s, pid, op), k)
  {
    var s' := WithStarted(s, pid, op);
    BeginFits(cfg, s, k, op);
    forall q | q in s'.procs ensures ProcFits(cfg, s'.world, k, s'.procs[q]) {
      if q != pid { ProcLater(cfg, s.world, s'.world, k, s.procs[q]); }
    }
  }

  lemma VanishFits(cfg: Settings, s: Sys, k: Watch, cid: Cid)
    requires SysFits(cfg, s, k)
    ensures SysFits(cfg, Jump(cfg, s, Vanish(cid)), k)
  {
    var s' := Jump(cfg, s, Vanish(cid));
    EraseContainerFits(cfg, s.world, k, cid);
    forall q | q in s'.procs
      ensures ProcFits(cfg, s'.world, k, s'.procs[q])
    {
      ProcLater(cfg, s.world, s'.world, k, s.procs[q]);
    }
  }

  lemma JumpFits(cfg: Settings, s: Sys, k: Watch, e: Event)
    requires SysFits(cfg, s, k) && EventFits(k, e)
    ensures SysFits(cfg, Jump(cfg, s, e), k)
  {
    match e
    case Start(pid, op) => if pid !in s.procs && Fresh(s, op) { StartedFits(cfg, s, k, pid, op); }
    case Tick(pid, c) => if pid in s.procs && s.procs[pid].pc != Done { TickFits(cfg, s, k, pid, c); }
    case Finish(pid) =>
    case Vanish(cid) => VanishFits(cfg, s, k, cid);
    case Crash =>
  }

  lemma {:induction false} JumpsFit(cfg: Settings, s: Sys, k: Watch, es: seq<Event>)
    requires SysFits(cfg, s, k) && forall i :: 0 <= i < |es| ==> EventFits(k, es[i])
    ensures SysFits(cfg, JumpAll(cfg, s, es), k)
  {
    if es != [] {
      JumpsFit(cfg, s, k, es[..|es| - 1]);
      JumpFits(cfg, JumpAll(cfg, s, es[..|es| - 1]), k, es[|es| - 1]);
    }
  }

  // ---- From an idle panel ----

  // What every world with the invariant is, and an empty one in particular.
  ghost predicate Sound(cfg: Settings, w: World) {
    Issued(w) && PortsUnique(w.rows) && forall i :: i in w.rows ==> RowSound(cfg, w, i)
  }

  predicate RowSound(cfg: Settings, w: World, i: Id)
    requires i in w.rows
  {
    var p := w.rows[i];
    && p.id == i && PortAllowed(cfg, p.port)
    && (p.containerId.Some? ==> p.containerId.value < w.nextCid)
    && (p.containerId.Some? && p.containerId.value in w.ctrs ==> Mine(w.ctrs, p.containerId.value, i))
  }

  lemma BaseIsSound(cfg: Settings, w: World)
    requires Base(cfg, w)
    ensures Sound(cfg, w)
  {
    forall i | i in w.rows ensures RowSound(cfg, w, i) { assert RowOk(cfg, w, i); }
  }

  lemma SoundFits(cfg: Settings, s: Sys, k: Watch)
    requires Sound(cfg, s.world) && s.procs == map[]
    requires k.q.Some? ==> k.q.value.id < s.world.nextId
    requires k.q.Some? && k.q.value.id in s.world.rows ==> s.world.rows[k.q.value.id] == k.q.value
    requires k.forms ==> forall i :: i in s.world.rows ==> Forms.FormBorn(s.world.rows[i])
    ensures SysFits(cfg, s, k)
  {
    forall i | i in s.world.rows ensures s.world.rows[i].id == i && RowFits(cfg, s.world, k, s.world.rows[i]) {
      assert RowSound(cfg, s.world, i);
    }
  }

  const UNWATCHED := Watch(None, false)

  // ---- Safety ----

  /** Whatever runs beside whatever, whatever fails and wherever the panel is killed: no port is
      held twice, every port is in range and unreserved, and a recorded container that exists
      carries its row's label. */
  lemma SafeInAnyOrder(cfg: Settings, s: Sys, es: seq<Event>)
    requires Sound(cfg, s.world) && s.procs == map[]
    ensures var w := JumpAll(cfg, s, es).world;
      && (forall i, j :: i in w.rows && j in w.rows && i != j ==> w.rows[i].port != w.rows[j].port)
      && (forall i :: i in w.rows ==> 1 <= w.rows[i].port <= 65535 && w.rows[i].port !in cfg.reserved)
      && (forall i :: i in w.rows && w.rows[i].containerId.Some? && w.rows[i].containerId.value in w.ctrs ==>
            Mine(w.ctrs, w.rows[i].containerId.value, i))
  {
    SoundFits(cfg, s, UNWATCHED);
    JumpsFit(cfg, s, UNWATCHED, es);
  }

  // ---- Credentials ----

  // Nothing speaks yet of the id a Create is about to take.
  lemma WatchNew(cfg: Settings, w: World, w': World, row: Proxy, pr: Proc)
    requires ProcFits(cfg, w, UNWATCHED, pr) && row.id == w.nextId && w' == w.(nextId := w.nextId + 1)
    ensures ProcFits(cfg, w', Watch(Some(row), false), pr)
  {
  }

  lemma StartedWatched(cfg: Settings, s: Sys, pid: nat, op: Op)
    requires SysFits(cfg, s, UNWATCHED) && pid !in s.procs && op.Create? && Fresh(s, op)
    ensures SysFits(cfg, WithStarted(s, pid, op), Watch(Some(op.row), false))
  {
    var s' := WithStarted(s, pid, op);
    forall q | q in s'.procs ensures ProcFits(cfg, s'.world, Watch(Some(op.row), false), s'.procs[q]) {
      if q != pid { WatchNew(cfg, s.world, s'.world, op.row, s.procs[q]); }
    }
  }

  // An id that is not new was handed out before this event.
  lemma OnlyStartsIssue(cfg: Settings, s: Sys, e: Event, id: Id)
    requires SysFits(cfg, s, UNWATCHED) && s.world.nextId <= id < Jump(cfg, s, e).world.nextId
    ensures e.Start? && e.op.Create? && e.pid !in s.procs && Fresh(s, e.op) && e.op.row.id == id
  {
    if e.Tick? && e.pid in s.procs && s.procs[e.pid].pc != Done {
      StepIssuesNone(cfg, s.procs[e.pid], s.world, e.choice);
    }
  }

  lemma StepIssuesNone(cfg: Settings, pr: Proc, w: World, c: Choice)
    ensures Step(cfg, pr, w, c).1.nextId == w.nextId
  {
    var aware := Aware(pr, c);
    if pr.pc != Done {
      match pr.op
      case Create(_) => CreateIssuesNone(cfg, aware, w, c);
      case Delete(_) => DeleteIssuesNone(aware, w, c);
      case UpdateLimits(_, _) => UpdateIssuesNone(cfg, aware, w, c);
      case Recreate(_, _, _) => RecreateIssuesNone(cfg, aware, w, c);
      case Reconcile => ReconcileIssuesNone(aware, w, c);
      case RemoveOrphan(_) => OrphanIssuesNone(aware, w, c);
    }
  }

  lemma StartIssuesNone(pr: Proc, w: World, c: Choice)
    ensures StartStep(pr, w, c).1.nextId == w.nextId
  {
  }

  lemma CreateIssuesNone(cfg: Settings, pr: Proc, w: World, c: Choice)
    ensures CreateStep(cfg, pr, w, c).1.nextId == w.nextId
  {
  }

  lemma DeleteIssuesNone(pr: Proc, w: World, c: Choice)
    requires pr.op.Delete?
    ensures DeleteStep(pr, w, c).1.nextId == w.nextId
  {
  }

  lemma UpdateIssuesNone(cfg: Settings, pr: Proc, w: World, c: Choice)
    requires pr.op.UpdateLimits?
    ensures UpdateStep(cfg, pr, w, c).1.nextId == w.nextId
  {
  }

  lemma MoveIssuesNone(cfg: Settings, pr: Proc, w: World, c: Choice)
    requires pr.op.Recreate? && !Starting(pr.pc)
    ensures RecreateStep(cfg, pr, w, c).1.nextId == w.nextId
  {
  }

  lemma RecreateIssuesNone(cfg: Settings, pr: Proc, w: World, c: Choice)
    requires pr.op.Recreate?
    ensures RecreateStep(cfg, pr, w, c).1.nextId == w.nextId
  {
    if Starting(pr.pc) { StartIssuesNone(pr, w, c); } else { MoveIssuesNone(cfg, pr, w, c); }
  }

  lemma ReconcileIssuesNone(pr: Proc, w: World, c: Choice)
    ensures ReconcileStep(pr, w, c).1.nextId == w.nextId
  {
    StartIssuesNone(pr, w, c);
  }

  lemma OrphanIssuesNone(pr: Proc, w: World, c: Choice)
    requires pr.op.RemoveOrphan?
    ensures RemoveOrphanStep(pr, w, c).1.nextId == w.nextId
  {
  }

  // Every id in use has had one secret and one token from the first.
  lemma {:induction false} Origin(cfg: Settings, s: Sys, es: seq<Event>, id: Id) returns (q: Proxy)
    requires Sound(cfg, s.world) && s.procs == map[] && id < JumpAll(cfg, s, es).world.nextId
    ensures q.id == id && SysFits(cfg, JumpAll(cfg, s, es), Watch(Some(q), false))
  {
    if es == [] {
      q := if id in s.world.rows then s.world.rows[id] else ZERO_PROXY.(id := id);
      if id in s.world.rows { assert RowSound(cfg, s.world, id); }
      SoundFits(cfg, s, Watch(Some(q), false));
    } else {
      var n := |es| - 1;
      var t := JumpAll(cfg, s, es[..n]);
      if id < t.world.nextId {
        q := Origin(cfg, s, es[..n], id);
        JumpFits(cfg, t, Watch(Some(q), false), es[n]);
      } else {
        SoundFits(cfg, s, UNWATCHED);
        JumpsFit(cfg, s, UNWATCHED, es[..n]);
        OnlyStartsIssue(cfg, t, es[n], id);
        q := es[n].op.row;
        StartedWatched(cfg, t, es[n].pid, es[n].op);
      }
    }
  }

  lemma SameOrigin(cfg: Settings, s: Sys, q: Proxy, id: Id)
    requires SysFits(cfg, s, Watch(Some(q), false)) && q.id == id && id in s.world.rows
    ensures SameIdentity(s.world.rows[id], q)
  {
  }

  /** Whatever runs in between and beside, a proxy's id, secret and token are the same in any two
      states of a run that have its row. */
  lemma CredentialsNeverChange(cfg: Settings, s: Sys, es: seq<Event>, more: seq<Event>, id: Id)
    requires Sound(cfg, s.world) && s.procs == map[]
    requires id in JumpAll(cfg, s, es).world.rows && id in JumpAll(cfg, JumpAll(cfg, s, es), more).world.rows
    ensures var t := JumpAll(cfg, s, es); var p, q := t.world.rows[id], JumpAll(cfg, t, more).world.rows[id];
      p.secret == q.secret && p.apiToken == q.apiToken && p.id == q.id
  {
    var t := JumpAll(cfg, s, es);
    SoundFits(cfg, s, UNWATCHED);
    JumpsFit(cfg, s, UNWATCHED, es);
    var q := Origin(cfg, s, es, id);
    JumpsFit(cfg, t, Watch(Some(q), false), more);
    SameOrigin(cfg, t, q, id);
    SameOrigin(cfg, JumpAll(cfg, t, more), q, id);
  }

  // ---- Limits ----

  // Rows come from the create form and patches from the limits form.
  predicate FormEvent(e: Event) { e.Start? ==> OpFits(Watch(None, true), e.op) }

  /** Where limits come through the two forms only, every row is one the forms could have left. */
  lemma FormsLeaveFormBorn(cfg: Settings, s: Sys, es: seq<Event>, id: Id)
    requires Sound(cfg, s.world) && s.procs == map[]
    requires forall i :: i in s.world.rows ==> Forms.FormBorn(s.world.rows[i])
    requires (forall e :: e in es ==> FormEvent(e)) && id in JumpAll(cfg, s, es).world.rows
    ensures Forms.FormBorn(JumpAll(cfg, s, es).world.rows[id])
  {
    var k := Watch(None, true);
    SoundFits(cfg, s, k);
    forall i | 0 <= i < |es| ensures EventFits(k, es[i]) { assert FormEvent(es[i]); }
    JumpsFit(cfg, s, k, es);
  }
}
