/** The service, statement by statement, over its three stores. Every method keeps a ghost
    record of the run it performs; the record is what ties it to the step programs. */
module Service {
  import opened Wrappers
  import opened Entities
  import opened Machine
  import opened Invariant
  import opened Histories
  import opened Store
  import opened Runtime

  // ---- Which step programs share an action ----

  // The operation after a step in which it heard from its context.
  function Heard(pr: Proc, cancelled: bool): Proc { pr.(cancelled := cancelled) }

  lemma Unmapped<T>(m: map<nat, T>, k: nat)
    requires k !in m
    ensures m - {k} == m
  {
  }

  // Hearing again from the context in between makes no difference.
  lemma MadeIsHeard(pr: Proc, heard: bool, cancelled: bool, e: Fault)
    ensures Heard(Made(Heard(pr, heard)), cancelled) == Made(Heard(pr, cancelled))
    ensures Fail(Heard(Made(Heard(pr, heard)), cancelled), e) == Fail(Heard(pr, cancelled), e)
  {
  }

  // What `Context.Next` promises of a choice.
  predicate Answers(pr: Proc, c: Choice, cancelled: bool) { c.cancel == cancelled && (pr.cancelled ==> cancelled) }

  lemma HeardIsAware(pr: Proc, c: Choice, cancelled: bool)
    requires Answers(pr, c, cancelled)
    ensures Aware(pr, c) == Heard(pr, cancelled)
  {
  }

  predicate Writing(pr: Proc) {
    || (pr.op.Create? && pr.pc == CMkdir) || (pr.op.UpdateLimits? && pr.pc == UMkdir)
      || (pr.op.Recreate? && pr.pc == RMkdir)
  }

  predicate Renaming(pr: Proc) {
    || (pr.op.Create? && pr.pc == CWrite) || (pr.op.UpdateLimits? && pr.pc == UWrite)
      || (pr.op.Recreate? && pr.pc == RWrite)
  }

  function AfterMkdir(pc: Pc): Pc { if pc == CMkdir then CWrite else if pc == UMkdir then UWrite else RWrite }

  function AfterWrite(pc: Pc): Pc { if pc == CWrite then CNetwork else if pc == UWrite then UPatch else SBuild }

  function Made(pr: Proc): Proc { pr.(pc := AfterMkdir(pr.pc)) }

  function Written(pr: Proc): Proc {
    pr.(pc := AfterWrite(pr.pc), undo := if pr.op.Create? then pr.undo + [DropDir] else pr.undo)
  }

  predicate AwaitingHealth(pr: Proc) {
    (pr.op.Create? && pr.pc == CHealth) || ((pr.op.Recreate? || pr.op.Reconcile?) && pr.pc == SHealth)
  }

  predicate Fetching(pr: Proc) {
    (pr.op.Delete? && pr.pc == DGet) || (pr.op.UpdateLimits? && pr.pc == UGet) || (pr.op.Recreate? && pr.pc == RGet)
  }

  function AfterFetch(op: Op): Pc { if op.Delete? then DRemove else if op.UpdateLimits? then UMkdir else RCheck }

  predicate Removing(pr: Proc) { (pr.op.Delete? && pr.pc == DRemove) || (pr.op.Recreate? && pr.pc == RRemove) }

  function AfterRemoval(pr: Proc): Proc {
    if pr.op.Recreate? then pr.(pc := RPort, p := Moved(pr)) else pr.(pc := DDir)
  }

  // The stores without a recorded container, if there is one.
  function Without(w: World, recorded: Option<Cid>): World {
    if recorded.None? then w else EraseContainer(w, recorded.value)
  }

  predicate Saving(pr: Proc) {
    (pr.op.UpdateLimits? && pr.pc == UCommit) || (pr.op.Recreate? && pr.pc == RPort)
  }

  function AfterSave(pc: Pc): Pc { if pc == UCommit then Done else RMkdir }

  predicate InStart(pr: Proc) { (pr.op.Recreate? || pr.op.Reconcile?) && pr.undo == [] }

  predicate Listing(pr: Proc) { (pr.op.Reconcile? && pr.pc == KRows) || (pr.op.RemoveOrphan? && pr.pc == ORows) }

  function AfterList(pc: Pc): Pc { if pc == KRows then KCtrs else OCtrs }

  // Back in Reconcile's loop, with its own variables kept.
  predicate InLoop(pr: Proc, pr': Proc) {
    && pr'.op == pr.op && pr'.undo == pr.undo && pr'.pc == KPick && pr'.err == pr.err
    && pr'.snapshot == pr.snapshot && pr'.index == pr.index
  }

  // ---- Listings ----

  function Elems(s: seq<nat>): set<nat> { set x | x in s }

  lemma ElemsSnoc(s: seq<nat>, x: nat)
    ensures Elems(s + [x]) == Elems(s) + {x} && Elems(s) + {} == Elems(s)
  {
  }

  // The ids a loop over the listing still has before it.
  function IdsFrom(list: seq<Proxy>, i: nat): set<Id> { set k | i <= k < |list| :: list[k].id }

  lemma ListedIds(list: seq<Proxy>, rows: Rows)
    requires Lists(list, rows)
    ensures IdsFrom(list, 0) == rows.Keys
  {
  }

  lemma NextId(list: seq<Proxy>, rows: Rows, i: nat)
    requires Lists(list, rows) && i < |list|
    ensures list[i].id in IdsFrom(list, i) && IdsFrom(list, i) - {list[i].id} == IdsFrom(list, i + 1)
    ensures list[i].id in rows && rows[list[i].id] == list[i]
  {
  }

  lemma KnownAreListed(list: seq<Proxy>, rows: Rows, known: set<Id>)
    requires Lists(list, rows) && known == IdsFrom(list, 0)
    ensures known == rows.Keys
  {
    ListedIds(list, rows);
  }

  // What `docker.List` promises of its answer.
  ghost predicate ListsContainers(k: Ctrs, containers: seq<(Cid, Container)>) {
    && (forall i :: 0 <= i < |containers| ==>
          containers[i].0 in k && k[containers[i].0] == containers[i].1 && containers[i].1.managed)
    && (forall c :: c in k && k[c].managed ==> exists i :: 0 <= i < |containers| && containers[i].0 == c)
  }

  lemma UnclaimedAreOrphans(k: Ctrs, containers: seq<(Cid, Container)>, known: set<Id>, orphans: seq<Cid>, rows: Rows,
      w: World)
    requires ListsContainers(k, containers) && w.ctrs == k && known == rows.Keys
    requires forall c ::
      c in orphans <==> exists i :: 0 <= i < |containers| && containers[i].0 == c && containers[i].1.owner !in known
    ensures Elems(orphans) == Machine.Orphans(w, rows)
  {
    forall c ensures c in orphans <==> c in Machine.Orphans(w, rows) {
      if c in Machine.Orphans(w, rows) {
        var i :| 0 <= i < |containers| && containers[i].0 == c;
        assert containers[i].1.owner !in known;
      }
    }
  }

  lemma IndexIsLookup(k: Ctrs, containers: seq<(Cid, Container)>, index: map<Id, Cid>, w: World)
    requires ListsContainers(k, containers) && w.ctrs == k
    requires forall i ::
      i in index ==> exists j :: 0 <= j < |containers| && containers[j].1.owner == i && containers[j].0 == index[i]
    requires forall j :: 0 <= j < |containers| ==> containers[j].1.owner in index
    ensures IsIndex(w, index)
  {
    forall c | c in w.ctrs && w.ctrs[c].managed ensures w.ctrs[c].owner in index {
      var j :| 0 <= j < |containers| && containers[j].0 == c;
    }
  }

  // ---- What one step of those programs is ----

  lemma ListIsStep(cfg: Settings, pr: Proc, w: World, c: Choice)
    requires Listing(pr)
    ensures Step(cfg, pr, w, c) == Machine.ListRows(Aware(pr, c), w, c, AfterList(pr.pc))
  {
  }

  lemma WriteIsStep(cfg: Settings, pr: Proc, w: World, c: Choice)
    requires Renaming(pr)
    ensures Step(cfg, pr, w, c) == WriteFile(cfg, Aware(pr, c), w, c, Written(Aware(pr, c)))
  {
  }

  lemma MkdirIsStep(cfg: Settings, pr: Proc, w: World, c: Choice)
    requires Writing(pr)
    ensures Step(cfg, pr, w, c) == Mkdir(Aware(pr, c), w, c, AfterMkdir(pr.pc))
  {
  }

  lemma RemoveIsStep(cfg: Settings, pr: Proc, w: World, c: Choice)
    requires Removing(pr)
    ensures Step(cfg, pr, w, c) == RemoveRecorded(Aware(pr, c), w, c, AfterRemoval(Aware(pr, c)))
  {
  }

  lemma SaveIsStep(cfg: Settings, pr: Proc, w: World, c: Choice)
    requires Saving(pr)
    ensures Step(cfg, pr, w, c) == Commit(Aware(pr, c), w, c, AfterSave(pr.pc))
  {
  }

  lemma StartIsStep(cfg: Settings, pr: Proc, w: World, c: Choice)
    requires Starting(pr.pc) && InStart(pr)
    ensures Step(cfg, pr, w, c) == StartStep(Aware(pr, c), w, c)
  {
  }

  lemma HealthIsStep(cfg: Settings, pr: Proc, w: World, c: Choice)
    requires AwaitingHealth(pr)
    ensures Step(cfg, pr, w, c) == AwaitHealth(Aware(pr, c), w, c, if pr.pc == CHealth then CCommit else SCommit)
  {
  }

  // ---- ... and what it comes to ----

  lemma FetchOutcome(cfg: Settings, pr: Proc, w: World, c: Choice, id: Id)
    requires Fetching(pr) && pr.undo == [] && Subject(pr.op) == Some(id)
    ensures var a := Aware(pr, c);
      Step(cfg, pr, w, c) ==
        if a.cancelled || c.fail then (Fail(a, StoreFailed), w)
        else if id !in w.rows then (Fail(a, NotFound), w)
        else (a.(pc := AfterFetch(pr.op),
                 p := if pr.op.UpdateLimits? then ApplyPatch(w.rows[id], pr.op.patch) else w.rows[id]), w)
  {
  }

  // `err` is what the call returned, `next` where the operation is then and `after` what it left.
  lemma RemoveOutcome(cfg: Settings, pr: Proc, w: World, c: Choice, cancelled: bool, err: Option<Fault>, next: Proc,
      after: World)
    requires Removing(pr) && pr.undo == [] && Answers(pr, c, cancelled)
    requires err == if pr.p.containerId.Some? && (cancelled || c.fail) then Some(RuntimeFailed) else None
    requires next == if err.None? then AfterRemoval(Heard(pr, cancelled)) else Fail(Heard(pr, cancelled), err.value)
    requires after == if err.Some? then w else Without(w, pr.p.containerId)
    ensures Genuine(cfg, Single(pr, w, c, next, after))
  {
    HeardIsAware(pr, c, cancelled);
    RemoveIsStep(cfg, pr, w, c);
    SingleIsGenuine(cfg, pr, w, c, next, after);
  }

  lemma DeleteOutcome(cfg: Settings, pr: Proc, w: World, c: Choice)
    requires pr.op.Delete? && pr.pc == DRow
    ensures var a := Aware(pr, c);
      Step(cfg, pr, w, c) ==
        if c.fail then (Fail(a, StoreFailed), w)
        else if pr.p.id !in w.rows then (Fail(a, NotFound), w)
        else (a.(pc := Done), EraseRow(w, pr.p.id))
  {
  }

  lemma CleanOutcome(cfg: Settings, pr: Proc, w: World, c: Choice)
    requires pr.op.Reconcile? && pr.pc == KCleanRow
    ensures var a := Aware(pr, c);
      Step(cfg, pr, w, c) ==
        if c.fail || pr.p.id !in w.rows then (a.(pc := KPick), w)
        else (a.(pc := KPick, report := pr.report.(cleanedUp := pr.report.cleanedUp + {pr.p.id})), EraseRow(w, pr.p.id))
  {
  }

  lemma WriteOutcome(cfg: Settings, pr: Proc, w: World, c: Choice, cancelled: bool, err: Option<Fault>, next: Proc,
      after: World)
    requires Renaming(pr) && Answers(pr, c, cancelled)
    requires err ==
      if Rendered(cfg, pr.p).None? then Some(ConfigInvalid) else if c.fail then Some(WriteFailed) else None
    requires next == if err.Some? then Fail(Heard(pr, cancelled), err.value) else Written(Heard(pr, cancelled))
    requires after == if err.Some? then w else PutDir(w, pr.p.id, Rendered(cfg, pr.p).value)
    ensures Genuine(cfg, Single(pr, w, c, next, after))
  {
    HeardIsAware(pr, c, cancelled);
    WriteIsStep(cfg, pr, w, c);
    SingleIsGenuine(cfg, pr, w, c, next, after);
  }

  lemma CommitOutcome(cfg: Settings, pr: Proc, w: World, c: Choice)
    requires pr.op.Create? && pr.pc == CCommit
    ensures var a, saved := Aware(pr, c), Machine.SaveRow(w, pr.p, c);
      Step(cfg, pr, w, c) ==
        if saved.Success? then (a.(pc := Done), saved.value) else (a.(pc := Done, err := Some(saved.error)), w)
  {
  }

  lemma SaveOutcome(cfg: Settings, pr: Proc, w: World, c: Choice, cancelled: bool, err: Option<Fault>, next: Proc,
      after: World)
    requires Saving(pr) && pr.undo == [] && Answers(pr, c, cancelled)
    requires Machine.SaveRow(w, pr.p, c) == if err.None? then Success(after) else Failure(err.value)
    requires err.Some? ==> after == w
    requires next ==
      if err.None? then Heard(pr, cancelled).(pc := AfterSave(pr.pc)) else Fail(Heard(pr, cancelled), err.value)
    ensures Genuine(cfg, Single(pr, w, c, next, after))
  {
    HeardIsAware(pr, c, cancelled);
    SaveIsStep(cfg, pr, w, c);
    SingleIsGenuine(cfg, pr, w, c, next, after);
  }

  lemma RecordedOutcome(cfg: Settings, pr: Proc, w: World, c: Choice, cancelled: bool, err: Option<Fault>, after: World)
    requires pr.pc == SCommit && InStart(pr) && Answers(pr, c, cancelled)
    requires Machine.SaveRow(w, pr.p, c) == if err.None? then Success(after) else Failure(err.value)
    requires err.Some? ==> after == w
    ensures Genuine(cfg, Single(pr, w, c, Return(Heard(pr, cancelled), err), after))
  {
    HeardIsAware(pr, c, cancelled);
    StartIsStep(cfg, pr, w, c);
    SingleIsGenuine(cfg, pr, w, c, Return(Heard(pr, cancelled), err), after);
  }

  function AfterBuild(pr: Proc, ok: bool, q: Proxy): Proc {
    if ok then pr.(pc := SStart, p := q) else pr.(pc := SBuildFailed, p := q, unbuilt := pr.unbuilt + {pr.p.id})
  }

  lemma BuildOutcome(cfg: Settings, pr: Proc, w: World, c: Choice, cancelled: bool, ok: bool, q: Proxy, after: World)
    requires pr.pc == SBuild && InStart(pr) && Answers(pr, c, cancelled) && ok == !(cancelled || c.fail)
    requires q == if ok then pr.p.(containerId := Some(w.nextCid)) else Errored(pr.p, c.text)
    requires after == if ok then AddContainer(w, pr.p.id, pr.p.port) else w
    ensures Genuine(cfg, Single(pr, w, c, AfterBuild(Heard(pr, cancelled), ok, q), after))
  {
    HeardIsAware(pr, c, cancelled);
    StartIsStep(cfg, pr, w, c);
    SingleIsGenuine(cfg, pr, w, c, AfterBuild(Heard(pr, cancelled), ok, q), after);
  }

  lemma UndoOutcome(cfg: Settings, pr: Proc, w: World, c: Choice, cancelled: bool, u: Undo, after: World)
    requires pr.op.Create? && pr.pc == CUndo && pr.undo != [] && pr.undo[|pr.undo| - 1] == u
    requires Answers(pr, c, cancelled)
    requires after == Machine.Compensate(w, pr.p.id, u, c)
    ensures Genuine(cfg, Single(pr, w, c, Heard(pr, cancelled).(undo := pr.undo[..|pr.undo| - 1]), after))
  {
    HeardIsAware(pr, c, cancelled);
    SingleIsGenuine(cfg, pr, w, c, Heard(pr, cancelled).(undo := pr.undo[..|pr.undo| - 1]), after);
  }

  // One row of Reconcile's loop, as it is taken.
  lemma PickOutcome(pr: Proc, p: Proxy)
    requires pr.pc == KPick && p.id in pr.todo && p.id in pr.snapshot && pr.snapshot[p.id] == p
    ensures PickRow(pr, Choice(pr.cancelled, false, "", p.id, map[])) ==
      var rest := pr.(todo := pr.todo - {p.id}, p := p);
      if p.id in pr.index then
        if p.containerId == Some(pr.index[p.id]) then rest
        else rest.(pc := KRelink, p := p.(containerId := Some(pr.index[p.id])))
      else rest.(pc := if p.state == Creating then KCleanDir else SBuild)
  {
  }

  // startContainer has returned `err` to the operation that called it.
  predicate Returned(pr: Proc, pr': Proc, err: Option<Fault>) {
    && pr'.op == pr.op && pr'.undo == pr.undo && pr'.snapshot == pr.snapshot && pr'.todo == pr.todo
      && pr'.index == pr.index
    && (if pr.op.Reconcile? then
          && pr'.pc == KPick && pr'.err == pr.err
          && pr'.report == if err.None? then pr.report.(restarted := pr.report.restarted + {pr.p.id}) else pr.report
        else pr'.pc == Done && pr'.err == err)
  }

  class ProxyService {
    const cfg: Settings
    const store: Table
    const docker: Docker
    const files: Files
    var nextId: Id

    // The operation under way, as the step program sees it, and its run so far.
    ghost var proc: Proc
    ghost var history: History

    constructor (cfg: Settings, store: Table, docker: Docker, files: Files)
      ensures this.cfg == cfg && this.store == store && this.docker == docker && this.files == files && nextId == 0
    {
      this.cfg, this.store, this.docker, this.files, nextId := cfg, store, docker, files, 0;
      proc := Begin(Op.Reconcile);
      history := History([], []);
    }

    ghost function Stores(): World
      reads this, store, docker, files
    {
      World(store.View(), docker.ctrs, files.dirs, nextId, docker.next)
    }

    ghost predicate Recording(ctx: Context)
      reads this, store, docker, files, ctx
    {
      Genuine(cfg, history) && Last(history) == (proc, Stores()) && (proc.cancelled ==> ctx.cancelled)
    }

    ghost function Begun(): (Proc, World)
      requires history.states != []
      reads this
    {
      First(history)
    }

    // The record of a finished operation: a run of its step program from the stores as they were.
    ghost predicate Performed(op: Op, before: World, err: Option<Fault>)
      reads this, store, docker, files
    {
      && Genuine(cfg, history) && First(history) == (Begin(op), before) && Last(history) == (proc, Stores())
      && proc.op == op && proc.pc == Done && proc.err == err
    }

    ghost method Open(op: Op, ctx: Context)
      modifies this`proc, this`history
      ensures proc == Begin(op) && Recording(ctx) && Begun() == (Begin(op), Stores())
    {
      proc := Begin(op);
      history := Started(proc, Stores());
    }

    // Record one step: the stores have just changed as the step program says.
    ghost method Note(c: Choice, before: World, ctx: Context)
      requires Genuine(cfg, history) && Last(history) == (proc, before)
      requires proc.cancelled || c.cancel ==> ctx.cancelled
      requires Step(cfg, proc, before, c).1 == Stores()
      requires Step(cfg, proc, before, c).0.cancelled == (proc.cancelled || c.cancel)
      modifies this`proc, this`history
      ensures Recording(ctx) && Begun() == old(Begun()) && proc == Step(cfg, old(proc), before, c).0
    {
      ExtendedIsGenuine(cfg, history, c);
      history := Extended(cfg, history, c);
      proc := Step(cfg, proc, before, c).0;
    }

    // The same, for a step known from its own record.
    ghost method NoteAs(c: Choice, before: World, next: Proc, ctx: Context)
      requires Genuine(cfg, history) && Last(history) == (proc, before) && (next.cancelled ==> ctx.cancelled)
      requires Genuine(cfg, Single(proc, before, c, next, Stores()))
      modifies this`proc, this`history
      ensures Recording(ctx) && Begun() == old(Begun()) && proc == next
    {
      SingleIsStep(cfg, proc, before, c, next, Stores());
      ExtendedIsGenuine(cfg, history, c);
      history := Extended(cfg, history, c);
      proc := next;
    }

    // ---- CheckPort ----

    method CheckPort(port: int, busy: bool) returns (err: Option<Fault>)
      ensures err == if port < 1 || port > 65535 then Some(PortRange)
                     else if port in cfg.reserved then Some(PortReserved)
                     else if busy then Some(PortBusy) else None
    {
      if port < 1 || port > 65535 { return Some(PortRange); }
      for i := 0 to |cfg.reserved|
        invariant port !in cfg.reserved[..i]
      {
        if port == cfg.reserved[i] { return Some(PortReserved); }
      }
      if busy { return Some(PortBusy); }
      err := None;
    }

    // ---- Create ----

    method CheckRequest(ctx: Context, p: Proxy) returns (err: Option<Fault>)
      requires Recording(ctx) && proc.op.Create? && proc.pc == CCheck && proc.p == p && proc.undo == []
      modifies this`proc, this`history, ctx
      ensures Recording(ctx) && Begun() == old(Begun())
      ensures err.None? ==> proc == Heard(old(proc), ctx.cancelled).(pc := CInsert)
      ensures err.Some? ==> proc == Fail(Heard(old(proc), ctx.cancelled), err.value)
    {
      var c := ctx.Next();
      err := CheckPort(p.port, c.fail);
      if err.None? && p.tlsDomain == "" { err := Some(DomainRequired); }
      Note(c, Stores(), ctx);
    }

    // CInsert. Its compensation is to drop the row.
    method ClaimPort(ctx: Context, p: Proxy) returns (err: Option<Fault>)
      requires Recording(ctx) && proc.op.Create? && proc.pc == CInsert && proc.p == p && proc.undo == []
      modifies this`proc, this`history, ctx, store
      ensures Recording(ctx) && Begun() == old(Begun())
      ensures err.None? ==> proc == Heard(old(proc), ctx.cancelled).(pc := CMkdir, undo := [DropRow])
      ensures err.Some? ==> proc == Fail(Heard(old(proc), ctx.cancelled), err.value)
    {
      ghost var w := Stores();
      var c := ctx.Next();
      err := store.CreateProxy(p, ctx.cancelled || c.fail);
      Note(c, w, ctx);
    }

    // CMkdir, UMkdir and RMkdir. Nothing compensates a directory that stays empty.
    method MakeConfigDir(ctx: Context, p: Proxy) returns (err: Option<Fault>)
      requires Recording(ctx) && Writing(proc) && proc.p == p
      modifies this`proc, this`history, ctx, files
      ensures Recording(ctx) && Begun() == old(Begun())
      ensures err.None? ==> proc == Made(Heard(old(proc), ctx.cancelled))
      ensures err.Some? ==> proc == Fail(Heard(old(proc), ctx.cancelled), err.value)
    {
      ghost var w := Stores();
      var c := ctx.Next();
      var ok := files.MkdirAll(p.id, c.fail);
      err := if ok then None else Some(MkdirFailed);
      MkdirIsStep(cfg, proc, w, c);
      Note(c, w, ctx);
    }

    // The effect of the write alone.
    method WriteRendered(p: Proxy, down: bool) returns (err: Option<Fault>)
      modifies files
      ensures err == if Rendered(cfg, p).None? then Some(ConfigInvalid) else if down then Some(WriteFailed) else None
      ensures Stores() == if err.Some? then old(Stores()) else PutDir(old(Stores()), p.id, Rendered(cfg, p).value)
    {
      var body := cfg.render(SpecOf(cfg, p));
      if body.None? { return Some(ConfigInvalid); }
      var ok := files.WriteAtomic(p.id, body.value, down);
      err := if ok then None else Some(WriteFailed);
    }

    // CWrite, UWrite and RWrite. In a Create its compensation is to drop the directory.
    method RenderAndRename(ctx: Context, p: Proxy) returns (err: Option<Fault>)
      requires Recording(ctx) && Renaming(proc) && proc.p == p
      modifies this`proc, this`history, ctx, files
      ensures Recording(ctx) && Begun() == old(Begun())
      ensures err.None? ==> proc == Written(Heard(old(proc), ctx.cancelled))
      ensures err.Some? ==> proc == Fail(Heard(old(proc), ctx.cancelled), err.value)
    {
      ghost var w := Stores();
      var c := ctx.Next();
      err := WriteRendered(p, c.fail);
      ghost var heard := Heard(proc, ctx.cancelled);
      ghost var next := if err.Some? then Fail(heard, err.value) else Written(heard);
      WriteOutcome(cfg, proc, w, c, ctx.cancelled, err, next, Stores());
      NoteAs(c, w, next, ctx);
    }

    method WriteConfig(ctx: Context, p: Proxy) returns (err: Option<Fault>)
      requires Recording(ctx) && Writing(proc) && proc.p == p
      modifies this`proc, this`history, ctx, files
      ensures Recording(ctx) && Begun() == old(Begun())
      ensures err.None? ==> proc == Written(Made(Heard(old(proc), ctx.cancelled)))
      ensures err.Some? ==> proc == Fail(Heard(old(proc), ctx.cancelled), err.value)
    {
      err := MakeConfigDir(ctx, p);
      if err.Some? { return; }
      ghost var heard := ctx.cancelled;
      err := RenderAndRename(ctx, p);
      MadeIsHeard(old(proc), heard, ctx.cancelled, if err.Some? then err.value else StoreFailed);
    }

    // CNetwork and CPull: calls that can fail, with no effect on the three stores.
    method PrepareHost(ctx: Context) returns (err: Option<Fault>)
      requires Recording(ctx) && proc.op.Create? && (proc.pc == CNetwork || proc.pc == CPull)
      modifies this`proc, this`history, ctx
      ensures Recording(ctx) && Begun() == old(Begun())
      ensures err.None? ==>
        proc == Heard(old(proc), ctx.cancelled).(pc := if old(proc).pc == CNetwork then CPull else CBuild)
      ensures err.Some? ==> proc == Fail(Heard(old(proc), ctx.cancelled), err.value)
    {
      var c := ctx.Next();
      err := if ctx.cancelled || c.fail then Some(RuntimeFailed) else None;
      Note(c, Stores(), ctx);
    }

    // The effect on the runtime alone.
    method MakeContainer(p: Proxy, down: bool) returns (id: Option<Cid>)
      modifies docker
      ensures id == if down then None else Some(old(docker.next))
      ensures Stores() == if down then old(Stores()) else AddContainer(old(Stores()), p.id, p.port)
    {
      id := docker.Create(p.id, p.port, down);
    }

    // CBuild. Its compensation is to drop the container it was given.
    method BuildContainer(ctx: Context, p: Proxy) returns (q: Proxy, err: Option<Fault>)
      requires Recording(ctx) && proc.op.Create? && proc.pc == CBuild && proc.p == p
      modifies this`proc, this`history, ctx, docker
      ensures Recording(ctx) && Begun() == old(Begun())
      ensures err.None? ==> q.containerId.Some? && q == p.(containerId := q.containerId)
      ensures err.None? ==> proc == Heard(old(proc), ctx.cancelled).(pc := CStart, p := q,
            undo := old(proc).undo + [DropContainer(q.containerId.value)])
      ensures err.Some? ==> proc == Fail(Heard(old(proc), ctx.cancelled), err.value)
    {
      ghost var w := Stores();
      var c := ctx.Next();
      var id := MakeContainer(p, ctx.cancelled || c.fail);
      q, err := p.(containerId := id), if id.None? then Some(RuntimeFailed) else None;
      Note(c, w, ctx);
    }

    // CStart, the last step whose failure rolls back.
    method StartBuilt(ctx: Context, cid: Cid) returns (err: Option<Fault>)
      requires Recording(ctx) && proc.op.Create? && proc.pc == CStart && proc.p.containerId == Some(cid)
      modifies this`proc, this`history, ctx, docker
      ensures Recording(ctx) && Begun() == old(Begun())
      ensures err.None? ==> proc == Heard(old(proc), ctx.cancelled).(pc := CHealth)
      ensures err.Some? ==> proc == Fail(Heard(old(proc), ctx.cancelled), err.value)
    {
      ghost var w := Stores();
      var c := ctx.Next();
      var ok := docker.Start(cid, ctx.cancelled || c.fail);
      err := if ok then None else Some(RuntimeFailed);
      Note(c, w, ctx);
    }

    // The polling loop and its clock are reduced to its verdict.
    method WaitHealthy(ctx: Context, p: Proxy) returns (q: Proxy)
      requires Recording(ctx) && AwaitingHealth(proc) && proc.p == p
      modifies this`proc, this`history, ctx
      ensures Recording(ctx) && Begun() == old(Begun())
      ensures q == Healthy(p) || q == Errored(p, q.message)
      ensures proc ==
        Heard(old(proc), ctx.cancelled).(pc := if old(proc).pc == CHealth then CCommit else SCommit, p := q)
    {
      var c := ctx.Next();
      var healthy := false;
      if p.containerId.Some? { healthy := docker.Inspect(p.containerId.value, ctx.cancelled || c.fail); }
      q := if healthy then Healthy(p) else Errored(p, c.text);
      HealthIsStep(cfg, proc, Stores(), c);
      Note(c, Stores(), ctx);
    }

    // On an uncancellable context: only the database itself can refuse.
    method CommitCreated(ctx: Context, p: Proxy) returns (err: Option<Fault>)
      requires Recording(ctx) && proc.op.Create? && proc.pc == CCommit && proc.p == p
      modifies this`proc, this`history, ctx, store
      ensures Recording(ctx) && Begun() == old(Begun())
      ensures proc == Heard(old(proc), ctx.cancelled).(pc := Done, err := if err.None? then old(proc).err else err)
    {
      ghost var w := Stores();
      var c := ctx.Next();
      err := store.UpdateProxy(p, c.fail);
      CommitOutcome(cfg, proc, w, c);
      Note(c, w, ctx);
    }

    // One compensation, its error dropped.
    method Reverse(id: Id, u: Undo, down: bool)
      modifies store, docker, files
      ensures !down ==> Stores() == match u
        case DropRow => EraseRow(old(Stores()), id)
        case DropDir => EraseDir(old(Stores()), id)
        case DropContainer(cid) => EraseContainer(old(Stores()), cid)
      ensures down ==> Stores() == old(Stores())
    {
      match u {
        case DropRow => var _ := store.DeleteProxy(id, down);
        case DropDir => var _ := files.RemoveAll(id, down);
        case DropContainer(cid) => var _, _ := docker.Remove(cid, down);
      }
    }

    method Compensate(ctx: Context, id: Id, u: Undo)
      requires Recording(ctx) && proc.op.Create? && proc.pc == CUndo && proc.p.id == id && proc.undo != [] &&
            proc.undo[|proc.undo| - 1] == u
      modifies this`proc, this`history, ctx, store, docker, files
      ensures Recording(ctx) && Begun() == old(Begun())
      ensures proc == Heard(old(proc), ctx.cancelled).(undo := old(proc).undo[..|old(proc).undo| - 1])
    {
      ghost var w := Stores();
      var c := ctx.Next();
      Reverse(id, u, c.fail);
      UndoOutcome(cfg, proc, w, c, ctx.cancelled, u, Stores());
      NoteAs(c, w, Heard(proc, ctx.cancelled).(undo := proc.undo[..|proc.undo| - 1]), ctx);
    }

    method Rollback(ctx: Context, id: Id, undo: seq<Undo>)
      requires Recording(ctx) && proc.op.Create? && proc.pc == CUndo && proc.p.id == id && proc.undo == undo
      modifies this`proc, this`history, ctx, store, docker, files
      ensures Recording(ctx) && Begun() == old(Begun())
      ensures proc.op == old(proc).op && proc.pc == Done && proc.err == old(proc).err
    {
      var i := |undo|;
      while i > 0
        invariant 0 <= i <= |undo| && proc.undo == undo[..i] && proc.p.id == id
        invariant Recording(ctx) && Begun() == old(Begun())
        invariant proc.op == old(proc).op && proc.pc == CUndo && proc.err == old(proc).err
      {
        i := i - 1;
        Compensate(ctx, id, undo[i]);
      }
      NoteReturn(ctx);
    }

    // The rollback is over: the error is returned.
    ghost method NoteReturn(ctx: Context)
      requires Recording(ctx) && proc.op.Create? && proc.pc == CUndo && proc.undo == []
      modifies this`proc, this`history
      ensures Recording(ctx) && Begun() == old(Begun()) && proc == old(proc).(pc := Done)
    {
      Note(Choice(proc.cancelled, false, "", 0, map[]), Stores(), ctx);
    }

    // CMkdir to CPull. `undo` grows with the steps completed.
    method Prepare(ctx: Context, p: Proxy, undo0: seq<Undo>) returns (undo: seq<Undo>, err: Option<Fault>)
      requires Recording(ctx) && proc.op.Create? && proc.pc == CMkdir && proc.p == p
      requires proc.undo == undo0 && undo0 != []
      modifies this`proc, this`history, ctx, files
      ensures Recording(ctx) && Begun() == old(Begun()) && proc.op == old(proc).op && proc.p == p && undo != []
      ensures err.Some? ==> proc.pc == CUndo && proc.undo == undo && proc.err == err
      ensures err.None? ==> proc.pc == CBuild && proc.undo == undo && proc.err == old(proc).err
    {
      undo := undo0;
      err := WriteConfig(ctx, p);
      if err.Some? { return; }
      undo := undo + [DropDir];
      err := PrepareHost(ctx);
      if err.Some? { return; }
      err := PrepareHost(ctx);
    }

    // CBuild and CStart.
    method BuildAndStart(ctx: Context, p: Proxy, undo0: seq<Undo>)
        returns (q: Proxy, undo: seq<Undo>, err: Option<Fault>)
      requires Recording(ctx) && proc.op.Create? && proc.pc == CBuild && proc.p == p
      requires proc.undo == undo0 && undo0 != []
      modifies this`proc, this`history, ctx, docker
      ensures Recording(ctx) && Begun() == old(Begun()) && proc.op == old(proc).op && q.id == p.id && proc.p.id == p.id
      ensures err.Some? ==> proc.pc == CUndo && proc.undo == undo && proc.err == err
      ensures err.None? ==> proc.pc == CHealth && proc.p == q && proc.err == old(proc).err
    {
      undo := undo0;
      q, err := BuildContainer(ctx, p);
      if err.Some? { q := p; return; }
      undo := undo + [DropContainer(q.containerId.value)];
      err := StartBuilt(ctx, q.containerId.value);
    }

    // Everything a rollback undoes but the row.
    method Provision(ctx: Context, p: Proxy, undo0: seq<Undo>) returns (q: Proxy, undo: seq<Undo>, err: Option<Fault>)
      requires Recording(ctx) && proc.op.Create? && proc.pc == CMkdir && proc.p == p
      requires proc.undo == undo0 && undo0 != []
      modifies this`proc, this`history, ctx, docker, files
      ensures Recording(ctx) && Begun() == old(Begun()) && proc.op == old(proc).op && q.id == p.id && proc.p.id == p.id
      ensures err.Some? ==> proc.pc == CUndo && proc.undo == undo && proc.err == err
      ensures err.None? ==> proc.pc == CHealth && proc.p == q && proc.err == old(proc).err
    {
      q := p;
      undo, err := Prepare(ctx, p, undo0);
      if err.Some? { return; }
      q, undo, err := BuildAndStart(ctx, p, undo);
    }

    // CCheck and CInsert.
    method Claim(ctx: Context, p: Proxy) returns (err: Option<Fault>)
      requires Recording(ctx) && proc == Begin(Op.Create(p))
      modifies this`proc, this`history, ctx, store
      ensures Recording(ctx) && Begun() == old(Begun()) && proc.op == old(proc).op && proc.p == p
      ensures err.Some? ==> proc.pc == Done && proc.err == err
      ensures err.None? ==> proc.pc == CMkdir && proc.undo == [DropRow] && proc.err.None?
    {
      err := CheckRequest(ctx, p);
      if err.Some? { return; }
      err := ClaimPort(ctx, p);
    }

    // The container runs: it is kept whatever happens.
    method Finish(ctx: Context, p: Proxy) returns (q: Proxy, err: Option<Fault>)
      requires Recording(ctx) && proc.op.Create? && proc.pc == CHealth && proc.p == p && proc.err.None?
      modifies this`proc, this`history, ctx, store
      ensures Recording(ctx) && Begun() == old(Begun()) && proc.op == old(proc).op
      ensures proc.pc == Done && proc.err == err && proc.p == q
    {
      q := WaitHealthy(ctx, p);
      err := CommitCreated(ctx, q);
    }

    /** Create. The row's id, secret and token are drawn beforehand. */
    method Create(ctx: Context, req: CreateRequest, secret: string, apiToken: string, defaultName: string)
      returns (p: Proxy, err: Option<Fault>)
      modifies this, ctx, store, docker, files
      ensures nextId == old(nextId) + 1
      ensures Performed(Op.Create(NewRow(old(nextId), secret, apiToken, defaultName, req)),
                        old(Stores()).(nextId := old(nextId) + 1), err)
      ensures err.None? ==> p == proc.p
    {
      p := NewRow(nextId, secret, apiToken, defaultName, req);
      nextId := nextId + 1;
      Open(Op.Create(p), ctx);
      err := Claim(ctx, p);
      if err.Some? { return; }
      var undo: seq<Undo>;
      p, undo, err := Provision(ctx, p, [DropRow]);
      if err.Some? { Rollback(ctx, p.id, undo); return; }
      p, err := Finish(ctx, p);
    }

    // ---- Delete ----

    method FetchRow(ctx: Context, id: Id) returns (p: Proxy, err: Option<Fault>)
      requires Recording(ctx) && Fetching(proc) && proc.undo == [] && Subject(proc.op) == Some(id)
      modifies this`proc, this`history, ctx
      ensures Recording(ctx) && Begun() == old(Begun())
      ensures err.None? ==> proc == Heard(old(proc), ctx.cancelled).(pc := AfterFetch(old(proc).op),
            p := if old(proc).op.UpdateLimits? then ApplyPatch(p, old(proc).op.patch) else p)
      ensures err.Some? ==> proc == Fail(Heard(old(proc), ctx.cancelled), err.value)
    {
      var c := ctx.Next();
      var r := store.GetProxy(id, ctx.cancelled || c.fail);
      match r {
        case Success(row) => p, err := row, None;
        case Failure(e) => p, err := ZERO_PROXY, Some(e);
      }
      FetchOutcome(cfg, proc, Stores(), c, id);
      Note(c, Stores(), ctx);
    }

    // A container that is already gone is not an error.
    method Discard(recorded: Option<Cid>, down: bool) returns (err: Option<Fault>)
      modifies docker`ctrs
      ensures err == if recorded.Some? && down then Some(RuntimeFailed) else None
      ensures Stores() == if err.Some? then old(Stores()) else Without(old(Stores()), recorded)
    {
      if recorded.None? { return None; }
      var ok, missing := docker.Remove(recorded.value, down);
      err := if ok || missing then None else Some(RuntimeFailed);
      if missing { Unmapped(docker.ctrs, recorded.value); }
    }

    method RemoveContainer(ctx: Context, p: Proxy) returns (err: Option<Fault>)
      requires Recording(ctx) && Removing(proc) && proc.undo == [] && proc.p == p
      modifies this`proc, this`history, ctx, docker
      ensures Recording(ctx) && Begun() == old(Begun())
      ensures err.None? ==> proc == AfterRemoval(Heard(old(proc), ctx.cancelled))
      ensures err.Some? ==> proc == Fail(Heard(old(proc), ctx.cancelled), err.value)
    {
      ghost var w := Stores();
      var c := ctx.Next();
      err := Discard(p.containerId, ctx.cancelled || c.fail);
      ghost var heard := Heard(proc, ctx.cancelled);
      ghost var next := if err.None? then AfterRemoval(heard) else Fail(heard, err.value);
      RemoveOutcome(cfg, proc, w, c, ctx.cancelled, err, next, Stores());
      NoteAs(c, w, next, ctx);
    }

    method RemoveConfigDir(ctx: Context, id: Id) returns (err: Option<Fault>)
      requires Recording(ctx) && proc.op.Delete? && proc.pc == DDir && proc.undo == [] && proc.p.id == id
      modifies this`proc, this`history, ctx, files
      ensures Recording(ctx) && Begun() == old(Begun())
      ensures err.None? ==> proc == Heard(old(proc), ctx.cancelled).(pc := DRow)
      ensures err.Some? ==> proc == Fail(Heard(old(proc), ctx.cancelled), err.value)
    {
      ghost var w := Stores();
      var c := ctx.Next();
      var ok := files.RemoveAll(id, c.fail);
      err := if ok then None else Some(RemoveFailed);
      Note(c, w, ctx);
    }

    method RemoveRow(ctx: Context, id: Id) returns (err: Option<Fault>)
      requires Recording(ctx) && proc.op.Delete? && proc.pc == DRow && proc.undo == [] && proc.p.id == id
      modifies this`proc, this`history, ctx, store
      ensures Recording(ctx) && Begun() == old(Begun())
      ensures err.None? ==> proc == Heard(old(proc), ctx.cancelled).(pc := Done)
      ensures err.Some? ==> proc == Fail(Heard(old(proc), ctx.cancelled), err.value)
    {
      ghost var w := Stores();
      var c := ctx.Next();
      err := store.DeleteProxy(id, c.fail);
      DeleteOutcome(cfg, proc, w, c);
      Note(c, w, ctx);
    }

    /** Delete, from DGet to DRow. */
    method Delete(ctx: Context, id: Id) returns (err: Option<Fault>)
      modifies this`proc, this`history, ctx, store, docker, files
      ensures Performed(Op.Delete(id), old(Stores()), err)
    {
      Open(Op.Delete(id), ctx);
      var p;
      p, err := FetchRow(ctx, id);
      if err.Some? { return; }
      err := RemoveContainer(ctx, p);
      if err.Some? { return; }
      err := RemoveConfigDir(ctx, p.id);
      if err.Some? { return; }
      err := RemoveRow(ctx, p.id);
    }

    // ---- UpdateLimits ----

    // The live PATCH: its failure is recorded, not returned.
    method ApplyLive(ctx: Context, p: Proxy) returns (q: Proxy)
      requires Recording(ctx) && proc.op.UpdateLimits? && proc.pc == UPatch && proc.p == p
      modifies this`proc, this`history, ctx
      ensures Recording(ctx) && Begun() == old(Begun())
      ensures q == p.(message := q.message)
      ensures proc == Heard(old(proc), ctx.cancelled).(pc := UCommit, p := q)
    {
      var c := ctx.Next();
      var applied := false;
      if p.containerId.Some? { applied := docker.Inspect(p.containerId.value, ctx.cancelled || c.fail); }
      q := p.(message := if applied then "" else LIVE_APPLY_FAILED + c.text);
      Note(c, Stores(), ctx);
    }

    // On an uncancellable context.
    method SaveRow(ctx: Context, p: Proxy) returns (err: Option<Fault>)
      requires Recording(ctx) && Saving(proc) && proc.undo == [] && proc.p == p
      modifies this`proc, this`history, ctx, store
      ensures Recording(ctx) && Begun() == old(Begun())
      ensures err.None? ==> proc == Heard(old(proc), ctx.cancelled).(pc := AfterSave(old(proc).pc))
      ensures err.Some? ==> proc == Fail(Heard(old(proc), ctx.cancelled), err.value)
    {
      ghost var w := Stores();
      var c := ctx.Next();
      err := store.UpdateProxy(p, c.fail);
      ghost var heard := Heard(proc, ctx.cancelled);
      ghost var next := if err.None? then heard.(pc := AfterSave(proc.pc)) else Fail(heard, err.value);
      SaveOutcome(cfg, proc, w, c, ctx.cancelled, err, next, Stores());
      NoteAs(c, w, next, ctx);
    }

    /** UpdateLimits: the file first, then the running process, then the row. */
    method UpdateLimits(ctx: Context, id: Id, patch: LimitsPatch) returns (p: Proxy, err: Option<Fault>)
      modifies this`proc, this`history, ctx, store, docker, files
      ensures Performed(Op.UpdateLimits(id, patch), old(Stores()), err)
      ensures err.None? ==> p == proc.p
    {
      Open(Op.UpdateLimits(id, patch), ctx);
      p, err := FetchRow(ctx, id);
      if err.Some? { return; }
      p := ApplyPatch(p, patch);
      err := WriteConfig(ctx, p);
      if err.Some? { return; }
      p := ApplyLive(ctx, p);
      err := SaveRow(ctx, p);
    }

    // ---- Recreate ----

    method CheckMove(ctx: Context, p: Proxy, port: int, tlsDomain: string) returns (q: Proxy, err: Option<Fault>)
      requires Recording(ctx) && proc.op.Recreate? && proc.op.port == port && proc.op.tlsDomain == tlsDomain &&
            proc.pc == RCheck && proc.undo == [] && proc.p == p
      modifies this`proc, this`history, ctx
      ensures Recording(ctx) && Begun() == old(Begun())
      ensures err.None?
        ==> q == p.(state := Recreating) && proc == Heard(old(proc), ctx.cancelled).(pc := RMark, p := q)
      ensures err.Some? ==> proc == Fail(Heard(old(proc), ctx.cancelled), err.value)
    {
      var c := ctx.Next();
      q, err := p.(state := Recreating), None;
      if port != p.port { err := CheckPort(port, c.fail); }
      if err.None? && tlsDomain == "" { err := Some(DomainRequired); }
      Note(c, Stores(), ctx);
    }

    // RMark, lost if the caller has hung up.
    method MarkRecreating(ctx: Context, p: Proxy) returns (err: Option<Fault>)
      requires Recording(ctx) && proc.op.Recreate? && proc.pc == RMark && proc.undo == [] && proc.p == p
      modifies this`proc, this`history, ctx, store
      ensures Recording(ctx) && Begun() == old(Begun())
      ensures err.None? ==> proc == Heard(old(proc), ctx.cancelled).(pc := RRemove)
      ensures err.Some? ==> proc == Fail(Heard(old(proc), ctx.cancelled), err.value)
    {
      ghost var w := Stores();
      var c := ctx.Next();
      err := store.UpdateProxy(p, ctx.cancelled || c.fail);
      Note(c, w, ctx);
    }

    // Everything up to the mark: nothing has been destroyed yet.
    method ApproveMove(ctx: Context, id: Id, port: int, tlsDomain: string) returns (p: Proxy, err: Option<Fault>)
      requires Recording(ctx) && proc == Begin(Op.Recreate(id, port, tlsDomain))
      modifies this`proc, this`history, ctx, store
      ensures Recording(ctx) && Begun() == old(Begun()) && proc.op == old(proc).op && proc.undo == []
      ensures err.Some? ==> proc.pc == Done && proc.err == err
      ensures err.None? ==> proc.pc == RRemove && proc.p == p && proc.err.None?
    {
      p, err := FetchRow(ctx, id);
      if err.Some? { return; }
      p, err := CheckMove(ctx, p, port, tlsDomain);
      if err.Some? { return; }
      err := MarkRecreating(ctx, p);
    }

    // Remove the old container: the row as it is then to be stored.
    method Vacate(ctx: Context, old0: Proxy, port: int, tlsDomain: string) returns (p: Proxy, err: Option<Fault>)
      requires Recording(ctx) && proc.op.Recreate? && proc.op.port == port && proc.op.tlsDomain == tlsDomain
      requires proc.pc == RRemove && proc.p == old0 && proc.undo == [] && proc.err.None?
      modifies this`proc, this`history, ctx, docker
      ensures Recording(ctx) && Begun() == old(Begun()) && proc.op == old(proc).op && proc.undo == []
      ensures err.Some? ==> proc.pc == Done && proc.err == err
      ensures err.None? ==> proc.pc == RPort && proc.p == p && proc.err.None?
    {
      p := old0;
      err := RemoveContainer(ctx, p);
      if err.Some? { return; }
      p := p.(port := port, tlsDomain := tlsDomain, containerId := None);
    }

    // What lies between the mark and the start.
    method Replace(ctx: Context, old0: Proxy, port: int, tlsDomain: string) returns (p: Proxy, err: Option<Fault>)
      requires Recording(ctx) && proc.op.Recreate? && proc.op.port == port && proc.op.tlsDomain == tlsDomain
      requires proc.pc == RRemove && proc.p == old0 && proc.undo == [] && proc.err.None?
      modifies this`proc, this`history, ctx, store, docker, files
      ensures Recording(ctx) && Begun() == old(Begun()) && proc.op == old(proc).op && proc.undo == []
      ensures err.Some? ==> proc.pc == Done && proc.err == err
      ensures err.None? ==> proc.pc == SBuild && proc.p == p && proc.err.None?
    {
      p, err := Vacate(ctx, old0, port, tlsDomain);
      if err.Some? { return; }
      err := Rehome(ctx, p);
    }

    // The new port and domain, then the config.
    method Rehome(ctx: Context, p: Proxy) returns (err: Option<Fault>)
      requires Recording(ctx) && proc.op.Recreate? && proc.pc == RPort && proc.p == p
      requires proc.undo == [] && proc.err.None?
      modifies this`proc, this`history, ctx, store, files
      ensures Recording(ctx) && Begun() == old(Begun()) && proc.op == old(proc).op && proc.undo == []
      ensures err.Some? ==> proc.pc == Done && proc.err == err
      ensures err.None? ==> proc.pc == SBuild && proc.p == p && proc.err.None?
    {
      err := SaveRow(ctx, p);
      if err.Some? { return; }
      err := WriteConfig(ctx, p);
    }

    /** Recreate: mark, remove the old container, commit the new port, write the config, start. */
    method Recreate(ctx: Context, id: Id, port: int, tlsDomain: string) returns (p: Proxy, err: Option<Fault>)
      modifies this`proc, this`history, ctx, store, docker, files
      ensures Performed(Op.Recreate(id, port, tlsDomain), old(Stores()), err)
      ensures err.None? ==> p == proc.p
    {
      Open(Op.Recreate(id, port, tlsDomain), ctx);
      p, err := ApproveMove(ctx, id, port, tlsDomain);
      if err.Some? { return; }
      p, err := Replace(ctx, p, port, tlsDomain);
      if err.Some? { return; }
      p, err := StartContainer(ctx, p);
    }

    // ---- startContainer ----

    method Build(ctx: Context, p: Proxy) returns (q: Proxy, ok: bool)
      requires Recording(ctx) && proc.pc == SBuild && InStart(proc) && proc.p == p
      modifies this`proc, this`history, ctx, docker
      ensures Recording(ctx) && Begun() == old(Begun())
      ensures ok ==> q.containerId.Some? && q == p.(containerId := q.containerId)
      ensures !ok ==> q == Errored(p, q.message)
      ensures proc == AfterBuild(Heard(old(proc), ctx.cancelled), ok, q)
    {
      ghost var w := Stores();
      var c := ctx.Next();
      var id := MakeContainer(p, ctx.cancelled || c.fail);
      ok := id.Some?;
      q := if ok then p.(containerId := id) else Errored(p, c.text);
      BuildOutcome(cfg, proc, w, c, ctx.cancelled, ok, q, Stores());
      NoteAs(c, w, AfterBuild(Heard(proc, ctx.cancelled), ok, q), ctx);
    }

    method Launch(ctx: Context, p: Proxy) returns (q: Proxy, ok: bool)
      requires Recording(ctx) && proc.pc == SStart && InStart(proc) && proc.p == p && p.containerId.Some?
      modifies this`proc, this`history, ctx, docker
      ensures Recording(ctx) && Begun() == old(Begun())
      ensures ok ==> q == p && proc == Heard(old(proc), ctx.cancelled).(pc := SHealth)
      ensures !ok ==> q == Errored(p, q.message) && proc == Heard(old(proc), ctx.cancelled).(pc := SStartFailed, p := q)
    {
      ghost var w := Stores();
      var c := ctx.Next();
      ok := docker.Start(p.containerId.value, ctx.cancelled || c.fail);
      q := if ok then p else Errored(p, c.text);
      StartIsStep(cfg, proc, w, c);
      Note(c, w, ctx);
    }

    // The failure is recorded on an uncancellable context and returned even if recording fails.
    method RecordFailure(ctx: Context, p: Proxy) returns (err: Option<Fault>)
      requires Recording(ctx) && (proc.pc == SBuildFailed || proc.pc == SStartFailed) && InStart(proc) && proc.p == p
      modifies this`proc, this`history, ctx, store
      ensures Recording(ctx) && Begun() == old(Begun())
      ensures err == Some(RuntimeFailed) && proc == Return(Heard(old(proc), ctx.cancelled), err)
    {
      ghost var w := Stores();
      var c := ctx.Next();
      var _ := store.UpdateProxy(p, c.fail);
      err := Some(RuntimeFailed);
      StartIsStep(cfg, proc, w, c);
      Note(c, w, ctx);
    }

    method RecordOutcome(ctx: Context, p: Proxy) returns (err: Option<Fault>)
      requires Recording(ctx) && proc.pc == SCommit && InStart(proc) && proc.p == p
      modifies this`proc, this`history, ctx, store
      ensures Recording(ctx) && Begun() == old(Begun())
      ensures proc == Return(Heard(old(proc), ctx.cancelled), err)
    {
      ghost var w := Stores();
      var c := ctx.Next();
      err := store.UpdateProxy(p, c.fail);
      RecordedOutcome(cfg, proc, w, c, ctx.cancelled, err, Stores());
      NoteAs(c, w, Return(Heard(proc, ctx.cancelled), err), ctx);
    }

    /** From SBuild to the return to whoever called: Recreate, or a row of Reconcile's loop. */
    method StartContainer(ctx: Context, p: Proxy) returns (q: Proxy, err: Option<Fault>)
      requires Recording(ctx) && proc.pc == SBuild && InStart(proc) && proc.p == p
      modifies this`proc, this`history, ctx, store, docker
      ensures Recording(ctx) && Begun() == old(Begun())
      ensures Returned(old(proc), proc, err) && proc.p == q && q.id == p.id
    {
      var ok;
      q, ok := Build(ctx, p);
      if !ok { err := RecordFailure(ctx, q); return; }
      q, ok := Launch(ctx, q);
      if !ok { err := RecordFailure(ctx, q); return; }
      q := WaitHealthy(ctx, q);
      err := RecordOutcome(ctx, q);
    }

    // ---- Orphans and RemoveOrphan ----

    method ListRows(ctx: Context, next: Pc) returns (list: seq<Proxy>, ok: bool)
      requires Recording(ctx) && Listing(proc) && proc.undo == [] && next == AfterList(proc.pc)
      modifies this`proc, this`history, ctx
      ensures Recording(ctx) && Begun() == old(Begun())
      ensures ok ==> Lists(list, store.View())
      ensures ok ==>
        proc == Heard(old(proc), ctx.cancelled).(pc := next, snapshot := store.View(), todo := store.View().Keys)
      ensures !ok ==> proc == Fail(Heard(old(proc), ctx.cancelled), StoreFailed).(clean := false)
    {
      var c := ctx.Next();
      var r := store.ListProxies(ctx.cancelled || c.fail);
      ok := r.Success?;
      list := if ok then r.value else [];
      ListIsStep(cfg, proc, Stores(), c);
      Note(c, Stores(), ctx);
    }

    method KnownIds(list: seq<Proxy>) returns (known: set<Id>)
      ensures known == IdsFrom(list, 0)
    {
      known := {};
      for i := 0 to |list|
        invariant known == set k | 0 <= k < i :: list[k].id
      {
        known := known + {list[i].id};
      }
    }

    // The listed containers whose label names no known proxy.
    method Unclaimed(containers: seq<(Cid, Container)>, known: set<Id>) returns (orphans: seq<Cid>)
      ensures forall c ::
        c in orphans <==> exists k :: 0 <= k < |containers| && containers[k].0 == c && containers[k].1.owner !in known
    {
      orphans := [];
      for i := 0 to |containers|
        invariant forall c ::
          c in orphans <==> exists k :: 0 <= k < i && containers[k].0 == c && containers[k].1.owner !in known
      {
        if containers[i].1.owner !in known { orphans := orphans + [containers[i].0]; }
      }
    }

    method CheckOrphan(ctx: Context, cid: Cid, list: seq<Proxy>) returns (err: Option<Fault>)
      requires Recording(ctx) && proc.op == Op.RemoveOrphan(cid) && proc.pc == OCtrs && proc.undo == []
      requires Lists(list, proc.snapshot)
      modifies this`proc, this`history, ctx
      ensures Recording(ctx) && Begun() == old(Begun())
      ensures err.None? ==> proc == Heard(old(proc), ctx.cancelled).(pc := ORemove)
      ensures err.Some? ==> proc == Fail(Heard(old(proc), ctx.cancelled), err.value)
    {
      var c := ctx.Next();
      var containers := docker.List(ctx.cancelled || c.fail);
      err := Some(RuntimeFailed);
      if containers.Some? {
        var known := KnownIds(list);
        var orphans := Unclaimed(containers.value, known);
        KnownAreListed(list, proc.snapshot, known);
        UnclaimedAreOrphans(docker.ctrs, containers.value, known, orphans, proc.snapshot, Stores());
        err := if cid in orphans then None else Some(NotAnOrphan);
      }
      Note(c, Stores(), ctx);
    }

    method RemoveListed(ctx: Context, cid: Cid) returns (err: Option<Fault>)
      requires Recording(ctx) && proc.op == Op.RemoveOrphan(cid) && proc.pc == ORemove && proc.undo == []
      modifies this`proc, this`history, ctx, docker
      ensures Recording(ctx) && Begun() == old(Begun())
      ensures err.None? ==> proc == Heard(old(proc), ctx.cancelled).(pc := Done)
      ensures err.Some? ==> proc == Fail(Heard(old(proc), ctx.cancelled), err.value)
    {
      ghost var w := Stores();
      var c := ctx.Next();
      var ok, _ := docker.Remove(cid, ctx.cancelled || c.fail);
      err := if ok then None else Some(RuntimeFailed);
      Note(c, w, ctx);
    }

    /** RemoveOrphan, by a listing of its own. */
    method RemoveOrphan(ctx: Context, cid: Cid) returns (err: Option<Fault>)
      modifies this`proc, this`history, ctx, docker
      ensures Performed(Op.RemoveOrphan(cid), old(Stores()), err)
    {
      Open(Op.RemoveOrphan(cid), ctx);
      var list, ok := ListRows(ctx, OCtrs);
      if !ok { return Some(StoreFailed); }
      err := CheckOrphan(ctx, cid, list);
      if err.Some? { return; }
      err := RemoveListed(ctx, cid);
    }

    // ---- Reconcile ----

    // byProxyID: the last container listed wins a label.
    method ByProxyId(containers: seq<(Cid, Container)>) returns (index: map<Id, Cid>)
      ensures forall i ::
        i in index ==> exists k :: 0 <= k < |containers| && containers[k].1.owner == i && containers[k].0 == index[i]
      ensures forall k :: 0 <= k < |containers| ==> containers[k].1.owner in index
    {
      index := map[];
      for i := 0 to |containers|
        invariant forall j ::
          j in index ==> exists k :: 0 <= k < i && containers[k].1.owner == j && containers[k].0 == index[j]
        invariant forall k :: 0 <= k < i ==> containers[k].1.owner in index
      {
        index := index[containers[i].1.owner := containers[i].0];
      }
    }

    // The lookup table and the orphans of a listing.
    method Classify(containers: seq<(Cid, Container)>, list: seq<Proxy>, ghost rows: Rows)
      returns (index: map<Id, Cid>, orphans: seq<Cid>)
      requires ListsContainers(docker.ctrs, containers) && Lists(list, rows)
      ensures IsIndex(Stores(), index) && Elems(orphans) == Machine.Orphans(Stores(), rows)
    {
      index := ByProxyId(containers);
      var known := KnownIds(list);
      orphans := Unclaimed(containers, known);
      KnownAreListed(list, rows, known);
      UnclaimedAreOrphans(docker.ctrs, containers, known, orphans, rows, Stores());
      IndexIsLookup(docker.ctrs, containers, index, Stores());
    }

    method ListContainers(ctx: Context, list: seq<Proxy>) returns (index: map<Id, Cid>, orphans: seq<Cid>, ok: bool)
      requires Recording(ctx) && proc.op.Reconcile? && proc.pc == KCtrs && proc.undo == [] && Lists(list, proc.snapshot)
      modifies this`proc, this`history, ctx
      ensures Recording(ctx) && Begun() == old(Begun())
      ensures ok ==> proc == Heard(old(proc), ctx.cancelled).(pc := KPick, index := index,
                               report := old(proc).report.(orphans := Elems(orphans)))
      ensures !ok ==> proc == Fail(Heard(old(proc), ctx.cancelled), RuntimeFailed).(clean := false)
    {
      var c := ctx.Next();
      var containers := docker.List(ctx.cancelled || c.fail);
      ok := containers.Some?;
      index, orphans := map[], [];
      if ok { index, orphans := Classify(containers.value, list, proc.snapshot); }
      Note(c.(index := index), Stores(), ctx);
    }

    // The loop takes the next row; no call is made.
    ghost method NotePick(ctx: Context, id: Id)
      requires Recording(ctx) && proc.op.Reconcile? && proc.pc == KPick
      modifies this`proc, this`history
      ensures Recording(ctx) && Begun() == old(Begun())
      ensures proc == PickRow(old(proc), Choice(old(proc).cancelled, false, "", id, map[]))
    {
      Note(Choice(proc.cancelled, false, "", id, map[]), Stores(), ctx);
    }

    method Relink(ctx: Context, p: Proxy)
      requires Recording(ctx) && proc.op.Reconcile? && proc.pc == KRelink && proc.p == p
      modifies this`proc, this`history, ctx, store
      ensures Recording(ctx) && Begun() == old(Begun())
      ensures proc == Heard(old(proc), ctx.cancelled).(pc := KPick, clean := proc.clean)
    {
      ghost var w := Stores();
      var c := ctx.Next();
      var _ := store.UpdateProxy(p, ctx.cancelled || c.fail);
      Note(c, w, ctx);
    }

    method DropAbandonedDir(ctx: Context, id: Id)
      requires Recording(ctx) && proc.op.Reconcile? && proc.pc == KCleanDir && proc.p.id == id
      modifies this`proc, this`history, ctx, files
      ensures Recording(ctx) && Begun() == old(Begun())
      ensures proc == Heard(old(proc), ctx.cancelled).(pc := KCleanRow)
    {
      ghost var w := Stores();
      var c := ctx.Next();
      var _ := files.RemoveAll(id, c.fail);
      Note(c, w, ctx);
    }

    method DropAbandonedRow(ctx: Context, id: Id) returns (ok: bool)
      requires Recording(ctx) && proc.op.Reconcile? && proc.pc == KCleanRow && proc.p.id == id
      modifies this`proc, this`history, ctx, store
      ensures Recording(ctx) && Begun() == old(Begun())
      ensures proc == Heard(old(proc), ctx.cancelled).(pc := KPick, report :=
        if ok then old(proc).report.(cleanedUp := old(proc).report.cleanedUp + {id}) else old(proc).report)
    {
      ghost var w := Stores();
      var c := ctx.Next();
      var err := store.DeleteProxy(id, c.fail);
      ok := err.None?;
      CleanOutcome(cfg, proc, w, c);
      Note(c, w, ctx);
    }

    // An abandoned create: its directory, then its row.
    method CleanUp(ctx: Context, id: Id) returns (cleaned: bool)
      requires Recording(ctx) && proc.op.Reconcile? && proc.undo == [] && proc.pc == KCleanDir && proc.p.id == id
      modifies this`proc, this`history, ctx, store, files
      ensures Recording(ctx) && Begun() == old(Begun())
      ensures InLoop(old(proc), proc) && proc.todo == old(proc).todo
      ensures proc.report == Report(old(proc).report.orphans, old(proc).report.restarted,
                old(proc).report.cleanedUp + (if cleaned then {id} else {}))
    {
      DropAbandonedDir(ctx, id);
      cleaned := DropAbandonedRow(ctx, id);
    }

    // A row without a container.
    method Restart(ctx: Context, p: Proxy) returns (restarted: bool)
      requires Recording(ctx) && proc.op.Reconcile? && proc.undo == [] && proc.pc == SBuild && proc.p == p
      modifies this`proc, this`history, ctx, store, docker
      ensures Recording(ctx) && Begun() == old(Begun())
      ensures InLoop(old(proc), proc) && proc.todo == old(proc).todo
      ensures proc.report == Report(old(proc).report.orphans,
                old(proc).report.restarted + (if restarted then {p.id} else {}), old(proc).report.cleanedUp)
    {
      var _, err := StartContainer(ctx, p);
      restarted := err.None?;
    }

    // One row of the loop.
    method Repair(ctx: Context, p: Proxy, index: map<Id, Cid>) returns (restarted: bool, cleaned: bool)
      requires Recording(ctx) && proc.op.Reconcile? && proc.undo == [] && proc.pc == KPick && proc.index == index
      requires p.id in proc.todo && p.id in proc.snapshot && proc.snapshot[p.id] == p
      modifies this`proc, this`history, ctx, store, docker, files
      ensures Recording(ctx) && Begun() == old(Begun())
      ensures InLoop(old(proc), proc) && proc.todo == old(proc).todo - {p.id}
      ensures proc.report == Report(old(proc).report.orphans,
                old(proc).report.restarted + (if restarted then {p.id} else {}),
                old(proc).report.cleanedUp + (if cleaned then {p.id} else {}))
    {
      restarted, cleaned := false, false;
      PickOutcome(proc, p);
      NotePick(ctx, p.id);
      if p.id in index {
        if p.containerId != Some(index[p.id]) {
          Relink(ctx, p.(containerId := Some(index[p.id])));
        }
      } else if p.state == Creating {
        cleaned := CleanUp(ctx, p.id);
      } else {
        restarted := Restart(ctx, p);
      }
    }

    // The loop over rows.
    method RepairAll(ctx: Context, list: seq<Proxy>, index: map<Id, Cid>)
        returns (restarted: seq<Id>, cleanedUp: seq<Id>)
      requires Recording(ctx) && proc.op.Reconcile? && proc.undo == [] && proc.pc == KPick && proc.index == index
      requires Lists(list, proc.snapshot) && proc.todo == IdsFrom(list, 0)
      requires proc.report.restarted == {} && proc.report.cleanedUp == {}
      modifies this`proc, this`history, ctx, store, docker, files
      ensures Recording(ctx) && Begun() == old(Begun())
      ensures InLoop(old(proc), proc) && proc.todo == {}
      ensures proc.report == Report(old(proc).report.orphans, Elems(restarted), Elems(cleanedUp))
    {
      restarted, cleanedUp := [], [];
      for i := 0 to |list|
        invariant Recording(ctx) && Begun() == old(Begun())
        invariant InLoop(old(proc), proc) && proc.todo == IdsFrom(list, i)
        invariant proc.report == Report(old(proc).report.orphans, Elems(restarted), Elems(cleanedUp))
      {
        NextId(list, proc.snapshot, i);
        var back, gone := Repair(ctx, list[i], index);
        ElemsSnoc(restarted, list[i].id);
        ElemsSnoc(cleanedUp, list[i].id);
        if back { restarted := restarted + [list[i].id]; }
        if gone { cleanedUp := cleanedUp + [list[i].id]; }
      }
    }

    /** Reconcile. The report's lists hold what the step program reports. */
    method Reconcile(ctx: Context)
        returns (orphans: seq<Cid>, restarted: seq<Id>, cleanedUp: seq<Id>, err: Option<Fault>)
      modifies this`proc, this`history, ctx, store, docker, files
      ensures Performed(Op.Reconcile, old(Stores()), err)
      ensures err.None? ==> proc.report == Report(Elems(orphans), Elems(restarted), Elems(cleanedUp))
    {
      orphans, restarted, cleanedUp := [], [], [];
      Open(Op.Reconcile, ctx);
      var list, ok := ListRows(ctx, KCtrs);
      if !ok { err := Some(StoreFailed); return; }
      ListedIds(list, proc.snapshot);
      var index;
      index, orphans, ok := ListContainers(ctx, list);
      if !ok { err := Some(RuntimeFailed); return; }
      restarted, cleanedUp := RepairAll(ctx, list, index);
      NotePick(ctx, 0);
      err := None;
    }
  }
}
