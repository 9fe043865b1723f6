/** The lifecycle operations as small-step programs over three stores.

    No transaction spans the row table, the containers and the config directories,
    so each operation is a program counter plus its local variables, and one `Step`
    performs at most one effect. A panel crash is simply stopping between two steps. */
module Machine {
  import opened Wrappers
  import opened Entities

  // A proxy's config directory: None before config.toml is first renamed into place.
  type Dir = Option<string>

  type Ctrs = map<Cid, Container>

  datatype World = World(
    rows: Rows, ctrs: Ctrs, dirs: map<Id, Dir>,
    nextId: Id, nextCid: Cid)

  // The settings the service reads. `render` is the config.toml printer together
  // with its guard: None for a spec the guard refuses.
  datatype Settings = Settings(
    reserved: seq<int>, subnet: string, publicHost: string, render: Spec -> Option<string>)

  const USERNAME := "user"

  function SpecOf(cfg: Settings, p: Proxy): Spec {
    Spec(USERNAME, p.secret, p.port, p.tlsDomain, p.adTag, p.apiToken, [cfg.subnet],
         cfg.publicHost, p.quota, p.expiration, p.maxConns, p.maxIps)
  }

  function Rendered(cfg: Settings, p: Proxy): Option<string> {
    cfg.render(SpecOf(cfg, p))
  }

  datatype CreateRequest = CreateRequest(
    name: string, port: int, tlsDomain: string, adTag: string,
    quota: Option<u64>, expiration: Option<string>,
    maxConns: Option<i64>, maxIps: Option<i64>)

  datatype Op =
    | Create(row: Proxy)
    | Delete(id: Id)
    | UpdateLimits(id: Id, patch: LimitsPatch)
    | Recreate(id: Id, port: int, tlsDomain: string)
    | Reconcile
    | RemoveOrphan(cid: Cid)

  datatype Undo = DropRow | DropDir | DropContainer(cid: Cid)

  datatype Pc =
    | CCheck | CInsert | CMkdir | CWrite | CNetwork | CPull | CBuild | CStart | CHealth | CCommit | CUndo
    | DGet | DRemove | DDir | DRow
    | UGet | UMkdir | UWrite | UPatch | UCommit
    | RGet | RCheck | RMark | RRemove | RPort | RMkdir | RWrite
    | SBuild | SBuildFailed | SStart | SStartFailed | SHealth | SCommit
    | KRows | KCtrs | KPick | KRelink | KCleanDir | KCleanRow
    | ORows | OCtrs | ORemove
    | Done

  datatype Report = Report(orphans: set<Cid>, restarted: set<Id>, cleanedUp: set<Id>)

  /** One running operation: its program counter and local variables.
      `snapshot`, `todo`, `index` and `report` are used by Reconcile and RemoveOrphan;
      `clean` and `unbuilt` record history the statements below speak about: whether
      every listing and relink of a Reconcile landed, and which rebuilds the runtime refused. */
  datatype Proc = Proc(
    op: Op, pc: Pc, cancelled: bool, p: Proxy, err: Option<Fault>, undo: seq<Undo>,
    snapshot: Rows, todo: set<Id>, index: map<Id, Cid>, report: Report,
    clean: bool, unbuilt: set<Id>)

  /** What the environment decides at one step: whether the caller's context has been
      cancelled by now, whether the call fails, the failure's text, and for Reconcile
      the order of iteration and which container a label lookup finds. */
  datatype Choice = Choice(cancel: bool, fail: bool, text: string, pick: Id, index: map<Id, Cid>)

  // Nothing goes wrong.
  const GOOD := Choice(false, false, "", 0, map[])

  // ---- Starting and finishing ----

  // The row a create request asks for, with its fresh id, secret and token.
  function NewRow(id: Id, secret: string, apiToken: string, defaultName: string, req: CreateRequest): Proxy {
    Proxy(id, if req.name == "" then defaultName else req.name,
          req.port, req.tlsDomain, req.adTag, secret, apiToken,
          None, Creating, "", req.quota, req.expiration, req.maxConns, req.maxIps)
  }

  function FirstPc(op: Op): Pc {
    match op
    case Create(_) => CCheck
    case Delete(_) => DGet
    case UpdateLimits(_, _) => UGet
    case Recreate(_, _, _) => RGet
    case Reconcile => KRows
    case RemoveOrphan(_) => ORows
  }

  function Begin(op: Op): Proc {
    Proc(op, FirstPc(op), false, if op.Create? then op.row else ZERO_PROXY, None, [],
         map[], {}, map[], Report({}, {}, {}), true, {})
  }

  // Return an error: at once, or through the rollback when steps are to be compensated.
  function Fail(pr: Proc, e: Fault): Proc {
    pr.(pc := if pr.undo == [] then Done else CUndo, err := Some(e))
  }

  // startContainer is shared: it returns to Recreate's caller or to Reconcile's loop,
  // where only a nil error is reported.
  function Return(pr: Proc, e: Option<Fault>): Proc {
    if pr.op.Reconcile? then
      pr.(pc := KPick,
          report := if e.None? then pr.report.(restarted := pr.report.restarted + {pr.p.id}) else pr.report)
    else pr.(pc := Done, err := e)
  }

  // ---- Effects on the world ----

  // A call on the caller's context: refused once that context is cancelled.
  predicate Live(pr: Proc, c: Choice) { !pr.cancelled && !c.fail }

  predicate PortAllowed(cfg: Settings, port: int) {
    1 <= port <= 65535 && port !in cfg.reserved
  }

  // Container `c` carries the panel's labels for proxy `id`.
  predicate Mine(k: Ctrs, c: Cid, id: Id) {
    c in k && k[c].managed && k[c].owner == id
  }

  function PutRow(w: World, p: Proxy): World { w.(rows := w.rows[p.id := p]) }

  function SaveRow(w: World, p: Proxy, c: Choice): Result<World, Fault> {
    if c.fail then Failure(StoreFailed)
    else match TableUpdate(w.rows, p)
      case Success(rows) => Success(w.(rows := rows))
      case Failure(e) => Failure(e)
  }

  // A store write whose error the source discards.
  function TrySaveRow(w: World, p: Proxy, c: Choice): World {
    match SaveRow(w, p, c)
    case Success(w') => w'
    case Failure(_) => w
  }

  function EraseRow(w: World, id: Id): World { w.(rows := w.rows - {id}) }

  function MakeDir(w: World, id: Id): World {
    if id in w.dirs then w else w.(dirs := w.dirs[id := None])
  }

  function PutDir(w: World, id: Id, body: string): World { w.(dirs := w.dirs[id := Some(body)]) }

  function EraseDir(w: World, id: Id): World { w.(dirs := w.dirs - {id}) }

  // The runtime hands out a fresh id and creates the container stopped.
  function AddContainer(w: World, id: Id, port: int): World {
    w.(ctrs := w.ctrs[w.nextCid := Container(true, id, port, false)], nextCid := w.nextCid + 1)
  }

  function RunContainer(w: World, c: Cid): World
    requires c in w.ctrs
  {
    w.(ctrs := w.ctrs[c := w.ctrs[c].(running := true)])
  }

  // Removing a container that is already gone changes nothing.
  function EraseContainer(w: World, c: Cid): World { w.(ctrs := w.ctrs - {c}) }

  // ---- Actions several operations share ----

  // Read the row an operation works on.
  function Fetch(pr: Proc, w: World, c: Choice, id: Id, next: Pc): (Proc, World) {
    if !Live(pr, c) then (Fail(pr, StoreFailed), w)
    else if id !in w.rows then (Fail(pr, NotFound), w)
    else (pr.(pc := next, p := w.rows[id]), w)
  }

  // Store the row the operation holds.
  function Commit(pr: Proc, w: World, c: Choice, next: Pc): (Proc, World) {
    match SaveRow(w, pr.p, c)
    case Success(w') => (pr.(pc := next), w')
    case Failure(e) => (Fail(pr, e), w)
  }

  // writeConfig, first half: the directory is made before the spec is checked.
  function Mkdir(pr: Proc, w: World, c: Choice, next: Pc): (Proc, World) {
    if c.fail then (Fail(pr, MkdirFailed), w) else (pr.(pc := next), MakeDir(w, pr.p.id))
  }

  // writeConfig, second half: render, then rename the file into place.
  function WriteFile(cfg: Settings, pr: Proc, w: World, c: Choice, next: Proc): (Proc, World) {
    match Rendered(cfg, pr.p)
    case None => (Fail(pr, ConfigInvalid), w)
    case Some(body) => if c.fail then (Fail(pr, WriteFailed), w) else (next, PutDir(w, pr.p.id, body))
  }

  // The container the operation holds answers a call on the caller's context.
  predicate Responds(pr: Proc, w: World, c: Choice) {
    Live(pr, c) && pr.p.containerId.Some? && pr.p.containerId.value in w.ctrs
  }

  function Healthy(p: Proxy): Proxy { p.(state := Running, message := "") }

  function Errored(p: Proxy, text: string): Proxy { p.(state := Error, message := text) }

  // ---- Create: a saga with compensations ----

  function CheckRequest(cfg: Settings, pr: Proc, w: World, c: Choice): (Proc, World) {
    if pr.p.port < 1 || pr.p.port > 65535 then (Fail(pr, PortRange), w)
    else if pr.p.port in cfg.reserved then (Fail(pr, PortReserved), w)
    else if c.fail then (Fail(pr, PortBusy), w)
    else if pr.p.tlsDomain == "" then (Fail(pr, DomainRequired), w)
    else (pr.(pc := CInsert), w)
  }

  function ClaimPort(pr: Proc, w: World, c: Choice): (Proc, World) {
    if !Live(pr, c) then (Fail(pr, StoreFailed), w)
    else match TableInsert(w.rows, pr.p)
      case Failure(e) => (Fail(pr, e), w)
      case Success(rows) => (pr.(pc := CMkdir, undo := [DropRow]), w.(rows := rows))
  }

  function Prepare(pr: Proc, w: World, c: Choice, next: Pc): (Proc, World) {
    if Live(pr, c) then (pr.(pc := next), w) else (Fail(pr, RuntimeFailed), w)
  }

  function CreateContainer(pr: Proc, w: World, c: Choice): (Proc, World) {
    if Live(pr, c) then
      (pr.(pc := CStart, undo := pr.undo + [DropContainer(w.nextCid)], p := pr.p.(containerId := Some(w.nextCid))),
       AddContainer(w, pr.p.id, pr.p.port))
    else (Fail(pr, RuntimeFailed), w)
  }

  function StartOrUnwind(pr: Proc, w: World, c: Choice): (Proc, World) {
    if Responds(pr, w, c) then (pr.(pc := CHealth), RunContainer(w, pr.p.containerId.value))
    else (Fail(pr, RuntimeFailed), w)
  }

  // The undo stack is not run from here on: an unhealthy container is an outcome, not a failure.
  function AwaitHealth(pr: Proc, w: World, c: Choice, next: Pc): (Proc, World) {
    (pr.(pc := next, p := if Responds(pr, w, c) then Healthy(pr.p) else Errored(pr.p, c.text)), w)
  }

  function CommitCreate(pr: Proc, w: World, c: Choice): (Proc, World) {
    match SaveRow(w, pr.p, c)
    case Success(w') => (pr.(pc := Done), w')
    case Failure(e) => (pr.(pc := Done, err := Some(e)), w)
  }

  function Rollback(pr: Proc, w: World, c: Choice): (Proc, World) {
    if pr.undo == [] then (pr.(pc := Done), w)
    else
      var last := |pr.undo| - 1;
      (pr.(undo := pr.undo[..last]), Compensate(w, pr.p.id, pr.undo[last], c))
  }

  // Compensations run on an uncancellable context and their errors are dropped.
  function Compensate(w: World, id: Id, u: Undo, c: Choice): World {
    if c.fail then w
    else match u
      case DropRow => EraseRow(w, id)
      case DropDir => EraseDir(w, id)
      case DropContainer(cid) => EraseContainer(w, cid)
  }

  function CreateStep(cfg: Settings, pr: Proc, w: World, c: Choice): (Proc, World) {
    if pr.pc == CCheck then CheckRequest(cfg, pr, w, c)
    else if pr.pc == CInsert then ClaimPort(pr, w, c)
    else if pr.pc == CMkdir then Mkdir(pr, w, c, CWrite)
    else if pr.pc == CWrite then WriteFile(cfg, pr, w, c, pr.(pc := CNetwork, undo := pr.undo + [DropDir]))
    else if pr.pc == CNetwork then Prepare(pr, w, c, CPull)
    else if pr.pc == CPull then Prepare(pr, w, c, CBuild)
    else if pr.pc == CBuild then CreateContainer(pr, w, c)
    else if pr.pc == CStart then StartOrUnwind(pr, w, c)
    else if pr.pc == CHealth then AwaitHealth(pr, w, c, CCommit)
    else if pr.pc == CCommit then CommitCreate(pr, w, c)
    else if pr.pc == CUndo then Rollback(pr, w, c)
    else (pr, w)
  }

  // ---- Delete ----

  function RemoveRecorded(pr: Proc, w: World, c: Choice, next: Proc): (Proc, World) {
    if pr.p.containerId.None? then (next, w)
    else if !Live(pr, c) then (Fail(pr, RuntimeFailed), w)
    else (next, EraseContainer(w, pr.p.containerId.value))
  }

  function RemoveDir(pr: Proc, w: World, c: Choice): (Proc, World) {
    if c.fail then (Fail(pr, RemoveFailed), w) else (pr.(pc := DRow), EraseDir(w, pr.p.id))
  }

  function RemoveRow(pr: Proc, w: World, c: Choice): (Proc, World) {
    if c.fail then (Fail(pr, StoreFailed), w)
    else match TableDelete(w.rows, pr.p.id)
      case Success(rows) => (pr.(pc := Done), w.(rows := rows))
      case Failure(e) => (Fail(pr, e), w)
  }

  function DeleteStep(pr: Proc, w: World, c: Choice): (Proc, World)
    requires pr.op.Delete?
  {
    if pr.pc == DGet then Fetch(pr, w, c, pr.op.id, DRemove)
    else if pr.pc == DRemove then RemoveRecorded(pr, w, c, pr.(pc := DDir))
    else if pr.pc == DDir then RemoveDir(pr, w, c)
    else if pr.pc == DRow then RemoveRow(pr, w, c)
    else (pr, w)
  }

  // ---- UpdateLimits ----

  const LIVE_APPLY_FAILED := "limits saved; live apply failed: "

  function FetchAndPatch(pr: Proc, w: World, c: Choice): (Proc, World)
    requires pr.op.UpdateLimits?
  {
    if !Live(pr, c) then (Fail(pr, StoreFailed), w)
    else if pr.op.id !in w.rows then (Fail(pr, NotFound), w)
    else (pr.(pc := UMkdir, p := ApplyPatch(w.rows[pr.op.id], pr.op.patch)), w)
  }

  function LiveApply(pr: Proc, w: World, c: Choice): (Proc, World) {
    (pr.(pc := UCommit, p := pr.p.(message := if Responds(pr, w, c) then "" else LIVE_APPLY_FAILED + c.text)), w)
  }

  function UpdateStep(cfg: Settings, pr: Proc, w: World, c: Choice): (Proc, World)
    requires pr.op.UpdateLimits?
  {
    if pr.pc == UGet then FetchAndPatch(pr, w, c)
    else if pr.pc == UMkdir then Mkdir(pr, w, c, UWrite)
    else if pr.pc == UWrite then WriteFile(cfg, pr, w, c, pr.(pc := UPatch))
    else if pr.pc == UPatch then LiveApply(pr, w, c)
    else if pr.pc == UCommit then Commit(pr, w, c, Done)
    else (pr, w)
  }

  // ---- Recreate, and the startContainer it shares with Reconcile ----

  function CheckMove(cfg: Settings, pr: Proc, w: World, c: Choice): (Proc, World)
    requires pr.op.Recreate?
  {
    if pr.op.port != pr.p.port && (pr.op.port < 1 || pr.op.port > 65535) then (Fail(pr, PortRange), w)
    else if pr.op.port != pr.p.port && pr.op.port in cfg.reserved then (Fail(pr, PortReserved), w)
    else if pr.op.port != pr.p.port && c.fail then (Fail(pr, PortBusy), w)
    else if pr.op.tlsDomain == "" then (Fail(pr, DomainRequired), w)
    else (pr.(pc := RMark, p := pr.p.(state := Recreating)), w)
  }

  // The one store write of a move that a hang-up can lose; the row is then as it was.
  function MarkRecreating(pr: Proc, w: World, c: Choice): (Proc, World) {
    if !Live(pr, c) then (Fail(pr, StoreFailed), w) else Commit(pr, w, c, RRemove)
  }

  function Moved(pr: Proc): Proxy
    requires pr.op.Recreate?
  {
    pr.p.(port := pr.op.port, tlsDomain := pr.op.tlsDomain, containerId := None)
  }

  function RecreateStep(cfg: Settings, pr: Proc, w: World, c: Choice): (Proc, World)
    requires pr.op.Recreate?
  {
    if pr.pc == RGet then Fetch(pr, w, c, pr.op.id, RCheck)
    else if pr.pc == RCheck then CheckMove(cfg, pr, w, c)
    else if pr.pc == RMark then MarkRecreating(pr, w, c)
    else if pr.pc == RRemove then RemoveRecorded(pr, w, c, pr.(pc := RPort, p := Moved(pr)))
    else if pr.pc == RPort then Commit(pr, w, c, RMkdir)
    else if pr.pc == RMkdir then Mkdir(pr, w, c, RWrite)
    else if pr.pc == RWrite then WriteFile(cfg, pr, w, c, pr.(pc := SBuild))
    else StartStep(pr, w, c)
  }

  function BuildContainer(pr: Proc, w: World, c: Choice): (Proc, World) {
    if Live(pr, c) then
      (pr.(pc := SStart, p := pr.p.(containerId := Some(w.nextCid))), AddContainer(w, pr.p.id, pr.p.port))
    else (pr.(pc := SBuildFailed, p := Errored(pr.p, c.text), unbuilt := pr.unbuilt + {pr.p.id}), w)
  }

  function StartContainer(pr: Proc, w: World, c: Choice): (Proc, World) {
    if Responds(pr, w, c) then (pr.(pc := SHealth), RunContainer(w, pr.p.containerId.value))
    else (pr.(pc := SStartFailed, p := Errored(pr.p, c.text)), w)
  }

  function RecordFailure(pr: Proc, w: World, c: Choice): (Proc, World) {
    (Return(pr, Some(RuntimeFailed)), TrySaveRow(w, pr.p, c))
  }

  function RecordOutcome(pr: Proc, w: World, c: Choice): (Proc, World) {
    match SaveRow(w, pr.p, c)
    case Success(w') => (Return(pr, None), w')
    case Failure(e) => (Return(pr, Some(e)), w)
  }

  function StartStep(pr: Proc, w: World, c: Choice): (Proc, World) {
    if pr.pc == SBuild then BuildContainer(pr, w, c)
    else if pr.pc == SBuildFailed then RecordFailure(pr, w, c)
    else if pr.pc == SStart then StartContainer(pr, w, c)
    else if pr.pc == SStartFailed then RecordFailure(pr, w, c)
    else if pr.pc == SHealth then AwaitHealth(pr, w, c, SCommit)
    else if pr.pc == SCommit then RecordOutcome(pr, w, c)
    else (pr, w)
  }

  // ---- Reconcile ----

  // A label lookup table: one managed container for each label in use.
  predicate IsIndex(w: World, index: map<Id, Cid>) {
    && (forall i :: i in index ==> Mine(w.ctrs, index[i], i))
    && (forall c :: c in w.ctrs && w.ctrs[c].managed ==> w.ctrs[c].owner in index)
  }

  function Orphans(w: World, known: Rows): set<Cid> {
    set c | c in w.ctrs && w.ctrs[c].managed && w.ctrs[c].owner !in known
  }

  function ListRows(pr: Proc, w: World, c: Choice, next: Pc): (Proc, World) {
    if !Live(pr, c) then (Fail(pr, StoreFailed).(clean := false), w)
    else (pr.(pc := next, snapshot := w.rows, todo := w.rows.Keys), w)
  }

  // An `index` that is no lookup table is not an answer the runtime can give: wait.
  function ListContainers(pr: Proc, w: World, c: Choice): (Proc, World) {
    if !Live(pr, c) then (Fail(pr, RuntimeFailed).(clean := false), w)
    else if !IsIndex(w, c.index) then (pr, w)
    else (pr.(pc := KPick, index := c.index, report := pr.report.(orphans := Orphans(w, pr.snapshot))), w)
  }

  // One round of the loop over rows; a `pick` outside the work list waits.
  function PickRow(pr: Proc, c: Choice): Proc {
    if pr.todo == {} then pr.(pc := Done)
    else if c.pick !in pr.todo || c.pick !in pr.snapshot then pr
    else
      var p := pr.snapshot[c.pick];
      var rest := pr.(todo := pr.todo - {c.pick}, p := p);
      if c.pick in pr.index then
        if p.containerId == Some(pr.index[c.pick]) then rest
        else rest.(pc := KRelink, p := p.(containerId := Some(pr.index[c.pick])))
      else if p.state == Creating then rest.(pc := KCleanDir)
      else rest.(pc := SBuild)
  }

  // A best-effort write on the caller's context: its error is dropped.
  function Relink(pr: Proc, w: World, c: Choice): (Proc, World) {
    if !Live(pr, c) then (pr.(pc := KPick, clean := false), w)
    else match SaveRow(w, pr.p, c)
      case Success(w') => (pr.(pc := KPick), w')
      case Failure(_) => (pr.(pc := KPick, clean := false), w)
  }

  function CleanDir(pr: Proc, w: World, c: Choice): (Proc, World) {
    (pr.(pc := KCleanRow), if c.fail then w else EraseDir(w, pr.p.id))
  }

  function CleanRow(pr: Proc, w: World, c: Choice): (Proc, World) {
    if c.fail then (pr.(pc := KPick), w)
    else match TableDelete(w.rows, pr.p.id)
      case Failure(_) => (pr.(pc := KPick), w)
      case Success(rows) =>
        (pr.(pc := KPick, report := pr.report.(cleanedUp := pr.report.cleanedUp + {pr.p.id})), w.(rows := rows))
  }

  function ReconcileStep(pr: Proc, w: World, c: Choice): (Proc, World) {
    if pr.pc == KRows then ListRows(pr, w, c, KCtrs)
    else if pr.pc == KCtrs then ListContainers(pr, w, c)
    else if pr.pc == KPick then (PickRow(pr, c), w)
    else if pr.pc == KRelink then Relink(pr, w, c)
    else if pr.pc == KCleanDir then CleanDir(pr, w, c)
    else if pr.pc == KCleanRow then CleanRow(pr, w, c)
    else StartStep(pr, w, c)
  }

  // ---- RemoveOrphan ----

  function CheckOrphan(pr: Proc, w: World, c: Choice): (Proc, World)
    requires pr.op.RemoveOrphan?
  {
    if !Live(pr, c) then (Fail(pr, RuntimeFailed), w)
    else if pr.op.cid in Orphans(w, pr.snapshot) then (pr.(pc := ORemove), w)
    else (Fail(pr, NotAnOrphan), w)
  }

  function RemoveListed(pr: Proc, w: World, c: Choice): (Proc, World)
    requires pr.op.RemoveOrphan?
  {
    if !Live(pr, c) || pr.op.cid !in w.ctrs then (Fail(pr, RuntimeFailed), w)
    else (pr.(pc := Done), EraseContainer(w, pr.op.cid))
  }

  function RemoveOrphanStep(pr: Proc, w: World, c: Choice): (Proc, World)
    requires pr.op.RemoveOrphan?
  {
    if pr.pc == ORows then ListRows(pr, w, c, OCtrs)
    else if pr.pc == OCtrs then CheckOrphan(pr, w, c)
    else if pr.pc == ORemove then RemoveListed(pr, w, c)
    else (pr, w)
  }

  // ---- One step, and a run of steps ----

  // Cancellation is for good: an operation that has heard of it stays cancelled.
  function Aware(pr: Proc, c: Choice): Proc { pr.(cancelled := pr.cancelled || c.cancel) }

  function Act(cfg: Settings, pr: Proc, w: World, c: Choice): (Proc, World) {
    if pr.pc == Done then (pr, w)
    else match pr.op
    case Create(_) => CreateStep(cfg, pr, w, c)
    case Delete(_) => DeleteStep(pr, w, c)
    case UpdateLimits(_, _) => UpdateStep(cfg, pr, w, c)
    case Recreate(_, _, _) => RecreateStep(cfg, pr, w, c)
    case Reconcile => ReconcileStep(pr, w, c)
    case RemoveOrphan(_) => RemoveOrphanStep(pr, w, c)
  }

  function Step(cfg: Settings, pr: Proc, w: World, c: Choice): (Proc, World) {
    Act(cfg, Aware(pr, c), w, c)
  }

  function Run(cfg: Settings, pr: Proc, w: World, cs: seq<Choice>): (Proc, World) {
    if cs == [] then (pr, w)
    else
      var (pr', w') := Run(cfg, pr, w, cs[..|cs| - 1]);
      Step(cfg, pr', w', cs[|cs| - 1])
  }

  // The store writes the source makes on an uncancellable context, and the writes'
  // counterpart in a rollback.
  predicate IsCommit(pr: Proc) {
    pr.pc in {CCommit, DRow, UCommit, RPort, SBuildFailed, SStartFailed, SCommit, KCleanRow}
    || (pr.pc == CUndo && pr.undo != [] && pr.undo[|pr.undo| - 1] == DropRow)
  }

  // The standing hypothesis of most statements: those writes land.
  predicate Lands(pr: Proc, c: Choice) { IsCommit(pr) ==> !c.fail }

  predicate RunLands(cfg: Settings, pr: Proc, w: World, cs: seq<Choice>) {
    forall k | 0 <= k < |cs| :: Lands(Run(cfg, pr, w, cs[..k]).0, cs[k])
  }

  lemma RunSnoc(cfg: Settings, pr: Proc, w: World, cs: seq<Choice>, c: Choice)
    ensures Run(cfg, pr, w, cs + [c]) == Step(cfg, Run(cfg, pr, w, cs).0, Run(cfg, pr, w, cs).1, c)
  {
    assert (cs + [c])[..|cs|] == cs;
  }

  lemma RunLast(cfg: Settings, pr: Proc, w: World, all: seq<Choice>, cs: seq<Choice>, c: Choice)
    requires all == cs + [c]
    ensures Run(cfg, pr, w, all) == Step(cfg, Run(cfg, pr, w, cs).0, Run(cfg, pr, w, cs).1, c)
  {
    RunSnoc(cfg, pr, w, cs, c);
  }

  lemma RunAppendOne(cfg: Settings, pr: Proc, w: World, pr': Proc, w': World, cs: seq<Choice>, ds: seq<Choice>,
      c: Choice)
    requires Run(cfg, pr, w, cs + ds) == Run(cfg, pr', w', ds)
    ensures Run(cfg, pr, w, cs + (ds + [c])) == Run(cfg, pr', w', ds + [c])
  {
    RunLast(cfg, pr, w, cs + (ds + [c]), cs + ds, c);
    RunSnoc(cfg, pr', w', ds, c);
  }

  lemma {:induction false} RunAppend(cfg: Settings, pr: Proc, w: World, cs: seq<Choice>, ds: seq<Choice>)
    ensures Run(cfg, pr, w, cs + ds) == Run(cfg, Run(cfg, pr, w, cs).0, Run(cfg, pr, w, cs).1, ds)
  {
    if ds == [] {
      assert cs + ds == cs;
    } else {
      var n := |ds| - 1;
      RunAppend(cfg, pr, w, cs, ds[..n]);
      RunAppendOne(cfg, pr, w, Run(cfg, pr, w, cs).0, Run(cfg, pr, w, cs).1, cs, ds[..n], ds[n]);
      assert ds == ds[..n] + [ds[n]];
    }
  }

  lemma RunLandsPrefix(cfg: Settings, pr: Proc, w: World, cs: seq<Choice>)
    requires cs != [] && RunLands(cfg, pr, w, cs)
    ensures RunLands(cfg, pr, w, cs[..|cs| - 1])
    ensures Lands(Run(cfg, pr, w, cs[..|cs| - 1]).0, cs[|cs| - 1])
  {
    var n := |cs| - 1;
    forall k | 0 <= k < n ensures Lands(Run(cfg, pr, w, cs[..n][..k]).0, cs[..n][k]) {
      assert cs[..n][..k] == cs[..k];
    }
  }
}
