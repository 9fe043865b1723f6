/** What every step of every operation keeps: `Base`, which a crash at any moment leaves
    behind, and for each program counter the facts the operation relies on. */
module Invariant {
  import opened Wrappers
  import opened Entities
  import opened Machine

  // ---- The crash-consistent invariant ----

  // At most one container carries the row's label, it publishes the row's port, and a
  // recorded container id never names another proxy's container.
  ghost predicate RowOk(cfg: Settings, w: World, id: Id)
    requires id in w.rows
  {
    var p := w.rows[id];
    && p.id == id && PortAllowed(cfg, p.port)
    && (p.containerId.Some? ==> p.containerId.value < w.nextCid)
    && (p.containerId.Some? && p.containerId.value in w.ctrs ==> Mine(w.ctrs, p.containerId.value, id))
    && (forall c: Cid :: Mine(w.ctrs, c, id) ==> w.ctrs[c].port == p.port)
    && (forall c: Cid, d: Cid :: Mine(w.ctrs, c, id) && Mine(w.ctrs, d, id) ==> c == d)
  }

  ghost predicate PortsUnique(rows: Rows) {
    forall i, j :: i in rows && j in rows && rows[i].port == rows[j].port ==> i == j
  }

  ghost predicate Issued(w: World) {
    && (forall i :: i in w.rows ==> i < w.nextId)
    && (forall i :: i in w.dirs ==> i < w.nextId)
    && (forall c :: c in w.ctrs ==> c < w.nextCid)
    && (forall c :: c in w.ctrs && w.ctrs[c].managed ==> w.ctrs[c].owner < w.nextId)
  }

  ghost predicate Base(cfg: Settings, w: World) {
    && Issued(w) && PortsUnique(w.rows)
    && (forall id :: id in w.rows ==> RowOk(cfg, w, id))
  }

  // The row records the container that carries its label, if there is one.
  ghost predicate Linked(rows: Rows, k: Ctrs, id: Id) {
    id in rows ==> forall c: Cid :: Mine(k, c, id) ==> rows[id].containerId == Some(c)
  }

  ghost predicate AllLinked(w: World) { forall id :: id in w.rows ==> Linked(w.rows, w.ctrs, id) }

  ghost predicate Bare(k: Ctrs, id: Id) { forall c: Cid :: !Mine(k, c, id) }

  // ---- Per-operation facts ----

  // Fields no operation on an existing row may change.
  predicate SameIdentity(p: Proxy, q: Proxy) {
    p.id == q.id && p.secret == q.secret && p.apiToken == q.apiToken
  }

  ghost predicate Stored(rows: Rows, p: Proxy) { p.id in rows && rows[p.id] == p }

  // Any container with the row's label is the one the operation holds.
  ghost predicate Own(k: Ctrs, p: Proxy) {
    && (p.containerId.Some? && p.containerId.value in k ==> Mine(k, p.containerId.value, p.id))
    && (forall c: Cid :: Mine(k, c, p.id) ==> p.containerId == Some(c))
  }

  // The stored row differs from the one held in its outcome only.
  predicate Draft(rows: Rows, p: Proxy) {
    p.id in rows && rows[p.id].(containerId := p.containerId, state := p.state, message := p.message) == p
  }

  // The row awaits its outcome, and the operation holds a container.
  ghost predicate Holding(w: World, p: Proxy) {
    && Draft(w.rows, p)
    && p.containerId.Some? && p.containerId.value < w.nextCid && Own(w.ctrs, p)
  }

  // How far a Create's undo stack has grown: the row, then the directory, then the container.
  predicate UndoShape(undo: seq<Undo>, cid: Option<Cid>) {
    || undo == [] || undo == [DropRow] || undo == [DropRow, DropDir]
    || (cid.Some? && undo == [DropRow, DropDir, DropContainer(cid.value)])
  }

  predicate Asking(pc: Pc) { pc == CCheck || pc == CInsert }
  predicate Claimed(pc: Pc) { pc == CMkdir || pc == CWrite || pc == CNetwork || pc == CPull || pc == CBuild }
  predicate Built(pc: Pc) { pc == CStart || pc == CHealth || pc == CCommit }

  ghost predicate CreateInv(cfg: Settings, w: World, pr: Proc)
    requires pr.op.Create?
  {
    var p, row := pr.p, pr.op.row;
    && p == row.(containerId := p.containerId, state := p.state, message := p.message)
    && row.containerId.None? && row.state == Creating && p.id < w.nextId
    && (p.containerId.Some? ==> p.containerId.value < w.nextCid)
    && (pr.pc != CCheck && pr.pc != Done ==> PortAllowed(cfg, p.port))
    && (pr.pc != CUndo && pr.pc != Done ==> pr.err.None?)
    && (if pr.pc == Done then true
        else if Asking(pr.pc) then p == row && pr.undo == [] && p.id !in w.rows && Bare(w.ctrs, p.id)
        else if Claimed(pr.pc) then
          && p == row && Stored(w.rows, row) && Bare(w.ctrs, p.id)
          && pr.undo == if pr.pc == CMkdir || pr.pc == CWrite then [DropRow] else [DropRow, DropDir]
        else if Built(pr.pc) then
          && Holding(w, p) && Stored(w.rows, row)
          && (pr.pc == CStart ==> pr.undo == [DropRow, DropDir, DropContainer(p.containerId.value)])
          && (pr.pc == CCommit ==> p.state == Running || p.state == Error)
        else
          && pr.pc == CUndo && pr.err.Some? && UndoShape(pr.undo, p.containerId)
          && (pr.undo == [] ==> p.id !in w.rows)
          && (pr.undo != [] ==> Stored(w.rows, row) && Own(w.ctrs, p)))
  }

  ghost predicate DeleteInv(cfg: Settings, w: World, pr: Proc)
    requires pr.op.Delete?
  {
    var id := pr.op.id;
    && pr.undo == [] && (pr.pc != Done ==> pr.err.None?)
    && (pr.pc != DGet && pr.pc != Done ==> pr.p.id == id && id in w.rows)
    && (if pr.pc == DGet then Linked(w.rows, w.ctrs, id)
        else if pr.pc == DRemove then Stored(w.rows, pr.p) && Linked(w.rows, w.ctrs, id)
        else if pr.pc == DDir then Bare(w.ctrs, id)
        else if pr.pc == DRow then Bare(w.ctrs, id) && id !in w.dirs
        else pr.pc == Done)
  }

  ghost predicate UpdateInv(cfg: Settings, w: World, pr: Proc)
    requires pr.op.UpdateLimits?
  {
    var id := pr.op.id;
    && pr.undo == []
    && (pr.pc == UGet || pr.pc == UMkdir || pr.pc == UWrite || pr.pc == UPatch || pr.pc == UCommit || pr.pc == Done)
    && (pr.pc != UGet && pr.pc != Done ==> id in w.rows && pr.p.id == id)
    && (pr.pc != UGet && pr.pc != Done && id in w.rows ==>
          pr.p == ApplyPatch(w.rows[id], pr.op.patch).(message := pr.p.message))
  }

  predicate Starting(pc: Pc) {
    pc == SBuild || pc == SBuildFailed || pc == SStart || pc == SStartFailed || pc == SHealth || pc == SCommit
  }

  ghost predicate StartInv(cfg: Settings, w: World, pr: Proc) {
    var p := pr.p;
    && pr.undo == [] && PortAllowed(cfg, p.port)
    && (if pr.pc == SBuild then Stored(w.rows, p) && Bare(w.ctrs, p.id)
        else if pr.pc == SBuildFailed then
          && Draft(w.rows, p) && w.rows[p.id].containerId == p.containerId
          && Bare(w.ctrs, p.id) && p.state == Error
        else if pr.pc == SStart || pr.pc == SHealth then Holding(w, p)
        else if pr.pc == SStartFailed then Holding(w, p) && p.state == Error
        else pr.pc == SCommit && Holding(w, p) && (p.state == Running || p.state == Error))
  }

  // A Recreate whose request has passed the checks.
  predicate MoveAllowed(cfg: Settings, pr: Proc)
    requires pr.op.Recreate?
  {
    (pr.op.port != pr.p.port ==> PortAllowed(cfg, pr.op.port)) && pr.op.tlsDomain != ""
  }

  // The old container is gone and the operation holds the row it was asked for.
  predicate HasMoved(cfg: Settings, pr: Proc)
    requires pr.op.Recreate?
  {
    pr.p.id == pr.op.id && pr.p.port == pr.op.port && pr.p.tlsDomain == pr.op.tlsDomain && PortAllowed(cfg, pr.p.port)
  }

  ghost predicate RecreateInv(cfg: Settings, w: World, pr: Proc)
    requires pr.op.Recreate?
  {
    var id, p := pr.op.id, pr.p;
    && pr.undo == []
    && (pr.pc == RMark || pr.pc == RRemove || pr.pc == RPort || pr.pc == RMkdir || pr.pc == RWrite
      ==> p.state == Recreating)
    && (!Starting(pr.pc) && pr.pc != Done ==> pr.unbuilt == {} && pr.err.None?)
    && (if Starting(pr.pc) then StartInv(cfg, w, pr) && HasMoved(cfg, pr)
        else if pr.pc == RGet then Linked(w.rows, w.ctrs, id)
        else if pr.pc == RCheck then Stored(w.rows, p) && p.id == id && Linked(w.rows, w.ctrs, id)
        else if pr.pc == RMark then
          && id in w.rows && p == w.rows[id].(state := Recreating) && p.id == id
          && Linked(w.rows, w.ctrs, id) && MoveAllowed(cfg, pr)
        else if pr.pc == RRemove then
          Stored(w.rows, p) && p.id == id && Linked(w.rows, w.ctrs, id) && MoveAllowed(cfg, pr)
        else if pr.pc == RPort then
          && id in w.rows && SameIdentity(w.rows[id], p) && Bare(w.ctrs, id)
          && HasMoved(cfg, pr) && p.containerId.None?
        else if pr.pc == RMkdir || pr.pc == RWrite then
          Stored(w.rows, p) && Bare(w.ctrs, id) && HasMoved(cfg, pr) && p.containerId.None?
        else pr.pc == Done)
  }

  // Work still to do: the row is as it was listed, and the lookup table knows its container.
  ghost predicate Pending(w: World, pr: Proc, id: Id) {
    && id in pr.snapshot && id in w.rows && pr.snapshot[id] == w.rows[id]
    && (forall c: Cid :: Mine(w.ctrs, c, id) ==> id in pr.index && pr.index[id] == c)
    && (id in pr.index ==> pr.index[id] < w.nextCid && (pr.index[id] in w.ctrs ==> Mine(w.ctrs, pr.index[id], id)))
  }

  ghost predicate LoopInv(cfg: Settings, w: World, pr: Proc) {
    && (forall id :: id in pr.todo ==> Pending(w, pr, id))
    && (pr.clean ==> forall id :: id in w.rows && id !in pr.todo && !(pr.pc != KPick && id == pr.p.id) ==>
          Linked(w.rows, w.ctrs, id))
    && (pr.pc != KPick ==> pr.p.id !in pr.todo)
  }

  ghost predicate ReconcileInv(cfg: Settings, w: World, pr: Proc)
    requires pr.op.Reconcile?
  {
    var p := pr.p;
    && pr.undo == []
    && (if Starting(pr.pc) then StartInv(cfg, w, pr) && LoopInv(cfg, w, pr)
        else if pr.pc == KRows then true
        else if pr.pc == KCtrs then pr.snapshot == w.rows && pr.todo == w.rows.Keys
        else if pr.pc == KPick then LoopInv(cfg, w, pr)
        else if pr.pc == KRelink then
          && LoopInv(cfg, w, pr) && p.id in w.rows && p.containerId.Some? && p.containerId.value < w.nextCid
          && p == w.rows[p.id].(containerId := p.containerId) && Own(w.ctrs, p)
        else if pr.pc == KCleanDir || pr.pc == KCleanRow then
          LoopInv(cfg, w, pr) && Stored(w.rows, p) && Bare(w.ctrs, p.id) && p.state == Creating
        else pr.pc == Done && (pr.clean ==> AllLinked(w)))
  }

  ghost predicate RemoveOrphanInv(cfg: Settings, w: World, pr: Proc)
    requires pr.op.RemoveOrphan?
  {
    && pr.undo == []
    && (if pr.pc == ORows then true
        else if pr.pc == OCtrs then pr.snapshot == w.rows
        else if pr.pc == ORemove then forall id :: id in w.rows ==> !Mine(w.ctrs, pr.op.cid, id)
        else pr.pc == Done)
  }

  ghost predicate ProcInv(cfg: Settings, w: World, pr: Proc) {
    match pr.op
    case Create(_) => CreateInv(cfg, w, pr)
    case Delete(_) => DeleteInv(cfg, w, pr)
    case UpdateLimits(_, _) => UpdateInv(cfg, w, pr)
    case Recreate(_, _, _) => RecreateInv(cfg, w, pr)
    case Reconcile => ReconcileInv(cfg, w, pr)
    case RemoveOrphan(_) => RemoveOrphanInv(cfg, w, pr)
  }

  // The one proxy an operation works on; None when it works on none, or over them all.
  function Subject(op: Op): Option<Id> {
    match op
    case Create(row) => Some(row.id)
    case Delete(id) => Some(id)
    case UpdateLimits(id, _) => Some(id)
    case Recreate(id, _, _) => Some(id)
    case Reconcile => None
    case RemoveOrphan(_) => None
  }

  // ---- What a step may touch ----

  // Proxies other than `id` keep their row, directory and containers, and ids stay issued.
  ghost predicate Elsewhere(w: World, w': World, id: Id) {
    && w'.nextId == w.nextId && w'.nextCid >= w.nextCid
    && (forall i :: i != id ==> (i in w'.rows <==> i in w.rows) && (i in w.rows ==> w'.rows[i] == w.rows[i]))
    && (forall i :: i != id ==> (i in w'.dirs <==> i in w.dirs) && (i in w.dirs ==> w'.dirs[i] == w.dirs[i]))
    && (forall c: Cid, i: Id :: i != id ==>
          (Mine(w'.ctrs, c, i) <==> Mine(w.ctrs, c, i)) && (Mine(w.ctrs, c, i) ==> w'.ctrs[c] == w.ctrs[c]))
    && (forall c :: c in w'.ctrs ==> c in w.ctrs || c >= w.nextCid)
    && (forall c :: c in w'.ctrs && !w'.ctrs[c].managed ==> c in w.ctrs && w'.ctrs[c] == w.ctrs[c])
    && (forall c :: c in w.ctrs && !w.ctrs[c].managed ==> c in w'.ctrs && w'.ctrs[c] == w.ctrs[c])
  }

  // A change confined to one proxy keeps Base as soon as that proxy's own facts hold again.
  lemma BaseElsewhere(cfg: Settings, w: World, w': World, id: Id)
    requires Base(cfg, w) && Elsewhere(w, w', id) && Issued(w')
    requires id in w'.rows ==> RowOk(cfg, w', id) && !PortHeld(w.rows, w'.rows[id].port, id)
    ensures Base(cfg, w')
  {
    forall i | i in w'.rows ensures RowOk(cfg, w', i) {
      if i != id { assert RowOk(cfg, w, i); }
    }
    forall i, j | i in w'.rows && j in w'.rows && w'.rows[i].port == w'.rows[j].port ensures i == j {
      if i == id && j != id { assert PortHeld(w.rows, w'.rows[id].port, id); }
    }
  }
}
