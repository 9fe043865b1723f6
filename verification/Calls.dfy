/** Whole calls, taken alone: what each returns and leaves, whatever fails at which of its steps. */
module Calls {
  import opened Wrappers
  import opened Entities
  import opened Machine
  import opened Invariant
  import opened Histories

  // The caller has hung up by the time of the first `k` steps.
  predicate Hung(cs: seq<Choice>, k: nat) { exists j :: 0 <= j < k && j < |cs| && cs[j].cancel }

  // Step `k` is denied if it needs the caller, or a working database or runtime.
  predicate Denied(cs: seq<Choice>, k: nat)
    requires k < |cs|
  {
    cs[k].fail || Hung(cs, k + 1)
  }

  lemma HungOn(cs: seq<Choice>, k: nat)
    requires k < |cs|
    ensures Hung(cs, k + 1) <==> Hung(cs, k) || cs[k].cancel
  {
    if Hung(cs, k + 1) && !cs[k].cancel {
      var j :| 0 <= j < k + 1 && j < |cs| && cs[j].cancel;
      assert j < k;
    }
  }

  function After(cfg: Settings, op: Op, w: World, cs: seq<Choice>, k: nat): (Proc, World)
    requires k <= |cs|
  {
    Run(cfg, Begin(op), w, cs[..k])
  }

  lemma Onward(cfg: Settings, op: Op, w: World, cs: seq<Choice>, k: nat)
    requires k < |cs|
    ensures After(cfg, op, w, cs, k + 1) == Step(cfg, After(cfg, op, w, cs, k).0, After(cfg, op, w, cs, k).1, cs[k])
    ensures Hung(cs, k + 1) <==> Hung(cs, k) || cs[k].cancel
  {
    HungOn(cs, k);
    RunSnoc(cfg, Begin(op), w, cs[..k], cs[k]);
    assert cs[..k + 1] == cs[..k] + [cs[k]];
  }

  lemma AtFirst(cfg: Settings, op: Op, w: World, cs: seq<Choice>)
    ensures After(cfg, op, w, cs, 0) == (At(op, FirstPc(op), cs, 0, Begin(op).p), w)
  {
  }

  lemma RunOf(cfg: Settings, pr: Proc, w: World, cs: seq<Choice>, a: seq<Choice>, b: seq<Choice>)
    requires cs == a + b
    ensures Run(cfg, pr, w, cs) == Run(cfg, Run(cfg, pr, w, a).0, Run(cfg, pr, w, a).1, b)
  {
    RunAppend(cfg, pr, w, a, b);
  }

  lemma RunInParts(cfg: Settings, pr: Proc, w: World, cs: seq<Choice>, k: nat)
    requires k <= |cs|
    ensures Run(cfg, pr, w, cs) == Run(cfg, Run(cfg, pr, w, cs[..k]).0, Run(cfg, pr, w, cs[..k]).1, cs[k..])
  {
    RunOf(cfg, pr, w, cs, cs[..k], cs[k..]);
  }

  // What is done is done: the rest of the choices change nothing.
  lemma OverAndDone(cfg: Settings, op: Op, w: World, cs: seq<Choice>, k: nat)
    requires k <= |cs| && After(cfg, op, w, cs, k).0.pc == Done
    ensures var (pr, v), (pr', v') := After(cfg, op, w, cs, k), Run(cfg, Begin(op), w, cs);
      v' == v && pr'.pc == Done && pr'.err == pr.err && pr'.p == pr.p
  {
    RunInParts(cfg, Begin(op), w, cs, k);
    DoneForGood(cfg, After(cfg, op, w, cs, k).0, After(cfg, op, w, cs, k).1, cs[k..]);
  }

  lemma {:induction false} DoneForGood(cfg: Settings, pr: Proc, w: World, cs: seq<Choice>)
    requires pr.pc == Done
    ensures var (pr', w') := Run(cfg, pr, w, cs); w' == w && pr'.pc == Done && pr'.err == pr.err && pr'.p == pr.p
  {
    if cs != [] { DoneForGood(cfg, pr, w, cs[..|cs| - 1]); }
  }

  /** The record of a finished service call says of its stores, its error and its row what the statements
      below say of a run: any choices may be thought to follow its own. */
  lemma RecordIsCall(cfg: Settings, h: History, op: Op, more: seq<Choice>)
    requires Genuine(cfg, h) && First(h).0 == Begin(op) && Last(h).0.pc == Done
    ensures var (pr', w') := Run(cfg, Begin(op), First(h).1, h.choices + more);
      w' == Last(h).1 && pr'.pc == Done && pr'.err == Last(h).0.err && pr'.p == Last(h).0.p
  {
    var n, cs := |h.choices|, h.choices + more;
    GenuineIsRun(cfg, h, n);
    assert h.choices[..n] == h.choices && cs[..n] == h.choices;
    OverAndDone(cfg, op, First(h).1, cs, n);
  }

  // An operation without a rollback under way, its first `k` choices heard.
  function At(op: Op, pc: Pc, cs: seq<Choice>, k: nat, p: Proxy): Proc {
    Begin(op).(pc := pc, cancelled := Hung(cs, k), p := p)
  }

  // ---- What can stand in the way ----

  function Refusal(refused: bool, e: Fault): Option<Fault> { if refused then Some(e) else None }

  function AskObstacle(cfg: Settings, row: Proxy, c: Choice): Option<Fault> {
    if row.port < 1 || row.port > 65535 then Some(PortRange)
    else if row.port in cfg.reserved then Some(PortReserved)
    else if c.fail then Some(PortBusy)
    else Refusal(row.tlsDomain == "", DomainRequired)
  }

  function FileObstacle(cfg: Settings, row: Proxy, c: Choice): Option<Fault> {
    if Rendered(cfg, row).None? then Some(ConfigInvalid) else Refusal(c.fail, WriteFailed)
  }

  // The row as its container is found: well, or not and why.
  function Found(p: Proxy, ill: bool, text: string): Proxy {
    p.(state := if ill then Error else Running, message := if ill then text else "")
  }

  // ---- RemoveOrphan ----

  // A container with the panel's label, of a proxy that has no row.
  predicate IsOrphan(w: World, cid: Cid) { cid in w.ctrs && w.ctrs[cid].managed && w.ctrs[cid].owner !in w.rows }

  function Known(op: Op, pc: Pc, cs: seq<Choice>, k: nat, w: World): Proc {
    At(op, pc, cs, k, ZERO_PROXY).(snapshot := w.rows, todo := w.rows.Keys)
  }

  lemma OrphanRows(cfg: Settings, w: World, cid: Cid, cs: seq<Choice>)
    requires |cs| >= 3
    ensures var op := RemoveOrphan(cid); var (pr, v) := After(cfg, op, w, cs, 1);
      && v == w
      && (Denied(cs, 0) ==> pr.pc == Done && pr.err == Some(StoreFailed))
      && (!Denied(cs, 0) ==> pr == Known(op, OCtrs, cs, 1, w))
  {
    AtFirst(cfg, RemoveOrphan(cid), w, cs);
    Onward(cfg, RemoveOrphan(cid), w, cs, 0);
  }

  lemma OrphanListed(cfg: Settings, w: World, cid: Cid, cs: seq<Choice>)
    requires |cs| >= 3 && !Denied(cs, 0)
    ensures var op := RemoveOrphan(cid); var (pr, v) := After(cfg, op, w, cs, 2);
      && v == w
      && (Denied(cs, 1) ==> pr.pc == Done && pr.err == Some(RuntimeFailed))
      && (!Denied(cs, 1) && !IsOrphan(w, cid) ==> pr.pc == Done && pr.err == Some(NotAnOrphan))
      && (!Denied(cs, 1) && IsOrphan(w, cid) ==> pr == Known(op, ORemove, cs, 2, w))
  {
    OrphanRows(cfg, w, cid, cs);
    Onward(cfg, RemoveOrphan(cid), w, cs, 1);
  }

  lemma OrphanDropped(cfg: Settings, w: World, cid: Cid, cs: seq<Choice>)
    requires |cs| >= 3 && !Denied(cs, 0) && !Denied(cs, 1) && IsOrphan(w, cid)
    ensures var (pr, v) := After(cfg, RemoveOrphan(cid), w, cs, 3);
      && pr.pc == Done && pr.err == (if Denied(cs, 2) then Some(RuntimeFailed) else None)
      && v == if Denied(cs, 2) then w else w.(ctrs := w.ctrs - {cid})
  {
    OrphanListed(cfg, w, cid, cs);
    Onward(cfg, RemoveOrphan(cid), w, cs, 2);
  }

  /** RemoveOrphan, whatever fails: it succeeds exactly when its three calls are answered and the
      container has the panel's label and no row; then that container is gone, and otherwise
      nothing has changed. The error says which of the three it was, or that the container is no
      orphan. */
  lemma OrphanCall(cfg: Settings, w: World, cid: Cid, cs: seq<Choice>)
    requires |cs| >= 3
    ensures var (pr', w') := Run(cfg, Begin(RemoveOrphan(cid)), w, cs);
      && pr'.pc == Done
      && (pr'.err.None? <==> !Denied(cs, 0) && !Denied(cs, 1) && !Denied(cs, 2) && IsOrphan(w, cid))
      && (pr'.err == Some(NotAnOrphan) <==> !Denied(cs, 0) && !Denied(cs, 1) && !IsOrphan(w, cid))
      && (pr'.err == Some(StoreFailed) <==> Denied(cs, 0))
      && (pr'.err == Some(RuntimeFailed) <==> !Denied(cs, 0) && (Denied(cs, 1) || (IsOrphan(w, cid) && Denied(cs, 2))))
      && w' == if pr'.err.None? then w.(ctrs := w.ctrs - {cid}) else w
  {
    OrphanRows(cfg, w, cid, cs);
    if Denied(cs, 0) { OverAndDone(cfg, RemoveOrphan(cid), w, cs, 1); }
    else {
      OrphanListed(cfg, w, cid, cs);
      if Denied(cs, 1) || !IsOrphan(w, cid) { OverAndDone(cfg, RemoveOrphan(cid), w, cs, 2); }
      else {
        OrphanDropped(cfg, w, cid, cs);
        OverAndDone(cfg, RemoveOrphan(cid), w, cs, 3);
      }
    }
  }

  // ---- Delete ----

  // Its container cannot be removed.
  predicate Stuck(p: Proxy, cs: seq<Choice>)
    requires |cs| >= 4
  {
    p.containerId.Some? && Denied(cs, 1)
  }

  function Unrecorded(w: World, p: Proxy): Ctrs {
    if p.containerId.None? then w.ctrs else w.ctrs - {p.containerId.value}
  }

  lemma DeleteFetched(cfg: Settings, w: World, id: Id, cs: seq<Choice>)
    requires |cs| >= 4
    ensures var op := Delete(id); var (pr, v) := After(cfg, op, w, cs, 1);
      && v == w
      && (Denied(cs, 0) ==> pr.pc == Done && pr.err == Some(StoreFailed))
      && (!Denied(cs, 0) && id !in w.rows ==> pr.pc == Done && pr.err == Some(NotFound))
      && (!Denied(cs, 0) && id in w.rows ==> pr == At(op, DRemove, cs, 1, w.rows[id]))
  {
    AtFirst(cfg, Delete(id), w, cs);
    Onward(cfg, Delete(id), w, cs, 0);
  }

  lemma DeleteRemoved(cfg: Settings, w: World, id: Id, cs: seq<Choice>)
    requires |cs| >= 4 && !Denied(cs, 0) && id in w.rows
    ensures var op, p := Delete(id), w.rows[id]; var (pr, v) := After(cfg, op, w, cs, 2);
      && (Stuck(p, cs) ==> pr.pc == Done && pr.err == Some(RuntimeFailed) && v == w)
      && (!Stuck(p, cs) ==> pr == At(op, DDir, cs, 2, p) && v == w.(ctrs := Unrecorded(w, p)))
  {
    DeleteFetched(cfg, w, id, cs);
    Onward(cfg, Delete(id), w, cs, 1);
  }

  lemma DeleteSwept(cfg: Settings, w: World, id: Id, cs: seq<Choice>)
    requires |cs| >= 4 && !Denied(cs, 0) && id in w.rows && w.rows[id].id == id && !Stuck(w.rows[id], cs)
    ensures var op, p := Delete(id), w.rows[id]; var (pr, v) := After(cfg, op, w, cs, 3);
      && (cs[2].fail ==> pr.pc == Done && pr.err == Some(RemoveFailed) && v == w.(ctrs := Unrecorded(w, p)))
      && (!cs[2].fail ==>
            pr == At(op, DRow, cs, 3, p) && v == w.(ctrs := Unrecorded(w, p), dirs := w.dirs - {id}))
  {
    DeleteRemoved(cfg, w, id, cs);
    Onward(cfg, Delete(id), w, cs, 2);
  }

  lemma DeleteDropped(cfg: Settings, w: World, id: Id, cs: seq<Choice>)
    requires |cs| >= 4 && !Denied(cs, 0) && id in w.rows && w.rows[id].id == id && !Stuck(w.rows[id], cs) && !cs[2].fail
    ensures var (pr, v) := After(cfg, Delete(id), w, cs, 4);
      && pr.pc == Done && pr.err == (if cs[3].fail then Some(StoreFailed) else None)
      && v == w.(ctrs := Unrecorded(w, w.rows[id]), dirs := w.dirs - {id},
                 rows := if cs[3].fail then w.rows else w.rows - {id})
  {
    DeleteSwept(cfg, w, id, cs);
    Onward(cfg, Delete(id), w, cs, 3);
  }

  /** Delete, whatever fails: the row goes last, after the recorded container and the config directory,
      so that a failure before leaves it there to try again from; and the caller's hanging up matters
      only until the container is removed. */
  lemma DeleteCall(cfg: Settings, w: World, id: Id, cs: seq<Choice>)
    requires |cs| >= 4 && (id in w.rows ==> w.rows[id].id == id)
    ensures var (pr', w') := Run(cfg, Begin(Delete(id)), w, cs);
      && pr'.pc == Done
      && (pr'.err.None? <==>
            !Denied(cs, 0) && id in w.rows && !Stuck(w.rows[id], cs) && !cs[2].fail && !cs[3].fail)
      && (pr'.err == Some(NotFound) <==> !Denied(cs, 0) && id !in w.rows)
      && (pr'.err == Some(RuntimeFailed) <==> !Denied(cs, 0) && id in w.rows && Stuck(w.rows[id], cs))
      && (pr'.err == Some(RemoveFailed) <==>
            !Denied(cs, 0) && id in w.rows && !Stuck(w.rows[id], cs) && cs[2].fail)
      && (pr'.err.Some? ==> w'.rows == w.rows)
      && (pr'.err.None? ==> w'.rows == w.rows - {id})
      && (if Denied(cs, 0) || id !in w.rows || Stuck(w.rows[id], cs) then w' == w
          else w'.ctrs == Unrecorded(w, w.rows[id]) && w'.dirs == if cs[2].fail then w.dirs else w.dirs - {id})
  {
    DeleteFetched(cfg, w, id, cs);
    if Denied(cs, 0) || id !in w.rows { OverAndDone(cfg, Delete(id), w, cs, 1); }
    else if Stuck(w.rows[id], cs) {
      DeleteRemoved(cfg, w, id, cs);
      OverAndDone(cfg, Delete(id), w, cs, 2);
    } else if cs[2].fail {
      DeleteSwept(cfg, w, id, cs);
      OverAndDone(cfg, Delete(id), w, cs, 3);
    } else {
      DeleteDropped(cfg, w, id, cs);
      OverAndDone(cfg, Delete(id), w, cs, 4);
    }
  }

  // ---- UpdateLimits ----

  // The limits' call to the running proxy is answered.
  predicate Applied(w: World, p: Proxy, cs: seq<Choice>)
    requires |cs| >= 5
  {
    !Denied(cs, 3) && p.containerId.Some? && p.containerId.value in w.ctrs
  }

  // The row with its new limits and what became of applying them to the running proxy.
  function Limited(w: World, id: Id, patch: LimitsPatch, cs: seq<Choice>): Proxy
    requires id in w.rows && |cs| >= 5
  {
    var p := ApplyPatch(w.rows[id], patch);
    p.(message := if Applied(w, p, cs) then "" else "limits saved; live apply failed: " + cs[3].text)
  }

  lemma UpdateFetched(cfg: Settings, w: World, id: Id, patch: LimitsPatch, cs: seq<Choice>)
    requires |cs| >= 5
    ensures var op := UpdateLimits(id, patch); var (pr, v) := After(cfg, op, w, cs, 1);
      && v == w
      && (Denied(cs, 0) ==> pr.pc == Done && pr.err == Some(StoreFailed))
      && (!Denied(cs, 0) && id !in w.rows ==> pr.pc == Done && pr.err == Some(NotFound))
      && (!Denied(cs, 0) && id in w.rows ==> pr == At(op, UMkdir, cs, 1, ApplyPatch(w.rows[id], patch)))
  {
    AtFirst(cfg, UpdateLimits(id, patch), w, cs);
    Onward(cfg, UpdateLimits(id, patch), w, cs, 0);
  }

  lemma UpdateMade(cfg: Settings, w: World, id: Id, patch: LimitsPatch, cs: seq<Choice>)
    requires |cs| >= 5 && !Denied(cs, 0) && id in w.rows && w.rows[id].id == id
    ensures var op, p := UpdateLimits(id, patch), ApplyPatch(w.rows[id], patch);
      var (pr, v) := After(cfg, op, w, cs, 2);
      && (cs[1].fail ==> pr.pc == Done && pr.err == Some(MkdirFailed) && v == w)
      && (!cs[1].fail ==> pr == At(op, UWrite, cs, 2, p) && v == MadeDir(w, id))
  {
    UpdateFetched(cfg, w, id, patch, cs);
    Onward(cfg, UpdateLimits(id, patch), w, cs, 1);
  }

  // The directory is there, empty if it was not before.
  function MadeDir(w: World, id: Id): World { w.(dirs := if id in w.dirs then w.dirs else w.dirs[id := None]) }

  lemma UpdateWritten(cfg: Settings, w: World, id: Id, patch: LimitsPatch, cs: seq<Choice>)
    requires |cs| >= 5 && !Denied(cs, 0) && id in w.rows && w.rows[id].id == id && !cs[1].fail
    ensures var op, p := UpdateLimits(id, patch), ApplyPatch(w.rows[id], patch);
      var (pr, v) := After(cfg, op, w, cs, 3); var text := Rendered(cfg, p);
      && (text.None? ==> pr.pc == Done && pr.err == Some(ConfigInvalid) && v == MadeDir(w, id))
      && (text.Some? && cs[2].fail ==> pr.pc == Done && pr.err == Some(WriteFailed) && v == MadeDir(w, id))
      && (text.Some? && !cs[2].fail ==> pr == At(op, UPatch, cs, 3, p) && v == w.(dirs := w.dirs[id := text]))
  {
    UpdateMade(cfg, w, id, patch, cs);
    Onward(cfg, UpdateLimits(id, patch), w, cs, 2);
    assert MadeDir(w, id).dirs[id := Rendered(cfg, ApplyPatch(w.rows[id], patch))]
      == w.dirs[id := Rendered(cfg, ApplyPatch(w.rows[id], patch))];
  }

  // The config file is the row's that is to be.
  predicate Filed(cfg: Settings, w: World, id: Id, patch: LimitsPatch, cs: seq<Choice>)
    requires |cs| >= 5
  {
    !Denied(cs, 0) && id in w.rows && !cs[1].fail && Rendered(cfg, ApplyPatch(w.rows[id], patch)).Some? && !cs[2].fail
  }

  lemma UpdateApplied(cfg: Settings, w: World, id: Id, patch: LimitsPatch, cs: seq<Choice>)
    requires |cs| >= 5 && Filed(cfg, w, id, patch, cs) && w.rows[id].id == id
    ensures var op, p := UpdateLimits(id, patch), ApplyPatch(w.rows[id], patch);
      After(cfg, op, w, cs, 4)
        == (At(op, UCommit, cs, 4, Limited(w, id, patch, cs)), w.(dirs := w.dirs[id := Rendered(cfg, p)]))
  {
    UpdateWritten(cfg, w, id, patch, cs);
    Onward(cfg, UpdateLimits(id, patch), w, cs, 3);
  }

  lemma UpdateSaved(cfg: Settings, w: World, id: Id, patch: LimitsPatch, cs: seq<Choice>)
    requires |cs| >= 5 && Filed(cfg, w, id, patch, cs) && w.rows[id].id == id && PortsUnique(w.rows)
    ensures var op, p, q := UpdateLimits(id, patch), ApplyPatch(w.rows[id], patch), Limited(w, id, patch, cs);
      var (pr, v) := After(cfg, op, w, cs, 5);
      && pr.pc == Done && pr.p == q && pr.err == (if cs[4].fail then Some(StoreFailed) else None)
      && v == w.(dirs := w.dirs[id := Rendered(cfg, p)], rows := if cs[4].fail then w.rows else w.rows[id := q])
  {
    UpdateApplied(cfg, w, id, patch, cs);
    Onward(cfg, UpdateLimits(id, patch), w, cs, 4);
    assert !PortHeld(w.rows, w.rows[id].port, id);
  }

  /** UpdateLimits, whatever fails: the limits are stored exactly when the row is found, its new config
      is accepted and written, and the store takes it - not when the running proxy takes them. The row
      stored is the one returned: every limit patched, and a message that is empty if the running proxy
      answered, and says that it did not otherwise. Nothing but that row and its file changes, and the
      file is there before the row. */
  lemma UpdateCall(cfg: Settings, w: World, id: Id, patch: LimitsPatch, cs: seq<Choice>)
    requires |cs| >= 5 && PortsUnique(w.rows) && (id in w.rows ==> w.rows[id].id == id)
    ensures var (pr', w') := Run(cfg, Begin(UpdateLimits(id, patch)), w, cs);
      && pr'.pc == Done && w'.ctrs == w.ctrs
      && (pr'.err.None? <==> Filed(cfg, w, id, patch, cs) && !cs[4].fail)
      && (pr'.err.None? ==> pr'.p == Limited(w, id, patch, cs) && w'.rows == w.rows[id := pr'.p])
      && (pr'.err.Some? ==> w'.rows == w.rows && pr'.err == UpdateError(cfg, w, id, patch, cs))
      && (Filed(cfg, w, id, patch, cs) ==>
            w'.dirs == w.dirs[id := Rendered(cfg, ApplyPatch(w.rows[id], patch))])
      && (!Filed(cfg, w, id, patch, cs) ==>
            w'.dirs == if Denied(cs, 0) || id !in w.rows || cs[1].fail then w.dirs else MadeDir(w, id).dirs)
  {
    var op := UpdateLimits(id, patch);
    UpdateFetched(cfg, w, id, patch, cs);
    if Denied(cs, 0) || id !in w.rows { OverAndDone(cfg, op, w, cs, 1); }
    else if cs[1].fail {
      UpdateMade(cfg, w, id, patch, cs);
      OverAndDone(cfg, op, w, cs, 2);
    } else if !Filed(cfg, w, id, patch, cs) {
      UpdateWritten(cfg, w, id, patch, cs);
      OverAndDone(cfg, op, w, cs, 3);
    } else {
      UpdateSaved(cfg, w, id, patch, cs);
      OverAndDone(cfg, op, w, cs, 5);
    }
  }

  function UpdateError(cfg: Settings, w: World, id: Id, patch: LimitsPatch, cs: seq<Choice>): Option<Fault>
    requires |cs| >= 5
  {
    if Denied(cs, 0) then Some(StoreFailed)
    else if id !in w.rows then Some(NotFound)
    else if cs[1].fail then Some(MkdirFailed)
    else if Rendered(cfg, ApplyPatch(w.rows[id], patch)).None? then Some(ConfigInvalid)
    else if cs[2].fail then Some(WriteFailed)
    else if cs[4].fail then Some(StoreFailed)
    else None
  }

  function Patched<T>(now: T, said: Option<T>): T { if said.Some? then said.value else now }

  /** What an update stores, field by field of the row and the patch. */
  lemma UpdateStores(cfg: Settings, w: World, id: Id, patch: LimitsPatch, cs: seq<Choice>)
    requires |cs| >= 5 && PortsUnique(w.rows) && Filed(cfg, w, id, patch, cs) && !cs[4].fail && w.rows[id].id == id
    ensures var p, w' := w.rows[id], Run(cfg, Begin(UpdateLimits(id, patch)), w, cs).1;
      var answered := !Denied(cs, 3) && p.containerId.Some? && p.containerId.value in w.ctrs;
      && id in w'.rows && w'.rows[id] == Proxy(id := id, name := p.name, port := p.port, tlsDomain := p.tlsDomain,
            adTag := Patched(p.adTag, patch.adTag), secret := p.secret, apiToken := p.apiToken,
            containerId := p.containerId, state := p.state,
            message := if answered then "" else "limits saved; live apply failed: " + cs[3].text,
            quota := Patched(p.quota, patch.quota), expiration := Patched(p.expiration, patch.expiration),
            maxConns := Patched(p.maxConns, patch.maxConns), maxIps := Patched(p.maxIps, patch.maxIps))
  {
    UpdateCall(cfg, w, id, patch, cs);
  }
}
