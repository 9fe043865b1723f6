/** The server starts even when the boot-time Reconcile could not finish: what operations do to a
    proxy whose row does not record the container it has, and how there comes to be one. */
module Unlinked {
  import opened Wrappers
  import opened Entities
  import opened Machine
  import opened Invariant
  import opened Steps
  import opened System
  import opened Commits

  // ---- When nothing fails ----

  const FOUR := [GOOD, GOOD, GOOD, GOOD]

  lemma GoodGet(cfg: Settings, w: World, id: Id)
    requires id in w.rows
    ensures Step(cfg, Begin(Delete(id)), w, GOOD) == (Begin(Delete(id)).(pc := DRemove, p := w.rows[id]), w)
  {
  }

  lemma GoodRemove(cfg: Settings, w: World, id: Id, p: Proxy)
    ensures Step(cfg, Begin(Delete(id)).(pc := DRemove, p := p), w, GOOD) == (Begin(Delete(id)).(pc := DDir, p := p),
      w.(ctrs := if p.containerId.None? then w.ctrs else w.ctrs - {p.containerId.value}))
  {
  }

  lemma GoodDrop(cfg: Settings, w: World, id: Id, p: Proxy)
    requires p.id == id && id in w.rows
    ensures Step(cfg, Begin(Delete(id)).(pc := DDir, p := p), w, GOOD)
      == (Begin(Delete(id)).(pc := DRow, p := p), EraseDir(w, id))
    ensures Step(cfg, Begin(Delete(id)).(pc := DRow, p := p), w, GOOD)
      == (Begin(Delete(id)).(pc := Done, p := p), EraseRow(w, id))
  {
  }

  // The containers a failure-free Delete leaves.
  function Remaining(w: World, id: Id): Ctrs
    requires id in w.rows
  {
    if w.rows[id].containerId.None? then w.ctrs else w.ctrs - {w.rows[id].containerId.value}
  }

  lemma GoodDelete(cfg: Settings, w: World, id: Id)
    requires id in w.rows && w.rows[id].id == id
    ensures var (pr', w') := Run(cfg, Begin(Delete(id)), w, FOUR);
      pr'.pc == Done && pr'.err.None? && id !in w'.rows && id !in w'.dirs && w'.ctrs == Remaining(w, id)
  {
    var v := w.(ctrs := Remaining(w, id));
    FourSteps(cfg, Begin(Delete(id)), w, FOUR);
    GoodGet(cfg, w, id);
    GoodRemove(cfg, w, id, w.rows[id]);
    GoodDrop(cfg, v, id, w.rows[id]);
    GoodDrop(cfg, EraseDir(v, id), id, w.rows[id]);
  }

  /** The server starts even when the boot-time Reconcile failed. From such a state a Delete
      that meets no failure at all succeeds, but it takes the proxy's container along exactly
      when the row records it. */
  lemma DeleteNeedsTheLink(cfg: Settings, w: World, id: Id)
    requires Base(cfg, w) && id in w.rows
    ensures var (pr', w') := Run(cfg, Begin(Delete(id)), w, FOUR);
      && pr'.pc == Done && pr'.err.None? && id !in w'.rows && id !in w'.dirs
      && (Bare(w'.ctrs, id) <==> Linked(w.rows, w.ctrs, id))
  {
    assert RowOk(cfg, w, id);
    GoodDelete(cfg, w, id);
    if Linked(w.rows, w.ctrs, id) { ErasedIsBare(w.rows, w.ctrs, id); }
    else {
      var c: Cid :| Mine(w.ctrs, c, id) && w.rows[id].containerId != Some(c);
      assert Mine(Remaining(w, id), c, id);
    }
  }

  // What a Recreate does from the removal on when nothing fails.
  const SEVEN := [GOOD, GOOD, GOOD, GOOD, GOOD, GOOD, GOOD]

  function Rebuilt(w: World, p: Proxy, text: string): World {
    World(w.rows[p.id := Healthy(p.(containerId := Some(w.nextCid)))],
          w.ctrs[w.nextCid := Container(true, p.id, p.port, true)],
          w.dirs[p.id := Some(text)], w.nextId, w.nextCid + 1)
  }

  // A Recreate under way, at `pc` and holding `p`.
  function Under(op: Op, pc: Pc, p: Proxy): Proc { Begin(op).(pc := pc, p := p) }

  lemma GoodPort(cfg: Settings, op: Op, p: Proxy, w: World)
    requires op.Recreate? && p.id in w.rows && !PortHeld(w.rows, p.port, p.id)
    ensures Step(cfg, Under(op, RPort, p), w, GOOD) == (Under(op, RMkdir, p), PutRow(w, p))
  {
  }

  lemma GoodMkdir(cfg: Settings, op: Op, p: Proxy, w: World)
    requires op.Recreate?
    ensures Step(cfg, Under(op, RMkdir, p), w, GOOD) == (Under(op, RWrite, p), MakeDir(w, p.id))
  {
  }

  lemma GoodWrite(cfg: Settings, op: Op, p: Proxy, w: World, text: string)
    requires op.Recreate? && Rendered(cfg, p) == Some(text)
    ensures Step(cfg, Under(op, RWrite, p), w, GOOD) == (Under(op, SBuild, p), PutDir(w, p.id, text))
  {
  }

  lemma GoodBuild(cfg: Settings, op: Op, p: Proxy, w: World)
    requires op.Recreate?
    ensures Step(cfg, Under(op, SBuild, p), w, GOOD)
      == (Under(op, SStart, p.(containerId := Some(w.nextCid))), AddContainer(w, p.id, p.port))
  {
  }

  lemma GoodStart(cfg: Settings, op: Op, p: Proxy, w: World)
    requires op.Recreate? && p.containerId.Some? && p.containerId.value in w.ctrs
    ensures Step(cfg, Under(op, SStart, p), w, GOOD) == (Under(op, SHealth, p), RunContainer(w, p.containerId.value))
  {
  }

  lemma GoodHealth(cfg: Settings, op: Op, p: Proxy, w: World)
    requires op.Recreate? && p.containerId.Some? && p.containerId.value in w.ctrs
    ensures Step(cfg, Under(op, SHealth, p), w, GOOD) == (Under(op, SCommit, Healthy(p)), w)
  {
  }

  lemma GoodCommit(cfg: Settings, op: Op, p: Proxy, w: World)
    requires op.Recreate? && p.id in w.rows && !PortHeld(w.rows, p.port, p.id)
    ensures Step(cfg, Under(op, SCommit, p), w, GOOD) == (Under(op, Done, p), PutRow(w, p))
  {
  }

  lemma SevenSteps(cfg: Settings, pr: Proc, w: World)
    ensures var r1 := Step(cfg, pr, w, GOOD); var r2 := Step(cfg, r1.0, r1.1, GOOD);
      var r3 := Step(cfg, r2.0, r2.1, GOOD);
      Run(cfg, pr, w, SEVEN)
        == Run(cfg, Step(cfg, r3.0, r3.1, GOOD).0, Step(cfg, r3.0, r3.1, GOOD).1, [GOOD, GOOD, GOOD])
  {
    FourSteps(cfg, pr, w, FOUR);
    RunAppend(cfg, pr, w, FOUR, [GOOD, GOOD, GOOD]);
    assert FOUR + [GOOD, GOOD, GOOD] == SEVEN;
  }

  lemma ThreeSteps(cfg: Settings, pr: Proc, w: World)
    ensures var r1 := Step(cfg, pr, w, GOOD); var r2 := Step(cfg, r1.0, r1.1, GOOD);
      Run(cfg, pr, w, [GOOD, GOOD, GOOD]) == Step(cfg, r2.0, r2.1, GOOD)
  {
    RunSnoc(cfg, pr, w, [], GOOD);
    RunSnoc(cfg, pr, w, [GOOD], GOOD);
    RunSnoc(cfg, pr, w, [GOOD, GOOD], GOOD);
    assert [] + [GOOD] == [GOOD] && [GOOD] + [GOOD] == [GOOD, GOOD] && [GOOD, GOOD] + [GOOD] == [GOOD, GOOD, GOOD];
  }

  // Storing the row changes nothing about who else holds its port.
  lemma StillFree(rows: Rows, p: Proxy, port: int)
    requires !PortHeld(rows, port, p.id)
    ensures !PortHeld(rows[p.id := p], port, p.id)
  {
  }

  lemma FiledByGood(cfg: Settings, op: Op, p: Proxy, w: World, text: string)
    requires op.Recreate? && Rendered(cfg, p) == Some(text)
    ensures var r := Step(cfg, Under(op, RMkdir, p), w, GOOD);
      Step(cfg, r.0, r.1, GOOD) == (Under(op, SBuild, p), PutDir(w, p.id, text))
  {
    var made := MakeDir(w, p.id);
    GoodMkdir(cfg, op, p, w);
    GoodWrite(cfg, op, p, made, text);
    assert made.dirs[p.id := Some(text)] == w.dirs[p.id := Some(text)];
  }

  lemma WrittenByGood(cfg: Settings, op: Op, p: Proxy, w: World, text: string)
    requires op.Recreate? && p.id in w.rows && !PortHeld(w.rows, p.port, p.id) && Rendered(cfg, p) == Some(text)
    ensures var v := PutDir(PutRow(w, p), p.id, text);
      Run(cfg, Under(op, RPort, p), w, SEVEN) ==
        Run(cfg, Under(op, SStart, p.(containerId := Some(v.nextCid))), AddContainer(v, p.id, p.port),
          [GOOD, GOOD, GOOD])
  {
    SevenSteps(cfg, Under(op, RPort, p), w);
    GoodPort(cfg, op, p, w);
    FiledByGood(cfg, op, p, PutRow(w, p), text);
    GoodBuild(cfg, op, p, PutDir(PutRow(w, p), p.id, text));
  }

  lemma StartedByGood(cfg: Settings, op: Op, p: Proxy, w: World)
    requires op.Recreate? && p.id in w.rows && !PortHeld(w.rows, p.port, p.id) && p.containerId.Some?
    requires p.containerId.value in w.ctrs
    ensures Run(cfg, Under(op, SStart, p), w, [GOOD, GOOD, GOOD])
      == (Under(op, Done, Healthy(p)), PutRow(RunContainer(w, p.containerId.value), Healthy(p)))
  {
    var v := RunContainer(w, p.containerId.value);
    ThreeSteps(cfg, Under(op, SStart, p), w);
    GoodStart(cfg, op, p, w);
    GoodHealth(cfg, op, p, v);
    GoodCommit(cfg, op, Healthy(p), v);
  }

  lemma RebuiltByGood(cfg: Settings, op: Op, p: Proxy, w: World, text: string)
    requires op.Recreate? && p.id in w.rows && !PortHeld(w.rows, p.port, p.id) && Rendered(cfg, p) == Some(text)
    ensures var (pr', w') := Run(cfg, Under(op, RPort, p), w, SEVEN);
      pr'.pc == Done && pr'.err.None? && w' == Rebuilt(w, p, text)
  {
    var v := PutDir(PutRow(w, p), p.id, text);
    var q, x := p.(containerId := Some(w.nextCid)), AddContainer(v, p.id, p.port);
    WrittenByGood(cfg, op, p, w, text);
    StillFree(w.rows, p, p.port);
    StartedByGood(cfg, op, q, x);
    assert PutRow(RunContainer(x, w.nextCid), Healthy(q)) == Rebuilt(w, p, text);
  }

  // A container the row did not record is still there beside the new one.
  lemma SecondContainer(cfg: Settings, w: World, op: Op, text: string, c: Cid)
    requires op.Recreate? && op.id in w.rows && w.rows[op.id].id == op.id && Issued(w)
    requires Mine(w.ctrs, c, op.id) && w.rows[op.id].containerId != Some(c)
    ensures !Base(cfg, Rebuilt(Removed(w, op), MovedRow(w, op), text))
  {
    var w' := Rebuilt(Removed(w, op), MovedRow(w, op), text);
    assert Mine(w'.ctrs, c, op.id) && Mine(w'.ctrs, w.nextCid, op.id) && c != w.nextCid;
    assert op.id in w'.rows && !RowOk(cfg, w', op.id);
  }

  lemma {:induction false} GoodIsWritable(cfg: Settings, pr: Proc, w: World, cs: seq<Choice>)
    requires forall c :: c in cs ==> !c.fail
    ensures WritableRun(cfg, pr, w, cs)
  {
    if cs != [] { GoodIsWritable(cfg, pr, w, cs[..|cs| - 1]); }
  }

  lemma LinkedMoveIsSound(cfg: Settings, w: World, op: Op)
    requires op.Recreate? && op.id in w.rows && Base(cfg, w) && Linked(w.rows, w.ctrs, op.id)
    requires Run(cfg, Begin(op), w, FOUR + SEVEN).0.pc == Done
    ensures Base(cfg, Run(cfg, Begin(op), w, FOUR + SEVEN).1)
  {
    GoodIsWritable(cfg, Run(cfg, Begin(op), w, FOUR).0, Run(cfg, Begin(op), w, FOUR).1, SEVEN);
    MoveIsStored(cfg, w, op, FOUR, SEVEN);
  }

  /** ... and a Recreate that meets no failure at all - its request in order, its port free, its
      config accepted - leaves a second container on the proxy, the old one and its old port
      included, exactly when the row did not record the first. */
  lemma RecreateNeedsTheLink(cfg: Settings, w: World, op: Op)
    requires Base(cfg, w) && op.Recreate? && op.id in w.rows && MoveWorks(cfg, w, op)
    ensures var (pr', w') := Run(cfg, Begin(op), w, FOUR + SEVEN);
      && pr'.pc == Done && pr'.err.None? && MoveStored(w', op)
      && (Base(cfg, w') <==> Linked(w.rows, w.ctrs, op.id))
  {
    assert RowOk(cfg, w, op.id);
    var p, v := MovedRow(w, op), Removed(w, op);
    var text := Rendered(cfg, p).value;
    CalmRemoval(cfg, w, op, FOUR);
    RunAppend(cfg, Begin(op), w, FOUR, SEVEN);
    StillFree(w.rows, w.rows[op.id].(state := Recreating), op.port);
    RebuiltByGood(cfg, op, p, v, text);
    if Linked(w.rows, w.ctrs, op.id) { LinkedMoveIsSound(cfg, w, op); }
    else {
      var c: Cid :| Mine(w.ctrs, c, op.id) && w.rows[op.id].containerId != Some(c);
      SecondContainer(cfg, w, op, text, c);
    }
  }

  // ---- How such a state comes about ----

  // A first create nothing stands in the way of, and the config.toml of its proxy.
  predicate Welcome(cfg: Settings, row: Proxy, text: string) {
    && row.id == 0 && row.state == Creating && row.containerId.None? && row.tlsDomain != ""
    && PortAllowed(cfg, row.port) && Rendered(cfg, row) == Some(text)
  }

  const INSTALLED := Sys(World(map[], map[], map[], 0, 0), map[], Serving)

  const ISSUED := World(map[], map[], map[], 1, 0)

  // The stores as the create's steps leave them, one after the other.
  function WithRow(row: Proxy): World { ISSUED.(rows := map[0 := row]) }
  function WithDir(row: Proxy): World { WithRow(row).(dirs := map[0 := None]) }
  function WithFile(row: Proxy, text: string): World { WithRow(row).(dirs := map[0 := Some(text)]) }

  // The proxy's row and container, as a panel killed before the row records it leaves them.
  function Killed(row: Proxy, text: string): World {
    World(map[0 := row], map[0 := Container(true, 0, row.port, false)], map[0 := Some(text)], 1, 1)
  }

  ghost predicate LeadsTo(cfg: Settings, es: seq<Event>, t: Sys) {
    RunAll(cfg, INSTALLED, es) == t && OrderlyRun(cfg, INSTALLED, es)
  }

  lemma LeadsOn(cfg: Settings, es: seq<Event>, s: Sys, e: Event, t: Sys) returns (more: seq<Event>)
    requires LeadsTo(cfg, es, s) && Orderly(s, e) && Apply(cfg, s, e) == t
    ensures LeadsTo(cfg, more, t)
  {
    more := es + [e];
    assert more[..|es|] == es;
  }

  // The create, at `pc`.
  function CreateAt(row: Proxy, pc: Pc, undo: seq<Undo>, w: World): Sys {
    Sys(w, map[0 := Begin(Create(row)).(pc := pc, undo := undo)], Serving)
  }

  // Once its file is written.
  function CreatePast(row: Proxy, pc: Pc, text: string): Sys {
    CreateAt(row, pc, [DropRow] + [DropDir], WithFile(row, text))
  }

  lemma StartTick(cfg: Settings, row: Proxy, text: string)
    requires Welcome(cfg, row, text)
    ensures Apply(cfg, INSTALLED, Start(0, Create(row))) == CreateAt(row, CCheck, [], ISSUED)
  {
  }

  lemma CheckTick(cfg: Settings, row: Proxy, text: string)
    requires Welcome(cfg, row, text)
    ensures Apply(cfg, CreateAt(row, CCheck, [], ISSUED), Tick(0, GOOD)) == CreateAt(row, CInsert, [], ISSUED)
  {
  }

  lemma ClaimTick(cfg: Settings, row: Proxy, text: string)
    requires Welcome(cfg, row, text)
    ensures Apply(cfg, CreateAt(row, CInsert, [], ISSUED), Tick(0, GOOD))
      == CreateAt(row, CMkdir, [DropRow], WithRow(row))
  {
  }

  lemma MkdirTick(cfg: Settings, row: Proxy, text: string)
    requires Welcome(cfg, row, text)
    ensures Apply(cfg, CreateAt(row, CMkdir, [DropRow], WithRow(row)), Tick(0, GOOD))
      == CreateAt(row, CWrite, [DropRow], WithDir(row))
  {
  }

  lemma WriteTick(cfg: Settings, row: Proxy, text: string)
    requires Welcome(cfg, row, text)
    ensures Apply(cfg, CreateAt(row, CWrite, [DropRow], WithDir(row)), Tick(0, GOOD)) == CreatePast(row, CNetwork, text)
  {
  }

  lemma NetworkTick(cfg: Settings, row: Proxy, text: string)
    requires Welcome(cfg, row, text)
    ensures Apply(cfg, CreatePast(row, CNetwork, text), Tick(0, GOOD)) == CreatePast(row, CPull, text)
  {
  }

  lemma PullTick(cfg: Settings, row: Proxy, text: string)
    requires Welcome(cfg, row, text)
    ensures Apply(cfg, CreatePast(row, CPull, text), Tick(0, GOOD)) == CreatePast(row, CBuild, text)
  {
  }

  lemma BuildTick(cfg: Settings, row: Proxy, text: string)
    requires Welcome(cfg, row, text)
    ensures Apply(cfg, CreatePast(row, CBuild, text), Tick(0, GOOD)).world == Killed(row, text)
  {
  }

  // A create that has come as far as its file.
  lemma CreateFiled(cfg: Settings, row: Proxy, text: string) returns (es: seq<Event>)
    requires Welcome(cfg, row, text)
    ensures LeadsTo(cfg, es, CreatePast(row, CNetwork, text))
  {
    StartTick(cfg, row, text);
    es := LeadsOn(cfg, [], INSTALLED, Start(0, Create(row)), CreateAt(row, CCheck, [], ISSUED));
    CheckTick(cfg, row, text);
    es := LeadsOn(cfg, es, CreateAt(row, CCheck, [], ISSUED), Tick(0, GOOD), CreateAt(row, CInsert, [], ISSUED));
    ClaimTick(cfg, row, text);
    var claimed, made := CreateAt(row, CMkdir, [DropRow], WithRow(row)), CreateAt(row, CWrite, [DropRow], WithDir(row));
    es := LeadsOn(cfg, es, CreateAt(row, CInsert, [], ISSUED), Tick(0, GOOD), claimed);
    MkdirTick(cfg, row, text);
    es := LeadsOn(cfg, es, claimed, Tick(0, GOOD), made);
    WriteTick(cfg, row, text);
    es := LeadsOn(cfg, es, made, Tick(0, GOOD), CreatePast(row, CNetwork, text));
  }

  // ... and as its container, seven steps in.
  lemma CreateInterrupted(cfg: Settings, row: Proxy, text: string) returns (es: seq<Event>, t: Sys)
    requires Welcome(cfg, row, text)
    ensures LeadsTo(cfg, es, t) && t.world == Killed(row, text)
  {
    es := CreateFiled(cfg, row, text);
    NetworkTick(cfg, row, text);
    es := LeadsOn(cfg, es, CreatePast(row, CNetwork, text), Tick(0, GOOD), CreatePast(row, CPull, text));
    PullTick(cfg, row, text);
    es := LeadsOn(cfg, es, CreatePast(row, CPull, text), Tick(0, GOOD), CreatePast(row, CBuild, text));
    BuildTick(cfg, row, text);
    t := Apply(cfg, CreatePast(row, CBuild, text), Tick(0, GOOD));
    es := LeadsOn(cfg, es, CreatePast(row, CBuild, text), Tick(0, GOOD), t);
  }

  // The boot-time Reconcile, at `pr`.
  function Booting(w: World, pr: Proc): Sys { Sys(w, map[0 := pr], Down) }

  function Listed(w: World): Proc { Begin(Op.Reconcile).(pc := KCtrs, snapshot := w.rows, todo := w.rows.Keys) }

  function Unfinished(w: World): Proc { Listed(w).(pc := Done, err := Some(RuntimeFailed), clean := false) }

  lemma RowsTick(cfg: Settings, w: World)
    ensures Apply(cfg, Booting(w, Begin(Op.Reconcile)), Tick(0, GOOD)) == Booting(w, Listed(w))
  {
  }

  lemma ContainersTick(cfg: Settings, w: World)
    ensures Apply(cfg, Booting(w, Listed(w)), Tick(0, GOOD.(fail := true))) == Booting(w, Unfinished(w))
  {
  }

  lemma BootTicks(cfg: Settings, s: Sys)
    ensures var w := s.world;
      && Apply(cfg, s, Crash) == Sys(w, map[], Down)
      && Apply(cfg, Sys(w, map[], Down), Start(0, Op.Reconcile)) == Booting(w, Begin(Op.Reconcile))
      && Apply(cfg, Booting(w, Unfinished(w)), Finish(0)) == Sys(w, map[], Degraded)
  {
    assert map[0 := Unfinished(s.world)] - {0} == map[];
  }

  lemma BootStarts(cfg: Settings, es: seq<Event>, t: Sys) returns (more: seq<Event>)
    requires LeadsTo(cfg, es, t)
    ensures LeadsTo(cfg, more, Booting(t.world, Begin(Op.Reconcile)))
  {
    BootTicks(cfg, t);
    more := LeadsOn(cfg, es, t, Crash, Sys(t.world, map[], Down));
    more := LeadsOn(cfg, more, Sys(t.world, map[], Down), Start(0, Op.Reconcile),
      Booting(t.world, Begin(Op.Reconcile)));
  }

  lemma BootFails(cfg: Settings, es: seq<Event>, w: World) returns (more: seq<Event>)
    requires LeadsTo(cfg, es, Booting(w, Begin(Op.Reconcile)))
    ensures LeadsTo(cfg, more, Booting(w, Unfinished(w)))
  {
    RowsTick(cfg, w);
    more := LeadsOn(cfg, es, Booting(w, Begin(Op.Reconcile)), Tick(0, GOOD), Booting(w, Listed(w)));
    ContainersTick(cfg, w);
    more := LeadsOn(cfg, more, Booting(w, Listed(w)), Tick(0, GOOD.(fail := true)), Booting(w, Unfinished(w)));
  }

  lemma BootEnds(cfg: Settings, es: seq<Event>, w: World) returns (more: seq<Event>)
    requires LeadsTo(cfg, es, Booting(w, Unfinished(w)))
    ensures LeadsTo(cfg, more, Sys(w, map[], Degraded))
  {
    BootTicks(cfg, Booting(w, Unfinished(w)));
    more := LeadsOn(cfg, es, Booting(w, Unfinished(w)), Finish(0), Sys(w, map[], Degraded));
  }

  lemma KilledIsUnlinked(row: Proxy, text: string)
    requires row.containerId.None?
    ensures var w := Killed(row, text); 0 in w.rows && !Linked(w.rows, w.ctrs, 0)
  {
    var w := Killed(row, text);
    assert Mine(w.ctrs, 0, 0) && w.rows[0].containerId != Some(0);
  }

  lemma InstalledIsSound(cfg: Settings)
    ensures Inv(cfg, INSTALLED)
  {
  }

  /** Such states occur, whatever the settings and the first proxy asked for: install the panel, kill
      it when that create has its container, and let the boot-time Reconcile fail to list
      containers. The panel serves a row that does not record the container it has. */
  lemma UnlinkedIsReachable(cfg: Settings, row: Proxy, text: string) returns (es: seq<Event>)
    requires Welcome(cfg, row, text)
    ensures Inv(cfg, INSTALLED) && OrderlyRun(cfg, INSTALLED, es)
    ensures RunAll(cfg, INSTALLED, es) == Sys(Killed(row, text), map[], Degraded)
    ensures var w := Killed(row, text); 0 in w.rows && !Linked(w.rows, w.ctrs, 0)
  {
    var t;
    es, t := CreateInterrupted(cfg, row, text);
    es := BootStarts(cfg, es, t);
    es := BootFails(cfg, es, t.world);
    es := BootEnds(cfg, es, t.world);
    InstalledIsSound(cfg);
    KilledIsUnlinked(row, text);
  }

  lemma KilledIsBase(cfg: Settings, row: Proxy, text: string)
    requires Welcome(cfg, row, text)
    ensures Base(cfg, Killed(row, text))
  {
    assert RowOk(cfg, Killed(row, text), 0);
  }

  /** There, any move the panel accepts leaves, without a failure, two containers on one proxy. */
  lemma MovingTheUnlinked(cfg: Settings, row: Proxy, text: string, port: int, tlsDomain: string)
    requires Welcome(cfg, row, text) && MoveWorks(cfg, Killed(row, text), Recreate(0, port, tlsDomain))
    ensures var w := Killed(row, text);
      Base(cfg, w) && !Base(cfg, Run(cfg, Begin(Recreate(0, port, tlsDomain)), w, FOUR + SEVEN).1)
  {
    KilledIsBase(cfg, row, text);
    KilledIsUnlinked(row, text);
    RecreateNeedsTheLink(cfg, Killed(row, text), Recreate(0, port, tlsDomain));
  }
}
