/** For places where the code does less than it says, an input the panel can be given. The
    general statements are elsewhere; these show that what they exclude is there. */
module Examples {
  import opened Wrappers
  import opened Entities
  import opened Machine
  import opened Invariant
  import opened Steps
  import opened AllSteps
  import opened System
  import opened RepairLimits
  import opened Commits
  import opened Unlinked
  import ConfigRoundTrip
  import Delivery
  import Forms
  import Sse
  import Store
  import Tconfig
  import Toml

  // ---- A panel and its customers ----

  const PANEL := Delivery.Panel([], "172.18.0.0/16", "")

  const SECRET := "0123456789abcdef0123456789abcdef"
  const DOMAIN := "example.org"

  // The row a create asks for.
  function Customer(id: Id, port: int): Proxy {
    Proxy(id, "customer", port, DOMAIN, "", SECRET, "token", None, Creating, "", None, None, None, None)
  }

  // The row once its container, numbered alike, runs.
  function Served(id: Id, port: int): Proxy { Customer(id, port).(containerId := Some(id), state := Running) }

  // Whatever else changes, these make a row the config guard accepts.
  predicate Printable(p: Proxy) {
    && p.secret == SECRET && p.apiToken == "token" && p.adTag == "" && 1 <= p.port <= 65535
    && p.tlsDomain != "" && Tconfig.Quotable(p.tlsDomain)
  }

  lemma {:induction false} NoneUnquotable(values: seq<string>)
    requires forall i :: 0 <= i < |values| ==> Tconfig.Quotable(values[i])
    ensures Tconfig.FirstUnquotable(values).None?
  {
    if values != [] { NoneUnquotable(values[1..]); }
  }

  lemma SecretIsHex()
    ensures Tconfig.Hex32(SECRET)
  {
  }

  lemma Accepted(p: Proxy)
    requires Printable(p)
    ensures var s := SpecOf(PANEL, p); Tconfig.Validate(s).None? && Rendered(PANEL, p) == Some(Tconfig.Text(s))
  {
    var s := SpecOf(PANEL, p);
    SecretIsHex();
    NoneUnquotable([s.tlsDomain, s.apiToken, s.publicHost, s.username] + s.apiWhitelist);
  }

  // The text of an accepted row's config.toml.
  function File(p: Proxy): string { Tconfig.Text(SpecOf(PANEL, p)) }

  // ---- A row that does not record its container ----

  lemma PortIsFree(text: string)
    ensures MoveWorks(PANEL, Killed(Customer(0, 443), text), Recreate(0, 8443, DOMAIN))
  {
    Accepted(MovedRow(Killed(Customer(0, 443), text), Recreate(0, 8443, DOMAIN)));
  }

  /** A run from a fresh installation to a serving panel with such a row, after which changing its
      port, without a failure, leaves two containers on one proxy. */
  lemma UnlinkedCustomer(row: Proxy, text: string) returns (es: seq<Event>)
    requires row == Customer(0, 443) && Rendered(PANEL, row) == Some(text)
    ensures OrderlyRun(PANEL, INSTALLED, es)
    ensures RunAll(PANEL, INSTALLED, es) == Sys(Killed(row, text), map[], Degraded)
    ensures Base(PANEL, Killed(row, text))
    ensures !Base(PANEL, Run(PANEL, Begin(Recreate(0, 8443, DOMAIN)), Killed(row, text), FOUR + SEVEN).1)
  {
    es := UnlinkedIsReachable(PANEL, row, text);
    PortIsFree(text);
    MovingTheUnlinked(PANEL, row, text, 8443, DOMAIN);
  }

  // ---- A move onto a port another row holds ----

  function ContainerAt(port: int, id: Id): Container { Container(true, id, port, true) }

  // Two proxies that run, with whatever is in their files.
  function Two(texts: (string, string)): World {
    World(map[0 := Served(0, 443), 1 := Served(1, 8443)], map[0 := ContainerAt(443, 0), 1 := ContainerAt(8443, 1)],
          map[0 := Some(texts.0), 1 := Some(texts.1)], 2, 2)
  }

  const NEIGHBOURS := Two((File(Served(0, 443)), File(Served(1, 8443))))

  lemma ServedIsOk(cfg: Settings, w: World, id: Id, port: int)
    requires id in w.rows && w.rows[id] == Served(id, port) && PortAllowed(cfg, port) && id < w.nextCid
    requires forall c: Cid :: Mine(w.ctrs, c, id) <==> c == id
    requires id in w.ctrs && w.ctrs[id].port == port
    ensures RowOk(cfg, w, id) && Linked(w.rows, w.ctrs, id)
  {
  }

  lemma TwoAreSound(cfg: Settings, texts: (string, string))
    requires PortAllowed(cfg, 443) && PortAllowed(cfg, 8443)
    ensures Base(cfg, Two(texts)) && Linked(Two(texts).rows, Two(texts).ctrs, 0)
  {
    ServedIsOk(cfg, Two(texts), 0, 443);
    ServedIsOk(cfg, Two(texts), 1, 8443);
  }

  /** Of two proxies that run, the first is asked onto the second's port: it stops running. */
  lemma MovedOntoNeighbour()
    ensures Base(PANEL, NEIGHBOURS) && Mine(NEIGHBOURS.ctrs, 0, 0) && NEIGHBOURS.ctrs[0].running
    ensures var (pr', w') := Run(PANEL, Begin(Recreate(0, 8443, DOMAIN)), NEIGHBOURS, FOUR + [GOOD]);
      pr'.pc == Done && pr'.err == Some(PortTaken) && Bare(w'.ctrs, 0)
  {
    TwoAreSound(PANEL, (File(Served(0, 443)), File(Served(1, 8443))));
    TakenPortStopsTheProxy(PANEL, NEIGHBOURS, 0, 1, DOMAIN);
  }

  // ---- A create the guard refuses ----

  // A create whose spec is refused, its first three steps done.
  function Refusable(row: Proxy, pc: Pc, undo: seq<Undo>, err: Option<Fault>): Proc {
    Begin(Create(row)).(pc := pc, undo := undo, err := err)
  }

  lemma AskSteps(cfg: Settings, row: Proxy, w: World)
    requires row.tlsDomain != "" && PortAllowed(cfg, row.port) && row.id !in w.rows
    requires !PortHeld(w.rows, row.port, row.id)
    ensures Step(cfg, Begin(Create(row)), w, GOOD) == (Refusable(row, CInsert, [], None), w)
    ensures Step(cfg, Refusable(row, CInsert, [], None), w, GOOD)
      == (Refusable(row, CMkdir, [DropRow], None), PutRow(w, row))
  {
  }

  lemma MakeSteps(cfg: Settings, row: Proxy, w: World)
    requires row.id !in w.dirs && Rendered(cfg, row).None?
    ensures var made := w.(dirs := w.dirs[row.id := None]);
      && Step(cfg, Refusable(row, CMkdir, [DropRow], None), w, GOOD) == (Refusable(row, CWrite, [DropRow], None), made)
      && Step(cfg, Refusable(row, CWrite, [DropRow], None), made, GOOD)
           == (Refusable(row, CUndo, [DropRow], Some(ConfigInvalid)), made)
  {
  }

  lemma UndoSteps(cfg: Settings, row: Proxy, w: World)
    ensures Step(cfg, Refusable(row, CUndo, [DropRow], Some(ConfigInvalid)), w, GOOD)
      == (Refusable(row, CUndo, [], Some(ConfigInvalid)), EraseRow(w, row.id))
    ensures Step(cfg, Refusable(row, CUndo, [], Some(ConfigInvalid)), w, GOOD)
      == (Refusable(row, Done, [], Some(ConfigInvalid)), w)
  {
  }

  // The write is refused.
  lemma RefusedAtWrite(cfg: Settings, row: Proxy, w: World)
    requires row.tlsDomain != "" && PortAllowed(cfg, row.port) && !PortHeld(w.rows, row.port, row.id)
    requires row.id !in w.rows && row.id !in w.dirs && Rendered(cfg, row).None?
    ensures Run(cfg, Begin(Create(row)), w, FOUR)
      == (Refusable(row, CUndo, [DropRow], Some(ConfigInvalid)), PutRow(w, row).(dirs := w.dirs[row.id := None]))
  {
    FourSteps(cfg, Begin(Create(row)), w, FOUR);
    AskSteps(cfg, row, w);
    MakeSteps(cfg, row, PutRow(w, row));
  }

  // The rollback drops the row, and returns.
  lemma RefusedAndUndone(cfg: Settings, row: Proxy, w: World)
    ensures Run(cfg, Refusable(row, CUndo, [DropRow], Some(ConfigInvalid)), w, [GOOD, GOOD])
      == (Refusable(row, Done, [], Some(ConfigInvalid)), EraseRow(w, row.id))
  {
    var pr := Refusable(row, CUndo, [DropRow], Some(ConfigInvalid));
    RunSnoc(cfg, pr, w, [], GOOD);
    RunSnoc(cfg, pr, w, [GOOD], GOOD);
    assert [] + [GOOD] == [GOOD] && [GOOD] + [GOOD] == [GOOD, GOOD];
    UndoSteps(cfg, row, w);
    UndoSteps(cfg, row, EraseRow(w, row.id));
  }

  /** A create without a failure of its surroundings, of a row the guard refuses, leaves one thing: an
      empty directory. */
  lemma RefusedCreate(cfg: Settings, row: Proxy, w: World)
    requires row.tlsDomain != "" && PortAllowed(cfg, row.port) && !PortHeld(w.rows, row.port, row.id)
    requires row.id !in w.rows && row.id !in w.dirs && Rendered(cfg, row).None?
    ensures var (pr', w') := Run(cfg, Begin(Create(row)), w, FOUR + [GOOD, GOOD]);
      && pr'.pc == Done && pr'.err == Some(ConfigInvalid)
      && w' == w.(dirs := w.dirs[row.id := None])
  {
    RunAppend(cfg, Begin(Create(row)), w, FOUR, [GOOD, GOOD]);
    RefusedAtWrite(cfg, row, w);
    RefusedAndUndone(cfg, row, PutRow(w, row).(dirs := w.dirs[row.id := None]));
    assert w.rows[row.id := row] - {row.id} == w.rows;
  }

  // A quote in the domain, which the create form lets through.
  const QUOTED := Customer(0, 443).(tlsDomain := "a\"b")

  lemma QuoteIsRefused()
    ensures Rendered(PANEL, QUOTED).None?
  {
    var s := SpecOf(PANEL, QUOTED);
    var values := [s.tlsDomain, s.apiToken, s.publicHost, s.username] + s.apiWhitelist;
    assert values[0][1] == '"' && !Tconfig.Quotable(values[0]);
  }

  lemma QuotedCreate()
    ensures var (pr', w') := Run(PANEL, Begin(Create(QUOTED)), ISSUED, FOUR + [GOOD, GOOD]);
      pr'.err == Some(ConfigInvalid) && w' == ISSUED.(dirs := map[0 := None])
  {
    QuoteIsRefused();
    RefusedCreate(PANEL, QUOTED, ISSUED);
  }

  // ---- A stale config file ----

  // Rows the guard accepts print alike only if they say the same.
  lemma SamePort(p: Proxy, q: Proxy, text: string)
    requires Printable(p) && p.expiration.None? && Rendered(PANEL, p) == Some(text)
    requires Printable(q) && q.expiration.None? && Rendered(PANEL, q) == Some(text)
    ensures p.port == q.port
  {
    Accepted(p);
    Accepted(q);
    Delivery.UsernameIsBare();
    ConfigRoundTrip.RenderRoundTrip(SpecOf(PANEL, p), false);
    ConfigRoundTrip.RenderRoundTrip(SpecOf(PANEL, q), false);
  }

  function One(text: string): World {
    World(map[0 := Served(0, 443)], map[0 := ContainerAt(443, 0)], map[0 := Some(text)], 1, 1)
  }

  const MOVE := Recreate(0, 8443, DOMAIN)

  // The panel killed right after the move's port is stored, the file still with its old text.
  function Halfway(text: string): World { PutRow(Removed(One(text), MOVE), Relocated(text)) }

  function Relocated(text: string): Proxy { MovedRow(One(text), MOVE) }

  lemma OneIsSound(cfg: Settings, text: string)
    requires PortAllowed(cfg, 443)
    ensures Base(cfg, One(text)) && Linked(One(text).rows, One(text).ctrs, 0)
  {
    ServedIsOk(cfg, One(text), 0, 443);
  }

  lemma HalfwayThere(cfg: Settings, text: string)
    requires PortAllowed(cfg, 443) && PortAllowed(cfg, 8443)
    ensures Run(cfg, Begin(MOVE), One(text), FOUR + [GOOD]) == (Under(MOVE, RMkdir, Relocated(text)), Halfway(text))
  {
    OneIsSound(cfg, text);
    CalmRemoval(cfg, One(text), MOVE, FOUR);
    RunSnoc(cfg, Begin(MOVE), One(text), FOUR, GOOD);
    GoodPort(cfg, MOVE, Relocated(text), Removed(One(text), MOVE));
  }

  lemma HalfwayIsSound(cfg: Settings, text: string)
    requires PortAllowed(cfg, 443) && PortAllowed(cfg, 8443)
    ensures Base(cfg, Halfway(text)) && ProcInv(cfg, Halfway(text), Under(MOVE, RMkdir, Relocated(text)))
  {
    OneIsSound(cfg, text);
    RemovedIsSound(cfg, One(text), MOVE);
    GoodPort(cfg, MOVE, Relocated(text), Removed(One(text), MOVE));
    EveryStepKeeps(cfg, Under(MOVE, RPort, Relocated(text)), Removed(One(text), MOVE), GOOD);
  }

  // No pass mends the old text.
  lemma OldTextStays(cfg: Settings, text: string, cs: seq<Choice>)
    requires PortAllowed(cfg, 443) && PortAllowed(cfg, 8443) && Rendered(cfg, Relocated(text)) != Some(text)
    requires RunLands(cfg, Begin(Op.Reconcile), Halfway(text), cs)
    ensures !ConfigAgrees(cfg, Run(cfg, Begin(Op.Reconcile), Halfway(text), cs).1, 0)
  {
    HalfwayIsSound(cfg, text);
    StaleConfigSurvives(cfg, Halfway(text), Under(MOVE, RMkdir, Relocated(text)), text, cs);
  }

  lemma RightFile(cfg: Settings, text: string)
    requires Rendered(cfg, Served(0, 443)) == Some(text)
    ensures ConfigAgrees(cfg, One(text), 0)
  {
  }

  lemma WrongFile(text: string)
    requires Rendered(PANEL, Served(0, 443)) == Some(text)
    ensures Rendered(PANEL, Relocated(text)) != Some(text)
  {
    if Rendered(PANEL, Relocated(text)) == Some(text) {
      SamePort(Relocated(text), Served(0, 443), text);
    }
  }

  /** A running proxy whose file is right, a move to another port, and a crash: whatever pass follows,
      the file is wrong. */
  lemma StaleFile(text: string, cs: seq<Choice>)
    requires Rendered(PANEL, Served(0, 443)) == Some(text)
    requires RunLands(PANEL, Begin(Op.Reconcile), Halfway(text), cs)
    ensures ConfigAgrees(PANEL, One(text), 0)
    ensures Run(PANEL, Begin(MOVE), One(text), FOUR + [GOOD]).1 == Halfway(text)
    ensures !ConfigAgrees(PANEL, Run(PANEL, Begin(Op.Reconcile), Halfway(text), cs).1, 0)
  {
    RightFile(PANEL, text);
    HalfwayThere(PANEL, text);
    WrongFile(text);
    OldTextStays(PANEL, text, cs);
  }

  // ---- Specs the guard accepts and a reader does not ----

  // A control character in the domain, which the create form lets through.
  const CONTROLLED := Customer(0, 443).(tlsDomain := "a\U{1}b")

  lemma ControlIsQuotable()
    ensures Tconfig.Quotable(CONTROLLED.tlsDomain) && !Toml.AllPlain(CONTROLLED.tlsDomain, true)
  {
    assert CONTROLLED.tlsDomain[1] == '\U{1}' && Toml.IsControl('\U{1}');
  }

  /** The panel writes it, and a strict reader does not get it back. */
  lemma ControlledFile()
    ensures Forms.FormBorn(CONTROLLED) && Rendered(PANEL, CONTROLLED) == Some(File(CONTROLLED))
    ensures Tconfig.ReadSpec(File(CONTROLLED), true) != Some(SpecOf(PANEL, CONTROLLED))
  {
    ControlIsQuotable();
    Accepted(CONTROLLED);
    ConfigRoundTrip.RenderRoundTrip(SpecOf(PANEL, CONTROLLED), true);
  }

  // An expiration the service takes, from a caller other than the forms.
  const UNENDING := Customer(0, 443).(expiration := Some("\""))

  /** It is written, and no reader gets it back. */
  lemma UnendingFile(strict: bool)
    ensures Rendered(PANEL, UNENDING) == Some(File(UNENDING))
    ensures Tconfig.ReadSpec(File(UNENDING), strict) != Some(SpecOf(PANEL, UNENDING))
  {
    Accepted(UNENDING);
    assert UNENDING.expiration.value[0] == '"';
    ConfigRoundTrip.RenderRoundTrip(SpecOf(PANEL, UNENDING), strict);
  }

  // ---- A carriage return in a rendered row ----

  const RETURNED := [Sse.Token(Sse.Rendering(Some("a\rb"), true))]

  lemma ReturnedRows()
    ensures Sse.ReadStream(Sse.Written(Sse.Streamed(RETURNED))) != Sse.Sent(Sse.Streamed(RETURNED))
  {
    var items := Sse.Streamed(RETURNED);
    assert RETURNED[1..] == [];
    assert items[0] == Sse.Event(Sse.Message(Sse.ROWS, "a\rb")) && items[0].m.data[1] == '\r';
    Sse.RowsRoundTrip(RETURNED);
  }

  // ---- A limit the form cannot show ----

  // One byte, from a caller other than the forms.
  const TINY := Customer(0, 443).(quota := Some(1))

  /** Its page, saved unchanged, makes it no bytes at all. */
  lemma TinyQuota()
    ensures var r := Forms.Submitted(Forms.Prefilled(Store.Scan(TINY.id, Store.Encode(TINY))));
      r.Success? && ApplyPatch(TINY, r.value).quota == Some(0)
  {
    Store.ScanInvertsEncode(TINY);
    Forms.ResubmittingUnchanged(TINY);
    Forms.NumbersResubmitted(TINY);
  }
}
