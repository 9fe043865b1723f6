/** From the row to the running proxy: what telemt reads in the config directories the service
    leaves behind. */
module Delivery {
  import opened Wrappers
  import opened Entities
  import opened Machine
  import opened Invariant
  import opened System
  import opened ConfigFiles
  import AnyOrder
  import Toml
  import Tconfig
  import opened ConfigRoundTrip
  import Forms

  // The service's settings, with the config printer it is built with.
  function Panel(reserved: seq<int>, subnet: string, publicHost: string): Settings {
    Settings(reserved, subnet, publicHost, (s: Spec) => Printed(s))
  }

  function Printed(s: Spec): Option<string> {
    match Tconfig.Render(s) case Success(text) => Some(text) case Failure(_) => None
  }

  lemma UsernameIsBare()
    ensures Toml.IsBareKey(USERNAME)
  {
  }

  // The operator's side: rows are asked for with the create form, limits changed with the limits
  // form.
  ghost predicate FromForms(e: Event) {
    && (e.Start? && e.op.Create? ==>
          exists f, req :: && Forms.Asks(f, req)
                           && e.op.row == NewRow(e.op.row.id, e.op.row.secret, e.op.row.apiToken, e.op.row.name, req))
    && (e.Start? && e.op.UpdateLimits? ==> exists f :: Forms.Submitted(f) == Success(e.op.patch))
  }

  lemma FormsFit(e: Event)
    requires FromForms(e)
    ensures AnyOrder.FormEvent(e)
  {
    if e.Start? && e.op.Create? {
      var row := e.op.row;
      var f, req :| Forms.Asks(f, req) && row == NewRow(row.id, row.secret, row.apiToken, row.name, req);
      Forms.CreatedIsFormBorn(f, req, row.id, row.secret, row.apiToken, row.name);
    }
    if e.Start? && e.op.UpdateLimits? {
      var f :| Forms.Submitted(f) == Success(e.op.patch);
      Forms.SubmittedIsFormPatch(f);
    }
  }

  lemma FormRowsOnly(cfg: Settings, s: Sys, es: seq<Event>, id: Id)
    requires Inv(cfg, s) && s.procs == map[] && s.world.rows == map[]
    requires (forall e :: e in es ==> FromForms(e)) && id in RunAll(cfg, s, es).world.rows
    ensures Forms.FormBorn(RunAll(cfg, s, es).world.rows[id])
  {
    var js := AnyOrder.RunIsJumps(cfg, s, es);
    AnyOrder.BaseIsSound(cfg, s.world);
    forall e | e in js ensures AnyOrder.FormEvent(e) { FormsFit(e); }
    AnyOrder.FormsLeaveFormBorn(cfg, s, js, id);
  }

  // A reader of the text gets what the row and the settings say.
  predicate Reads(cfg: Settings, text: string, p: Proxy, strict: bool) {
    var spec := Tconfig.ReadSpec(text, strict);
    spec.Some? && Shows(cfg, p, spec.value)
  }

  lemma ShownIsSpec(cfg: Settings, text: string, p: Proxy, strict: bool)
    ensures Reads(cfg, text, p, strict) <==> Tconfig.ReadSpec(text, strict) == Some(SpecOf(cfg, p))
  {
  }

  /** Over any crash-free run that ends idle: the config.toml of every row is read back as that
      row's own settings - secret, port, domain, token, limits, field by field - exactly when they are
      clean, and always, by the lenient reader, when the operator has only used the forms. */
  lemma RowsReachTelemt(reserved: seq<int>, subnet: string, publicHost: string, s: Sys, es: seq<Event>, id: Id,
      strict: bool)
    requires var cfg := Panel(reserved, subnet, publicHost);
      && Inv(cfg, s) && s.procs == map[] && s.world.rows == map[] && s.world.dirs == map[] && GoodRun(cfg, s, es)
      && (forall pid :: pid in RunAll(cfg, s, es).procs ==> RunAll(cfg, s, es).procs[pid].pc == Done)
      && id in RunAll(cfg, s, es).world.rows
    ensures var cfg := Panel(reserved, subnet, publicHost);
      var w := RunAll(cfg, s, es).world;
      && id in w.dirs && w.dirs[id].Some?
      && (Reads(cfg, w.dirs[id].value, w.rows[id], strict) <==> Clean(SpecOf(cfg, w.rows[id]), strict))
      && ((forall e :: e in es ==> FromForms(e)) ==> Reads(cfg, w.dirs[id].value, w.rows[id], false))
  {
    var cfg := Panel(reserved, subnet, publicHost);
    ConfigFollowsRows(cfg, s, es);
    RenderedShows(cfg, RunAll(cfg, s, es).world.rows[id]);
    FileReadsBack(reserved, subnet, publicHost, RunAll(cfg, s, es).world, id, strict);
    FileReadsBack(reserved, subnet, publicHost, RunAll(cfg, s, es).world, id, false);
    if forall e :: e in es ==> FromForms(e) { FormRowsOnly(cfg, s, es, id); }
  }

  lemma FileReadsBack(reserved: seq<int>, subnet: string, publicHost: string, w: World, id: Id, strict: bool)
    requires var cfg := Panel(reserved, subnet, publicHost);
      id in w.rows && id in w.dirs && w.dirs[id].Some? && w.dirs[id] == Rendered(cfg, w.rows[id])
    ensures var cfg := Panel(reserved, subnet, publicHost); var spec := SpecOf(cfg, w.rows[id]);
      && (Reads(cfg, w.dirs[id].value, w.rows[id], strict) <==> Clean(spec, strict))
      && (Forms.FormBorn(w.rows[id]) ==> Clean(spec, false))
  {
    var p := w.rows[id];
    var spec := SpecOf(Panel(reserved, subnet, publicHost), p);
    UsernameIsBare();
    RenderRoundTrip(spec, strict);
    ShownIsSpec(Panel(reserved, subnet, publicHost), w.dirs[id].value, p, strict);
    if Forms.FormBorn(p) && p.expiration.Some? { Forms.FormExpirationIsPlain(p.expiration.value, false); }
  }
}
