/** What the histories the service records are good for: every state in them is a state the
    panel may be killed in. */
module CrashPoints {
  import opened Wrappers
  import opened Entities
  import opened Machine
  import opened Invariant
  import opened Histories
  import opened ReconcileSteps
  import opened AllSteps
  import opened System
  import opened Recovery

  ghost predicate HistoryLands(h: History) {
    && |h.states| == |h.choices| + 1
    && (forall k {:trigger h.choices[k]} :: 0 <= k < |h.choices| ==> Lands(h.states[k].0, h.choices[k]))
  }

  // Nothing starts from a broken world: the row a Create brings is new, and the operation's
  // own proxy is linked.
  ghost predicate MayBegin(cfg: Settings, w: World, op: Op) {
    && Base(cfg, w) && ProcInv(cfg, w, Begin(op))
  }

  ghost predicate SoundState(cfg: Settings, state: (Proc, World), op: Op) {
    Base(cfg, state.1) && ProcInv(cfg, state.1, state.0) && state.0.op == op
  }

  lemma StepIsSound(cfg: Settings, state: (Proc, World), op: Op, c: Choice)
    requires SoundState(cfg, state, op) && Lands(state.0, c)
    ensures SoundState(cfg, Step(cfg, state.0, state.1, c), op)
  {
    if state.0.pc == Done { AwareInv(cfg, state.1, state.0, c); } else { EveryStepKeeps(cfg, state.0, state.1, c); }
  }

  lemma NextIsSound(cfg: Settings, h: History, op: Op, k: nat)
    requires Genuine(cfg, h) && HistoryLands(h) && 0 < k <= |h.choices| && SoundState(cfg, h.states[k - 1], op)
    ensures SoundState(cfg, h.states[k], op)
  {
    var c := h.choices[k - 1];
    StepIsSound(cfg, h.states[k - 1], op, c);
    assert Step(cfg, h.states[k - 1].0, h.states[k - 1].1, c) == h.states[k];
  }

  ghost predicate SoundAt(cfg: Settings, h: History, k: nat, op: Op) {
    k < |h.states| && SoundState(cfg, h.states[k], op)
  }

  // What `SoundAlong` starts from.
  ghost predicate Landed(cfg: Settings, h: History, op: Op) {
    Genuine(cfg, h) && HistoryLands(h) && SoundAt(cfg, h, 0, op)
  }

  lemma NextIsSoundAt(cfg: Settings, h: History, op: Op, k: nat)
    requires Landed(cfg, h, op) && 0 < k <= |h.choices| && SoundAt(cfg, h, k - 1, op)
    ensures SoundAt(cfg, h, k, op)
  {
    NextIsSound(cfg, h, op, k);
  }

  lemma {:induction false} SoundAlong(cfg: Settings, h: History, op: Op, k: nat)
    requires Landed(cfg, h, op) && k <= |h.choices|
    ensures SoundAt(cfg, h, k, op)
    decreases k
  {
    if k > 0 {
      SoundAlong(cfg, h, op, k - 1);
      NextIsSoundAt(cfg, h, op, k);
    }
  }

  lemma StartIsSound(cfg: Settings, w: World, op: Op)
    requires MayBegin(cfg, w, op)
    ensures SoundState(cfg, (Begin(op), w), op)
  {
  }

  /** Every state of a history is crash-consistent and satisfies the operation's own facts. */
  lemma EveryStateIsSound(cfg: Settings, h: History, op: Op, k: nat)
    requires Genuine(cfg, h) && HistoryLands(h) && First(h).0 == Begin(op) && MayBegin(cfg, First(h).1, op)
    requires k <= |h.choices|
    ensures SoundState(cfg, h.states[k], op)
  {
    StartIsSound(cfg, First(h).1, op);
    assert h.states[0] == (Begin(op), First(h).1);
    SoundAlong(cfg, h, op, k);
    assert SoundAt(cfg, h, k, op);
  }

  /** Kill the panel at any point of any service call and reconcile undisturbed: recovered. */
  lemma EveryCrashPointRecovers(cfg: Settings, h: History, op: Op, k: nat, cs: seq<Choice>)
    requires Genuine(cfg, h) && HistoryLands(h) && First(h).0 == Begin(op) && MayBegin(cfg, First(h).1, op)
    requires k <= |h.choices|
    requires QuietRun(cfg, Begin(Reconcile), h.states[k].1, cs)
    requires Run(cfg, Begin(Reconcile), h.states[k].1, cs).0.pc == Done
    ensures var (pr', w') := Run(cfg, Begin(Reconcile), h.states[k].1, cs); Recovered(w', pr'.unbuilt)
  {
    EveryStateIsSound(cfg, h, op, k);
    PassRestores(cfg, h.states[k].1, cs);
    PassRecovers(cfg, Run(cfg, Begin(Reconcile), h.states[k].1, cs).1, Run(cfg, Begin(Reconcile), h.states[k].1, cs).0);
  }

  // ---- Between calls ----

  ghost predicate OthersLinked(w: World, id: Id) { forall i :: i in w.rows && i != id ==> Linked(w.rows, w.ctrs, i) }

  lemma LinksFrame(w: World, w': World, id: Id)
    requires OthersLinked(w, id) && Elsewhere(w, w', id)
    ensures OthersLinked(w', id)
  {
    forall i | i in w'.rows && i != id ensures Linked(w'.rows, w'.ctrs, i) { LinkedFrame(w, w', id, i); }
  }

  ghost predicate LinksKept(state: (Proc, World), id: Id) {
    && OthersLinked(state.1, id)
    && (state.0.pc == Done || state.0.op.UpdateLimits? ==> Linked(state.1.rows, state.1.ctrs, id))
  }

  lemma StepKeepsLinks(cfg: Settings, state: (Proc, World), op: Op, id: Id, c: Choice)
    requires SoundState(cfg, state, op) && Lands(state.0, c) && Subject(op) == Some(id) && LinksKept(state, id)
    ensures LinksKept(Step(cfg, state.0, state.1, c), id)
  {
    if state.0.pc != Done {
      EveryStepKeeps(cfg, state.0, state.1, c);
      LinksFrame(state.1, Step(cfg, state.0, state.1, c).1, id);
    }
  }

  lemma NextKeepsLinks(cfg: Settings, h: History, op: Op, id: Id, k: nat)
    requires Genuine(cfg, h) && HistoryLands(h) && 0 < k <= |h.choices| && Subject(op) == Some(id)
    requires SoundState(cfg, h.states[k - 1], op) && LinksKept(h.states[k - 1], id)
    ensures LinksKept(h.states[k], id)
  {
    var c := h.choices[k - 1];
    StepKeepsLinks(cfg, h.states[k - 1], op, id, c);
    assert Step(cfg, h.states[k - 1].0, h.states[k - 1].1, c) == h.states[k];
  }

  lemma {:induction false} LinksAlong(cfg: Settings, h: History, op: Op, id: Id, k: nat)
    requires Genuine(cfg, h) && HistoryLands(h) && First(h).0 == Begin(op) && MayBegin(cfg, First(h).1, op)
    requires Subject(op) == Some(id) && AllLinked(First(h).1) && k <= |h.choices|
    ensures LinksKept(h.states[k], id)
  {
    if k > 0 {
      LinksAlong(cfg, h, op, id, k - 1);
      EveryStateIsSound(cfg, h, op, k - 1);
      NextKeepsLinks(cfg, h, op, id, k);
    }
  }

  /** A completed call on one proxy leaves every row recording its container, if every row did
      before: `AllLinked` and `Base` are what the service keeps between calls. */
  lemma CallsKeepLinks(cfg: Settings, h: History, op: Op)
    requires Genuine(cfg, h) && HistoryLands(h) && First(h).0 == Begin(op) && MayBegin(cfg, First(h).1, op)
    requires Subject(op).Some? && AllLinked(First(h).1) && Last(h).0.pc == Done
    ensures Base(cfg, Last(h).1) && AllLinked(Last(h).1)
  {
    EveryStateIsSound(cfg, h, op, |h.choices|);
    LinksAlong(cfg, h, op, Subject(op).value, |h.choices|);
    assert LinksKept(Last(h), Subject(op).value);
  }

  /** A Reconcile whose listings and relinks all landed establishes that from any
      crash-consistent world. */
  lemma ReconcileLinks(cfg: Settings, h: History)
    requires Genuine(cfg, h) && HistoryLands(h) && First(h).0 == Begin(Reconcile) && Base(cfg, First(h).1)
    requires Last(h).0.pc == Done && Last(h).0.clean
    ensures Base(cfg, Last(h).1) && AllLinked(Last(h).1)
  {
    EveryStateIsSound(cfg, h, Reconcile, |h.choices|);
    assert ReconcileInv(cfg, Last(h).1, Last(h).0);
    ReconciledLinks(cfg, Last(h).1, Last(h).0);
  }
}
