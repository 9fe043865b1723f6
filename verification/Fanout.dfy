/** The poller's fan-out to its subscribers: channels of one token, sweeps, readers and cancels
    interleaved at every point where a lock is released or a channel is used. */
module Fanout {

  type Chan = nat

  // How far the body that a channel's sync.Once guards has come: never called, waiting for
  // the lock, out of the subscriber set, done.
  datatype Cancelling = Never | Entered | Removed | Done

  // `tokens`: what the channel's buffer holds. `reading`: the subscriber is on its way to read
  // the cache. `seen`: the sweep its last read found. `closed`: the channel is closed.
  datatype Sub = Sub(tokens: nat, reading: bool, seen: nat, cancel: Cancelling, closed: bool)

  // The poll loop: between sweeps, about to notify, or notifying, with the subscriber lock
  // held and `rest` still to visit.
  datatype Loop = Idle | Due | Notifying(rest: set<Chan>)

  // `sweep` counts the sweeps in the cache, `notified` is the last one whose notify returned.
  // `panicked`: a send on a closed channel, or a second close.
  datatype Hub = Hub(chans: map<Chan, Sub>, subs: set<Chan>, loop: Loop, sweep: nat, notified: nat, panicked: bool)

  const NEW_HUB := Hub(map[], {}, Idle, 0, 0, false)

  datatype Event =
    | Subscribe(ch: Chan)
    | SweepDone
    | NotifyBegin
    | NotifySend(ch: Chan)
    | NotifyEnd
    | Receive(ch: Chan)
    | Read(ch: Chan)
    | Cancel(ch: Chan)        // a call of cancel, the first or a later one
    | CancelRemove(ch: Chan)
    | CancelClose(ch: Chan)

  predicate LockFree(h: Hub) { !h.loop.Notifying? }

  // What the locks, the channel operations and each goroutine's own order allow. A send and a
  // close are never held back because the channel is closed.
  predicate Enabled(h: Hub, e: Event) {
    match e
    case Subscribe(ch) => LockFree(h) && ch !in h.chans
    case SweepDone => h.loop.Idle?
    case NotifyBegin => h.loop.Due?
    case NotifySend(ch) => h.loop.Notifying? && ch in h.loop.rest && ch in h.chans
    case NotifyEnd => h.loop == Notifying({})
    case Receive(ch) => ch in h.chans && h.chans[ch].tokens > 0 && !h.chans[ch].reading
    case Read(ch) => ch in h.chans && h.chans[ch].reading
    case Cancel(ch) => ch in h.chans
    case CancelRemove(ch) => ch in h.chans && h.chans[ch].cancel.Entered? && LockFree(h)
    case CancelClose(ch) => ch in h.chans && h.chans[ch].cancel.Removed?
  }

  function Set(h: Hub, ch: Chan, s: Sub): Hub { h.(chans := h.chans[ch := s]) }

  function Next(h: Hub, e: Event): Hub
    requires Enabled(h, e)
  {
    match e
    case Subscribe(ch) => Set(h, ch, Sub(0, true, 0, Never, false)).(subs := h.subs + {ch})
    case SweepDone => h.(sweep := h.sweep + 1, loop := Due)
    case NotifyBegin => h.(loop := Notifying(h.subs))
    case NotifySend(ch) =>
      var s := h.chans[ch];
      Set(h, ch, if s.tokens < 1 then s.(tokens := s.tokens + 1) else s)
        .(loop := Notifying(h.loop.rest - {ch}), panicked := h.panicked || s.closed)
    case NotifyEnd => h.(loop := Idle, notified := h.sweep)
    case Receive(ch) => Set(h, ch, h.chans[ch].(tokens := h.chans[ch].tokens - 1, reading := true))
    case Read(ch) => Set(h, ch, h.chans[ch].(reading := false, seen := h.sweep))
    case Cancel(ch) => if h.chans[ch].cancel.Never? then Set(h, ch, h.chans[ch].(cancel := Entered)) else h
    case CancelRemove(ch) => Set(h, ch, h.chans[ch].(cancel := Removed)).(subs := h.subs - {ch})
    case CancelClose(ch) =>
      Set(h, ch, h.chans[ch].(cancel := Done, closed := true)).(panicked := h.panicked || h.chans[ch].closed)
  }

  // A token waits, the subscriber is about to read, or its last read found `sweep` or later.
  predicate Fresh(s: Sub, sweep: nat) { s.tokens > 0 || s.reading || s.seen >= sweep }

  predicate SubOk(h: Hub, ch: Chan)
    requires ch in h.chans
  {
    var s := h.chans[ch];
    && s.tokens <= 1 && s.seen <= h.sweep
    && (ch in h.subs <==> s.cancel.Never? || s.cancel.Entered?)
    && (s.closed <==> s.cancel.Done?)
    && (ch in h.subs ==> Fresh(s, h.notified))
    && (ch in h.subs && h.loop.Notifying? && ch !in h.loop.rest ==> Fresh(s, h.sweep))
  }

  ghost predicate Inv(h: Hub) {
    && !h.panicked && h.notified <= h.sweep && h.subs <= h.chans.Keys
    && (h.loop.Idle? ==> h.notified == h.sweep)
    && (h.loop.Notifying? ==> h.loop.rest <= h.subs)
    && (forall ch: Chan :: ch in h.chans ==> SubOk(h, ch))
  }

  lemma NextKeeps(h: Hub, e: Event)
    requires Inv(h) && Enabled(h, e)
    ensures Inv(Next(h, e))
  {
    var n := Next(h, e);
    forall ch: Chan | ch in n.chans ensures SubOk(n, ch) {
      if ch in h.chans { assert SubOk(h, ch); }
    }
  }

  // Any events in any order; one that is not possible when its turn comes does not happen.
  function RunHub(h: Hub, es: seq<Event>): Hub {
    if es == [] then h
    else
      var g := RunHub(h, es[..|es| - 1]);
      if Enabled(g, es[|es| - 1]) then Next(g, es[|es| - 1]) else g
  }

  lemma {:induction false} RunKeeps(h: Hub, es: seq<Event>)
    requires Inv(h)
    ensures Inv(RunHub(h, es))
  {
    if es != [] {
      RunKeeps(h, es[..|es| - 1]);
      var g := RunHub(h, es[..|es| - 1]);
      if Enabled(g, es[|es| - 1]) { NextKeeps(g, es[|es| - 1]); }
    }
  }

  /** Under every interleaving of sweeps, receives, reads and cancels: nothing is sent on a
      closed channel and no channel is closed twice; no channel holds two tokens; and every
      subscriber still registered has a token waiting, is about to read, or has read at least
      the last sweep that was notified - which, between sweeps, is the last sweep. */
  lemma EveryInterleaving(es: seq<Event>)
    ensures var h := RunHub(NEW_HUB, es);
      && !h.panicked && h.subs <= h.chans.Keys
      && (forall ch: Chan :: ch in h.chans ==> h.chans[ch].tokens <= 1)
      && (forall ch: Chan :: ch in h.subs ==> Fresh(h.chans[ch], h.notified))
      && (h.loop.Idle? ==> h.notified == h.sweep)
  {
    RunKeeps(NEW_HUB, es);
    var h := RunHub(NEW_HUB, es);
    forall ch: Chan | ch in h.chans
      ensures h.chans[ch].tokens <= 1 && (ch in h.subs ==> Fresh(h.chans[ch], h.notified))
    {
      assert SubOk(h, ch);
    }
  }

  predicate IsLoopEvent(e: Event) { e.NotifySend? || e.NotifyEnd? }

  lemma RunSplit(h: Hub, a: seq<Event>, e: Event)
    ensures RunHub(h, a + [e]) == if Enabled(RunHub(h, a), e) then Next(RunHub(h, a), e) else RunHub(h, a)
  {
    assert (a + [e])[..|a|] == a;
  }

  /** No subscriber can hold up the poll loop: from anywhere in a notify, whatever tokens are
      left untaken, the loop reaches its next idle state by its own steps alone. */
  lemma {:induction false} NotifyNeverWaits(h: Hub, before: seq<Event>) returns (es: seq<Event>)
    requires Inv(h) && RunHub(h, before).loop.Notifying?
    requires forall e :: e in before ==> IsLoopEvent(e)
    ensures RunHub(h, es).loop.Idle? && forall e :: e in es ==> IsLoopEvent(e)
    decreases RunHub(h, before).loop.rest
  {
    RunKeeps(h, before);
    var g := RunHub(h, before);
    if g.loop.rest == {} {
      es := before + [NotifyEnd];
      RunSplit(h, before, NotifyEnd);
    } else {
      var ch: Chan :| ch in g.loop.rest;
      RunSplit(h, before, NotifySend(ch));
      es := NotifyNeverWaits(h, before + [NotifySend(ch)]);
    }
  }

  // ---- What is woken, and how often ----

  // How many times `e` has happened in a run.
  function Happened(h: Hub, es: seq<Event>, e: Event): nat {
    if es == [] then 0
    else
      var n := |es| - 1;
      Happened(h, es[..n], e) + if es[n] == e && Enabled(RunHub(h, es[..n]), e) then 1 else 0
  }

  // A sweep is done whose token has not been offered to `ch`.
  predicate Owed(h: Hub, ch: Chan) { h.loop.Due? || (h.loop.Notifying? && ch in h.loop.rest) }

  function Tokens(h: Hub, ch: Chan): nat { if ch in h.chans then h.chans[ch].tokens else 0 }

  predicate Reading(h: Hub, ch: Chan) { ch in h.chans && h.chans[ch].reading }

  // The books: sweeps counted, every token received from one of them, every receive followed by a read.
  predicate Booked(h: Hub, ch: Chan, swept: nat, received: nat, read: nat) {
    && h.sweep == swept && (h.loop.Idle? || h.sweep > 0)
    && received + Tokens(h, ch) + (if Owed(h, ch) then 1 else 0) <= h.sweep
    && received + (if ch in h.chans then 1 else 0) == read + (if Reading(h, ch) then 1 else 0)
    && (ch !in h.chans ==> received == 0)
  }

  lemma NextIsBooked(h: Hub, e: Event, ch: Chan, swept: nat, received: nat, read: nat)
    requires Inv(h) && Enabled(h, e) && Booked(h, ch, swept, received, read)
    ensures Booked(Next(h, e), ch, swept + (if e == SweepDone then 1 else 0),
                   received + (if e == Receive(ch) then 1 else 0), read + (if e == Read(ch) then 1 else 0))
  {
  }

  lemma {:induction false} RunIsBooked(es: seq<Event>, ch: Chan)
    ensures Booked(RunHub(NEW_HUB, es), ch, Happened(NEW_HUB, es, SweepDone), Happened(NEW_HUB, es, Receive(ch)),
                   Happened(NEW_HUB, es, Read(ch)))
  {
    if es != [] {
      var n := |es| - 1;
      RunIsBooked(es[..n], ch);
      RunKeeps(NEW_HUB, es[..n]);
      var g := RunHub(NEW_HUB, es[..n]);
      if Enabled(g, es[n]) {
        NextIsBooked(g, es[n], ch, Happened(NEW_HUB, es[..n], SweepDone), Happened(NEW_HUB, es[..n], Receive(ch)),
                     Happened(NEW_HUB, es[..n], Read(ch)));
      }
    }
  }

  /** Under every interleaving a subscriber is woken at most once for each sweep there has been, and
      reads once for each time it is woken, besides its first read. */
  lemma WokenOncePerSweep(es: seq<Event>, ch: Chan)
    ensures var h := RunHub(NEW_HUB, es);
      var woken, read := Happened(NEW_HUB, es, Receive(ch)), Happened(NEW_HUB, es, Read(ch));
      && h.sweep == Happened(NEW_HUB, es, SweepDone) && woken + Tokens(h, ch) <= h.sweep
      && (ch in h.chans ==> read <= woken + 1 <= read + 1)
  {
    RunIsBooked(es, ch);
  }

  // ---- Cancelling ----

  predicate IsGone(h: Hub, ch: Chan) { ch in h.chans && ch !in h.subs && h.chans[ch].closed }

  lemma {:induction false} GoneForGood(h: Hub, es: seq<Event>, ch: Chan)
    requires Inv(h) && IsGone(h, ch)
    ensures IsGone(RunHub(h, es), ch)
  {
    if es != [] {
      var n := |es| - 1;
      GoneForGood(h, es[..n], ch);
      RunKeeps(h, es[..n]);
      assert SubOk(RunHub(h, es[..n]), ch);
    }
  }

  /** A cancel unsubscribes and closes its channel, however far earlier calls of it have come, once the
      lock is free to take; and whatever happens afterwards it stays so. */
  lemma CancelEnds(h: Hub, ch: Chan, es: seq<Event>)
    requires Inv(h) && ch in h.chans && LockFree(h)
    ensures var done := RunHub(h, [Cancel(ch), CancelRemove(ch), CancelClose(ch)]);
      !done.panicked && IsGone(done, ch) && IsGone(RunHub(done, es), ch)
  {
    assert SubOk(h, ch);
    RunSplit(h, [], Cancel(ch));
    RunSplit(h, [Cancel(ch)], CancelRemove(ch));
    RunSplit(h, [Cancel(ch), CancelRemove(ch)], CancelClose(ch));
    assert [] + [Cancel(ch)] == [Cancel(ch)];
    assert [Cancel(ch)] + [CancelRemove(ch)] == [Cancel(ch), CancelRemove(ch)];
    assert [Cancel(ch), CancelRemove(ch)] + [CancelClose(ch)] == [Cancel(ch), CancelRemove(ch), CancelClose(ch)];
    var done := RunHub(h, [Cancel(ch), CancelRemove(ch), CancelClose(ch)]);
    RunKeeps(h, [Cancel(ch), CancelRemove(ch), CancelClose(ch)]);
    GoneForGood(done, es, ch);
  }
}
