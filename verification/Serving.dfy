/**
 The code in its own form is the runs: serving any event from a store that holds a world's
 tables leaves the tables of the world the event leads to, and serving any sequence of events
 from a store just opened leaves those of the run.
 */
module Serving {
  import opened Models
  import opened Store
  import opened Invariants
  import opened Statements
  import opened Verbs
  import opened Runs
  import opened VerbSafety
  import opened Crashes
  import opened Tearing
  import opened Deadlines
  import opened Backend
  import opened Routing
  import opened Sweeper
  import opened DegradedClient

  /** Complete acts, one for each event. */
  ghost function WholeActs(cfg: Config, w: World, events: seq<Event>): seq<Act>
    decreases |events|
  {
    if events == [] then []
    else
      var a := Act(events[0], |Work(cfg, w.db, events[0])|);
      [a] + if Allowed(cfg, w, a) then WholeActs(cfg, Perform(cfg, w, a), events[1..]) else []
  }

  /** The statement a store ran for another: the same, but retiring stale mail bumps its inboxes in the store's own order. */
  predicate Ordered(s: Stmt, done: Stmt) {
    done == s || (s.Tombstone? && done.Tombstone? && done.cutoff == s.cutoff)
  }

  predicate Serves(e: Event, done: Event) {
    done == e || (e.Storage? && done.Storage? && Ordered(e.s, done.s))
  }

  /** A journal that grew by an event's work holds the tables the event leads to. */
  lemma CallIsEvent(cfg: Config, w: World, e: Event, before: seq<Stmt>, after: seq<Stmt>)
    requires Fresh(w, e) && w.db == ExecAll(EMPTY, before) && after == before + Work(cfg, w.db, e)
    ensures ExecAll(EMPTY, after) == Perform(cfg, w, Act(e, |Work(cfg, w.db, e)|)).db
  {
    hide Steps, Work, ExecAll;
    var work := Work(cfg, w.db, e);
    PerformDb(cfg, w, Act(e, |work|));
    assert work[..|work|] == work;
    ExecAllConcat(EMPTY, before, work);
  }

  /** Serve one event with the method that implements it; `done` is the event, its listing in the store's order. */
  method Serve(router: Router, client: Client, e: Event, ghost w: World) returns (ghost done: Event)
    requires router.backend.Valid() && router.backend.Db() == w.db && router.cfg == client.cfg
    requires Inv(w) && Fresh(w, e)
    modifies router, router.backend
    ensures router.backend.Valid() && Serves(e, done) && Fresh(w, done)
    ensures router.backend.Db() == Perform(router.cfg, w, Act(done, |Work(router.cfg, w.db, done)|)).db
  {
    hide Inv, Fresh, Work, Perform;
    hide SqliteBackend.Valid;
    ghost var journal := router.backend.journal;
    JournalSoFar(router.backend);
    done := e;
    if e.Storage? {
      StorageFresh(w, e.s);
      ghost var s := ServeStorage(router.backend, e.s);
      StorageServed(router.cfg, w, e.s, s);
      done := Storage(s);
    } else if e.Send? || e.Degraded? || e.Reconcile? {
      ServeSend(router, client, e, w);
    } else {
      ServeVerb(router, e, w);
    }
    CallIsEvent(router.cfg, w, done, journal, router.backend.journal);
    JournalSoFar(router.backend);
  }

  lemma StorageFresh(w: World, s: Stmt)
    requires Fresh(w, Storage(s))
    ensures StorageOp(s)
  {
  }

  lemma StorageServed(cfg: Config, w: World, s: Stmt, done: Stmt)
    requires Fresh(w, Storage(s)) && Ordered(s, done)
    requires done.Tombstone? ==> Enumerates(done.order, StaleAddresses(w.db.deliveries, done.cutoff))
    ensures Fresh(w, Storage(done)) && Work(cfg, w.db, Storage(done)) == [done]
  {
  }

  method ServeSend(router: Router, client: Client, e: Event, ghost w: World)
    requires router.backend.Valid() && router.backend.Db() == w.db && router.cfg == client.cfg
    requires e.Send? || e.Degraded? || e.Reconcile?
    modifies router, router.backend
    ensures router.backend.Valid()
    ensures router.backend.journal == old(router.backend.journal) + Work(router.cfg, w.db, e)
  {
    hide SendPlan, DegradedPlan;
    hide SqliteBackend.Valid;
    match e
    case Send(roster, a, now, newId) =>
      router.nextId := newId;
      var _ := router.Send(roster, a, now);
    case Degraded(roster, a, op, id, now) =>
      var _ := client.Degraded(router.backend, roster, a.(messageId := Some(id)), op, id, now);
      DegradedIgnoresId(router.cfg, w.db, roster, a, op, id, now);
    case Reconcile(roster, op, now, newId) =>
      if op in router.backend.outbound {
        router.nextId := newId;
        router.ReconcileOne(roster, op, router.backend.outbound[op], now);
      } else {
        assert router.backend.Db().outbound == router.backend.outbound;
      }
  }

  /** A degraded plan is given its message id and looks at no other. */
  lemma DegradedIgnoresId(cfg: Config, db: DB, roster: Roster, a: SendArgs, op: string, id: Id, now: Time)
    ensures DegradedPlan(cfg, db, roster, a.(messageId := Some(id)), op, id, now) == DegradedPlan(cfg, db, roster, a, op, id, now)
  {
    hide FindOp, Targets, EnqueueEach, PassEach;
  }

  method ServeVerb(router: Router, e: Event, ghost w: World)
    requires router.backend.Valid() && router.backend.Db() == w.db
    requires Inv(w) && Fresh(w, e) && !e.Storage? && !e.Send? && !e.Degraded? && !e.Reconcile?
    modifies router, router.backend
    ensures router.backend.Valid()
    ensures router.backend.journal == old(router.backend.journal) + Work(router.cfg, w.db, e)
  {
    hide Inv, ReplyPlan, DeclinePlan, AcceptPlan, SnoozePlan, ParkPlan, ChasePlan, CancelPlan;
    hide SqliteBackend.Valid;
    assert router.backend.Db().awaiting == router.backend.awaiting && router.backend.Db().deliveries == router.backend.deliveries;
    match e
    case Reply(roster, reply, now, newId) =>
      router.nextId := newId;
      var _ := router.Reply(roster, reply, now);
    case Decline(roster, alias, id, reason, now, newId) =>
      router.nextId := newId;
      var _ := router.Decline(roster, alias, id, reason, now);
    case Accept(roster, alias, id) => var _ := router.Accept(roster, alias, id);
    case Snooze(roster, alias, id, now) => var _ := router.Snooze(roster, alias, id, now);
    case Cancel(id, order, now, newId) =>
      router.nextId := newId;
      var _, listed := router.Cancel(id, now);
      AnyOrder(w, id, order, listed, now, newId);
    case Park(id, now, newId) =>
      if TtlPassed(router.backend.awaiting, id, now) {
        var _ := Sweeper.Park(router.backend, id, now, newId);
      } else {
        assert ParkPlan(w.db, id, now, newId) == [] by { NotParked(w.db, id, now, newId); }
      }
    case Chase(id, now, newId) =>
      if AskOpen(router.backend.awaiting, id) {
        var _ := Sweeper.Chase(router.backend, id, router.backend.awaiting[id], now, newId, router.cfg.finalGraceS);
      } else {
        NotChased(w.db, id, now, router.cfg.finalGraceS, newId);
      }
  }

  lemma NotParked(db: DB, id: Id, now: Time, newId: Id)
    requires !TtlPassed(db.awaiting, id, now)
    ensures ParkPlan(db, id, now, newId) == []
  {
  }

  /** Only an ask with a single reader is ever open, so the order in which a cancel lists the readers is no matter. */
  lemma AnyOrder(w: World, id: Id, order: seq<Address>, listed: seq<Address>, now: Time, newId: Id)
    requires Inv(w) && Enumerates(order, RowsOf(w.db.deliveries, id)) && Enumerates(listed, RowsOf(w.db.deliveries, id))
    ensures CancelPlan(w.db, id, listed, now, newId) == CancelPlan(w.db, id, order, now, newId)
  {
    hide Inv, WithdrawEach;
    if AskOpen(w.db.awaiting, id) {
      OneCopy(w, id);
      OnlyOne(order, w.db.messages[id].to);
      OnlyOne(listed, w.db.messages[id].to);
    }
  }

  method ServeStorage(backend: SqliteBackend, s: Stmt) returns (ghost done: Stmt)
    requires backend.Valid() && StorageOp(s)
    modifies backend
    ensures backend.Valid() && backend.journal == old(backend.journal) + [done] && Ordered(s, done)
    ensures done.Tombstone? ==> Enumerates(done.order, StaleAddresses(old(backend.Db().deliveries), done.cutoff))
  {
    hide SqliteBackend.Ran;
    hide SqliteBackend.Valid;
    done := s;
    match s
    case ConsumeAll(a) => var _ := backend.ConsumePending(a);
    case MarkDelivered(id, a, via) => backend.MarkDelivered(id, a, via);
    case MarkConsumed(id, a) => backend.MarkConsumed(id, a);
    case Claim(a, via) => var _ := backend.ClaimForDelivery(a, via);
    case LeaseFor(a, via, leaseId, now, until) => var _ := backend.LeaseForDelivery(a, via, leaseId, now, until);
    case Ack(a, leaseId, ids) => var _ := backend.AckDelivery(a, leaseId, ids);
    case MarkProjectSurfaced(id, a) => backend.MarkProjectSurfaced(id, a);
    case Purge(cutoff) => var _ := backend.Purge(cutoff);
    case Reopen(floor) => backend.Restart(floor);
    case Tombstone(cutoff, _) =>
      ghost var order := backend.TombstoneStale(cutoff);
      done := Tombstone(cutoff, order);
  }

  // ---- A listing's order changes only the cursor --------------------------------------------------

  /** Two worlds that differ in their cursors alone. */
  ghost predicate Twins(w: World, v: World) { v == w.(db := w.db.(cursor := v.db.cursor)) }

  lemma TwinWork(cfg: Config, db: DB, c: Cursor, e: Event)
    ensures Work(cfg, db.(cursor := c), e) == Work(cfg, db, e)
  {
    hide FindOp, Targets, EnqueueEach, PassEach, WithdrawEach;
  }

  lemma TwinFresh(w: World, v: World, e: Event)
    requires Twins(w, v)
    ensures Fresh(w, e) <==> Fresh(v, e)
  {
  }

  lemma TwinHistory(w: World, v: World, s: Stmt, t: Stmt)
    requires Twins(w, v) && Ordered(s, t)
    ensures Step(v, t).(db := w.db) == Step(w, s).(db := w.db)
  {
    hide Exec, Insertable, ClaimedKeys, AskOpen;
  }

  lemma TwinStep(w: World, v: World, s: Stmt, t: Stmt)
    requires Twins(w, v) && Ordered(s, t)
    ensures Twins(Step(w, s), Step(v, t))
  {
    hide Step, Exec, Ordered;
    TwinHistory(w, v, s, t);
    StepDb(w, s);
    StepDb(v, t);
    TwinExec(w.db, v.db.cursor, s, t);
    assert w.db.(cursor := v.db.cursor) == v.db;
  }

  ghost predicate TwinStmt(db: DB, c: Cursor, s: Stmt, t: Stmt) {
    var b := Exec(db.(cursor := c), t);
    b == Exec(db, s).(cursor := b.cursor)
  }

  lemma TwinExec(db: DB, c: Cursor, s: Stmt, t: Stmt)
    requires Ordered(s, t)
    ensures TwinStmt(db, c, s, t)
  {
    hide Exec, TwinStmt;
    if MovesRows(s) {
      TwinRows(db, c, s, t);
    } else if s.Purge? {
      TwinPurge(db, c, s.cutoff);
    } else if Protocol(s) {
      TwinTables(db, c, s);
    } else {
      TwinSides(db, c, s);
    }
  }

  /** The other statements on the protocol's tables. */
  predicate Protocol(s: Stmt) {
    s.AppendRouted? || s.Append? || s.Enqueue? || s.Claim? || s.OpenAwaiting? || s.CloseAwaiting? || s.MarkNudged? || s.DeferNudge?
  }

  lemma TwinRows(db: DB, c: Cursor, s: Stmt, t: Stmt)
    requires Ordered(s, t) && MovesRows(s)
    ensures TwinStmt(db, c, s, t)
  {
    hide Insert, PurgeSet, Without, ConsumeRows, DeliverRow, SurfaceRow, ClaimRows, LeaseRows, AckRows, RetireRows, Put, BumpAll,
      CloseAsk, NudgeAsk, DeferAsk, PendingSet, AckableSet, Bump, PendingRow;
  }

  lemma TwinTables(db: DB, c: Cursor, s: Stmt)
    requires Protocol(s)
    ensures TwinStmt(db, c, s, s)
  {
    hide Insert, PurgeSet, Without, ConsumeRows, DeliverRow, SurfaceRow, ClaimRows, LeaseRows, AckRows, RetireRows, Put, BumpAll,
      CloseAsk, NudgeAsk, DeferAsk, PendingSet, AckableSet, Bump, PendingRow;
  }

  lemma TwinSides(db: DB, c: Cursor, s: Stmt)
    requires !MovesRows(s) && !s.Purge? && !Protocol(s)
    ensures TwinStmt(db, c, s, s)
  {
  }

  lemma TwinPurge(db: DB, c: Cursor, cutoff: Time)
    ensures PurgeSet(db.(cursor := c), cutoff) == PurgeSet(db, cutoff)
    ensures TwinStmt(db, c, Purge(cutoff), Purge(cutoff))
  {
    forall id ensures id in PurgeSet(db.(cursor := c), cutoff) <==> id in PurgeSet(db, cutoff) {
      assert Purgeable(db.(cursor := c), id, cutoff) <==> Purgeable(db, id, cutoff);
    }
  }

  lemma {:induction false} TwinSteps(w: World, v: World, work: seq<Stmt>)
    requires Twins(w, v)
    ensures Twins(Steps(w, work), Steps(v, work))
    decreases |work|
  {
    hide Step;
    if work != [] {
      TwinStep(w, v, work[0], work[0]);
      TwinSteps(Step(w, work[0]), Step(v, work[0]), work[1..]);
    }
  }

  /** Whichever order a store lists in, an event leads twins to twins. */
  lemma TwinPerform(cfg: Config, w: World, v: World, e: Event, done: Event)
    requires Twins(w, v) && Fresh(w, e) && Fresh(v, done) && Serves(e, done)
    ensures Twins(Perform(cfg, w, Act(e, |Work(cfg, w.db, e)|)), Perform(cfg, v, Act(done, |Work(cfg, v.db, done)|)))
  {
    hide Steps, Step;
    TwinWork(cfg, w.db, v.db.cursor, e);
    var work := Work(cfg, w.db, e);
    assert work[..|work|] == work;
    if e == done {
      TwinSteps(w, v, work);
    } else {
      assert work == [e.s] && Work(cfg, v.db, done) == [done.s] && [done.s][..1] == [done.s];
      OneStep(w, e.s);
      OneStep(v, done.s);
      TwinStep(w, v, e.s, done.s);
    }
  }

  lemma FirstAct(cfg: Config, w: World, events: seq<Event>)
    requires events != [] && Possible(cfg, w, WholeActs(cfg, w, events))
    ensures var a := Act(events[0], |Work(cfg, w.db, events[0])|);
      && Allowed(cfg, w, a)
      && WholeActs(cfg, w, events)[0] == a
      && WholeActs(cfg, w, events)[1..] == WholeActs(cfg, Perform(cfg, w, a), events[1..])
      && Possible(cfg, Perform(cfg, w, a), WholeActs(cfg, Perform(cfg, w, a), events[1..]))
      && Run(cfg, w, WholeActs(cfg, w, events)) == Run(cfg, Perform(cfg, w, a), WholeActs(cfg, Perform(cfg, w, a), events[1..]))
  {
    hide Work, Steps, Fresh;
  }

  /** One more complete act at the end. */
  lemma {:induction false} LastAct(cfg: Config, w: World, events: seq<Event>, e: Event)
    requires Possible(cfg, w, WholeActs(cfg, w, events)) && Fresh(Run(cfg, w, WholeActs(cfg, w, events)), e)
    ensures var v := Run(cfg, w, WholeActs(cfg, w, events));
      && Possible(cfg, w, WholeActs(cfg, w, events + [e]))
      && Run(cfg, w, WholeActs(cfg, w, events + [e])) == Perform(cfg, v, Act(e, |Work(cfg, v.db, e)|))
    decreases |events|
  {
    hide Work, Steps, Fresh;
    if events == [] {
      NothingLeft(cfg, w);
      var a := Act(e, |Work(cfg, w.db, e)|);
      assert [] + [e] == [e] && [e][1..] == [];
      NothingLeft(cfg, Perform(cfg, w, a));
      assert WholeActs(cfg, w, [e]) == [a] && [a][1..] == [];
    } else {
      FirstAct(cfg, w, events);
      var a := Act(events[0], |Work(cfg, w.db, events[0])|);
      var w1 := Perform(cfg, w, a);
      assert (events + [e])[1..] == events[1..] + [e];
      LastAct(cfg, w1, events[1..], e);
      assert WholeActs(cfg, w, events + [e])[1..] == WholeActs(cfg, w1, events[1..] + [e]);
    }
  }

  /** Opening a new store, and then the given events. */
  function Life(floor: nat, events: seq<Event>): seq<Event> { [Storage(Reopen(floor))] + events }

  /**
   Open a new store and serve any events on it: the tables are those of the run of those events from
   an empty broker, stale mail retired in the store's own order.
   */
  method ServeAll(cfg: Config, floor: nat, events: seq<Event>) returns (backend: SqliteBackend, ghost done: seq<Event>)
    requires Possible(cfg, START, WholeActs(cfg, START, Life(floor, events)))
    ensures |done| == |events| && forall i :: 0 <= i < |events| ==> Serves(events[i], done[i])
    ensures Possible(cfg, START, WholeActs(cfg, START, Life(floor, done)))
    ensures backend.Valid() && backend.Db() == Run(cfg, START, WholeActs(cfg, START, Life(floor, done))).db
  {
    hide Inv, Possible, Run, Perform, WholeActs, Work, Serves, Fresh, Twins;
    hide SqliteBackend.Valid;
    ghost var w := Begin(cfg, floor, events);
    ghost var v := w;
    done := [];
    backend := new SqliteBackend(floor);
    var router := new Router(backend, cfg, 0);
    var client := new Client(cfg);
    for i := 0 to |events|
      invariant fresh(backend) && fresh(router) && router.backend == backend && router.cfg == cfg
      invariant backend.Valid() && backend.Db() == v.db && Inv(v) && Twins(w, v)
      invariant Possible(cfg, w, WholeActs(cfg, w, events[i..]))
      invariant |done| == i && forall j :: 0 <= j < i ==> Serves(events[j], done[j])
      invariant Possible(cfg, START, WholeActs(cfg, START, Life(floor, done)))
      invariant Run(cfg, START, WholeActs(cfg, START, Life(floor, done))) == v
    {
      assert events[i..][0] == events[i] && events[i..][1..] == events[i + 1..];
      NextFresh(cfg, w, v, events[i..]);
      ghost var e := Serve(router, client, events[i], v);
      w, v := Next(cfg, floor, w, v, events[i], e, done);
      done := done + [e];
    }
  }

  /** The world of a store just opened. */
  ghost method Begin(cfg: Config, floor: nat, events: seq<Event>) returns (w: World)
    requires Possible(cfg, START, WholeActs(cfg, START, Life(floor, events)))
    ensures Inv(w) && Twins(w, w) && w.db == Exec(EMPTY, Reopen(floor)) && Possible(cfg, w, WholeActs(cfg, w, events[0..]))
    ensures Possible(cfg, START, WholeActs(cfg, START, Life(floor, [])))
    ensures Run(cfg, START, WholeActs(cfg, START, Life(floor, []))) == w
  {
    hide Steps, Work, Fresh, Inv;
    Booted(cfg, floor);
    FirstAct(cfg, START, Life(floor, events));
    assert Life(floor, events)[1..] == events && events[0..] == events;
    w := Perform(cfg, START, Act(Storage(Reopen(floor)), 1));
    NothingLeft(cfg, START);
    assert [] + [Storage(Reopen(floor))] == Life(floor, []);
    BootedFresh(floor);
    LastAct(cfg, START, [], Storage(Reopen(floor)));
  }

  lemma BootedFresh(floor: nat)
    ensures Fresh(START, Storage(Reopen(floor)))
  {
  }

  lemma NextFresh(cfg: Config, w: World, v: World, events: seq<Event>)
    requires events != [] && Possible(cfg, w, WholeActs(cfg, w, events)) && Twins(w, v)
    ensures Fresh(w, events[0]) && Fresh(v, events[0])
    ensures var w1 := Perform(cfg, w, Act(events[0], |Work(cfg, w.db, events[0])|));
      Possible(cfg, w1, WholeActs(cfg, w1, events[1..]))
  {
    FirstAct(cfg, w, events);
    TwinFresh(w, v, events[0]);
  }

  /** One event on, along the given events and along those served. */
  ghost method Next(cfg: Config, floor: nat, w: World, v: World, e: Event, served: Event, done: seq<Event>)
    returns (w1: World, v1: World)
    requires Twins(w, v) && Inv(v) && Fresh(w, e) && Fresh(v, served) && Serves(e, served)
    requires Possible(cfg, START, WholeActs(cfg, START, Life(floor, done)))
    requires Run(cfg, START, WholeActs(cfg, START, Life(floor, done))) == v
    ensures w1 == Perform(cfg, w, Act(e, |Work(cfg, w.db, e)|)) && v1 == Perform(cfg, v, Act(served, |Work(cfg, v.db, served)|))
    ensures Twins(w1, v1) && Inv(v1)
    ensures Possible(cfg, START, WholeActs(cfg, START, Life(floor, done + [served])))
    ensures Run(cfg, START, WholeActs(cfg, START, Life(floor, done + [served]))) == v1
  {
    hide Steps, Work, Fresh, Inv, Twins, Serves;
    w1 := Perform(cfg, w, Act(e, |Work(cfg, w.db, e)|));
    v1 := Perform(cfg, v, Act(served, |Work(cfg, v.db, served)|));
    TwinPerform(cfg, w, v, e, served);
    PerformKeeps(cfg, v, Act(served, |Work(cfg, v.db, served)|));
    assert Life(floor, done) + [served] == Life(floor, done + [served]);
    LastAct(cfg, START, Life(floor, done), served);
  }

  lemma NothingLeft(cfg: Config, w: World)
    ensures WholeActs(cfg, w, []) == [] && Possible(cfg, w, []) && Run(cfg, w, []) == w
  {
  }

  lemma Booted(cfg: Config, floor: nat)
    ensures var boot := Act(Storage(Reopen(floor)), 1);
      && Life(floor, [])[0] == boot.event && |Work(cfg, START.db, boot.event)| == 1
      && Allowed(cfg, START, boot) && Inv(Perform(cfg, START, boot))
      && Perform(cfg, START, boot).db == Exec(EMPTY, Reopen(floor))
  {
    StartHolds();
    var s := Reopen(floor);
    PerformKeeps(cfg, START, Act(Storage(s), 1));
    assert [s][..1] == [s];
    OneStep(START, s);
  }
}
