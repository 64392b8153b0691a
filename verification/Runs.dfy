/**
 Runs of the whole broker: any verbs, sweeps and storage reads in any order, over any
 rosters, each possibly cut short by a crash after any of its statements.
 */
module Runs {
  import opened Models
  import opened Store
  import opened Invariants
  import opened Statements
  import opened Verbs

  datatype Event =
    | Send(roster: Roster, args: SendArgs, now: Time, newId: Id)
    | Degraded(roster: Roster, args: SendArgs, op: string, id: Id, now: Time)
    | Reconcile(roster: Roster, op: string, now: Time, newId: Id)
    | Reply(roster: Roster, reply: ReplyArgs, now: Time, newId: Id)
    | Decline(roster: Roster, alias: Address, id: Id, reason: string, now: Time, newId: Id)
    | Accept(roster: Roster, alias: Address, id: Id)
    | Snooze(roster: Roster, alias: Address, id: Id, now: Time)
    | Cancel(id: Id, order: seq<Address>, now: Time, newId: Id)
    | Park(id: Id, now: Time, newId: Id)
    | Chase(id: Id, now: Time, newId: Id)
    | Storage(s: Stmt)   // check, deliver, lease, ack and the sweeper's maintenance

  /** An event, and how many of its statements ran before the process stopped. */
  datatype Act = Act(event: Event, cut: nat)

  predicate StorageOp(s: Stmt) {
    s.ConsumeAll? || s.MarkDelivered? || s.MarkConsumed? || s.Claim? || s.LeaseFor? || s.Ack?
    || s.MarkProjectSurfaced? || s.Purge? || s.Tombstone? || s.Reopen?
  }

  ghost function Work(cfg: Config, db: DB, e: Event): seq<Stmt> {
    match e
    case Send(roster, a, now, newId) => SendPlan(cfg, db, roster, a, now, newId).work
    case Degraded(roster, a, op, id, now) => DegradedPlan(cfg, db, roster, a, op, id, now).work
    case Reconcile(roster, op, now, newId) => ReconcilePlan(cfg, db, roster, op, now, newId).work
    case Reply(roster, a, now, newId) => ReplyPlan(db, roster, a, now, newId).work
    case Decline(roster, alias, id, reason, now, newId) => DeclinePlan(db, roster, alias, id, reason, now, newId).work
    case Accept(roster, alias, id) => AcceptPlan(db, roster, alias, id).work
    case Snooze(roster, alias, id, now) => SnoozePlan(db, roster, alias, id, now).work
    case Cancel(id, order, now, newId) => CancelPlan(db, id, order, now, newId).work
    case Park(id, now, newId) => ParkPlan(db, id, now, newId)
    case Chase(id, now, newId) => ChasePlan(db, id, now, cfg.finalGraceS, newId)
    case Storage(s) => [s]
  }

  /** Ids are fresh and never reused; a supplied message id is fresh unless it is already known. */
  ghost predicate Fresh(w: World, e: Event) {
    match e
    case Send(roster, a, _, newId) => Sane(roster) && newId >= w.next && SuppliedFresh(w, a)
    case Degraded(roster, _, op, id, _) => Sane(roster) && (id >= w.next || FindOp(w.db.messages, Some(op)).Some?)
    case Reconcile(roster, op, _, newId) =>
      Sane(roster) && newId >= w.next && (op in w.db.outbound ==> SuppliedFresh(w, w.db.outbound[op].args))
    case Reply(roster, _, _, newId) => Sane(roster) && newId >= w.next
    case Decline(roster, _, _, _, _, newId) => Sane(roster) && newId >= w.next
    case Accept(roster, _, _) => Sane(roster)
    case Snooze(roster, _, _, _) => Sane(roster)
    case Cancel(id, order, _, newId) => newId >= w.next && Enumerates(order, RowsOf(w.db.deliveries, id))
    case Park(_, _, newId) => newId >= w.next
    case Chase(_, _, newId) => newId >= w.next
    case Storage(s) => StorageOp(s) && Guard(w, s)
  }

  ghost predicate SuppliedFresh(w: World, a: SendArgs) {
    a.messageId.Some? ==>
      a.messageId.value >= w.next || a.messageId.value in w.db.messages || FindOp(w.db.messages, a.operationId).Some?
  }

  ghost predicate Allowed(cfg: Config, w: World, a: Act) {
    Fresh(w, a.event) && a.cut <= |Work(cfg, w.db, a.event)|
  }

  ghost function Perform(cfg: Config, w: World, a: Act): World
    requires Allowed(cfg, w, a)
  {
    Steps(w, Work(cfg, w.db, a.event)[..a.cut])
  }

  ghost predicate Possible(cfg: Config, w: World, acts: seq<Act>)
    decreases |acts|
  {
    acts == [] || (Allowed(cfg, w, acts[0]) && Possible(cfg, Perform(cfg, w, acts[0]), acts[1..]))
  }

  ghost function Run(cfg: Config, w: World, acts: seq<Act>): World
    requires Possible(cfg, w, acts)
    decreases |acts|
  {
    if acts == [] then w else Run(cfg, Perform(cfg, w, acts[0]), acts[1..])
  }

  ghost predicate Whole(cfg: Config, w: World, a: Act) { a.cut == |Work(cfg, w.db, a.event)| }

  lemma NoSteps(w: World)
    ensures Steps(w, []) == w
  {
  }

  lemma OneStep(w: World, s: Stmt)
    ensures Steps(w, [s]) == Step(w, s)
  {
    assert [s][1..] == [];
  }

  lemma TwoSteps(w: World, s: Stmt, t: Stmt)
    ensures Steps(w, [s, t]) == Step(Step(w, s), t)
  {
    assert [s, t][1..] == [t];
    OneStep(Step(w, s), t);
  }

  /** The tables of a world move as the statements say. */
  lemma {:induction false} StepsDb(w: World, work: seq<Stmt>)
    ensures Steps(w, work).db == ExecAll(w.db, work)
    decreases |work|
  {
    if work != [] {
      StepsDb(Step(w, work[0]), work[1..]);
      ExecAllConcat(w.db, [work[0]], work[1..]);
      ExecOne(w.db, [], work[0]);
      assert [work[0]] + work[1..] == work;
      assert [] + [work[0]] == [work[0]];
    }
  }

  /**
   What an event does to a world's tables, stopped anywhere, is what that much of its work does:
   a backend whose journal grew by an event's work is where the event leads.
   */
  lemma PerformDb(cfg: Config, w: World, a: Act)
    requires Allowed(cfg, w, a)
    ensures Perform(cfg, w, a).db == ExecAll(w.db, Work(cfg, w.db, a.event)[..a.cut])
  {
    StepsDb(w, Work(cfg, w.db, a.event)[..a.cut]);
  }

  // ---- Sequences of guarded statements ------------------------------------------------

  ghost predicate Safe(w: World, work: seq<Stmt>)
    decreases |work|
  {
    work == [] || (Guard(w, work[0]) && Safe(Step(w, work[0]), work[1..]))
  }

  /** However far a safe sequence gets, the invariant holds and nothing went back. */
  lemma {:induction false} SafeRuns(w: World, work: seq<Stmt>, cut: nat)
    requires Inv(w) && Safe(w, work) && cut <= |work|
    ensures Inv(Steps(w, work[..cut])) && Follows(w, Steps(w, work[..cut]))
    decreases |work|
  {
    FollowsReflexive(w);
    if cut > 0 {
      var w1 := Step(w, work[0]);
      StepKeeps(w, work[0]);
      SafeRuns(w1, work[1..], cut - 1);
      assert work[..cut][1..] == work[1..][..cut - 1];
      FollowsTransitive(w, w1, Steps(w1, work[1..][..cut - 1]));
    }
  }

  lemma SafePrefix(w: World, work: seq<Stmt>, cut: nat)
    requires Safe(w, work) && cut <= |work|
    ensures Safe(w, work[..cut])
    decreases |work|
  {
    if cut > 0 {
      assert work[..cut][1..] == work[1..][..cut - 1];
      SafePrefix(Step(w, work[0]), work[1..], cut - 1);
    }
  }

  lemma {:induction false} StepsConcat(w: World, a: seq<Stmt>, b: seq<Stmt>)
    ensures Steps(w, a + b) == Steps(Steps(w, a), b)
    decreases |a|
  {
    if a == [] {
      assert a + b == b;
    } else {
      assert (a + b)[1..] == a[1..] + b;
      StepsConcat(Step(w, a[0]), a[1..], b);
    }
  }

  lemma {:induction false} SafeConcat(w: World, a: seq<Stmt>, b: seq<Stmt>)
    requires Safe(w, a) && Safe(Steps(w, a), b)
    ensures Safe(w, a + b)
    decreases |a|
  {
    if a == [] {
      assert a + b == b;
    } else {
      assert (a + b)[1..] == a[1..] + b;
      SafeConcat(Step(w, a[0]), a[1..], b);
    }
  }

  /** Statements that any world allows. */
  predicate Free(s: Stmt) {
    s.ConsumeAll? || s.MarkDelivered? || s.MarkConsumed? || s.MarkSurfaced? || s.Claim? || s.LeaseFor? || s.Ack?
    || s.SetConsent? || s.MarkNudged? || s.DeferNudge? || s.ClaimProject? || s.ReleaseClaim? || s.PassProject?
    || s.MarkProjectSurfaced? || s.QueueOutbound? || s.DeleteOutbound? || s.Purge? || s.Reopen?
    || (s.CloseAwaiting? && !s.reason.Responded?)
  }

  lemma {:induction false} FreeSafe(w: World, work: seq<Stmt>)
    requires forall i :: 0 <= i < |work| ==> Free(work[i])
    ensures Safe(w, work)
    decreases |work|
  {
    if work != [] {
      assert Free(work[0]);
      forall i | 0 <= i < |work[1..]| ensures Free(work[1..][i]) { assert Free(work[i + 1]); }
      FreeSafe(Step(w, work[0]), work[1..]);
    }
  }

  /** Enqueueing to the addresses a message may go to. */
  lemma {:induction false} EnqueueSafe(w: World, id: Id, targets: seq<Address>)
    requires id in w.db.messages
    requires forall t :: t in targets ==> Guard(w, Enqueue(id, t))
    ensures Safe(w, EnqueueEach(id, targets))
    ensures var w1 := Steps(w, EnqueueEach(id, targets));
      w1 == w.(db := w1.db) && OnlyRows(w.db, w1.db)
      && (forall k :: k in w1.db.deliveries <==> k in w.db.deliveries || (k.msg == id && k.addr in targets))
      && (forall k :: k in w.db.deliveries ==> w1.db.deliveries[k] == w.db.deliveries[k])
    decreases |targets|
  {
    hide Exec, Step, Guard;
    if targets != [] {
      var w0 := Step(w, Enqueue(id, targets[0]));
      assert targets[0] in targets;
      EnqueueOne(w, id, targets[0]);
      assert EnqueueEach(id, targets)[1..] == EnqueueEach(id, targets[1..]);
      forall t | t in targets[1..] ensures Guard(w0, Enqueue(id, t)) {
        assert t in targets;
        EnqueueStill(w, id, targets[0], t);
      }
      EnqueueSafe(w0, id, targets[1..]);
    }
  }

  lemma EnqueueOne(w: World, id: Id, t: Address)
    ensures var w1 := Step(w, Enqueue(id, t));
      w1 == w.(db := w1.db) && OnlyRows(w.db, w1.db)
      && (forall k :: k in w1.db.deliveries <==> k in w.db.deliveries || k == Key(id, t))
      && (forall k :: k in w.db.deliveries ==> w1.db.deliveries[k] == w.db.deliveries[k])
  {
  }

  lemma EnqueueStill(w: World, id: Id, t: Address, u: Address)
    requires Guard(w, Enqueue(id, u))
    ensures Guard(Step(w, Enqueue(id, t)), Enqueue(id, u))
  {
  }

  lemma {:induction false} PassesOnly(w: World, id: Id, boxes: seq<Address>)
    ensures Safe(w, PassEach(id, boxes))
    ensures var w1 := Steps(w, PassEach(id, boxes)); w1 == w.(db := w.db.(passes := w1.db.passes))
    ensures Steps(w, PassEach(id, boxes)).db.passes == w.db.passes + set a | a in boxes :: Key(id, a)
    decreases |boxes|
  {
    hide Exec, Guard;
    if boxes != [] {
      assert PassEach(id, boxes)[1..] == PassEach(id, boxes[1..]);
      PassOne(w, id, boxes[0]);
      hide Step;
      PassesOnly(Step(w, PassProject(id, boxes[0])), id, boxes[1..]);
      assert (set a | a in boxes :: Key(id, a)) == {Key(id, boxes[0])} + set a | a in boxes[1..] :: Key(id, a);
    }
  }

  lemma PassOne(w: World, id: Id, a: Address)
    ensures Guard(w, PassProject(id, a))
    ensures Step(w, PassProject(id, a)) == w.(db := w.db.(passes := w.db.passes + {Key(id, a)}))
  {
  }

  /** Appending a correlated message and queueing it for one reader. */
  lemma PostSafe(w: World, m: Message, to: Address)
    requires Inv(w) && Guard(w, Append(m))
    ensures Safe(w, [Append(m), Enqueue(m.id, to)])
    ensures Inv(Posting(w, m, to))
    ensures Posting(w, m, to) == Steps(w, [Append(m), Enqueue(m.id, to)])
  {
    var w1 := Step(w, Append(m));
    PostWorld(w, m, to);
    hide Exec, Step, Guard, Follows;
    StepKeeps(w, Append(m));
    StepKeeps(w1, Enqueue(m.id, to));
    hide Inv;
    assert [Append(m), Enqueue(m.id, to)][1..] == [Enqueue(m.id, to)];
    assert [Enqueue(m.id, to)][1..] == [];
    assert Safe(w1, [Enqueue(m.id, to)]);
    TwoSteps(w, Append(m), Enqueue(m.id, to));
  }

  lemma PostWorld(w: World, m: Message, to: Address)
    requires Inv(w) && Guard(w, Append(m))
    ensures Step(Step(w, Append(m)), Enqueue(m.id, to)) == Posting(w, m, to)
    ensures Guard(Step(w, Append(m)), Enqueue(m.id, to))
  {
    assert m.id !in w.db.messages && m.id !in w.db.routes;
    assert Key(m.id, to).msg == m.id && Key(m.id, to) !in w.db.deliveries;
    hide IdsInv, AsksRef, OpInv, RowsRouted, RowsDirected, RoutesDirected, AsksRowed, RowsInv, AskersInv, TruthInv, ClosesInv,
      ClaimedInv, CursorInv, LogInv;
  }

  /** The world after posting: one message, one queued row, one inbox event. */
  function Posting(w: World, m: Message, to: Address): World {
    w.(db := w.db.(messages := w.db.messages[m.id := m],
                   deliveries := w.db.deliveries[Key(m.id, to) := Delivery(None, Queued, m.ts, None)],
                   cursor := Bump(w.db.cursor, to)),
       next := Max(w.next, m.id + 1),
       log := w.log + [Posted(m)])
  }
}
