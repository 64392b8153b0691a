/**
 What a crash between two statements of a verb leaves behind for good: a word nobody will ever
 be handed, a parked ask whose sender is never told, a cancelled ask still in its reader's
 mail, an answered ask that the sweeper parks all the same.
 */
module Crashes {
  import opened Models
  import opened Store
  import opened Invariants
  import opened Statements
  import opened Verbs
  import opened Runs
  import opened VerbSafety
  import opened Retry
  import opened Outbox
  import opened Ledger
  import opened Tearing
  import opened Closing
  import opened Deadlines

  // ---- A word posted and never queued ----------------------------------------------------------

  /** Stored without an operation id, or gone, and in nobody's mailbox. */
  ghost predicate Unqueued(w: World, id: Id) {
    && id < w.next && (id in w.db.messages ==> w.db.messages[id].operationId.None?)
    && forall a :: Key(id, a) !in w.db.deliveries
  }

  /** Whom a verb queues mail for: a message it has just stored, or one it found by its operation id. */
  predicate Queues(w: World, s: Stmt) {
    s.Enqueue? ==> s.id >= w.next || (s.id in w.db.messages && w.db.messages[s.id].operationId.Some?)
  }

  lemma SendQueues(cfg: Config, w: World, roster: Roster, a: SendArgs, now: Time, newId: Id)
    requires Inv(w) && newId >= w.next && SuppliedFresh(w, a)
    ensures forall s :: s in SendPlan(cfg, w.db, roster, a, now, newId).work ==> Queues(w, s)
  {
    hide Inv, FindOp;
    match FindOp(w.db.messages, a.operationId)
    case Some(m) =>
      FoundByOp(w, a.operationId);
      ReplayQueues(cfg, w.db, roster, a, m, SessionBoxes(roster, m.from));
    case None =>
      var id := if a.messageId.Some? then a.messageId.value else newId;
      FirstQueues(cfg, roster, a, id, now);
  }

  lemma FoundByOp(w: World, op: Option<string>)
    requires Inv(w) && FindOp(w.db.messages, op).Some?
    ensures var m := FindOp(w.db.messages, op).value;
      m.id in w.db.messages && w.db.messages[m.id] == m && m.operationId.Some?
  {
    FoundOp(w.db.messages, w.next, op);
  }

  lemma ReplayQueues(cfg: Config, db: DB, roster: Roster, a: SendArgs, m: Message, passers: seq<Address>)
    ensures forall s :: s in ReplayPlan(cfg, db, roster, a, m, passers).work ==> s.Enqueue? ==> s.id == m.id
  {
    hide RouteOf, SamePayload;
  }

  lemma FirstQueues(cfg: Config, roster: Roster, a: SendArgs, id: Id, now: Time)
    ensures forall s :: s in FirstSend(cfg, roster, a, id, now).work ==> s.Enqueue? ==> s.id == id
  {
    hide Targets, SessionBoxes;
  }

  lemma DegradedQueues(cfg: Config, w: World, roster: Roster, a: SendArgs, op: string, id: Id, now: Time)
    requires Inv(w) && (id >= w.next || FindOp(w.db.messages, Some(op)).Some?)
    ensures forall s :: s in DegradedPlan(cfg, w.db, roster, a, op, id, now).work ==> Queues(w, s)
  {
    hide Inv, FindOp;
    match FindOp(w.db.messages, Some(op))
    case Some(m) =>
      FoundByOp(w, Some(op));
      ReplayQueues(cfg, w.db, roster, a, m, DegradedBoxes(roster, m.from));
    case None => DegradedFirstQueues(cfg, roster, a.(operationId := Some(op)), op, id, now);
  }

  lemma DegradedFirstQueues(cfg: Config, roster: Roster, a: SendArgs, op: string, id: Id, now: Time)
    ensures forall s :: s in DegradedSend(cfg, roster, a, op, id, now).work ==> s.Enqueue? ==> s.id == id
  {
    hide Targets, DegradedBoxes, IntentOf;
  }

  lemma {:induction false} WithdrawQueues(rows: Rows, origin: Message, order: seq<Address>, now: Time, newId: Id)
    ensures forall s :: s in WithdrawEach(rows, origin, order, now, newId) ==> s.Enqueue? ==> s.id >= newId
    decreases |order|
  {
    if order != [] {
      WithdrawQueues(rows, origin, order[1..], now, newId);
      WithdrawQueues(rows, origin, order[1..], now, newId + 1);
    }
  }

  lemma ReplyQueues(db: DB, roster: Roster, a: ReplyArgs, now: Time, newId: Id)
    ensures forall s :: s in ReplyPlan(db, roster, a, now, newId).work ==> s.Enqueue? ==> s.id == newId
  {
    hide Actable, Blank;
  }

  lemma DeclineQueues(db: DB, roster: Roster, alias: Address, id: Id, reason: string, now: Time, newId: Id)
    ensures forall s :: s in DeclinePlan(db, roster, alias, id, reason, now, newId).work ==> s.Enqueue? ==> s.id == newId
  {
    hide Actable;
  }

  lemma ChaseQueues(db: DB, id: Id, now: Time, grace: int, newId: Id)
    ensures forall s :: s in ChasePlan(db, id, now, grace, newId) ==> s.Enqueue? ==> s.id >= newId
  {
  }

  lemma EventQueues(cfg: Config, w: World, e: Event)
    requires Inv(w) && Fresh(w, e)
    ensures forall s :: s in Work(cfg, w.db, e) ==> Queues(w, s)
  {
    hide Inv, SendPlan, DegradedPlan, ReplyPlan, DeclinePlan, ChasePlan, WithdrawEach, SuppliedFresh;
    match e
    case Reply(roster, a, now, newId) => ReplyQueues(w.db, roster, a, now, newId);
    case Decline(roster, alias, id, reason, now, newId) => DeclineQueues(w.db, roster, alias, id, reason, now, newId);
    case Chase(id, now, newId) => ChaseQueues(w.db, id, now, cfg.finalGraceS, newId);
    case Send(roster, a, now, newId) => SendQueues(cfg, w, roster, a, now, newId);
    case Degraded(roster, a, op, id, now) => DegradedQueues(cfg, w, roster, a, op, id, now);
    case Reconcile(roster, op, now, newId) =>
      if op in w.db.outbound { SendQueues(cfg, w, roster, w.db.outbound[op].args, now, newId); }
    case Cancel(id, order, now, newId) =>
      if id in w.db.messages { WithdrawQueues(w.db.deliveries, w.db.messages[id], order, now, newId); }
    case _ =>
  }

  lemma UnqueuedSteps(w: World, w1: World, work: seq<Stmt>, id: Id)
    requires Unqueued(w, id) && Follows(w, w1) && w1 == Steps(w, work)
    requires forall s :: s in work ==> Queues(w, s)
    ensures Unqueued(w1, id)
  {
    forall a ensures Key(id, a) !in w1.db.deliveries {
      assert Enqueue(id, a) in work ==> Queues(w, Enqueue(id, a));
      AbsentStays(w, work, Key(id, a));
    }
  }

  lemma {:induction false} NeverQueued(cfg: Config, w: World, acts: seq<Act>, id: Id)
    requires Inv(w) && Possible(cfg, w, acts) && Unqueued(w, id)
    ensures Unqueued(Run(cfg, w, acts), id)
    decreases |acts|
  {
    hide Inv, Steps, Unqueued, Follows;
    if acts != [] {
      var work := Work(cfg, w.db, acts[0].event);
      var w1 := Perform(cfg, w, acts[0]);
      PerformKeeps(cfg, w, acts[0]);
      EventQueues(cfg, w, acts[0].event);
      assert forall s :: s in work[..acts[0].cut] ==> s in work;
      UnqueuedSteps(w, w1, work[..acts[0].cut], id);
      NeverQueued(cfg, w1, acts[1..], id);
    }
  }

  /**
   A crash right after an answer or a notice is stored and before it is queued loses it: whatever
   verb it was and whatever runs later, nobody's mailbox ever holds it.
   */
  lemma LostWord(cfg: Config, w: World, a: Act, acts: seq<Act>, x: Address)
    requires Inv(w) && Allowed(cfg, w, a) && a.cut > 0 && Work(cfg, w.db, a.event)[a.cut - 1].Append?
    requires Possible(cfg, Perform(cfg, w, a), acts)
    ensures Key(Work(cfg, w.db, a.event)[a.cut - 1].m.id, x) !in Run(cfg, Perform(cfg, w, a), acts).db.deliveries
  {
    hide Inv, Steps, Safe, Follows, Guard;
    var front := Work(cfg, w.db, a.event)[..a.cut];
    EventSafe(cfg, w, a.event);
    SafePrefix(w, Work(cfg, w.db, a.event), a.cut);
    LastUnqueued(w, front);
    PerformKeeps(cfg, w, a);
    NeverQueued(cfg, Perform(cfg, w, a), acts, front[a.cut - 1].m.id);
  }

  lemma LastUnqueued(w: World, work: seq<Stmt>)
    requires Inv(w) && Safe(w, work) && work != [] && work[|work| - 1].Append?
    ensures Unqueued(Steps(w, work), work[|work| - 1].m.id)
  {
    hide Inv, Steps, Safe;
    var n := |work| - 1;
    SafePrefix(w, work, n);
    SafeRuns(w, work, n);
    LastGuarded(w, work);
    var v := Steps(w, work[..n]);
    assert work == work[..n] + [work[n]];
    StepsConcat(w, work[..n], [work[n]]);
    OneStep(v, work[n]);
    AppendInserts(v, work[n]);
    forall k | k in v.db.deliveries ensures k.msg != work[n].m.id { RowKnown(v, k); }
  }

  // ---- Parked, and never told --------------------------------------------------------------------

  /** Closed, or gone with its message. */
  ghost predicate Over(w: World, id: Id) {
    id < w.next && (id in w.db.messages ==> id in w.db.awaiting && w.db.awaiting[id].closed.Some?)
  }

  lemma OverStays(a: World, b: World, id: Id)
    requires Inv(a) && Follows(a, b) && Over(a, id)
    ensures Over(b, id)
  {
    if id in b.db.messages { assert id in a.db.messages; }
  }

  lemma {:induction false} ReleasesSteps(w: World, work: seq<Stmt>, id: Id)
    requires forall s :: s in work ==> (s.Append? || s.AppendRouted?) ==> !IsRelease(Posted(s.m), id)
    ensures Releases(Steps(w, work).log, id) == Releases(w.log, id)
    decreases |work|
  {
    hide IsRelease, Step;
    if work != [] {
      assert work[0] in work;
      ReleasesStep(w, work[0], id);
      ReleasesSteps(Step(w, work[0]), work[1..], id);
    }
  }

  lemma ReleasesStep(w: World, s: Stmt, id: Id)
    requires (s.Append? || s.AppendRouted?) ==> !IsRelease(Posted(s.m), id)
    ensures Releases(Step(w, s).log, id) == Releases(w.log, id)
  {
    if s.Append? || s.AppendRouted? { Snoc(w.log, Posted(s.m), id); }
    if s.CloseAwaiting? { Snoc(w.log, Withdrawn(s.id), id); }
    hide Exec, Releases;
  }

  /** No run releases the sender of an ask that is closed already. */
  lemma {:induction false} ClosedNeverReleased(cfg: Config, w: World, acts: seq<Act>, id: Id)
    requires Inv(w) && Possible(cfg, w, acts) && Over(w, id)
    ensures Releases(Run(cfg, w, acts).log, id) == Releases(w.log, id)
    decreases |acts|
  {
    hide Inv, Steps, Releases, Follows;
    if acts != [] {
      var work := Work(cfg, w.db, acts[0].event)[..acts[0].cut];
      EventSpeaks(cfg, w, acts[0].event);
      forall s | s in work && (s.Append? || s.AppendRouted?) ensures !IsRelease(Posted(s.m), id) {
        assert s in Work(cfg, w.db, acts[0].event) && Speaks(w.db, s.m);
      }
      ReleasesSteps(w, work, id);
      PerformKeeps(cfg, w, acts[0]);
      OverStays(w, Perform(cfg, w, acts[0]), id);
      ClosedNeverReleased(cfg, Perform(cfg, w, acts[0]), acts[1..], id);
    }
  }

  /** An expired ask is closed, and its sender told. */
  lemma ParkShape(w: World, id: Id, now: Time, newId: Id)
    requires Inv(w) && newId >= w.next && TtlPassed(w.db.awaiting, id, now)
    ensures id in w.db.messages
    ensures var origin := w.db.messages[id]; var m := NoticeTo(origin, origin.from, StillParked, true, Response, newId, now);
      && ParkPlan(w.db, id, now, newId) == [CloseAwaiting(id, Parked), Append(m), Enqueue(newId, origin.from)]
      && IsRelease(Posted(m), id) && Insertable(w.db.messages, m)
  {
    AskStored(w, id);
    Unused(w, newId);
  }

  /** What parking has done after some of its statements: closed; told in the history; told in the mailbox. */
  lemma ParkCut(w: World, id: Id, m: Message, to: Address, cut: nat)
    requires Inv(w) && AskOpen(w.db.awaiting, id) && 1 <= cut <= 3
    requires m.id >= w.next && Insertable(w.db.messages, m) && IsRelease(Posted(m), id)
    ensures var b := Steps(w, [CloseAwaiting(id, Parked), Append(m), Enqueue(m.id, to)][..cut]);
      && id in b.db.awaiting && b.db.awaiting[id].closed == Some(Parked)
      && Releases(b.log, id) == Releases(w.log, id) + (if cut >= 2 then 1 else 0)
      && (cut == 3 ==> Key(m.id, to) in b.db.deliveries && b.db.deliveries[Key(m.id, to)].state.Queued?)
  {
    hide Releases, IsRelease, Exec, Step, Inv;
    var close := CloseAwaiting(id, Parked);
    var p := [close, Append(m), Enqueue(m.id, to)];
    var w1 := Step(w, close);
    ParkCloses(w, id);
    StepKeeps(w, close);
    ReleaseSays(w1, m, to, id);
    if cut == 1 {
      assert p[..1] == [close];
      OneStep(w, close);
    } else if cut == 2 {
      assert p[..2] == [close, Append(m)];
      TwoSteps(w, close, Append(m));
    } else {
      assert p[..3] == [close, Append(m)] + [p[2]];
      TwoSteps(w, close, Append(m));
      StepsConcat(w, [close, Append(m)], [p[2]]);
      OneStep(Step(w1, Append(m)), p[2]);
    }
  }

  lemma ParkCloses(w: World, id: Id)
    requires AskOpen(w.db.awaiting, id)
    ensures var b := Step(w, CloseAwaiting(id, Parked));
      && id in b.db.awaiting && b.db.awaiting[id].closed == Some(Parked) && b.log == w.log
      && b.db.messages == w.db.messages && b.next == w.next
  {
  }

  lemma ReleaseSays(w: World, m: Message, to: Address, id: Id)
    requires Inv(w) && m.id >= w.next && Insertable(w.db.messages, m) && IsRelease(Posted(m), id)
    ensures var b := Step(w, Append(m)); var c := Step(b, Enqueue(m.id, to)); var k := Key(m.id, to);
      && b.db.awaiting == w.db.awaiting == c.db.awaiting && c.log == b.log
      && Releases(b.log, id) == Releases(w.log, id) + 1
      && k in c.db.deliveries && c.db.deliveries[k].state.Queued?
  {
    assert Key(m.id, to).msg == m.id && m.id !in w.db.messages;
    Snoc(w.log, Posted(m), id);
    hide Releases, IsRelease;
  }

  /**
   A park killed after its first statement leaves the ask parked and its sender untold, for good:
   over every later run the ask stays parked, exactly as many releases have been posted as the
   crash let through, and one posted but not queued reaches nobody.
   */
  lemma CrashedPark(cfg: Config, w: World, id: Id, now: Time, newId: Id, cut: nat, acts: seq<Act>, x: Address)
    requires Inv(w) && TtlPassed(w.db.awaiting, id, now) && cut >= 1
    requires Allowed(cfg, w, Act(Park(id, now, newId), cut))
    requires Possible(cfg, Perform(cfg, w, Act(Park(id, now, newId), cut)), acts)
    ensures var w1 := Perform(cfg, w, Act(Park(id, now, newId), cut)); var w2 := Run(cfg, w1, acts);
      && (id in w2.db.messages ==> id in w2.db.awaiting && w2.db.awaiting[id].closed == Some(Parked))
      && Releases(w2.log, id) == Releases(w.log, id) + (if cut >= 2 then 1 else 0)
      && (cut == 2 ==> Key(newId, x) !in w2.db.deliveries)
      && (cut == 3 ==> Key(newId, w.db.messages[id].from) in w1.db.deliveries)
  {
    hide Inv, Steps, Releases;
    var a := Act(Park(id, now, newId), cut);
    var w1 := Perform(cfg, w, a);
    ParkShape(w, id, now, newId);
    var origin := w.db.messages[id];
    ParkCut(w, id, NoticeTo(origin, origin.from, StillParked, true, Response, newId, now), origin.from, cut);
    hide ParkPlan, IsRelease;
    PerformKeeps(cfg, w, a);
    ClosedStays(cfg, w1, acts, id);
    AskStored(w1, id);
    OwnId(w1, id);
    ClosedNeverReleased(cfg, w1, acts, id);
    if cut == 2 { LostWord(cfg, w, a, acts, x); }
  }

  // ---- Cancelled, and still there ------------------------------------------------------------------

  /** An open ask has one copy, its addressee's; a cancel closes, then consumes it, then tells whoever had seen it. */
  lemma CancelShape(w: World, id: Id, order: seq<Address>, now: Time, newId: Id)
    requires Inv(w) && AskOpen(w.db.awaiting, id) && Enumerates(order, RowsOf(w.db.deliveries, id))
    ensures id in w.db.messages && Key(id, w.db.messages[id].to) in w.db.deliveries
    ensures var origin := w.db.messages[id]; var s := w.db.deliveries[Key(id, origin.to)].state;
      CancelPlan(w.db, id, order, now, newId).work ==
        [CloseAwaiting(id, Cancelled)]
        + (if IsSettled(s) then []
           else [MarkConsumed(id, origin.to)]
                + (if s.Queued? then []
                   else [Append(NoticeTo(origin, origin.to, Withdrawal, false, Response, newId, now)), Enqueue(newId, origin.to)]))
  {
    AskHasRow(w, id);
    AskStored(w, id);
    var origin := w.db.messages[id];
    OneCopy(w, id);
    OnlyOne(order, origin.to);
    hide Inv;
    assert WithdrawEach(w.db.deliveries, origin, order[1..], now, newId) == [];
    assert WithdrawEach(w.db.deliveries, origin, order[1..], now, newId + 1) == [];
  }

  lemma OneCopy(w: World, id: Id)
    requires Inv(w) && id in w.db.awaiting
    ensures id in w.db.messages && RowsOf(w.db.deliveries, id) == {w.db.messages[id].to}
  {
    AskHasRow(w, id);
    AskStored(w, id);
    var to := w.db.messages[id].to;
    assert Key(id, to).addr in RowsOf(w.db.deliveries, id);
  }

  lemma OnlyOne(order: seq<Address>, x: Address)
    requires Enumerates(order, {x})
    ensures order == [x]
  {
    assert |order| <= 1 || order[0] != order[1];
    forall y ensures y in order <==> y == x { EnumeratesIn(order, {x}, y); }
    assert x in order;
    assert forall i :: 0 <= i < |order| ==> order[i] in order;
  }

  /** One ask with one copy, and whether its reader's withdrawal notice is stored, and queued. */
  ghost predicate Copy(b: DB, m: Message, asks: Asks, s: DeliveryState, notice: Id, stored: bool, queued: bool) {
    && b.awaiting == asks
    && m.id in b.messages && b.messages[m.id] == m && (notice in b.messages <==> stored)
    && (forall x :: Key(m.id, x) in b.deliveries <==> x == m.to)
    && b.deliveries[Key(m.id, m.to)].state == s
    && (forall x :: Key(notice, x) in b.deliveries <==> queued && x == m.to)
  }

  lemma CopyStep(b: DB, m: Message, asks: Asks, s: DeliveryState, notice: Message, stored: bool, queued: bool, t: Stmt)
    requires Copy(b, m, asks, s, notice.id, stored, queued) && notice.id != m.id && notice.operationId.None?
    ensures t == CloseAwaiting(m.id, Cancelled) ==> Copy(Exec(b, t), m, CloseAsk(asks, m.id, Cancelled), s, notice.id, stored, queued)
    ensures t == MarkConsumed(m.id, m.to) ==> Copy(Exec(b, t), m, asks, Consumed, notice.id, stored, queued)
    ensures t == Append(notice) ==> Copy(Exec(b, t), m, asks, s, notice.id, true, queued)
    ensures t == Enqueue(notice.id, m.to) ==> Copy(Exec(b, t), m, asks, s, notice.id, stored, true)
  {
  }

  /** How far a cancel got: which of its reader's copies and notices there are. */
  ghost predicate CancelledSoFar(w: World, id: Id, m: Message, s: DeliveryState, newId: Id, b: DB, cut: nat) {
    Copy(b, m, if cut == 0 then w.db.awaiting else CloseAsk(w.db.awaiting, id, Cancelled),
         if cut <= 1 || IsSettled(s) then s else Consumed, newId, cut >= 3, cut == 4)
  }

  /** After some of a cancel's statements: what its reader still holds, and what it was told. */
  lemma {:induction false} CancelCut(w: World, id: Id, order: seq<Address>, now: Time, newId: Id, cut: nat)
    requires Inv(w) && AskOpen(w.db.awaiting, id) && Enumerates(order, RowsOf(w.db.deliveries, id)) && newId >= w.next
    requires cut <= |CancelPlan(w.db, id, order, now, newId).work| && id in w.db.messages
    requires Key(id, w.db.messages[id].to) in w.db.deliveries
    ensures var m := w.db.messages[id];
      && m.id == id
      && CancelledSoFar(w, id, m, w.db.deliveries[Key(id, m.to)].state, newId,
                        Steps(w, CancelPlan(w.db, id, order, now, newId).work[..cut]).db, cut)
    decreases cut
  {
    hide Inv, Enumerates, RowsOf, CancelPlan, Copy, Exec, CancelledSoFar;
    OwnId(w, id);
    var m := w.db.messages[id];
    var s := w.db.deliveries[Key(id, m.to)].state;
    var p := CancelPlan(w.db, id, order, now, newId).work;
    CancelShape(w, id, order, now, newId);
    if cut == 0 {
      assert p[..0] == [];
      NoSteps(w);
      CopyBefore(w, id, newId);
    } else {
      var n := cut - 1;
      CancelCut(w, id, order, now, newId, n);
      assert p[..cut] == p[..n] + [p[n]];
      StepsConcat(w, p[..n], [p[n]]);
      OneStep(Steps(w, p[..n]), p[n]);
      hide Steps;
      CancelNext(w, id, m, s, now, newId, Steps(w, p[..n]).db, n, p[n]);
    }
  }

  /** The n-th statement of a cancel takes it one further. */
  lemma CancelNext(w: World, id: Id, m: Message, s: DeliveryState, now: Time, newId: Id, b: DB, n: nat, t: Stmt)
    requires CancelledSoFar(w, id, m, s, newId, b, n) && AskOpen(w.db.awaiting, id) && m.id == id && newId != id && n < 4
    requires var notice := NoticeTo(m, m.to, Withdrawal, false, Response, newId, now);
      t == if n == 0 then CloseAwaiting(id, Cancelled) else if n == 1 then MarkConsumed(id, m.to)
           else if n == 2 then Append(notice) else Enqueue(newId, m.to)
    requires n > 0 ==> !IsSettled(s)
    ensures CancelledSoFar(w, id, m, s, newId, Exec(b, t), n + 1)
  {
    hide Exec, Copy;
    CopyStep(b, m, if n == 0 then w.db.awaiting else CloseAsk(w.db.awaiting, id, Cancelled),
             if n <= 1 || IsSettled(s) then s else Consumed,
             NoticeTo(m, m.to, Withdrawal, false, Response, newId, now), n >= 3, n == 4, t);
  }

  lemma CopyBefore(w: World, id: Id, newId: Id)
    requires Inv(w) && AskOpen(w.db.awaiting, id) && newId >= w.next && id in w.db.messages
    requires Key(id, w.db.messages[id].to) in w.db.deliveries
    ensures Copy(w.db, w.db.messages[id], w.db.awaiting, w.db.deliveries[Key(id, w.db.messages[id].to)].state, newId, false, false)
    ensures CancelledSoFar(w, id, w.db.messages[id], w.db.deliveries[Key(id, w.db.messages[id].to)].state, newId, w.db, 0)
  {
    AskStored(w, id);
    OwnId(w, id);
    Unused(w, newId);
    OneCopy(w, id);
    forall x ensures Key(id, x) in w.db.deliveries <==> x == w.db.messages[id].to {
      assert Key(id, x) in w.db.deliveries ==> Key(id, x).addr in RowsOf(w.db.deliveries, id);
    }
  }

  /**
   A cancel killed on the way.  The ask stays in its reader's mail exactly if the crash fell before
   the copy was consumed: at once if nothing ran, and as cancelled mail still waiting if only the
   closing did.  A reader who had seen it is told exactly if everything ran.  And there is no
   second chance: no later run says a word about it, and cancelling again changes no table.
   */
  lemma CrashedCancel(cfg: Config, w: World, a: Act, acts: seq<Act>, x: Address, order: seq<Address>, now: Time, newId: Id)
    requires Inv(w) && Allowed(cfg, w, a) && a.event.Cancel? && AskOpen(w.db.awaiting, a.event.id)
    requires Possible(cfg, Perform(cfg, w, a), acts)
    ensures var id := a.event.id; var w1 := Perform(cfg, w, a); var w2 := Run(cfg, w1, acts); var to := w.db.messages[id].to;
      && id in w.db.messages
      && (Recoverable(w1.db, id, x) <==>
            Recoverable(w.db, id, x) && (a.cut == 0 || (a.cut == 1 && PendingRow(w.db.deliveries, Key(id, x)))))
      && (Key(a.event.newId, to) in w1.db.deliveries <==> a.cut == 4)
      && (a.cut > 0 ==>
            && Quiet(w1.log, w2.log, id)
            && (id in w2.db.messages ==> AskCancelled(w2.db.awaiting, id))
            && ExecAll(w2.db, CancelPlan(w2.db, id, order, now, newId).work) == w2.db)
  {
    hide Inv, Steps, Quiet;
    var e := a.event;
    var id := e.id;
    var w1 := Perform(cfg, w, a);
    AskHasRow(w, id);
    CancelCut(w, id, e.order, e.now, e.newId, a.cut);
    CopyBefore(w, id, e.newId);
    PerformKeeps(cfg, w, a);
    hide CancelPlan;
    if a.cut > 0 {
      OwnId(w1, id);
      CancelledIsSilent(cfg, w1, acts, id);
      RunKeeps(cfg, w1, acts);
      SilencedStays(w1, Run(cfg, w1, acts), id);
      CancelAgain(Run(cfg, w1, acts).db, id, order, now, newId);
    }
  }

  lemma CancelAgain(db: DB, id: Id, order: seq<Address>, now: Time, newId: Id)
    requires id in db.messages ==> AskCancelled(db.awaiting, id)
    ensures ExecAll(db, CancelPlan(db, id, order, now, newId).work) == db
  {
    ExecJust(db, CloseAwaiting(id, Cancelled));
  }

  // ---- Answered, and parked all the same -------------------------------------------------------------

  lemma {:induction false} SaidSticks(w: World, work: seq<Stmt>, m: Message)
    requires Inv(w) && Safe(w, work) && Append(m) in work
    ensures exists i :: 0 <= i < |Steps(w, work).log| && Steps(w, work).log[i] == Posted(m)
    decreases |work|
  {
    hide Inv;
    var w1 := Step(w, work[0]);
    StepKeeps(w, work[0]);
    if work[0] == Append(m) {
      AppendInserts(w, work[0]);
      SafeRuns(w1, work[1..], |work| - 1);
      assert work[1..][..|work| - 1] == work[1..];
      assert w1.log[|w.log|] == Posted(m);
      assert Steps(w, work).log[|w.log|] == Posted(m);
    } else {
      SaidSticks(w1, work[1..], m);
      assert Steps(w, work) == Steps(w1, work[1..]);
    }
  }

  /** Statements that say and settle, and leave every ask's row as it is. */
  predicate Says(s: Stmt) { s.Append? || s.Enqueue? || s.SetConsent? }

  lemma {:induction false} SaysOnly(w: World, work: seq<Stmt>)
    requires forall s :: s in work ==> Says(s)
    ensures Steps(w, work).db.awaiting == w.db.awaiting
    ensures w.db.messages.Keys <= Steps(w, work).db.messages.Keys
    decreases |work|
  {
    if work != [] {
      assert Says(work[0]);
      MessagesFrame(w.db, work[0]);
      SaysOnly(Step(w, work[0]), work[1..]);
    }
  }

  /** What a torn answer ran: its answer among other words, and nothing that closes. */
  lemma TornAnswer(cfg: Config, w: World, a: Act)
    requires Inv(w) && Allowed(cfg, w, a) && (a.event.Reply? || a.event.Decline?) && Torn(cfg, w.db, a)
    ensures var id := if a.event.Reply? then a.event.reply.corrId else a.event.id; var work := Work(cfg, w.db, a.event)[..a.cut];
      && id in w.db.messages && w.db.messages[id].id == id && AskOpen(w.db.awaiting, id)
      && (forall s :: s in work ==> Says(s) && (s.Append? ==> !s.m.from.Broker?))
      && exists m :: Append(m) in work && IsAnswer(m, id, w.db.messages[id].from)
  {
    hide Inv, Actable, SettleCopies;
    var e := a.event;
    var id := if e.Reply? then e.reply.corrId else e.id;
    AskStored(w, id);
    var origin := w.db.messages[id];
    if e.Reply? {
      var m := ResponseTo(origin, e.reply, e.newId, e.now);
      assert Work(cfg, w.db, e)[..a.cut] == [Append(m), Enqueue(e.newId, origin.from)][..a.cut];
      assert Append(m) == Work(cfg, w.db, e)[..a.cut][0];
    } else {
      BrokerCannotAct(w, e.roster, id, e.alias);
      var m := DeclineAnswer(origin, e.alias, e.reason, e.newId, e.now);
      assert Work(cfg, w.db, e)[..a.cut] == [SetConsent(id, e.alias, false), Append(m), Enqueue(e.newId, origin.from)][..a.cut];
      assert Append(m) == Work(cfg, w.db, e)[..a.cut][1];
    }
  }

  /**
   A reply or a direct decline killed between its answer and the closing leaves the ask answered
   and open; the next chase past its deadline parks it and tells its sender that nobody answered.
   */
  lemma AnsweredYetParked(cfg: Config, w: World, a: Act, later: Time, laterId: Id)
    requires Inv(w) && Allowed(cfg, w, a) && (a.event.Reply? || a.event.Decline?) && Torn(cfg, w.db, a)
    requires var id := if a.event.Reply? then a.event.reply.corrId else a.event.id;
      Overdue(w.db, id, later, cfg.finalGraceS) && w.db.awaiting[id].nudgedStage < 2
    requires laterId >= Perform(cfg, w, a).next
    ensures var id := if a.event.Reply? then a.event.reply.corrId else a.event.id; var w1 := Perform(cfg, w, a);
      var d := Steps(w1, ChasePlan(w1.db, id, later, cfg.finalGraceS, laterId));
      && Answered(w1.log, id, w.db.messages[id].from) && AskOpen(w1.db.awaiting, id)
      && id in d.db.awaiting && d.db.awaiting[id].closed == Some(Parked)
      && Releases(d.log, id) == Releases(w.log, id) + 1
  {
    hide Inv, Steps, Releases, Safe, Torn, Work;
    var id := if a.event.Reply? then a.event.reply.corrId else a.event.id;
    var work := Work(cfg, w.db, a.event)[..a.cut];
    var w1 := Perform(cfg, w, a);
    TornAnswer(cfg, w, a);
    var m :| Append(m) in work && IsAnswer(m, id, w.db.messages[id].from);
    EventSafe(cfg, w, a.event);
    SafePrefix(w, Work(cfg, w.db, a.event), a.cut);
    PerformKeeps(cfg, w, a);
    SaidSticks(w, work, m);
    SaysOnly(w, work);
    ReleasesSteps(w, work, id);
    StoredKept(w, w1, id);
    var p := ChasePlan(w1.db, id, later, cfg.finalGraceS, laterId);
    assert p[..|p|] == p;
    ChaseEffect(w1, id, later, cfg.finalGraceS, laterId, |p|);
    OriginStored(w1, id);
  }

  // ---- Answered, and still to be answered ------------------------------------------------------------

  /** Which statement of an addressee's reply consumes its copy. */
  function ConsumedBy(db: DB, a: ReplyArgs, origin: Message): nat {
    var first := 2 + (if Closes(db, a, origin) then 1 else 0) + (if a.terminal then 0 else 1);
    if a.from == origin.to then first else first + 1
  }

  /** A reply to an ask: its closing, if any, is its third statement; the addressee's copy goes later, or never. */
  lemma ReplyPlaces(db: DB, roster: Roster, a: ReplyArgs, now: Time, newId: Id, i: nat)
    requires ReplyPlan(db, roster, a, now, newId).answer.Replied? && a.corrId in db.messages
    requires IsAsk(db.messages[a.corrId].kind) && db.messages[a.corrId].id == a.corrId
    requires i < |ReplyPlan(db, roster, a, now, newId).work|
    ensures var origin := db.messages[a.corrId]; var s := ReplyPlan(db, roster, a, now, newId).work[i];
      && (s.CloseAwaiting? <==> i == 2 && Closes(db, a, origin))
      && (s.CloseAwaiting? ==> s == CloseAwaiting(a.corrId, Responded))
      && (s == MarkConsumed(a.corrId, origin.to) ==> FromAddressee(roster, origin, a.from) && i >= ConsumedBy(db, a, origin))
      && (FromAddressee(roster, origin, a.from) && i == ConsumedBy(db, a, origin) ==> s == MarkConsumed(a.corrId, origin.to))
      && (i == 0 ==> s == Append(ResponseTo(origin, a, newId, now)))
      && (i == 1 ==> s == Enqueue(newId, origin.from))
      && (i >= 2 && !s.CloseAwaiting? ==> s.MarkConsumed? || s.DeferNudge?)
  {
  }

  /** How far a reply got with its ask: is the ask closed by it, is the addressee's copy consumed? */
  ghost predicate RepliedSoFar(db: DB, b: DB, id: Id, to: Address, closed: bool, consumed: bool) {
    var k := Key(id, to);
    && id in db.messages && id in b.messages && b.messages[id] == db.messages[id]
    && (AskOpen(b.awaiting, id) <==> AskOpen(db.awaiting, id) && !closed)
    && (k in b.deliveries <==> k in db.deliveries)
    && (k in b.deliveries ==> b.deliveries[k].state == if consumed then Consumed else db.deliveries[k].state)
  }

  lemma ReplyNext(db: DB, b: DB, id: Id, to: Address, closed: bool, consumed: bool, t: Stmt)
    requires RepliedSoFar(db, b, id, to, closed, consumed)
    requires t.CloseAwaiting? || t.DeferNudge? || t.MarkConsumed? || (t.Append? && t.m.id != id) || (t.Enqueue? && t.id != id)
    requires t.CloseAwaiting? ==> t.id == id
    ensures RepliedSoFar(db, Exec(b, t), id, to, closed || t.CloseAwaiting?, consumed || t == MarkConsumed(id, to))
  {
  }

  lemma {:induction false} ReplyCut(w: World, roster: Roster, a: ReplyArgs, now: Time, newId: Id, cut: nat)
    requires Inv(w) && newId >= w.next && DirectedAsk(w.db.messages, a.corrId)
    requires ReplyPlan(w.db, roster, a, now, newId).answer.Replied? && cut <= |ReplyPlan(w.db, roster, a, now, newId).work|
    ensures var origin := w.db.messages[a.corrId];
      RepliedSoFar(w.db, Steps(w, ReplyPlan(w.db, roster, a, now, newId).work[..cut]).db, a.corrId, origin.to,
                   Closes(w.db, a, origin) && cut >= 3,
                   FromAddressee(roster, origin, a.from) && cut > ConsumedBy(w.db, a, origin))
    decreases cut
  {
    hide Inv, ReplyPlan, RepliedSoFar, FromAddressee, Closes, Exec, Step;
    OwnId(w, a.corrId);
    var origin := w.db.messages[a.corrId];
    var p := ReplyPlan(w.db, roster, a, now, newId).work;
    if cut == 0 {
      assert p[..0] == [];
      NothingReplied(w.db, a.corrId, origin.to);
    } else {
      var n := cut - 1;
      ReplyCut(w, roster, a, now, newId, n);
      ReplyPlaces(w.db, roster, a, now, newId, n);
      assert p[..cut] == p[..n] + [p[n]];
      StepsConcat(w, p[..n], [p[n]]);
      OneStep(Steps(w, p[..n]), p[n]);
      StepDb(Steps(w, p[..n]), p[n]);
      hide Steps;
      ReplyNext(w.db, Steps(w, p[..n]).db, a.corrId, origin.to, Closes(w.db, a, origin) && n >= 3,
                FromAddressee(roster, origin, a.from) && n > ConsumedBy(w.db, a, origin), p[n]);
    }
  }

  lemma StepDb(w: World, s: Stmt)
    ensures Step(w, s).db == Exec(w.db, s)
  {
  }

  lemma NothingReplied(db: DB, id: Id, to: Address)
    requires id in db.messages
    ensures RepliedSoFar(db, db, id, to, false, false)
  {
  }

  lemma CopyAtAddressee(w: World, id: Id, x: Address)
    requires Inv(w) && DirectedAsk(w.db.messages, id) && Key(id, x) in w.db.deliveries
    ensures x == w.db.messages[id].to
  {
    assert Key(id, x).msg == id;
  }

  /**
   A reply to an ask killed on the way.  After any of its statements the ask is in a mailbox exactly
   if it was before, the reply has not consumed its addressee's copy, and, once the reply has closed
   the ask, the copy was still waiting: a host had not yet persisted it.  So a crash between the
   closing and the copy leaves an answered and closed ask waiting in its reader's mail, and a reply
   from anyone but the addressee's session always does.
   */
  lemma CrashedReply(cfg: Config, w: World, a: Act, x: Address)
    requires Inv(w) && Allowed(cfg, w, a) && a.event.Reply? && DirectedAsk(w.db.messages, a.event.reply.corrId)
    requires ReplyPlan(w.db, a.event.roster, a.event.reply, a.event.now, a.event.newId).answer.Replied?
    ensures var reply := a.event.reply; var id := reply.corrId; var origin := w.db.messages[id]; var b := Perform(cfg, w, a).db;
      Recoverable(b, id, x) <==>
        && Recoverable(w.db, id, x)
        && !(FromAddressee(a.event.roster, origin, reply.from) && a.cut > ConsumedBy(w.db, reply, origin))
        && (Closes(w.db, reply, origin) && a.cut >= 3 ==> PendingRow(w.db.deliveries, Key(id, x)))
  {
    hide Inv, Steps, ReplyPlan, FromAddressee, Closes, ConsumedBy;
    var e := a.event;
    var id := e.reply.corrId;
    ReplyCut(w, e.roster, e.reply, e.now, e.newId, a.cut);
    PerformKeeps(cfg, w, a);
    hide Follows;
    var b := Perform(cfg, w, a);
    if Key(id, x) in w.db.deliveries { CopyAtAddressee(w, id, x); }
    if Key(id, x) in b.db.deliveries { CopyAtAddressee(b, id, x); }
  }
}
