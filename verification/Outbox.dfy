/**
 An outbox intent leaves the outbox only once its send is fully routed, or is refused in a
 way no retry could change (src/broker/router.ts:461-481).
 */
module Outbox {
  import opened Models
  import opened Store
  import opened Invariants
  import opened Statements
  import opened Verbs
  import opened Runs
  import opened VerbSafety
  import opened Retry

  predicate Plain(s: Stmt) { !s.Purge? && !s.DeleteOutbound? }

  /** Work that neither purges nor drops an intent. */
  predicate Keeping(work: seq<Stmt>) { forall s :: s in work ==> Plain(s) }

  /** Plain, and it neither leases, nor frees a claim, nor records a stage, nor posts a nudge. */
  predicate Mild(s: Stmt) {
    Plain(s) && !s.LeaseFor? && !s.ReleaseClaim? && !s.MarkNudged? && ((s.Append? || s.AppendRouted?) ==> s.m.body != Notice(Nudge))
  }

  predicate Gentle(work: seq<Stmt>) { forall s :: s in work ==> Mild(s) }

  lemma {:induction false} KeepingKeeps(w: World, work: seq<Stmt>)
    requires Keeping(work)
    ensures w.db.outbound.Keys <= Steps(w, work).db.outbound.Keys
    ensures w.db.messages.Keys <= Steps(w, work).db.messages.Keys
    decreases |work|
  {
    hide Exec;
    if work != [] {
      assert Plain(work[0]);
      MessagesFrame(w.db, work[0]);
      OutboxFrame(w.db, work[0]);
      KeepingKeeps(Step(w, work[0]), work[1..]);
    }
  }

  lemma {:induction false} WithdrawKeeping(rows: Rows, origin: Message, order: seq<Address>, now: Time, newId: Id)
    ensures Gentle(WithdrawEach(rows, origin, order, now, newId))
    decreases |order|
  {
    if order != [] {
      WithdrawKeeping(rows, origin, order[1..], now, newId);
      WithdrawKeeping(rows, origin, order[1..], now, newId + 1);
    }
  }

  lemma ReplayGentle(cfg: Config, db: DB, roster: Roster, a: SendArgs, m: Message, passers: seq<Address>)
    ensures Gentle(ReplayPlan(cfg, db, roster, a, m, passers).work)
  {
    hide RouteOf, SamePayload;
  }

  lemma FirstGentle(cfg: Config, roster: Roster, a: SendArgs, id: Id, now: Time)
    ensures Gentle(FirstSend(cfg, roster, a, id, now).work)
  {
    hide Targets, SessionBoxes;
  }

  lemma DegradedGentle(cfg: Config, roster: Roster, a: SendArgs, op: string, id: Id, now: Time)
    ensures Gentle(DegradedSend(cfg, roster, a, op, id, now).work)
  {
    hide Targets, DegradedBoxes, IntentOf;
  }

  lemma SendKeeping(cfg: Config, db: DB, roster: Roster, a: SendArgs, now: Time, newId: Id)
    ensures Gentle(SendPlan(cfg, db, roster, a, now, newId).work)
    ensures Keeping(SendPlan(cfg, db, roster, a, now, newId).work)
  {
    hide ReplayPlan, FirstSend, FindOp;
    match FindOp(db.messages, a.operationId)
    case Some(m) => ReplayGentle(cfg, db, roster, a, m, SessionBoxes(roster, m.from));
    case None => FirstGentle(cfg, roster, a, if a.messageId.Some? then a.messageId.value else newId, now);
  }

  lemma DegradedKeeping(cfg: Config, db: DB, roster: Roster, a: SendArgs, op: string, id: Id, now: Time)
    ensures Gentle(DegradedPlan(cfg, db, roster, a, op, id, now).work)
  {
    hide ReplayPlan, DegradedSend, FindOp;
    match FindOp(db.messages, Some(op))
    case Some(m) => ReplayGentle(cfg, db, roster, a, m, DegradedBoxes(roster, m.from));
    case None => DegradedGentle(cfg, roster, a.(operationId := Some(op)), op, id, now);
  }

  lemma ReplyKeeping(db: DB, roster: Roster, a: ReplyArgs, now: Time, newId: Id)
    ensures Gentle(ReplyPlan(db, roster, a, now, newId).work)
  {
    hide Actable, Blank, SettleCopies;
    if a.corrId in db.messages {
      CopiesKeeping(roster, db.messages[a.corrId], a.from, true);
      CopiesKeeping(roster, db.messages[a.corrId], a.from, false);
    }
  }

  lemma CopiesKeeping(roster: Roster, origin: Message, from: Address, project: bool)
    ensures Gentle(SettleCopies(roster, origin, from, project))
  {
  }

  /**
   Apart from reconciling and the sweeper's purge, no event removes an intent or a message;
   apart from a chase, none records a stage or posts a nudge; apart from an accept, none frees a claim.
   */
  lemma WorkKeeping(cfg: Config, db: DB, e: Event)
    requires !e.Reconcile? && !e.Storage?
    ensures Keeping(Work(cfg, db, e))
    ensures !e.Chase? && !e.Accept? ==> Gentle(Work(cfg, db, e))
    ensures forall s :: s in Work(cfg, db, e) ==> !s.LeaseFor? && (s.ReleaseClaim? ==> e.Accept?)
  {
    hide SendPlan, DegradedPlan, ReplyPlan, DeclinePlan, ChasePlan, WithdrawEach;
    match e
    case Send(roster, a, now, newId) => SendKeeping(cfg, db, roster, a, now, newId);
    case Degraded(roster, a, op, id, now) => DegradedKeeping(cfg, db, roster, a, op, id, now);
    case Reply(roster, a, now, newId) => ReplyKeeping(db, roster, a, now, newId);
    case Decline(roster, alias, id, reason, now, newId) => DeclineKeeping(db, roster, alias, id, reason, now, newId);
    case Cancel(id, order, now, newId) =>
      if id in db.messages { WithdrawKeeping(db.deliveries, db.messages[id], order, now, newId); }
    case Chase(id, now, newId) => ChaseKeeping(db, id, now, cfg.finalGraceS, newId);
    case _ =>
  }

  lemma DeclineKeeping(db: DB, roster: Roster, alias: Address, id: Id, reason: string, now: Time, newId: Id)
    ensures Gentle(DeclinePlan(db, roster, alias, id, reason, now, newId).work)
  {
    hide Actable;
  }

  lemma ChaseKeeping(db: DB, id: Id, now: Time, grace: int, newId: Id)
    ensures forall s :: s in ChasePlan(db, id, now, grace, newId) ==> Plain(s) && !s.LeaseFor? && !s.ReleaseClaim?
  {
  }

  /** Reconciling is a send, and at most the dropping of its intent. */
  lemma ReconcileKeeps(cfg: Config, db: DB, e: Event)
    requires e.Reconcile?
    ensures forall s :: s in Work(cfg, db, e) ==> Mild(s) || s.DeleteOutbound?
  {
    hide SendPlan;
    if e.op in db.outbound {
      SendKeeping(cfg, db, e.roster, db.outbound[e.op].args, e.now, e.newId);
      var p := SendPlan(cfg, db, e.roster, db.outbound[e.op].args, e.now, e.newId).work;
      assert forall s :: s in p ==> Mild(s);
    }
  }

  /** Every target has its row, and a directed ask is being awaited. */
  ghost predicate FullyRouted(db: DB, id: Id, targets: seq<Address>) {
    && id in db.messages
    && (forall t :: t in targets ==> Key(id, t) in db.deliveries)
    && (OpensThread(db.messages[id].kind, db.messages[id].to) ==> id in db.awaiting)
  }

  lemma {:induction false} OpenSticks(w: World, work: seq<Stmt>, s: Stmt)
    requires Inv(w) && Safe(w, work) && s in work && s.OpenAwaiting?
    ensures s.id in Steps(w, work).db.messages ==> s.id in Steps(w, work).db.awaiting
    decreases |work|
  {
    hide Inv;
    var w1 := Step(w, work[0]);
    StepKeeps(w, work[0]);
    if work[0] == s {
      SafeRuns(w1, work[1..], |work| - 1);
      assert work[1..][..|work| - 1] == work[1..];
    } else {
      OpenSticks(w1, work[1..], s);
    }
  }

  /** A send that answered Sent and ran to its end is fully routed. */
  lemma SentIsRouted(cfg: Config, w: World, roster: Roster, a: SendArgs, now: Time, newId: Id, id: Id,
                     targets: seq<Address>, replayed: bool)
    requires Inv(w) && Fresh(w, Send(roster, a, now, newId))
    requires SendPlan(cfg, w.db, roster, a, now, newId).answer == Sent(id, targets, replayed)
    ensures FullyRouted(Steps(w, SendPlan(cfg, w.db, roster, a, now, newId).work).db, id, targets)
  {
    hide Inv, Steps;
    var e := Send(roster, a, now, newId);
    var work := Work(cfg, w.db, e);
    var w1 := Steps(w, work);
    EventSafe(cfg, w, e);
    SafeRuns(w, work, |work|);
    assert work[..|work|] == work;
    WorkKeeping(cfg, w.db, e);
    KeepingKeeps(w, work);
    SendRoutes(cfg, w, e, id, targets, replayed);
    forall t | t in targets ensures id in w1.db.messages ==> Key(id, t) in w1.db.deliveries {
      SendEnqueues(cfg, w.db, e, id, targets, replayed, t);
      EnqueueSticks(w, work, id, t);
    }
    if replayed {
      FoundStored(w, a.operationId);
      var m := FindOp(w.db.messages, a.operationId).value;
      StoredKept(w, w1, id);
      if OpensThread(m.kind, m.to) {
        if id in w.db.awaiting { AwaitingKept(w, w1, id); } else { OpenSticks(w, work, OpenFor(cfg, a, m)); }
      }
    } else {
      var m := Compose(cfg, a, id, now);
      assert AppendRouted(m, targets) in work;
      AppendSticks(w, work, m, targets);
      if OpensThread(m.kind, m.to) { OpenSticks(w, work, OpenFor(cfg, a, m)); }
    }
  }

  lemma FoundStored(w: World, op: Option<string>)
    requires Inv(w) && FindOp(w.db.messages, op).Some?
    ensures var m := FindOp(w.db.messages, op).value; m.id in w.db.messages && w.db.messages[m.id] == m
  {
    FoundOp(w.db.messages, w.next, op);
  }

  lemma StoredKept(a: World, b: World, id: Id)
    requires Inv(a) && Follows(a, b) && id in a.db.messages && id in b.db.messages
    ensures b.db.messages[id] == a.db.messages[id]
  {
  }

  lemma AwaitingKept(a: World, b: World, id: Id)
    requires Follows(a, b) && id in a.db.awaiting && id in b.db.messages
    ensures id in b.db.awaiting
  {
  }

  lemma {:induction false} AppendSticks(w: World, work: seq<Stmt>, m: Message, targets: seq<Address>)
    requires Inv(w) && Safe(w, work) && Keeping(work) && AppendRouted(m, targets) in work
    ensures m.id in Steps(w, work).db.messages && Steps(w, work).db.messages[m.id] == m
    decreases |work|
  {
    hide Inv;
    var w1 := Step(w, work[0]);
    StepKeeps(w, work[0]);
    if work[0] == AppendRouted(m, targets) {
      SafeRuns(w1, work[1..], |work| - 1);
      assert work[1..][..|work| - 1] == work[1..];
      KeepingKeeps(w1, work[1..]);
      StoredKept(w1, Steps(w1, work[1..]), m.id);
    } else {
      AppendSticks(w1, work[1..], m, targets);
    }
  }

  /**
   Whatever event runs, and wherever it is cut: an intent that has left the outbox was either
   refused for good, or its send was answered and is fully routed in that very state.
   */
  lemma IntentLeavesRouted(cfg: Config, w: World, a: Act, op: string)
    requires Inv(w) && Allowed(cfg, w, a) && op in w.db.outbound && op !in Perform(cfg, w, a).db.outbound
    ensures a.event.Reconcile? && a.event.op == op
    ensures var answer := SendAnswer(cfg, w.db, a.event);
      || (answer.Refusal? && Permanent(answer.code))
      || (answer.Sent? && FullyRouted(Perform(cfg, w, a).db, answer.id, answer.recipients))
  {
    hide Inv, Steps;
    var work := Work(cfg, w.db, a.event);
    if a.event.Storage? {
      StorageKeepsOutbox(w, a.event.s, a.cut);
    } else if !a.event.Reconcile? {
      WorkKeeping(cfg, w.db, a.event);
      KeepingKeeps(w, work[..a.cut]);
    } else {
      ReconcileLeaves(cfg, w, a, op);
    }
  }

  lemma StorageKeepsOutbox(w: World, s: Stmt, cut: nat)
    requires StorageOp(s) && cut <= 1
    ensures Steps(w, [s][..cut]).db.outbound == w.db.outbound
  {
    if cut == 1 {
      assert [s][..cut] == [s] && [s][1..] == [];
      assert Steps(Step(w, s), []) == Step(w, s);
    }
  }

  /** Nothing is dropped before the last statement; the last one drops the intent alone. */
  lemma ReconcileEnd(w: World, work: seq<Stmt>, op: string)
    requires Keeping(work)
    ensures Steps(w, work + [DeleteOutbound(op)]).db
         == Steps(w, work).db.(outbound := Steps(w, work).db.outbound - {op})
  {
    hide Steps, Keeping;
    StepsConcat(w, work, [DeleteOutbound(op)]);
    OneStep(Steps(w, work), DeleteOutbound(op));
  }

  lemma ReconcileLeaves(cfg: Config, w: World, a: Act, op: string)
    requires Inv(w) && Allowed(cfg, w, a) && a.event.Reconcile?
    requires op in w.db.outbound && op !in Perform(cfg, w, a).db.outbound
    ensures a.event.op == op
    ensures var answer := SendAnswer(cfg, w.db, a.event);
      || (answer.Refusal? && Permanent(answer.code))
      || (answer.Sent? && FullyRouted(Perform(cfg, w, a).db, answer.id, answer.recipients))
  {
    hide Inv, Steps, SendPlan;
    var e := a.event;
    var work := Work(cfg, w.db, e);
    if e.op !in w.db.outbound {
      assert work[..a.cut] == [] && Keeping(work[..a.cut]);
      KeepingKeeps(w, work[..a.cut]);
    } else {
      var args := w.db.outbound[e.op].args;
      var p := SendPlan(cfg, w.db, e.roster, args, e.now, e.newId);
      SendKeeping(cfg, w.db, e.roster, args, e.now, e.newId);
      KeepingKeeps(w, p.work);
      if a.cut <= |p.work| {
        assert work[..a.cut] == p.work[..a.cut];
        KeepingKeeps(w, p.work[..a.cut]);
      } else {
        assert work[..a.cut] == p.work + [DeleteOutbound(e.op)];
        ReconcileEnd(w, p.work, e.op);
        SendAnswers(cfg, w.db, e.roster, args, e.now, e.newId);
        if p.answer.Sent? {
          SentIsRouted(cfg, w, e.roster, args, e.now, e.newId, p.answer.id, p.answer.recipients, p.answer.replayed);
        }
      }
    }
  }

  /**
   What a complete replay leaves in the outbox: an intent stays exactly when its sender must
   register first or its recipient is unknown; with the sender registered, only for want of
   the recipient.
   */
  lemma LeftForLater(cfg: Config, w: World, a: Act)
    requires Allowed(cfg, w, a) && Whole(cfg, w, a) && a.event.Reconcile? && a.event.op in w.db.outbound
    ensures var e := a.event; var answer := SendAnswer(cfg, w.db, e); var args := w.db.outbound[e.op].args;
      && (e.op in Perform(cfg, w, a).db.outbound <==> answer == Refusal(NotRegistered) || answer == Refusal(NoPeer))
      && (e.op in Perform(cfg, w, a).db.outbound && Find(e.roster, args.from).Some? ==>
            Find(e.roster, args.to).None? && !args.to.Project? && !args.to.Everyone?)
  {
    hide Steps;
    var e := a.event;
    var args := w.db.outbound[e.op].args;
    var p := SendPlan(cfg, w.db, e.roster, args, e.now, e.newId);
    var work := Work(cfg, w.db, e);
    assert work[..a.cut] == work;
    RefusalsOf(cfg, w.db, e.roster, args, e.now, e.newId);
    if p.answer.Refusal? && !Permanent(p.answer.code) {
      NoSteps(w);
    } else {
      SendKeeping(cfg, w.db, e.roster, args, e.now, e.newId);
      ReconcileEnd(w, p.work, e.op);
    }
  }

  lemma RefusalsOf(cfg: Config, db: DB, roster: Roster, a: SendArgs, now: Time, newId: Id)
    ensures var p := SendPlan(cfg, db, roster, a, now, newId);
      && (p.answer.Refusal? ==> p.work == [])
      && (p.answer.Refusal? && !Permanent(p.answer.code) ==>
            || (p.answer.code == NotRegistered && Find(roster, a.from).None?)
            || (p.answer.code == NoPeer && !a.to.Project? && !a.to.Everyone? && Find(roster, a.to).None?))
      && (p.answer.Refusal? || p.answer.Sent?)
  {
  }

  lemma SendAnswers(cfg: Config, db: DB, roster: Roster, a: SendArgs, now: Time, newId: Id)
    ensures var answer := SendPlan(cfg, db, roster, a, now, newId).answer; answer.Refusal? || answer.Sent?
  {
  }
}
