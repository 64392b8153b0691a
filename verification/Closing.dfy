/**
 What answering and cancelling an ask settle for good (src/broker/router.ts:813-933,
 1129-1187), over every later run.
 */
module Closing {
  import opened Models
  import opened Store
  import opened Invariants
  import opened Statements
  import opened Verbs
  import opened Runs
  import opened VerbSafety
  import opened Retry
  import opened Outbox

  /** Nobody is owed this message any more: it is gone, or every copy is settled. */
  ghost predicate AllSettled(w: World, id: Id) {
    id < w.next &&
    (id in w.db.messages ==> forall k :: k in w.db.deliveries && k.msg == id ==> IsSettled(w.db.deliveries[k].state))
  }

  lemma SettledNotRecoverable(w: World, id: Id, a: Address)
    requires AllSettled(w, id)
    ensures !Recoverable(w.db, id, a)
  {
    if Key(id, a) in w.db.deliveries && id in w.db.messages {
      assert Key(id, a).msg == id;
      assert IsSettled(w.db.deliveries[Key(id, a)].state);
    }
  }

  /** The addressee's copy, once settled, is the only copy a directed ask can ever have. */
  lemma OnlyCopy(w: World, id: Id)
    requires Inv(w) && id < w.next
    requires id in w.db.messages ==>
               DirectedAsk(w.db.messages, id) && Key(id, w.db.messages[id].to) in w.db.deliveries
               && IsSettled(w.db.deliveries[Key(id, w.db.messages[id].to)].state)
    ensures AllSettled(w, id)
  {
    if id in w.db.messages {
      forall k | k in w.db.deliveries && k.msg == id ensures IsSettled(w.db.deliveries[k].state) {
        assert k == Key(id, w.db.messages[id].to);
      }
    }
  }

  /** A copy that is consumed along the way is settled at the end. */
  lemma {:induction false} ConsumeSticks(w: World, work: seq<Stmt>, id: Id, a: Address)
    requires Inv(w) && Safe(w, work) && MarkConsumed(id, a) in work && Key(id, a) in w.db.deliveries
    ensures id in Steps(w, work).db.messages ==>
      Key(id, a) in Steps(w, work).db.deliveries && IsSettled(Steps(w, work).db.deliveries[Key(id, a)].state)
    decreases |work|
  {
    hide Inv;
    var w1 := Step(w, work[0]);
    StepKeeps(w, work[0]);
    SafeRuns(w1, work[1..], |work| - 1);
    assert work[1..][..|work| - 1] == work[1..];
    var w2 := Steps(w1, work[1..]);
    if id in w2.db.messages {
      RowKnown(w, Key(id, a));
      EarlierToo(w, w1, w2, id);
      if work[0] == MarkConsumed(id, a) {
        assert Key(id, a) in w1.db.deliveries && w1.db.deliveries[Key(id, a)].state.Consumed?;
      } else {
        RowKept(w, w1, Key(id, a));
        ConsumeSticks(w1, work[1..], id, a);
      }
    }
  }

  lemma RowKnown(w: World, k: Key)
    requires Inv(w) && k in w.db.deliveries
    ensures k.msg in w.db.messages && k.msg < w.next
  {
  }

  lemma EarlierToo(a: World, b: World, c: World, id: Id)
    requires Follows(a, b) && Follows(b, c) && id < a.next && id in c.db.messages
    ensures id in b.db.messages
  {
  }

  lemma RowKept(a: World, b: World, k: Key)
    requires Follows(a, b) && k in a.db.deliveries && k.msg in b.db.messages
    ensures k in b.db.deliveries
  {
  }

  // ---- Answered stays answered -----------------------------------------------------------

  /** A reply from the addressee's session, or to a project ask from anyone. */
  predicate FromAddressee(roster: Roster, origin: Message, from: Address) {
    origin.to.Project? || origin.to == from || SameSession(roster, from, origin.to)
  }

  /** An accepted reply to a directed ask, run to its end. */
  ghost predicate AnswersAsk(cfg: Config, w: World, a: Act) {
    && Allowed(cfg, w, a) && Whole(cfg, w, a) && a.event.Reply?
    && ReplyPlan(w.db, a.event.roster, a.event.reply, a.event.now, a.event.newId).answer.Replied?
    && DirectedAsk(w.db.messages, a.event.reply.corrId)
    && FromAddressee(a.event.roster, w.db.messages[a.event.reply.corrId], a.event.reply.from)
  }

  lemma ReplyConsumes(cfg: Config, w: World, a: Act)
    requires Inv(w) && AnswersAsk(cfg, w, a)
    ensures var id := a.event.reply.corrId; MarkConsumed(id, w.db.messages[id].to) in Work(cfg, w.db, a.event)
  {
    var id := a.event.reply.corrId;
    OwnId(w, id);
    var origin := w.db.messages[id];
    assert MarkConsumed(id, origin.to) in SettleCopies(a.event.roster, origin, a.event.reply.from, true);
  }

  /** Right after such a reply, if the ask had been delivered, every copy of it is settled. */
  lemma AnswerSettles(cfg: Config, w: World, a: Act)
    requires Inv(w) && AnswersAsk(cfg, w, a)
    requires var id := a.event.reply.corrId; Key(id, w.db.messages[id].to) in w.db.deliveries
    ensures AllSettled(Perform(cfg, w, a), a.event.reply.corrId)
  {
    hide Inv, Steps;
    var id := a.event.reply.corrId;
    var work := Work(cfg, w.db, a.event);
    assert work[..a.cut] == work;
    OwnId(w, id);
    EventSafe(cfg, w, a.event);
    PerformKeeps(cfg, w, a);
    ReplyConsumes(cfg, w, a);
    ConsumeSticks(w, work, id, w.db.messages[id].to);
    var w1 := Perform(cfg, w, a);
    if id in w1.db.messages { StoredKept(w, w1, id); }
    NextGrows(w, w1);
    OnlyCopy(w1, id);
  }

  lemma NextGrows(a: World, b: World)
    requires Follows(a, b)
    ensures a.next <= b.next
  {
  }

  /** Once every copy is settled, no run brings the message back to anyone. */
  lemma SettledForGood(cfg: Config, w: World, acts: seq<Act>, id: Id, a: Address)
    requires Inv(w) && Possible(cfg, w, acts) && AllSettled(w, id)
    requires id in w.db.messages ==> exists k :: k in w.db.deliveries && k.msg == id
    requires id in w.db.messages ==> DirectedAsk(w.db.messages, id)
    ensures !Recoverable(Run(cfg, w, acts).db, id, a)
  {
    RunKeeps(cfg, w, acts);
    var b := Run(cfg, w, acts);
    if id in b.db.messages {
      var k :| k in w.db.deliveries && k.msg == id;
      assert b.db.messages[id] == w.db.messages[id];
      assert k == Key(id, w.db.messages[id].to);
      hide Follows;
      SettledKept(w, b, k);
      OnlyCopy(b, id);
    } else {
      assert AllSettled(b, id);
    }
    SettledNotRecoverable(b, id, a);
  }

  /**
   Answered stays answered: after an accepted reply to a delivered ask from the addressee's
   session, or to a delivered project ask from anyone, the ask is in nobody's recoverable
   view, at any later time, whatever is retried, purged or registered.
   */
  lemma AnsweredStaysAnswered(cfg: Config, w: World, a: Act, acts: seq<Act>, x: Address)
    requires Inv(w) && AnswersAsk(cfg, w, a) && Possible(cfg, Perform(cfg, w, a), acts)
    requires var id := a.event.reply.corrId; Key(id, w.db.messages[id].to) in w.db.deliveries
    ensures !Recoverable(Run(cfg, Perform(cfg, w, a), acts).db, a.event.reply.corrId, x)
  {
    hide Inv;
    var id := a.event.reply.corrId;
    var w1 := Perform(cfg, w, a);
    AnswerSettles(cfg, w, a);
    PerformKeeps(cfg, w, a);
    OwnId(w, id);
    if id in w1.db.messages {
      StoredKept(w, w1, id);
      RowKept(w, w1, Key(id, w.db.messages[id].to));
      assert Key(id, w.db.messages[id].to).msg == id;
    }
    SettledForGood(cfg, w1, acts, id, x);
  }

  // ---- ...if it had been delivered ---------------------------------------------------------

  /** The rows of a message that a piece of work neither enqueues nor purges come out the same, if absent. */
  lemma {:induction false} AbsentStays(w: World, work: seq<Stmt>, k: Key)
    requires k !in w.db.deliveries && Enqueue(k.msg, k.addr) !in work
    ensures k !in Steps(w, work).db.deliveries
    decreases |work|
  {
    if work != [] {
      AbsentStep(w.db, work[0], k);
      AbsentStays(Step(w, work[0]), work[1..], k);
    }
  }

  lemma AbsentStep(db: DB, s: Stmt, k: Key)
    requires k !in db.deliveries && s != Enqueue(k.msg, k.addr)
    ensures k !in Exec(db, s).deliveries
  {
    if s.Enqueue? { assert Key(s.id, s.addr) != k; }
  }

  /** What a replayed send is made of. */
  predicate Replays(s: Stmt) { s.Enqueue? || s.PassProject? || s.OpenAwaiting? || s.DeleteOutbound? }

  lemma ReplayRow(db: DB, s: Stmt, k: Key)
    requires Replays(s)
    requires k in db.deliveries ==> db.deliveries[k].state.Queued?
    ensures k in Exec(db, s).deliveries <==> k in db.deliveries || s == Enqueue(k.msg, k.addr)
    ensures k in Exec(db, s).deliveries ==> Exec(db, s).deliveries[k].state.Queued?
  {
  }

  /** A row enqueued by a replay is still queued at its end, and no message has gone. */
  lemma {:induction false} QueuedStays(w: World, work: seq<Stmt>, k: Key)
    requires forall s :: s in work ==> Replays(s)
    requires if k in w.db.deliveries then w.db.deliveries[k].state.Queued? else Enqueue(k.msg, k.addr) in work
    ensures k in Steps(w, work).db.deliveries && Steps(w, work).db.deliveries[k].state.Queued?
    ensures Steps(w, work).db.messages == w.db.messages
    decreases |work|
  {
    if work == [] {
      NoSteps(w);
    } else {
      assert Replays(work[0]);
      MessagesFrame(w.db, work[0]);
      ReplayRow(w.db, work[0], k);
      assert Step(w, work[0]).db == Exec(w.db, work[0]);
      hide Exec, Step;
      QueuedStays(Step(w, work[0]), work[1..], k);
    }
  }

  lemma ReplyEnqueues(db: DB, roster: Roster, a: ReplyArgs, now: Time, newId: Id, k: Key)
    requires k.msg != newId
    ensures Enqueue(k.msg, k.addr) !in ReplyPlan(db, roster, a, now, newId).work
  {
  }

  /**
   The delivery is what makes the promise hold: if a crash had left the ask without its row when it
   was answered, the next identical retry queues it again, answered or not - by the broker, by a
   degraded client, or by the replay of a queued intent.
   */
  lemma AnsweredAgainIffUndelivered(cfg: Config, w: World, a: Act, retry: Act, targets: seq<Address>)
    requires Inv(w) && AnswersAsk(cfg, w, a)
    requires var w1 := Perform(cfg, w, a);
      && Allowed(cfg, w1, retry) && Whole(cfg, w1, retry) && Sends(w1.db, retry.event)
      && SendAnswer(cfg, w1.db, retry.event) == Sent(a.event.reply.corrId, targets, true)
    ensures var id := a.event.reply.corrId; var to := w.db.messages[id].to;
      Recoverable(Perform(cfg, Perform(cfg, w, a), retry).db, id, to) <==> Key(id, to) !in w.db.deliveries
  {
    hide Inv, Steps;
    var id := a.event.reply.corrId;
    var to := w.db.messages[id].to;
    var w1 := Perform(cfg, w, a);
    var w2 := Perform(cfg, w1, retry);
    assert Run(cfg, w1, [retry]) == w2 by {
      assert [retry][1..] == [];
      assert Possible(cfg, w2, []);
      assert Run(cfg, w2, []) == w2;
    }
    if Key(id, to) in w.db.deliveries {
      AnsweredStaysAnswered(cfg, w, a, [retry], to);
    } else {
      PerformKeeps(cfg, w, a);
      OwnId(w, id);
      ReplyEnqueues(w.db, a.event.roster, a.event.reply, a.event.now, a.event.newId, Key(id, to));
      assert Work(cfg, w.db, a.event)[..a.cut] == Work(cfg, w.db, a.event);
      AbsentStays(w, Work(cfg, w.db, a.event), Key(id, to));
      hide SendAnswer;
      SendRoutes(cfg, w1, retry.event, id, targets, true);
      StillStored(w, w1, id);
      RetryQueues(cfg, w1, retry, id, targets, to);
    }
  }

  /** A replay, by whatever path, is made of replaying statements, and one of them queues for each target. */
  lemma ReplayWork(cfg: Config, db: DB, e: Event, id: Id, targets: seq<Address>)
    requires Sends(db, e) && SendAnswer(cfg, db, e) == Sent(id, targets, true)
    ensures forall s :: s in Work(cfg, db, e) ==> Replays(s)
  {
    hide FindOp, RouteOf, SamePayload, SessionBoxes, DegradedBoxes, SendRefusal, DegradedRefusal;
  }

  lemma RetryQueues(cfg: Config, w: World, retry: Act, id: Id, targets: seq<Address>, to: Address)
    requires Inv(w) && Allowed(cfg, w, retry) && Whole(cfg, w, retry) && Sends(w.db, retry.event)
    requires SendAnswer(cfg, w.db, retry.event) == Sent(id, targets, true)
    requires Key(id, to) !in w.db.deliveries && DirectedAsk(w.db.messages, id) && w.db.messages[id].to == to
    ensures Recoverable(Perform(cfg, w, retry).db, id, to)
  {
    hide Inv, Steps;
    var work := Work(cfg, w.db, retry.event);
    assert work[..retry.cut] == work;
    ReplayWork(cfg, w.db, retry.event, id, targets);
    SendRoutes(cfg, w, retry.event, id, targets, true);
    DirectedRoute(w, id);
    SendEnqueues(cfg, w.db, retry.event, id, targets, true, to);
    hide Work, SendAnswer;
    QueuedStays(w, work, Key(id, to));
  }

  lemma DirectedRoute(w: World, id: Id)
    requires Inv(w) && id in w.db.routes && DirectedAsk(w.db.messages, id)
    ensures w.db.routes[id] == [w.db.messages[id].to]
  {
  }

  // ---- Cancelled for good ------------------------------------------------------------------

  /** No word on this message can be appended any more: it is cancelled, or gone. */
  ghost predicate Silenced(w: World, id: Id) {
    id < w.next && (id in w.db.messages ==> AskCancelled(w.db.awaiting, id))
  }

  /** What any event appends answers a message that is there and not a cancelled ask; only an open ask's sender is released. */
  predicate Speaks(db: DB, m: Message) {
    m.corrId.Some? ==>
      && m.corrId.value in db.messages && !AskCancelled(db.awaiting, m.corrId.value)
      && (m.from.Broker? && m.terminal ==> AskOpen(db.awaiting, m.corrId.value))
  }

  predicate SpeaksOnly(db: DB, work: seq<Stmt>) {
    forall s :: s in work ==> (s.Append? || s.AppendRouted?) ==> Speaks(db, s.m)
  }

  lemma {:induction false} WithdrawSpeaks(db: DB, rows: Rows, origin: Message, order: seq<Address>, now: Time, newId: Id)
    requires origin.id in db.messages && !AskCancelled(db.awaiting, origin.id)
    ensures SpeaksOnly(db, WithdrawEach(rows, origin, order, now, newId))
    decreases |order|
  {
    if order != [] {
      WithdrawSpeaks(db, rows, origin, order[1..], now, newId);
      WithdrawSpeaks(db, rows, origin, order[1..], now, newId + 1);
    }
  }

  lemma ReplaySpeaks(cfg: Config, db: DB, roster: Roster, a: SendArgs, m: Message, passers: seq<Address>)
    ensures SpeaksOnly(db, ReplayPlan(cfg, db, roster, a, m, passers).work)
  {
    hide RouteOf, SamePayload;
  }

  lemma SendSpeaks(cfg: Config, db: DB, roster: Roster, a: SendArgs, now: Time, newId: Id)
    ensures SpeaksOnly(db, SendPlan(cfg, db, roster, a, now, newId).work)
  {
    hide FindOp, Targets, SessionBoxes, ReplayPlan, SendRefusal;
    match FindOp(db.messages, a.operationId)
    case Some(m) => ReplaySpeaks(cfg, db, roster, a, m, SessionBoxes(roster, m.from));
    case None =>
      assert SpeaksOnly(db, FirstSend(cfg, roster, a, if a.messageId.Some? then a.messageId.value else newId, now).work);
  }

  lemma DegradedSpeaks(cfg: Config, db: DB, roster: Roster, a: SendArgs, op: string, id: Id, now: Time)
    ensures SpeaksOnly(db, DegradedPlan(cfg, db, roster, a, op, id, now).work)
  {
    hide FindOp, Targets, DegradedBoxes, ReplayPlan, DegradedRefusal;
    match FindOp(db.messages, Some(op))
    case Some(m) => ReplaySpeaks(cfg, db, roster, a, m, DegradedBoxes(roster, m.from));
    case None => assert SpeaksOnly(db, DegradedSend(cfg, roster, a.(operationId := Some(op)), op, id, now).work);
  }

  lemma ReplySpeaks(w: World, roster: Roster, a: ReplyArgs, now: Time, newId: Id)
    requires Inv(w)
    ensures SpeaksOnly(w.db, ReplyPlan(w.db, roster, a, now, newId).work)
  {
    hide Inv;
    if ReplyPlan(w.db, roster, a, now, newId).answer.Replied? {
      var origin := w.db.messages[a.corrId];
      OwnId(w, a.corrId);
      InformNotAwaited(w, a.corrId);
      ReplySays(w.db, roster, a, now, newId);
    } else {
      hide Actable;
    }
  }

  /** A reply appends its response and nothing else, and never to a cancelled ask. */
  lemma ReplySays(db: DB, roster: Roster, a: ReplyArgs, now: Time, newId: Id)
    requires ReplyPlan(db, roster, a, now, newId).answer.Replied?
    ensures a.corrId in db.messages && !a.from.Broker?
    ensures IsAsk(db.messages[a.corrId].kind) ==> !AskCancelled(db.awaiting, a.corrId)
    ensures forall s :: s in ReplyPlan(db, roster, a, now, newId).work ==>
      !s.AppendRouted? && (s.Append? ==> s.m == ResponseTo(db.messages[a.corrId], a, newId, now))
  {
    hide Actable, Blank, ResponseTo;
  }

  lemma InformNotAwaited(w: World, id: Id)
    requires Inv(w) && id in w.db.messages
    ensures !IsAsk(w.db.messages[id].kind) ==> id !in w.db.awaiting
  {
    assert id in w.db.awaiting ==> DirectedAsk(w.db.messages, id);
  }

  /** No event speaks to a cancelled ask, and none releases the sender of a closed one. */
  lemma EventSpeaks(cfg: Config, w: World, e: Event)
    requires Inv(w) && Fresh(w, e)
    ensures SpeaksOnly(w.db, Work(cfg, w.db, e))
  {
    hide Inv, WithdrawEach, ReplayPlan, FirstSend, DegradedSend;
    match e
    case Send(roster, a, now, newId) => SendSpeaks(cfg, w.db, roster, a, now, newId);
    case Degraded(roster, a, op, id, now) => DegradedSpeaks(cfg, w.db, roster, a, op, id, now);
    case Reconcile(roster, op, now, newId) =>
      if op in w.db.outbound { SendSpeaks(cfg, w.db, roster, w.db.outbound[op].args, now, newId); }
    case Reply(roster, a, now, newId) => ReplySpeaks(w, roster, a, now, newId);
    case Decline(roster, alias, id, reason, now, newId) => DeclineSpeaks(w, roster, alias, id, reason, now, newId);
    case Cancel(id, order, now, newId) => CancelSpeaks(w, id, order, now, newId);
    case Park(id, now, newId) => ParkSpeaks(w, id, now, newId);
    case Chase(id, now, newId) => ChaseSpeaks(w, id, now, cfg.finalGraceS, newId);
    case _ =>
  }

  lemma DeclineSpeaks(w: World, roster: Roster, alias: Address, id: Id, reason: string, now: Time, newId: Id)
    requires Inv(w) && Sane(roster)
    ensures SpeaksOnly(w.db, DeclinePlan(w.db, roster, alias, id, reason, now, newId).work)
  {
    hide Inv, Actable;
    if id in w.db.messages { OwnId(w, id); }
    if AskOpen(w.db.awaiting, id) && Actable(w.db, roster, id, alias) { BrokerCannotAct(w, roster, id, alias); }
  }

  lemma CancelSpeaks(w: World, id: Id, order: seq<Address>, now: Time, newId: Id)
    requires Inv(w)
    ensures SpeaksOnly(w.db, CancelPlan(w.db, id, order, now, newId).work)
  {
    hide Inv;
    if id in w.db.messages {
      OwnId(w, id);
      if AskOpen(w.db.awaiting, id) { WithdrawSpeaks(w.db, w.db.deliveries, w.db.messages[id], order, now, newId); }
    }
  }

  lemma ParkSpeaks(w: World, id: Id, now: Time, newId: Id)
    requires Inv(w)
    ensures SpeaksOnly(w.db, ParkPlan(w.db, id, now, newId))
  {
    hide Inv;
    if id in w.db.messages { OwnId(w, id); }
  }

  lemma ChaseSpeaks(w: World, id: Id, now: Time, grace: int, newId: Id)
    requires Inv(w)
    ensures SpeaksOnly(w.db, ChasePlan(w.db, id, now, grace, newId))
  {
    hide Inv;
    if id in w.db.messages { OwnId(w, id); }
  }

  /** Nothing correlated to the ask was posted between two logs. */
  ghost predicate Quiet(a: seq<Entry>, b: seq<Entry>, id: Id) {
    a <= b && forall i :: |a| <= i < |b| && b[i].Posted? ==> b[i].m.corrId != Some(id)
  }

  lemma QuietTransitive(a: seq<Entry>, b: seq<Entry>, c: seq<Entry>, id: Id)
    requires Quiet(a, b, id) && Quiet(b, c, id)
    ensures Quiet(a, c, id)
  {
    forall i | |a| <= i < |c| && c[i].Posted? ensures c[i].m.corrId != Some(id) {
      if i < |b| { assert c[i] == b[i]; }
    }
  }

  lemma QuietStep(w: World, s: Stmt, id: Id)
    requires s.Append? || s.AppendRouted? ==> s.m.corrId != Some(id)
    ensures Quiet(w.log, Step(w, s).log, id)
  {
  }

  lemma {:induction false} QuietSteps(w: World, work: seq<Stmt>, id: Id)
    requires forall s :: s in work ==> (s.Append? || s.AppendRouted? ==> s.m.corrId != Some(id))
    ensures Quiet(w.log, Steps(w, work).log, id)
    decreases |work|
  {
    hide Step;
    if work != [] {
      assert work[0] in work;
      QuietStep(w, work[0], id);
      QuietSteps(Step(w, work[0]), work[1..], id);
      QuietTransitive(w.log, Step(w, work[0]).log, Steps(w, work).log, id);
    }
  }

  lemma SilencedStays(a: World, b: World, id: Id)
    requires Inv(a) && Follows(a, b) && Silenced(a, id)
    ensures Silenced(b, id)
  {
    if id in b.db.messages { assert id in a.db.messages; }
  }

  /** Silence: once an ask is cancelled, no later step of any run posts a word about it. */
  lemma {:induction false} CancelledIsSilent(cfg: Config, w: World, acts: seq<Act>, id: Id)
    requires Inv(w) && Possible(cfg, w, acts) && Silenced(w, id)
    ensures Quiet(w.log, Run(cfg, w, acts).log, id)
    decreases |acts|
  {
    hide Inv, Steps, Quiet;
    if acts == [] {
      assert Quiet(w.log, w.log, id) by { QuietSteps(w, [], id); NoSteps(w); }
    } else {
      var act := acts[0];
      var work := Work(cfg, w.db, act.event);
      EventSpeaks(cfg, w, act.event);
      forall s | s in work[..act.cut] ensures s.Append? || s.AppendRouted? ==> s.m.corrId != Some(id) {
        assert s in work;
      }
      QuietSteps(w, work[..act.cut], id);
      PerformKeeps(cfg, w, act);
      var w1 := Perform(cfg, w, act);
      SilencedStays(w, w1, id);
      CancelledIsSilent(cfg, w1, acts[1..], id);
      QuietTransitive(w.log, w1.log, Run(cfg, w1, acts[1..]).log, id);
    }
  }

  /** The copies somebody saw: delivered, surfaced or persisted. */
  function Seen(rows: Rows, id: Id, order: seq<Address>): seq<Address> {
    if order == [] then []
    else
      var k := Key(id, order[0]);
      (if k in rows && !IsSettled(rows[k].state) && !rows[k].state.Queued? then [order[0]] else [])
      + Seen(rows, id, order[1..])
  }

  function WrittenTo(s: Stmt): seq<Address> { if s.Append? then [s.m.to] else [] }

  /** Whom a piece of work writes to, in order. */
  function Notified(work: seq<Stmt>): seq<Address> {
    if work == [] then [] else WrittenTo(work[0]) + Notified(work[1..])
  }

  lemma {:induction false} NotifiedConcat(a: seq<Stmt>, b: seq<Stmt>)
    ensures Notified(a + b) == Notified(a) + Notified(b)
    decreases |a|
  {
    if a == [] {
      assert a + b == b;
    } else {
      assert (a + b)[1..] == a[1..] + b;
      NotifiedConcat(a[1..], b);
      assert (a + b)[0] == a[0];
      NotifiedStep(a);
      NotifiedStep(a + b);
      hide Notified;
    }
  }

  lemma NotifiedStep(work: seq<Stmt>)
    requires work != []
    ensures Notified(work) == WrittenTo(work[0]) + Notified(work[1..])
  {
  }

  lemma {:induction false} WithdrawNotifies(rows: Rows, origin: Message, order: seq<Address>, now: Time, newId: Id)
    ensures Notified(WithdrawEach(rows, origin, order, now, newId)) == Seen(rows, origin.id, order)
    decreases |order|
  {
    if order != [] {
      var k := Key(origin.id, order[0]);
      if k !in rows || IsSettled(rows[k].state) {
        WithdrawNotifies(rows, origin, order[1..], now, newId);
      } else if rows[k].state.Queued? {
        WithdrawNotifies(rows, origin, order[1..], now, newId);
        NotifiedConcat([MarkConsumed(origin.id, order[0])], WithdrawEach(rows, origin, order[1..], now, newId));
      } else {
        var note := NoticeTo(origin, order[0], Withdrawal, false, Response, newId, now);
        var three := [MarkConsumed(origin.id, order[0]), Append(note), Enqueue(newId, order[0])];
        WithdrawNotifies(rows, origin, order[1..], now, newId + 1);
        NotifiedConcat(three, WithdrawEach(rows, origin, order[1..], now, newId + 1));
        NotifiedConcat([three[0]], [three[1], three[2]]);
        assert three == [three[0]] + [three[1], three[2]];
        assert [three[1], three[2]][1..] == [three[2]];
        assert Notified([three[2]]) == [] && Notified([three[0]]) == [];
      }
    }
  }

  lemma {:induction false} WithdrawConsumes(rows: Rows, origin: Message, order: seq<Address>, now: Time, newId: Id, a: Address)
    requires a in order && Key(origin.id, a) in rows && !IsSettled(rows[Key(origin.id, a)].state)
    ensures MarkConsumed(origin.id, a) in WithdrawEach(rows, origin, order, now, newId)
    decreases |order|
  {
    if order[0] != a {
      WithdrawConsumes(rows, origin, order[1..], now, newId, a);
      WithdrawConsumes(rows, origin, order[1..], now, newId + 1, a);
    }
  }

  /** A cancel that found its ask open, run to its end. */
  ghost predicate Cancels(cfg: Config, w: World, a: Act) {
    Allowed(cfg, w, a) && Whole(cfg, w, a) && a.event.Cancel? && AskOpen(w.db.awaiting, a.event.id)
  }

  /**
   Cancel finality: a cancel that found the ask open leaves it in nobody's recoverable view,
   tells exactly the readers who had seen a copy, and no later step of any run posts a word
   correlated to it.
   */
  lemma CancelIsFinal(cfg: Config, w: World, a: Act, acts: seq<Act>, x: Address)
    requires Inv(w) && Cancels(cfg, w, a) && Possible(cfg, Perform(cfg, w, a), acts)
    ensures var id := a.event.id; var w1 := Perform(cfg, w, a); var w2 := Run(cfg, w1, acts);
      && Notified(Work(cfg, w.db, a.event)) == Seen(w.db.deliveries, id, a.event.order)
      && !Recoverable(w2.db, id, x)
      && Quiet(w1.log, w2.log, id)
      && (id in w2.db.messages ==> AskCancelled(w2.db.awaiting, id))
  {
    hide Inv, Steps;
    var e := a.event;
    var id := e.id;
    var work := Work(cfg, w.db, e);
    var w1 := Perform(cfg, w, a);
    assert work[..a.cut] == work;
    AskStored(w, id);
    OwnId(w, id);
    var origin := w.db.messages[id];
    PerformKeeps(cfg, w, a);
    WithdrawNotifies(w.db.deliveries, origin, e.order, e.now, e.newId);
    NotifiedConcat([CloseAwaiting(id, Cancelled)], WithdrawEach(w.db.deliveries, origin, e.order, e.now, e.newId));
    assert Notified([CloseAwaiting(id, Cancelled)]) == [];
    CancelSettles(cfg, w, a);
    CancelCloses(cfg, w, a);
    SettledForGood(cfg, w1, acts, id, x);
    CancelledIsSilent(cfg, w1, acts, id);
    RunKeeps(cfg, w1, acts);
    SilencedStays(w1, Run(cfg, w1, acts), id);
  }

  lemma CancelSettles(cfg: Config, w: World, a: Act)
    requires Inv(w) && Cancels(cfg, w, a)
    ensures var id := a.event.id; var w1 := Perform(cfg, w, a);
      && AllSettled(w1, id)
      && (id in w1.db.messages ==> DirectedAsk(w1.db.messages, id) && exists k :: k in w1.db.deliveries && k.msg == id)
  {
    hide Inv, Steps;
    var e := a.event;
    var id := e.id;
    var work := Work(cfg, w.db, e);
    var w1 := Perform(cfg, w, a);
    assert work[..a.cut] == work;
    AskStored(w, id);
    OwnId(w, id);
    var origin := w.db.messages[id];
    var k := Key(id, origin.to);
    AskHasRow(w, id);
    PerformKeeps(cfg, w, a);
    EventSafe(cfg, w, e);
    if id in w1.db.messages {
      StoredKept(w, w1, id);
      RowKept(w, w1, k);
      assert k.msg == id;
      if IsSettled(w.db.deliveries[k].state) {
        SettledKept(w, w1, k);
      } else {
        assert origin.to in RowsOf(w.db.deliveries, id);
        assert origin.to in e.order;
        WithdrawConsumes(w.db.deliveries, origin, e.order, e.now, e.newId, origin.to);
        ConsumeSticks(w, work, id, origin.to);
      }
    }
    NextGrows(w, w1);
    OnlyCopy(w1, id);
  }

  lemma AskHasRow(w: World, id: Id)
    requires Inv(w) && id in w.db.awaiting
    ensures id in w.db.messages && Key(id, w.db.messages[id].to) in w.db.deliveries
  {
  }

  lemma CancelCloses(cfg: Config, w: World, a: Act)
    requires Inv(w) && Cancels(cfg, w, a)
    ensures Silenced(Perform(cfg, w, a), a.event.id)
  {
    hide Inv, Exec;
    var id := a.event.id;
    var work := Work(cfg, w.db, a.event);
    assert work[..a.cut] == work;
    AskStored(w, id);
    OwnId(w, id);
    var close := CloseAwaiting(id, Cancelled);
    var w1 := Step(w, close);
    EventSafe(cfg, w, a.event);
    assert work[0] == close;
    StepKeeps(w, close);
    SafeRuns(w1, work[1..], |work| - 1);
    assert work[1..][..|work| - 1] == work[1..];
    ClosedNow(w.db, id);
    NextGrows(w, w1);
    SilencedStays(w1, Steps(w1, work[1..]), id);
  }

  lemma ClosedNow(db: DB, id: Id)
    requires AskOpen(db.awaiting, id)
    ensures AskCancelled(Exec(db, CloseAwaiting(id, Cancelled)).awaiting, id)
  {
  }
}
