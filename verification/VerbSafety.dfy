/** Every verb issues only guarded statements, so every run keeps the invariant. */
module VerbSafety {
  import opened Models
  import opened Store
  import opened Invariants
  import opened Statements
  import opened Verbs
  import opened Runs

  // ---- Send ----------------------------------------------------------------------

  lemma FoundOp(messages: Messages, next: Id, op: Option<string>)
    requires IdsInv(messages, next) && FindOp(messages, op).Some?
    ensures var m := FindOp(messages, op).value; m.id in messages && messages[m.id] == m && m.operationId == op
  {
  }

  // What the invariant says about one message, so that the proofs below need not look inside it.

  lemma OwnId(w: World, id: Id)
    requires Inv(w) && id in w.db.messages
    ensures w.db.messages[id].id == id && id < w.next
  {
  }

  lemma Unused(w: World, id: Id)
    requires Inv(w) && id >= w.next
    ensures id !in w.db.messages && id !in w.db.awaiting && id !in w.db.routes
  {
    assert id in w.db.awaiting ==> DirectedAsk(w.db.messages, id);
  }

  lemma AskStored(w: World, id: Id)
    requires Inv(w) && id in w.db.awaiting
    ensures DirectedAsk(w.db.messages, id) && w.db.messages[id].id == id
  {
  }

  /** Every target of a stored message's route may be enqueued. */
  lemma RouteGuard(w: World, roster: Roster, m: Message)
    requires Inv(w) && m.id in w.db.messages && w.db.messages[m.id] == m
    ensures forall t :: t in RouteOf(w.db, roster, m) ==> Guard(w, Enqueue(m.id, t))
    ensures OpensThread(m.kind, m.to) ==> m.to in RouteOf(w.db, roster, m)
  {
    assert OpensThread(m.kind, m.to) ==> DirectedAsk(w.db.messages, m.id);
  }

  /** Opening an ask that is stored, unopened, and has its addressee's row. */
  ghost predicate Opens(w: World, m: Message, open: seq<Stmt>) {
    |open| == 1 && open[0].OpenAwaiting? && open[0].id == m.id && m.id !in w.db.awaiting && OpensThread(m.kind, m.to)
  }

  lemma OpenSafe(w: World, m: Message, open: seq<Stmt>)
    requires m.id in w.db.messages && w.db.messages[m.id] == m && Key(m.id, m.to) in w.db.deliveries
    requires Opens(w, m, open)
    ensures Safe(w, open)
  {
    assert open[1..] == [];
  }

  lemma PassOpenSafe(w: World, m: Message, boxes: seq<Address>, passes: seq<Stmt>, open: seq<Stmt>)
    requires m.id in w.db.messages && w.db.messages[m.id] == m
    requires passes == [] || passes == PassEach(m.id, boxes)
    requires open == [] || (Opens(w, m, open) && Key(m.id, m.to) in w.db.deliveries)
    ensures Safe(w, passes + open)
  {
    PassesOnly(w, m.id, boxes);
    var w1 := Steps(w, passes);
    assert w1.db == w.db.(passes := w1.db.passes);
    if open != [] { OpenSafe(w1, m, open); }
    SafeConcat(w, passes, open);
  }

  /** Fan-out, passes and opening, in the order a replay and a degraded client write them. */
  lemma TailSafe(w: World, m: Message, targets: seq<Address>, boxes: seq<Address>, passes: seq<Stmt>, open: seq<Stmt>)
    requires m.id in w.db.messages && w.db.messages[m.id] == m
    requires forall t :: t in targets ==> Guard(w, Enqueue(m.id, t))
    requires passes == [] || passes == PassEach(m.id, boxes)
    requires open == [] || (Opens(w, m, open) && m.to in targets)
    ensures Safe(w, EnqueueEach(m.id, targets) + passes + open)
  {
    hide Inv, Guard, Safe, Steps, Exec;
    var fan := EnqueueEach(m.id, targets);
    EnqueueSafe(w, m.id, targets);
    hide EnqueueEach;
    PassOpenSafe(Steps(w, fan), m, boxes, passes, open);
    SafeConcat(w, fan, passes + open);
    assert fan + (passes + open) == fan + passes + open;
  }

  /** The first statement of a send: the message and its route, in one transaction. */
  lemma RoutedSafe(w: World, m: Message, targets: seq<Address>, rest: seq<Stmt>)
    requires Guard(w, AppendRouted(m, targets)) && Safe(Step(w, AppendRouted(m, targets)), rest)
    ensures Safe(w, [AppendRouted(m, targets)] + rest)
  {
    assert ([AppendRouted(m, targets)] + rest)[1..] == rest;
  }

  /** What that statement leaves behind. */
  lemma Routed(w: World, m: Message, targets: seq<Address>)
    requires Inv(w) && m.id >= w.next && Insertable(w.db.messages, m)
    requires OpensThread(m.kind, m.to) ==> targets == [m.to]
    ensures var w1 := Step(w, AppendRouted(m, targets));
      && m.id in w1.db.messages && w1.db.messages[m.id] == m && m.id !in w1.db.awaiting
      && (forall t :: t in targets ==> Guard(w1, Enqueue(m.id, t)))
  {
    Unused(w, m.id);
  }

  lemma ReplaySafe(cfg: Config, w: World, roster: Roster, a: SendArgs, m: Message, passers: seq<Address>)
    requires Inv(w) && m.id in w.db.messages && w.db.messages[m.id] == m
    ensures Safe(w, ReplayPlan(cfg, w.db, roster, a, m, passers).work)
  {
    hide Inv;
    if m.from == a.from && SamePayload(m, a) {
      RouteGuard(w, roster, m);
      TailSafe(w, m, RouteOf(w.db, roster, m), passers,
               if m.to.Project? then PassEach(m.id, passers) else [],
               if m.id !in w.db.awaiting && OpensThread(m.kind, m.to) then [OpenFor(cfg, a, m)] else []);
    }
  }

  lemma FirstSendSafe(cfg: Config, w: World, roster: Roster, a: SendArgs, id: Id, now: Time)
    requires Inv(w) && id >= w.next && !a.from.Broker? && !a.to.Broker?
    requires FindOp(w.db.messages, a.operationId).None?
    ensures Safe(w, FirstSend(cfg, roster, a, id, now).work)
  {
    hide Inv, Safe, Steps;
    var m := Compose(cfg, a, id, now);
    var targets := Targets(roster, a.from, a.to);
    var boxes := SessionBoxes(roster, a.from);
    var passes := if a.to.Project? then PassEach(id, boxes) else [];
    var open := if OpensThread(a.kind, a.to) then [OpenFor(cfg, a, m)] else [];
    Unused(w, id);
    Routed(w, m, targets);
    var w1 := Step(w, AppendRouted(m, targets));
    PassesThenTail(w1, m, targets, boxes, passes, open);
    RoutedSafe(w, m, targets, passes + (EnqueueEach(id, targets) + [] + open));
    assert [AppendRouted(m, targets)] + (passes + (EnqueueEach(id, targets) + [] + open))
        == FirstSend(cfg, roster, a, id, now).work;
  }

  lemma PassesThenTail(w: World, m: Message, targets: seq<Address>, boxes: seq<Address>, passes: seq<Stmt>, open: seq<Stmt>)
    requires m.id in w.db.messages && w.db.messages[m.id] == m
    requires forall t :: t in targets ==> Guard(w, Enqueue(m.id, t))
    requires passes == [] || passes == PassEach(m.id, boxes)
    requires open == [] || (Opens(w, m, open) && m.to in targets)
    ensures Safe(w, passes + (EnqueueEach(m.id, targets) + [] + open))
  {
    PassesOnly(w, m.id, boxes);
    var w1 := Steps(w, passes);
    assert w1.db == w.db.(passes := w1.db.passes);
    forall t | t in targets ensures Guard(w1, Enqueue(m.id, t)) { assert Guard(w, Enqueue(m.id, t)); }
    TailSafe(w1, m, targets, [], [], open);
    SafeConcat(w, passes, EnqueueEach(m.id, targets) + [] + open);
  }

  lemma SendSafe(cfg: Config, w: World, roster: Roster, a: SendArgs, now: Time, newId: Id)
    requires Inv(w) && Sane(roster) && newId >= w.next && SuppliedFresh(w, a)
    ensures Safe(w, SendPlan(cfg, w.db, roster, a, now, newId).work)
  {
    match FindOp(w.db.messages, a.operationId)
    case Some(m) =>
      FoundOp(w.db.messages, w.next, a.operationId);
      ReplaySafe(cfg, w, roster, a, m, SessionBoxes(roster, m.from));
    case None =>
      var id := if a.messageId.Some? then a.messageId.value else newId;
      if id !in w.db.messages && !a.from.Broker? && SendRefusal(cfg, roster, a).None? {
        RefusedBroker(cfg, roster, a);
        FirstSendSafe(cfg, w, roster, a, id, now);
      }
  }

  lemma RefusedBroker(cfg: Config, roster: Roster, a: SendArgs)
    requires Sane(roster) && SendRefusal(cfg, roster, a).None?
    ensures !a.to.Broker?
  {
    if a.to.Broker? { ReservedUnknown(roster, a.to); }
  }

  lemma DegradedSafe(cfg: Config, w: World, roster: Roster, a: SendArgs, op: string, id: Id, now: Time)
    requires Inv(w) && Sane(roster) && (id >= w.next || FindOp(w.db.messages, Some(op)).Some?)
    ensures Safe(w, DegradedPlan(cfg, w.db, roster, a, op, id, now).work)
  {
    match FindOp(w.db.messages, Some(op))
    case Some(m) =>
      FoundOp(w.db.messages, w.next, Some(op));
      ReplaySafe(cfg, w, roster, a, m, DegradedBoxes(roster, m.from));
    case None =>
      if !a.from.Broker? && DegradedRefusal(cfg, roster, a).None? {
        RefusedBroker(cfg.(strict := false), roster, a);
        DegradedSendSafe(cfg, w, roster, a.(operationId := Some(op)), op, id, now);
      }
  }

  lemma DegradedSendSafe(cfg: Config, w: World, roster: Roster, a: SendArgs, op: string, id: Id, now: Time)
    requires Inv(w) && id >= w.next && !a.from.Broker? && !a.to.Broker? && a.operationId == Some(op)
    requires FindOp(w.db.messages, Some(op)).None?
    ensures Safe(w, DegradedSend(cfg, roster, a, op, id, now).work)
  {
    hide Inv, Safe, Steps, Guard;
    var m := Compose(cfg, a, id, now);
    var targets := Targets(roster, a.from, a.to);
    var passes := if a.to.Project? then PassEach(id, DegradedBoxes(roster, a.from)) else [];
    var open := if OpensThread(a.kind, a.to) then [OpenFor(cfg, a, m)] else [];
    var tail := EnqueueEach(id, targets) + passes + open;
    var queue := QueueOutbound(op, IntentOf(a, id, now));
    DegradedWork(cfg, roster, a, op, id, now);
    assert [AppendRouted(m, targets)] + (EnqueueEach(id, targets) + passes) + open == [AppendRouted(m, targets)] + tail;
    ComposedNew(cfg, w, a, id, now);
    hide EnqueueEach, PassEach, DegradedSend, Compose, FindOp, Insertable, IntentOf;
    QueueKeeps(w, op, IntentOf(a, id, now));
    RoutedTailSafe(Step(w, queue), m, targets, DegradedBoxes(roster, a.from), passes, open);
    QueueSafe(w, op, IntentOf(a, id, now), [AppendRouted(m, targets)] + tail);
  }

  /** The message a first send composes is new, and an ask only from and to a peer. */
  lemma ComposedNew(cfg: Config, w: World, a: SendArgs, id: Id, now: Time)
    requires Inv(w) && id >= w.next && FindOp(w.db.messages, a.operationId).None? && !a.from.Broker? && !a.to.Broker?
    ensures var m := Compose(cfg, a, id, now);
      && Insertable(w.db.messages, m) && m.id == id && m.corrId.None? && m.kind == a.kind && m.to == a.to
      && (IsAsk(m.kind) ==> Askable(m))
  {
    Unused(w, id);
  }

  lemma QueueKeeps(w: World, op: string, intent: Intent)
    requires Inv(w)
    ensures var w0 := Step(w, QueueOutbound(op, intent)); Inv(w0) && w0.db.messages == w.db.messages && w0.next == w.next
  {
    StepKeeps(w, QueueOutbound(op, intent));
  }

  lemma RoutedTailSafe(w: World, m: Message, targets: seq<Address>, boxes: seq<Address>, passes: seq<Stmt>, open: seq<Stmt>)
    requires Inv(w) && m.id >= w.next && Insertable(w.db.messages, m) && m.corrId.None?
    requires (IsAsk(m.kind) ==> Askable(m)) && (OpensThread(m.kind, m.to) ==> targets == [m.to])
    requires passes == [] || passes == PassEach(m.id, boxes)
    requires open == [] || (|open| == 1 && open[0].OpenAwaiting? && open[0].id == m.id && OpensThread(m.kind, m.to))
    ensures Safe(w, [AppendRouted(m, targets)] + (EnqueueEach(m.id, targets) + passes + open))
  {
    var w1 := Step(w, AppendRouted(m, targets));
    Unused(w, m.id);
    Routed(w, m, targets);
    assert Guard(w, AppendRouted(m, targets));
    assert open == [] || Opens(w1, m, open);
    hide Inv, Guard, Safe, Step;
    TailSafe(w1, m, targets, boxes, passes, open);
    RoutedSafe(w, m, targets, EnqueueEach(m.id, targets) + passes + open);
  }

  lemma QueueSafe(w: World, op: string, intent: Intent, rest: seq<Stmt>)
    requires Safe(Step(w, QueueOutbound(op, intent)), rest)
    ensures Safe(w, [QueueOutbound(op, intent)] + rest)
  {
    assert ([QueueOutbound(op, intent)] + rest)[1..] == rest;
  }

  lemma ReconcileSafe(cfg: Config, w: World, roster: Roster, op: string, now: Time, newId: Id)
    requires Inv(w) && Fresh(w, Reconcile(roster, op, now, newId))
    ensures Safe(w, ReconcilePlan(cfg, w.db, roster, op, now, newId).work)
  {
    if op in w.db.outbound {
      var p := SendPlan(cfg, w.db, roster, w.db.outbound[op].args, now, newId);
      SendSafe(cfg, w, roster, w.db.outbound[op].args, now, newId);
      FreeSafe(Steps(w, p.work), [DeleteOutbound(op)]);
      SafeConcat(w, p.work, [DeleteOutbound(op)]);
    }
  }

  // ---- Answers ---------------------------------------------------------------------

  /** Posting first, then only free statements. */
  lemma PostThenFree(w: World, m: Message, to: Address, rest: seq<Stmt>)
    requires Inv(w) && Guard(w, Append(m))
    requires forall i :: 0 <= i < |rest| ==> Free(rest[i])
    ensures Safe(w, [Append(m), Enqueue(m.id, to)] + rest)
  {
    PostSafe(w, m, to);
    FreeSafe(Posting(w, m, to), rest);
    SafeConcat(w, [Append(m), Enqueue(m.id, to)], rest);
  }

  /** Once its answer is posted, an ask may be closed as answered. */
  lemma AnswerCloses(w: World, m: Message, to: Address, id: Id)
    requires Inv(w) && Guard(w, Append(m)) && id in w.db.messages && IsAnswer(m, id, w.db.messages[id].from)
    ensures Guard(Posting(w, m, to), CloseAwaiting(id, Responded))
  {
    var w1 := Posting(w, m, to);
    assert w1.log[|w.log|] == Posted(m);
    OwnId(w, id);
  }

  /** Posting a terminal answer, then closing the ask it answers, then free statements. */
  lemma AnswerSafe(w: World, m: Message, to: Address, id: Id, rest: seq<Stmt>)
    requires Inv(w) && Guard(w, Append(m)) && id in w.db.messages && IsAnswer(m, id, w.db.messages[id].from)
    requires forall i :: 0 <= i < |rest| ==> Free(rest[i])
    ensures Safe(w, [Append(m), Enqueue(m.id, to)] + ([CloseAwaiting(id, Responded)] + rest))
  {
    hide Inv, Steps, Guard, Step, Exec, Posting;
    PostSafe(w, m, to);
    AnswerCloses(w, m, to, id);
    var w1 := Posting(w, m, to);
    var tail := [CloseAwaiting(id, Responded)] + rest;
    assert tail[1..] == rest;
    FreeSafe(Step(w1, tail[0]), rest);
    assert Safe(w1, tail);
    hide Safe, Free;
    SafeConcat(w, [Append(m), Enqueue(m.id, to)], tail);
  }

  lemma ResponseGuard(w: World, roster: Roster, a: ReplyArgs, project: bool, now: Time, newId: Id)
    requires Inv(w) && newId >= w.next && a.corrId in w.db.messages && !a.from.Broker?
    ensures var origin := w.db.messages[a.corrId]; var m := ResponseTo(origin, a, newId, now);
      Guard(w, Append(m)) && m.id == newId && (a.terminal ==> IsAnswer(m, a.corrId, origin.from))
    ensures forall s :: s in SettleCopies(roster, w.db.messages[a.corrId], a.from, project) ==> Free(s)
  {
  }

  lemma ReplyToAskSafe(w: World, roster: Roster, a: ReplyArgs, now: Time, newId: Id)
    requires Inv(w) && newId >= w.next && a.corrId in w.db.messages && !a.from.Broker?
    ensures Safe(w, ReplyToAsk(w.db, roster, a, w.db.messages[a.corrId], now, newId).work)
  {
    hide Inv, Safe, Guard;
    OwnId(w, a.corrId);
    var origin := w.db.messages[a.corrId];
    var work := ReplyToAsk(w.db, roster, a, origin, now, newId).work;
    if AskCancelled(w.db.awaiting, a.corrId) || EmptyAnswer(a) {
      FreeSafe(w, work);
    } else {
      var m := ResponseTo(origin, a, newId, now);
      var copies := SettleCopies(roster, origin, a.from, true);
      ResponseGuard(w, roster, a, true, now, newId);
      hide SettleCopies, ResponseTo, IsAnswer;
      var late := a.corrId in w.db.awaiting && w.db.awaiting[a.corrId].closed.Some?;
      if a.terminal && !late {
        assert work == [Append(m), Enqueue(newId, origin.from)] + ([CloseAwaiting(a.corrId, Responded)] + copies);
        AnswerSafe(w, m, origin.from, a.corrId, copies);
      } else {
        var defer := if a.terminal then [] else [DeferNudge(a.corrId, now)];
        assert work == [Append(m), Enqueue(newId, origin.from)] + (defer + copies);
        PostThenFree(w, m, origin.from, defer + copies);
      }
    }
  }

  lemma ReplySafe(w: World, roster: Roster, a: ReplyArgs, now: Time, newId: Id)
    requires Inv(w) && newId >= w.next
    ensures Safe(w, ReplyPlan(w.db, roster, a, now, newId).work)
  {
    hide Inv;
    var work := ReplyPlan(w.db, roster, a, now, newId).work;
    if work == [] {
    } else if IsAsk(w.db.messages[a.corrId].kind) {
      ReplyToAskSafe(w, roster, a, now, newId);
    } else {
      var origin := w.db.messages[a.corrId];
      var copies := SettleCopies(roster, origin, a.from, false);
      PostThenFree(w, ResponseTo(origin, a, newId, now), origin.from, copies);
    }
  }

  /** Nobody declines in the broker's name: an ask has no row of its, and no roster lists it. */
  lemma BrokerCannotAct(w: World, roster: Roster, id: Id, alias: Address)
    requires Inv(w) && Sane(roster) && AskOpen(w.db.awaiting, id) && Actable(w.db, roster, id, alias)
    ensures !alias.Broker?
  {
    assert DirectedAsk(w.db.messages, id);
    if alias.Broker? { ReservedUnknown(roster, alias); }
  }

  lemma DeclineSafe(w: World, roster: Roster, alias: Address, id: Id, reason: string, now: Time, newId: Id)
    requires Inv(w) && Sane(roster) && newId >= w.next
    ensures Safe(w, DeclinePlan(w.db, roster, alias, id, reason, now, newId).work)
  {
    hide Inv;
    var work := DeclinePlan(w.db, roster, alias, id, reason, now, newId).work;
    if |work| > 1 {
      var origin := w.db.messages[id];
      AskStored(w, id);
      BrokerCannotAct(w, roster, id, alias);
      StepKeeps(w, work[0]);
      var w1 := Step(w, work[0]);
      if origin.to.Project? {
        var m := NoticeTo(origin, origin.from, SteppedBack(alias), false, Inform, newId, now);
        PostThenFree(w1, m, origin.from, []);
        assert work[1..] == [Append(m), Enqueue(newId, origin.from)] + [];
      } else {
        var m := DeclineAnswer(origin, alias, reason, newId, now);
        AnswerSafe(w1, m, origin.from, id, []);
        assert work[1..] == [Append(m), Enqueue(newId, origin.from)] + ([CloseAwaiting(id, Responded)] + []);
      }
    } else {
      FreeSafe(w, work);
    }
  }

  // ---- Cancel and the sweeper ----------------------------------------------------------

  /** One copy's withdrawal, given that the remaining ones are safe. */
  lemma WithdrawOne(w: World, m: Message, to: Address, origin: Id, rest: seq<Stmt>)
    requires Inv(w) && Guard(w, Append(m))
    requires Safe(Posting(Step(w, MarkConsumed(origin, to)), m, to), rest)
    ensures Safe(w, [MarkConsumed(origin, to), Append(m), Enqueue(m.id, to)] + rest)
  {
    hide Inv;
    var consume := MarkConsumed(origin, to);
    var w1 := Step(w, consume);
    StepKeeps(w, consume);
    PostSafe(w1, m, to);
    SafeConcat(w1, [Append(m), Enqueue(m.id, to)], rest);
    var work := [consume, Append(m), Enqueue(m.id, to)] + rest;
    assert work[1..] == [Append(m), Enqueue(m.id, to)] + rest;
  }

  lemma {:induction false} WithdrawSafe(w: World, rows: Rows, origin: Message, order: seq<Address>, now: Time, newId: Id)
    requires Inv(w) && newId >= w.next && origin.id in w.db.messages
    ensures Safe(w, WithdrawEach(rows, origin, order, now, newId))
    decreases |order|
  {
    hide Inv, Steps;
    if order != [] {
      var k := Key(origin.id, order[0]);
      var consume := MarkConsumed(origin.id, order[0]);
      var w1 := Step(w, consume);
      StepKeeps(w, consume);
      if k !in rows || IsSettled(rows[k].state) {
        WithdrawSafe(w, rows, origin, order[1..], now, newId);
      } else if rows[k].state.Queued? {
        WithdrawSafe(w1, rows, origin, order[1..], now, newId);
        assert WithdrawEach(rows, origin, order, now, newId)[1..] == WithdrawEach(rows, origin, order[1..], now, newId);
      } else {
        var m := NoticeTo(origin, order[0], Withdrawal, false, Response, newId, now);
        PostSafe(w1, m, order[0]);
        WithdrawSafe(Posting(w1, m, order[0]), rows, origin, order[1..], now, newId + 1);
        WithdrawOne(w, m, order[0], origin.id, WithdrawEach(rows, origin, order[1..], now, newId + 1));
      }
    }
  }

  lemma CancelSafe(w: World, id: Id, order: seq<Address>, now: Time, newId: Id)
    requires Inv(w) && newId >= w.next
    ensures Safe(w, CancelPlan(w.db, id, order, now, newId).work)
  {
    hide Inv, Follows, Steps;
    if id in w.db.messages { OwnId(w, id); }
    var work := CancelPlan(w.db, id, order, now, newId).work;
    if work != [] {
      StepKeeps(w, work[0]);
      var w1 := Step(w, work[0]);
      if AskOpen(w.db.awaiting, id) {
        assert work[1..] == WithdrawEach(w.db.deliveries, w.db.messages[id], order, now, newId);
        WithdrawSafe(w1, w.db.deliveries, w.db.messages[id], order, now, newId);
      } else {
        assert work[1..] == [];
      }
    }
  }

  lemma ParkSafe(w: World, id: Id, now: Time, newId: Id)
    requires Inv(w) && newId >= w.next
    ensures Safe(w, ParkPlan(w.db, id, now, newId))
  {
    hide Inv, Follows, Steps;
    var work := ParkPlan(w.db, id, now, newId);
    if work != [] {
      AskStored(w, id);
      var origin := w.db.messages[id];
      StepKeeps(w, work[0]);
      var m := NoticeTo(origin, origin.from, StillParked, true, Response, newId, now);
      PostSafe(Step(w, work[0]), m, origin.from);
      assert work[1..] == [Append(m), Enqueue(newId, origin.from)];
    }
  }

  /** The broker may post a notice about any stored message, and a second one after it. */
  lemma NoticeGuards(w: World, origin: Id, m: Message, to: Address, n: Message)
    requires NewNotice(w.next, origin, m) && NewNotice(m.id + 1, origin, n) && origin in w.db.messages
    ensures Guard(w, Append(m)) && Guard(Posting(w, m, to), Append(n))
  {
  }

  predicate NewNotice(next: Id, origin: Id, m: Message) {
    m.id >= next && m.operationId.None? && m.kind.Response? && m.corrId == Some(origin)
  }

  lemma TwoPostsSafe(w: World, origin: Id, m: Message, to: Address, n: Message, to2: Address, rest: seq<Stmt>)
    requires Inv(w) && NewNotice(w.next, origin, m) && NewNotice(m.id + 1, origin, n) && origin in w.db.messages
    requires forall i :: 0 <= i < |rest| ==> Free(rest[i])
    ensures Safe(w, [Append(m), Enqueue(m.id, to)] + ([Append(n), Enqueue(n.id, to2)] + rest))
  {
    NoticeGuards(w, origin, m, to, n);
    hide Inv, Guard, Posting, Steps, Safe, Free, NewNotice;
    PostSafe(w, m, to);
    PostThenFree(Posting(w, m, to), n, to2, rest);
    SafeConcat(w, [Append(m), Enqueue(m.id, to)], [Append(n), Enqueue(n.id, to2)] + rest);
  }

  lemma ChaseSafe(w: World, id: Id, now: Time, grace: int, newId: Id)
    requires Inv(w) && newId >= w.next
    ensures Safe(w, ChasePlan(w.db, id, now, grace, newId))
  {
    hide Inv, Posting;
    var work := ChasePlan(w.db, id, now, grace, newId);
    if work != [] { AskStored(w, id); }
    if |work| == 3 {
      NoticeGuards(w, id, work[0].m, w.db.messages[id].to, work[0].m.(id := newId + 1));
      assert work == [work[0], work[1]] + [work[2]];
      hide Safe, Guard;
      PostThenFree(w, work[0].m, w.db.messages[id].to, [work[2]]);
    } else if |work| == 6 {
      var origin := w.db.messages[id];
      assert work == [work[0], work[1]] + ([work[2], work[3]] + [work[4], work[5]]);
      hide Safe;
      TwoPostsSafe(w, id, work[0].m, origin.to, work[2].m, origin.from, [work[4], work[5]]);
    }
  }

  // ---- Every event, every run -------------------------------------------------------------

  lemma EventSafe(cfg: Config, w: World, e: Event)
    requires Inv(w) && Fresh(w, e)
    ensures Safe(w, Work(cfg, w.db, e))
  {
    match e
    case Send(roster, a, now, newId) => SendSafe(cfg, w, roster, a, now, newId);
    case Degraded(roster, a, op, id, now) => DegradedSafe(cfg, w, roster, a, op, id, now);
    case Reconcile(roster, op, now, newId) => ReconcileSafe(cfg, w, roster, op, now, newId);
    case Reply(roster, a, now, newId) => ReplySafe(w, roster, a, now, newId);
    case Decline(roster, alias, id, reason, now, newId) => DeclineSafe(w, roster, alias, id, reason, now, newId);
    case Accept(roster, alias, id) => FreeSafe(w, AcceptPlan(w.db, roster, alias, id).work);
    case Snooze(roster, alias, id, now) => FreeSafe(w, SnoozePlan(w.db, roster, alias, id, now).work);
    case Cancel(id, order, now, newId) => CancelSafe(w, id, order, now, newId);
    case Park(id, now, newId) => ParkSafe(w, id, now, newId);
    case Chase(id, now, newId) => ChaseSafe(w, id, now, cfg.finalGraceS, newId);
    case Storage(s) => assert [s][1..] == [];
  }

  /** However an event is cut short, the invariant holds afterwards and nothing has gone back. */
  lemma PerformKeeps(cfg: Config, w: World, a: Act)
    requires Inv(w) && Allowed(cfg, w, a)
    ensures Inv(Perform(cfg, w, a)) && Follows(w, Perform(cfg, w, a))
  {
    EventSafe(cfg, w, a.event);
    SafeRuns(w, Work(cfg, w.db, a.event), a.cut);
  }

  /** The main run theorem: every reachable world keeps the invariant and follows every earlier one. */
  lemma {:induction false} RunKeeps(cfg: Config, w: World, acts: seq<Act>)
    requires Inv(w) && Possible(cfg, w, acts)
    ensures Inv(Run(cfg, w, acts)) && Follows(w, Run(cfg, w, acts))
    decreases |acts|
  {
    FollowsReflexive(w);
    if acts != [] {
      var w1 := Perform(cfg, w, acts[0]);
      PerformKeeps(cfg, w, acts[0]);
      RunKeeps(cfg, w1, acts[1..]);
      FollowsTransitive(w, w1, Run(cfg, w1, acts[1..]));
    }
  }
}
