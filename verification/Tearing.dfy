/**
 The ledger tells the truth about an ask unless a crash tears that ask.  Which cuts of which events
 leave an ask without its row, or its row at odds with what was said of it, exactly; and what every
 run says of an ask that no act of it tore, whatever became of the others.
 */
module Tearing {
  import opened Models
  import opened Store
  import opened Invariants
  import opened Verbs
  import opened Runs
  import opened VerbSafety
  import opened Outbox
  import opened Ledger

  // ---- Which cuts tear -----------------------------------------------------------------------

  /** A first send of a directed ask: stored by its statement number `stored`, awaited by its last. */
  predicate TearsSend(p: Plan, a: SendArgs, stored: nat, cut: nat) {
    p.answer.Sent? && !p.answer.replayed && OpensThread(a.kind, a.to) && stored < cut < |p.work|
  }

  /** Is this event cut between saying something decisive about an ask and recording it, or the other way round? */
  ghost predicate Torn(cfg: Config, db: DB, a: Act) {
    match a.event
    case Send(roster, args, now, newId) => TearsSend(SendPlan(cfg, db, roster, args, now, newId), args, 0, a.cut)
    case Degraded(roster, args, op, id, now) =>
      TearsSend(DegradedPlan(cfg, db, roster, args, op, id, now), args, 1, a.cut)
    case Reconcile(roster, op, now, newId) =>
      op in db.outbound &&
      var args := db.outbound[op].args;
      TearsSend(SendPlan(cfg, db, roster, args, now, newId), args, 0, a.cut)
    case Reply(roster, reply, now, newId) =>
      // answered, not closed
      reply.terminal && AskOpen(db.awaiting, reply.corrId)
      && ReplyPlan(db, roster, reply, now, newId).answer.Replied? && a.cut in {1, 2}
    case Decline(roster, alias, id, reason, now, newId) =>
      // refused, not closed
      AskOpen(db.awaiting, id) && DeclinePlan(db, roster, alias, id, reason, now, newId).answer.Done? && a.cut in {2, 3}
    case Park(id, now, newId) => TtlPassed(db.awaiting, id, now) && a.cut == 1 // parked, not told
    case Chase(id, now, newId) => |ChasePlan(db, id, now, cfg.finalGraceS, newId)| == 6 && a.cut in {3, 4, 5} // told, not parked
    case _ => false
  }

  /** A replay that opens an ask although something was already said that decides it. */
  ghost predicate Reopens(w: World, p: Plan, a: SendArgs, cut: nat) {
    && p.answer.Sent? && p.answer.replayed && OpensThread(a.kind, a.to) && |p.work| <= cut
    && p.answer.id !in w.db.awaiting && Verdict(w.log, p.answer.id).Some?
  }

  /**
   Does this event leave a row that lies?  A send cut before it opened its ask leaves no row, and
   a retry makes up for it unless the ask was decided in the meantime.
   */
  ghost predicate Misleads(cfg: Config, w: World, a: Act) {
    match a.event
    case Send(roster, args, now, newId) => Reopens(w, SendPlan(cfg, w.db, roster, args, now, newId), args, a.cut)
    case Degraded(roster, args, op, id, now) => Reopens(w, DegradedPlan(cfg, w.db, roster, args, op, id, now), args, a.cut)
    case Reconcile(roster, op, now, newId) =>
      op in w.db.outbound &&
      var args := w.db.outbound[op].args;
      Reopens(w, SendPlan(cfg, w.db, roster, args, now, newId), args, a.cut)
    case _ => Torn(cfg, w.db, a)
  }

  /** A replay that leaves the deadline to the broker, and opens an ask that was sent with another one. */
  predicate OpensLate(cfg: Config, db: DB, p: Plan, a: SendArgs, cut: nat) {
    && p.answer.Sent? && p.answer.replayed && OpensThread(a.kind, a.to) && |p.work| <= cut
    && p.answer.id !in db.awaiting && p.answer.id in db.messages
    && a.replyByS.Absent? && db.messages[p.answer.id].replyByS != cfg.defaultReplyByS
  }

  /** Does this event open an ask by another deadline than it was sent with? */
  ghost predicate Misdated(cfg: Config, db: DB, a: Act) {
    match a.event
    case Send(roster, args, now, newId) => OpensLate(cfg, db, SendPlan(cfg, db, roster, args, now, newId), args, a.cut)
    case Degraded(roster, args, op, id, now) =>
      OpensLate(cfg, db, DegradedPlan(cfg, db, roster, args, op, id, now), args, a.cut)
    case Reconcile(roster, op, now, newId) =>
      op in db.outbound &&
      var args := db.outbound[op].args;
      OpensLate(cfg, db, SendPlan(cfg, db, roster, args, now, newId), args, a.cut)
    case _ => false
  }

  /** The ask an event speaks of, or creates. */
  ghost function Subject(cfg: Config, db: DB, e: Event): Option<Id> {
    match e
    case Send(roster, a, now, newId) => SentId(SendPlan(cfg, db, roster, a, now, newId).answer)
    case Degraded(roster, a, op, id, now) => SentId(DegradedPlan(cfg, db, roster, a, op, id, now).answer)
    case Reconcile(roster, op, now, newId) =>
      if op in db.outbound then SentId(SendPlan(cfg, db, roster, db.outbound[op].args, now, newId).answer) else None
    case Reply(_, reply, _, _) => Some(reply.corrId)
    case Decline(_, _, id, _, _, _) => Some(id)
    case Accept(_, _, id) => Some(id)
    case Snooze(_, _, id, _) => Some(id)
    case Cancel(id, _, _, _) => Some(id)
    case Park(id, _, _) => Some(id)
    case Chase(id, _, _) => Some(id)
    case Storage(_) => None
  }

  function SentId(answer: Answer): Option<Id> { if answer.Sent? then Some(answer.id) else None }

  /** Does this act tear this ask? */
  ghost predicate Tears(cfg: Config, w: World, a: Act, id: Id) {
    Torn(cfg, w.db, a) && Subject(cfg, w.db, a.event) == Some(id)
  }

  /** Does this act leave this ask's row at odds with the history? */
  ghost predicate Belies(cfg: Config, w: World, a: Act, id: Id) {
    Misleads(cfg, w, a) && Subject(cfg, w.db, a.event) == Some(id)
  }

  /** Does this act open this ask by another deadline than its own? */
  ghost predicate Misdates(cfg: Config, w: World, a: Act, id: Id) {
    Misdated(cfg, w.db, a) && Subject(cfg, w.db, a.event) == Some(id)
  }

  // ---- Event by event --------------------------------------------------------------------------

  /** No row came or went or changed its deadline, and nothing became an ask. */
  predicate SameRows(x: Account, y: Account) { x.asked == y.asked && x.due == y.due && x.row.Some? == y.row.Some? }

  /** Work that does not concern an account leaves it alone, wherever it is cut. */
  lemma IdleWork(acc: Account, work: seq<Stmt>, y: Id, cut: nat)
    requires cut <= |work| && forall s :: s in work ==> Idle(s, y)
    ensures TurnAll(acc, work[..cut], y) == acc
  {
    TwoTurns(acc, work, y, |work|, |work| + 1, cut);
  }

  lemma FanIdle(id: Id, targets: seq<Address>, boxes: seq<Address>, y: Id)
    ensures forall s :: s in EnqueueEach(id, targets) ==> Idle(s, y)
    ensures forall s :: s in PassEach(id, boxes) ==> Idle(s, y)
  {
  }

  /** The account of an id that has never been used. */
  lemma BlankAccount(w: World, y: Id)
    requires Inv(w) && y >= w.next
    ensures AccountOf(BookOf(w), y) == BLANK
  {
    Unused(w, y);
    NeverMentioned(w.log, w.next, y);
  }

  /** What follows a routed message: nothing decisive, then the opening of its ask, if it is one. */
  lemma RoutedAccount(acc: Account, before: seq<Stmt>, m: Message, targets: seq<Address>, mid: seq<Stmt>, open: seq<Stmt>,
                      after: seq<Stmt>, y: Id, cut: nat)
    requires m.corrId.None? && (y == m.id ==> acc == BLANK)
    requires if OpensThread(m.kind, m.to)
             then |open| == 1 && open[0].OpenAwaiting? && open[0].id == m.id && open[0].replyByS == m.replyByS else open == []
    requires forall s :: s in before || s in mid || s in after ==> Idle(s, y)
    requires cut <= |before| + 1 + |mid| + |open| + |after|
    ensures var reached := TurnAll(acc, (before + [AppendRouted(m, targets)] + mid + open + after)[..cut], y);
      && (Honest(acc) ==> Honest(reached)) && (Dated(acc) ==> Dated(reached))
      && (Fair(acc) ==>
            (Fair(reached)
             <==> !(y == m.id && OpensThread(m.kind, m.to) && |before| < cut < |before| + 1 + |mid| + |open|)))
  {
    var work := before + [AppendRouted(m, targets)] + mid + open + after;
    var p := |before|;
    var q := p + 1 + |mid|;
    assert work[p] == AppendRouted(m, targets);
    forall i | 0 <= i < |work| && i != p && i != q ensures Idle(work[i], y) {
      assert work[i] in before || work[i] in mid || work[i] in after;
    }
    if OpensThread(m.kind, m.to) {
      assert work[q] == open[0];
      TwoTurns(acc, work, y, p, q, cut);
    } else {
      if q < |work| { assert work[q] in after; }
      TwoTurns(acc, work, y, p, |work|, cut);
    }
  }

  lemma FirstSendAccount(cfg: Config, w: World, roster: Roster, a: SendArgs, id: Id, now: Time, after: seq<Stmt>, y: Id, cut: nat)
    requires Inv(w) && id >= w.next
    requires (forall s :: s in after ==> Idle(s, y)) && cut <= |FirstSend(cfg, roster, a, id, now).work| + |after|
    ensures var p := FirstSend(cfg, roster, a, id, now); var acc := AccountOf(BookOf(w), y);
      var reached := TurnAll(acc, (p.work + after)[..cut], y);
      && (Honest(acc) ==> Honest(reached)) && (Dated(acc) ==> Dated(reached))
      && (Fair(acc) ==> (Fair(reached) <==> !(y == id && OpensThread(a.kind, a.to) && 0 < cut < |p.work|)))
  {
    hide Inv, AccountOf, TurnAll, Honest, Fair, Dated, FirstSend, EnqueueEach, PassEach, Targets, SessionBoxes;
    var m := Compose(cfg, a, id, now);
    var targets := Targets(roster, a.from, a.to);
    var passes := if a.to.Project? then PassEach(id, SessionBoxes(roster, a.from)) else [];
    var fan := EnqueueEach(id, targets);
    var open := if OpensThread(a.kind, a.to) then [OpenFor(cfg, a, m)] else [];
    FirstWork(cfg, roster, a, id, now);
    FanIdle(id, targets, SessionBoxes(roster, a.from), y);
    assert m.id == id && m.corrId.None? && m.kind == a.kind && m.to == a.to;
    hide Compose, Idle;
    assert [AppendRouted(m, targets)] + (passes + fan) + open + after
      == [] + [AppendRouted(m, targets)] + (passes + fan) + open + after;
    if y == id { BlankAccount(w, y); }
    RoutedAccount(AccountOf(BookOf(w), y), [], m, targets, passes + fan, open, after, y, cut);
  }

  lemma DegradedAccount(cfg: Config, w: World, roster: Roster, a: SendArgs, op: string, id: Id, now: Time, y: Id, cut: nat)
    requires Inv(w) && id >= w.next
    requires cut <= |DegradedSend(cfg, roster, a, op, id, now).work|
    ensures var p := DegradedSend(cfg, roster, a, op, id, now); var acc := AccountOf(BookOf(w), y);
      var reached := TurnAll(acc, p.work[..cut], y);
      && (Honest(acc) ==> Honest(reached)) && (Dated(acc) ==> Dated(reached))
      && (Fair(acc) ==> (Fair(reached) <==> !(y == id && OpensThread(a.kind, a.to) && 1 < cut < |p.work|)))
  {
    hide Inv, AccountOf, TurnAll, Honest, Fair, Dated, DegradedSend, EnqueueEach, PassEach, Targets, IntentOf, DegradedBoxes;
    var m := Compose(cfg, a, id, now);
    var targets := Targets(roster, a.from, a.to);
    var passes := if a.to.Project? then PassEach(id, DegradedBoxes(roster, a.from)) else [];
    var fan := EnqueueEach(id, targets);
    var open := if OpensThread(a.kind, a.to) then [OpenFor(cfg, a, m)] else [];
    var queue := [QueueOutbound(op, IntentOf(a, id, now))];
    DegradedWork(cfg, roster, a, op, id, now);
    FanIdle(id, targets, DegradedBoxes(roster, a.from), y);
    assert m.id == id && m.corrId.None? && m.kind == a.kind && m.to == a.to && |queue| == 1 && Idle(queue[0], y);
    hide Compose, Idle;
    assert queue + ([AppendRouted(m, targets)] + (fan + passes) + open) == queue + [AppendRouted(m, targets)] + (fan + passes) + open + [];
    if y == id { BlankAccount(w, y); }
    RoutedAccount(AccountOf(BookOf(w), y), queue, m, targets, fan + passes, open, [], y, cut);
  }

  /**
   A replay opens an ask that has no row, with the last of its statements; the row lies if the ask was
   decided, and has another deadline if the request leaves it to the broker and the message does not.
   */
  lemma ReplayAccount(cfg: Config, w: World, roster: Roster, a: SendArgs, m: Message, passers: seq<Address>,
                      after: seq<Stmt>, y: Id, cut: nat)
    requires m.id in w.db.messages && w.db.messages[m.id] == m
    requires forall s :: s in after ==> Idle(s, y)
    requires cut <= |ReplayPlan(cfg, w.db, roster, a, m, passers).work| + |after|
    ensures var p := ReplayPlan(cfg, w.db, roster, a, m, passers); var acc := AccountOf(BookOf(w), y);
      var reached := TurnAll(acc, (p.work + after)[..cut], y);
      && (Honest(acc) ==> (Honest(reached) <==> !(Some(y) == SentId(p.answer) && Reopens(w, p, a, cut))))
      && (Dated(acc) ==> (Dated(reached) <==> !(Some(y) == SentId(p.answer) && OpensLate(cfg, w.db, p, a, cut))))
      && (Fair(acc) ==> Fair(reached))
  {
    hide Verdict, Releases, TurnAll, RouteOf;
    var acc := AccountOf(BookOf(w), y);
    var p := ReplayPlan(cfg, w.db, roster, a, m, passers);
    var work := p.work + after;
    var opens := p.answer.Sent? && m.id !in w.db.awaiting && OpensThread(m.kind, m.to);
    FanIdle(m.id, RouteOf(w.db, roster, m), passers, y);
    hide EnqueueEach, PassEach;
    if opens && y == m.id {
      var q := |p.work| - 1;
      assert work[q] == OpenFor(cfg, a, m);
      forall i | 0 <= i < |work| && i != q ensures Idle(work[i], y) {
        if i > q { assert work[i] in after; }
      }
      if Verdict(w.log, y).None? { UndecidedUnreleased(w.log, y); }
      TwoTurns(acc, work, y, q, |work|, cut);
    } else {
      IdleWork(acc, work, y, cut);
    }
  }

  lemma SendAccount(cfg: Config, w: World, roster: Roster, a: SendArgs, now: Time, newId: Id, after: seq<Stmt>, y: Id, cut: nat)
    requires Inv(w) && newId >= w.next && SuppliedFresh(w, a)
    requires (forall s :: s in after ==> Idle(s, y)) && cut <= |SendPlan(cfg, w.db, roster, a, now, newId).work| + |after|
    ensures var p := SendPlan(cfg, w.db, roster, a, now, newId); var acc := AccountOf(BookOf(w), y);
      var reached := TurnAll(acc, (p.work + after)[..cut], y);
      && (Honest(acc) ==> (Honest(reached) <==> !(Some(y) == SentId(p.answer) && Reopens(w, p, a, cut))))
      && (Dated(acc) ==> (Dated(reached) <==> !(Some(y) == SentId(p.answer) && OpensLate(cfg, w.db, p, a, cut))))
      && (Fair(acc) ==> (Fair(reached) <==> !(Some(y) == SentId(p.answer) && TearsSend(p, a, 0, cut))))
  {
    hide Inv, AccountOf, TurnAll, Honest, Fair, Dated;
    var p := SendPlan(cfg, w.db, roster, a, now, newId);
    match FindOp(w.db.messages, a.operationId)
    case Some(m) =>
      FoundStored(w, a.operationId);
      if a.from.Broker? || a.from.Everyone? {
        IdleWork(AccountOf(BookOf(w), y), p.work + after, y, cut);
      } else {
        ReplayAccount(cfg, w, roster, a, m, SessionBoxes(roster, m.from), after, y, cut);
      }
      ReplayedAnswer(cfg, w.db, roster, a, m, SessionBoxes(roster, m.from));
    case None =>
      var id := if a.messageId.Some? then a.messageId.value else newId;
      if p.answer.Sent? {
        FirstSendAccount(cfg, w, roster, a, id, now, after, y, cut);
      } else {
        assert p.work == [];
        IdleWork(AccountOf(BookOf(w), y), p.work + after, y, cut);
      }
  }

  lemma ReplayedAnswer(cfg: Config, db: DB, roster: Roster, a: SendArgs, m: Message, passers: seq<Address>)
    ensures var p := ReplayPlan(cfg, db, roster, a, m, passers); p.answer.Sent? ==> p.answer.replayed
  {
  }

  lemma DegradedPlanAccount(cfg: Config, w: World, roster: Roster, a: SendArgs, op: string, id: Id, now: Time, y: Id, cut: nat)
    requires Inv(w) && (id >= w.next || FindOp(w.db.messages, Some(op)).Some?)
    requires cut <= |DegradedPlan(cfg, w.db, roster, a, op, id, now).work|
    ensures var p := DegradedPlan(cfg, w.db, roster, a, op, id, now); var acc := AccountOf(BookOf(w), y);
      var reached := TurnAll(acc, p.work[..cut], y);
      && (Honest(acc) ==> (Honest(reached) <==> !(Some(y) == SentId(p.answer) && Reopens(w, p, a, cut))))
      && (Dated(acc) ==> (Dated(reached) <==> !(Some(y) == SentId(p.answer) && OpensLate(cfg, w.db, p, a, cut))))
      && (Fair(acc) ==> (Fair(reached) <==> !(Some(y) == SentId(p.answer) && TearsSend(p, a, 1, cut))))
  {
    hide Inv, AccountOf, TurnAll, Honest, Fair, Dated;
    var p := DegradedPlan(cfg, w.db, roster, a, op, id, now);
    match FindOp(w.db.messages, Some(op))
    case Some(m) =>
      FoundStored(w, Some(op));
      if p.answer == Refusal(EmptySend) || a.from.Broker? {
        IdleWork(AccountOf(BookOf(w), y), p.work, y, cut);
      } else {
        ReplayAccount(cfg, w, roster, a, m, DegradedBoxes(roster, m.from), [], y, cut);
        assert p.work + [] == p.work;
      }
      ReplayedAnswer(cfg, w.db, roster, a, m, DegradedBoxes(roster, m.from));
    case None =>
      if p.answer.Sent? {
        DegradedAccount(cfg, w, roster, a.(operationId := Some(op)), op, id, now, y, cut);
      } else {
        assert p.work == [];
        IdleWork(AccountOf(BookOf(w), y), p.work, y, cut);
      }
  }

  lemma ReconcileAccount(cfg: Config, w: World, roster: Roster, op: string, now: Time, newId: Id, y: Id, cut: nat)
    requires Inv(w) && Fresh(w, Reconcile(roster, op, now, newId)) && op in w.db.outbound
    requires cut <= |ReconcilePlan(cfg, w.db, roster, op, now, newId).work|
    ensures var args := w.db.outbound[op].args; var p := SendPlan(cfg, w.db, roster, args, now, newId);
      var acc := AccountOf(BookOf(w), y);
      var reached := TurnAll(acc, ReconcilePlan(cfg, w.db, roster, op, now, newId).work[..cut], y);
      && (Honest(acc) ==> (Honest(reached) <==> !(Some(y) == SentId(p.answer) && Reopens(w, p, args, cut))))
      && (Dated(acc) ==> (Dated(reached) <==> !(Some(y) == SentId(p.answer) && OpensLate(cfg, w.db, p, args, cut))))
      && (Fair(acc) ==> (Fair(reached) <==> !(Some(y) == SentId(p.answer) && TearsSend(p, args, 0, cut))))
  {
    hide Inv, AccountOf, TurnAll, Honest, Fair, Dated, SendPlan;
    var args := w.db.outbound[op].args;
    var p := SendPlan(cfg, w.db, roster, args, now, newId);
    var after := if p.answer.Refusal? && !Permanent(p.answer.code) then [] else [DeleteOutbound(op)];
    assert ReconcilePlan(cfg, w.db, roster, op, now, newId).work == p.work + after;
    SendAccount(cfg, w, roster, args, now, newId, after, y, cut);
  }

  // ---- Answers, releases and withdrawals ---------------------------------------------------------

  /** Something decisive said of an open ask and recorded two statements on: at odds exactly in between. */
  lemma SaidThenClosed(acc: Account, work: seq<Stmt>, id: Id, y: Id, p: nat, q: nat, cut: nat)
    requires p < q < |work| && cut <= |work| && (y == id ==> acc.row == Some(None))
    requires work[p].Append? && !OpensThread(work[p].m.kind, work[p].m.to) && work[p].m.corrId == Some(id)
    requires Decides(Posted(work[p].m), id).Some? && work[q].CloseAwaiting? && work[q].id == id
    requires Decides(Posted(work[p].m), id) == Some(work[q].reason)
    requires forall i :: 0 <= i < |work| && i != p && i != q ==> Idle(work[i], y)
    ensures SameRows(acc, TurnAll(acc, work[..cut], y))
    ensures Honest(acc) ==> (Honest(TurnAll(acc, work[..cut], y)) <==> !(y == id && p < cut <= q))
  {
    TwoTurns(acc, work, y, p, q, cut);
    hide TurnAll;
  }

  /** A word about an ask that is already decided, or is none: whatever it says, nothing is torn. */
  lemma LateWord(acc: Account, work: seq<Stmt>, m: Message, id: Id, y: Id, cut: nat)
    requires cut <= |work| && |work| >= 3 && work[0] == Append(m)
    requires m.kind.Response? && m.corrId == Some(id) && !m.from.Broker?
    requires y == id && m.terminal ==> acc.row != Some(None)
    requires forall i :: 1 <= i < |work| && i != 2 ==> Idle(work[i], y)
    requires Idle(work[2], y) || (work[2].CloseAwaiting? && acc.row != Some(None))
    ensures SameRows(acc, TurnAll(acc, work[..cut], y)) && (Honest(acc) ==> Honest(TurnAll(acc, work[..cut], y)))
  {
    TwoTurns(acc, work, y, 0, 2, cut);
    hide TurnAll;
  }

  lemma CopiesIdle(roster: Roster, origin: Message, from: Address, project: bool, y: Id)
    ensures forall s :: s in SettleCopies(roster, origin, from, project) ==> Idle(s, y)
    ensures |SettleCopies(roster, origin, from, project)| >= 1
  {
  }

  predicate Closes(db: DB, a: ReplyArgs, origin: Message) {
    IsAsk(origin.kind) && a.terminal && !(a.corrId in db.awaiting && db.awaiting[a.corrId].closed.Some?)
  }

  /** A reply is its response, the row for the asker, the closing of the ask if it is one and open, and nothing else of note. */
  lemma ReplyShape(db: DB, roster: Roster, a: ReplyArgs, now: Time, newId: Id, y: Id)
    requires ReplyPlan(db, roster, a, now, newId).answer.Replied?
    ensures a.corrId in db.messages && !a.from.Broker?
    ensures var work := ReplyPlan(db, roster, a, now, newId).work; var origin := db.messages[a.corrId];
      && |work| >= 3 && work[0] == Append(ResponseTo(origin, a, newId, now))
      && (forall i :: 1 <= i < |work| && i != 2 ==> Idle(work[i], y))
      && (if Closes(db, a, origin) then work[2] == CloseAwaiting(a.corrId, Responded) else Idle(work[2], y))
  {
    var origin := db.messages[a.corrId];
    var work := ReplyPlan(db, roster, a, now, newId).work;
    var copies := SettleCopies(roster, origin, a.from, IsAsk(origin.kind));
    CopiesIdle(roster, origin, a.from, IsAsk(origin.kind), y);
    hide SettleCopies;
    var post := [Append(ResponseTo(origin, a, newId, now)), Enqueue(newId, origin.from)];
    var close := if Closes(db, a, origin) then [CloseAwaiting(a.corrId, Responded)] else [];
    var defer := if IsAsk(origin.kind) && !a.terminal then [DeferNudge(a.corrId, now)] else [];
    assert work == post + close + defer + copies;
    forall i | 1 <= i < |work| && (i != 2 || close == []) ensures Idle(work[i], y) {
      if i >= 2 { assert work[i] in defer || work[i] in copies; }
    }
  }

  lemma ReplyAccount(w: World, roster: Roster, a: ReplyArgs, now: Time, newId: Id, y: Id, cut: nat)
    requires Inv(w) && newId >= w.next
    requires cut <= |ReplyPlan(w.db, roster, a, now, newId).work|
    ensures var p := ReplyPlan(w.db, roster, a, now, newId);
      var reached := TurnAll(AccountOf(BookOf(w), y), p.work[..cut], y);
      && SameRows(AccountOf(BookOf(w), y), reached)
      && (Honest(AccountOf(BookOf(w), y)) ==>
            (Honest(reached)
             <==> !(y == a.corrId && a.terminal && AskOpen(w.db.awaiting, a.corrId) && p.answer.Replied? && cut in {1, 2})))
  {
    hide Inv, TurnAll, Verdict, Releases;
    var id := a.corrId;
    var acc := AccountOf(BookOf(w), y);
    var p := ReplyPlan(w.db, roster, a, now, newId);
    if !p.answer.Replied? {
      ReplyRefused(w.db, roster, a, now, newId, y);
      IdleWork(acc, p.work, y, cut);
    } else {
      ReplyShape(w.db, roster, a, now, newId, y);
      if id in w.db.awaiting { AskStored(w, id); }
      OwnId(w, id);
      var m := ResponseTo(w.db.messages[id], a, newId, now);
      hide ReplyPlan, Idle;
      if a.terminal && AskOpen(w.db.awaiting, id) {
        SaidThenClosed(acc, p.work, id, y, 0, 2, cut);
      } else {
        LateWord(acc, p.work, m, id, y, cut);
      }
    }
  }

  lemma ReplyRefused(db: DB, roster: Roster, a: ReplyArgs, now: Time, newId: Id, y: Id)
    requires !ReplyPlan(db, roster, a, now, newId).answer.Replied?
    ensures forall s :: s in ReplyPlan(db, roster, a, now, newId).work ==> Idle(s, y)
  {
  }

  lemma DeclineAccount(w: World, roster: Roster, alias: Address, id: Id, reason: string, now: Time, newId: Id, y: Id, cut: nat)
    requires Inv(w) && Sane(roster) && newId >= w.next
    requires cut <= |DeclinePlan(w.db, roster, alias, id, reason, now, newId).work|
    ensures var p := DeclinePlan(w.db, roster, alias, id, reason, now, newId);
      var reached := TurnAll(AccountOf(BookOf(w), y), p.work[..cut], y);
      && SameRows(AccountOf(BookOf(w), y), reached)
      && (Honest(AccountOf(BookOf(w), y)) ==>
            (Honest(reached) <==> !(y == id && AskOpen(w.db.awaiting, id) && p.answer.Done? && cut in {2, 3})))
  {
    hide Inv, TurnAll, Verdict, Releases, Actable;
    var acc := AccountOf(BookOf(w), y);
    var p := DeclinePlan(w.db, roster, alias, id, reason, now, newId);
    if AskOpen(w.db.awaiting, id) && p.answer.Done? {
      AskStored(w, id);
      BrokerCannotAct(w, roster, id, alias);
      SaidThenClosed(acc, p.work, id, y, 1, 3, cut);
    } else {
      if AskOpen(w.db.awaiting, id) { AskStored(w, id); }
      IdleWork(acc, p.work, y, cut);
    }
  }

  /** Nothing a cancel says is decisive; its closing is, and decides what it records. */
  lemma CancelAccount(w: World, id: Id, order: seq<Address>, now: Time, newId: Id, y: Id, cut: nat)
    requires cut <= |CancelPlan(w.db, id, order, now, newId).work|
    ensures var reached := TurnAll(AccountOf(BookOf(w), y), CancelPlan(w.db, id, order, now, newId).work[..cut], y);
      SameRows(AccountOf(BookOf(w), y), reached) && (Honest(AccountOf(BookOf(w), y)) ==> Honest(reached))
  {
    var acc := AccountOf(BookOf(w), y);
    var work := CancelPlan(w.db, id, order, now, newId).work;
    hide TurnAll, Verdict, Releases;
    if work == [] {
      IdleWork(acc, work, y, cut);
    } else {
      WithdrawIdle(w.db.deliveries, w.db.messages[id], order, now, newId, y);
      forall i | 0 < i < |work| ensures Idle(work[i], y) {
        assert work[i] in WithdrawEach(w.db.deliveries, w.db.messages[id], order, now, newId);
      }
      TwoTurns(acc, work, y, 0, |work|, cut);
    }
  }

  lemma {:induction false} WithdrawIdle(rows: Rows, origin: Message, order: seq<Address>, now: Time, newId: Id, y: Id)
    ensures forall s :: s in WithdrawEach(rows, origin, order, now, newId) ==> Idle(s, y)
    decreases |order|
  {
    if order != [] {
      WithdrawIdle(rows, origin, order[1..], now, newId, y);
      WithdrawIdle(rows, origin, order[1..], now, newId + 1, y);
    }
  }

  lemma ParkAccount(w: World, id: Id, now: Time, newId: Id, y: Id, cut: nat)
    requires Inv(w) && cut <= |ParkPlan(w.db, id, now, newId)|
    ensures SameRows(AccountOf(BookOf(w), y), TurnAll(AccountOf(BookOf(w), y), ParkPlan(w.db, id, now, newId)[..cut], y))
    ensures Honest(AccountOf(BookOf(w), y)) ==>
      (Honest(TurnAll(AccountOf(BookOf(w), y), ParkPlan(w.db, id, now, newId)[..cut], y))
       <==> !(y == id && TtlPassed(w.db.awaiting, id, now) && cut == 1))
  {
    hide Inv, TurnAll, Verdict, Releases;
    var acc := AccountOf(BookOf(w), y);
    var work := ParkPlan(w.db, id, now, newId);
    if work == [] {
      IdleWork(acc, work, y, cut);
    } else {
      AskStored(w, id);
      TwoTurns(acc, work, y, 0, 1, cut);
    }
  }

  lemma ChaseAccount(w: World, id: Id, now: Time, grace: int, newId: Id, y: Id, cut: nat)
    requires Inv(w) && cut <= |ChasePlan(w.db, id, now, grace, newId)|
    ensures SameRows(AccountOf(BookOf(w), y), TurnAll(AccountOf(BookOf(w), y), ChasePlan(w.db, id, now, grace, newId)[..cut], y))
    ensures Honest(AccountOf(BookOf(w), y)) ==>
      (Honest(TurnAll(AccountOf(BookOf(w), y), ChasePlan(w.db, id, now, grace, newId)[..cut], y))
       <==> !(y == id && |ChasePlan(w.db, id, now, grace, newId)| == 6 && cut in {3, 4, 5}))
  {
    hide Inv, TurnAll, Verdict, Releases;
    var acc := AccountOf(BookOf(w), y);
    var work := ChasePlan(w.db, id, now, grace, newId);
    if AskOpen(w.db.awaiting, id) { AskStored(w, id); }
    if |work| == 6 {
      SaidThenClosed(acc, work, id, y, 2, 5, cut);
    } else {
      IdleWork(acc, work, y, cut);
    }
  }

  // ---- Every event -------------------------------------------------------------------------------

  lemma WorkAccount(cfg: Config, w: World, a: Act, y: Id)
    requires Inv(w) && Allowed(cfg, w, a)
    ensures var acc := AccountOf(BookOf(w), y); var reached := TurnAll(acc, Work(cfg, w.db, a.event)[..a.cut], y);
      && (Honest(acc) ==> (Honest(reached) <==> !Belies(cfg, w, a, y)))
      && (Fair(acc) ==> (Fair(reached) <==> !Tears(cfg, w, a, y)))
      && (Dated(acc) ==> (Dated(reached) <==> !Misdates(cfg, w, a, y)))
  {
    hide Inv, AccountOf, TurnAll, Honest, Idle, Reopens, TearsSend, OpensLate;
    hide SendPlan, DegradedPlan, ReplyPlan, DeclinePlan, ParkPlan, ChasePlan;
    var acc := AccountOf(BookOf(w), y);
    match a.event
    case Send(roster, args, now, newId) =>
      assert SendPlan(cfg, w.db, roster, args, now, newId).work + [] == SendPlan(cfg, w.db, roster, args, now, newId).work;
      SendAccount(cfg, w, roster, args, now, newId, [], y, a.cut);
    case Degraded(roster, args, op, id, now) => DegradedPlanAccount(cfg, w, roster, args, op, id, now, y, a.cut);
    case Reconcile(roster, op, now, newId) =>
      if op in w.db.outbound {
        ReconcileAccount(cfg, w, roster, op, now, newId, y, a.cut);
      } else {
        IdleWork(acc, [], y, 0);
      }
    case Reply(roster, reply, now, newId) => ReplyAccount(w, roster, reply, now, newId, y, a.cut);
    case Decline(roster, alias, id, reason, now, newId) => DeclineAccount(w, roster, alias, id, reason, now, newId, y, a.cut);
    case Accept(roster, alias, id) =>
      AcceptIdle(w.db, roster, alias, id, y);
      IdleWork(acc, AcceptPlan(w.db, roster, alias, id).work, y, a.cut);
    case Snooze(roster, alias, id, now) =>
      SnoozeIdle(w.db, roster, alias, id, now, y);
      IdleWork(acc, SnoozePlan(w.db, roster, alias, id, now).work, y, a.cut);
    case Cancel(id, order, now, newId) => CancelAccount(w, id, order, now, newId, y, a.cut);
    case Park(id, now, newId) => ParkAccount(w, id, now, newId, y, a.cut);
    case Chase(id, now, newId) => ChaseAccount(w, id, now, cfg.finalGraceS, newId, y, a.cut);
    case Storage(s) =>
      StorageIdle(s, y);
      IdleWork(acc, [s], y, a.cut);
  }

  lemma AcceptIdle(db: DB, roster: Roster, alias: Address, id: Id, y: Id)
    ensures forall s :: s in AcceptPlan(db, roster, alias, id).work ==> Idle(s, y)
  {
  }

  lemma SnoozeIdle(db: DB, roster: Roster, alias: Address, id: Id, now: Time, y: Id)
    ensures forall s :: s in SnoozePlan(db, roster, alias, id, now).work ==> Idle(s, y)
  {
  }

  lemma StorageIdle(s: Stmt, y: Id)
    requires StorageOp(s)
    ensures Idle(s, y)
  {
  }

  /** Apart from the sweeper's purge itself, no event purges. */
  lemma WorkPurgeFree(cfg: Config, db: DB, e: Event)
    requires !e.Storage?
    ensures forall s :: s in Work(cfg, db, e) ==> !s.Purge?
  {
    if e.Reconcile? {
      ReconcileKeeps(cfg, db, e);
    } else {
      WorkKeeping(cfg, db, e);
      assert forall s :: s in Work(cfg, db, e) ==> Plain(s);
    }
  }

  lemma PurgeAccount(w: World, cutoff: Time, y: Id)
    requires AsksRef(w.db.messages, w.db.awaiting)
    ensures Honest(AccountOf(BookOf(w), y)) ==> Honest(AccountOf(BookOf(Step(w, Purge(cutoff))), y))
    ensures Fair(AccountOf(BookOf(w), y)) ==> Fair(AccountOf(BookOf(Step(w, Purge(cutoff))), y))
    ensures Dated(AccountOf(BookOf(w), y)) ==> Dated(AccountOf(BookOf(Step(w, Purge(cutoff))), y))
  {
    hide Verdict, Releases;
  }

  /**
   One act, one ask.  An honest row stays honest exactly if the act does not belie it; a fair
   account stays fair exactly if the act does not tear the ask; an ask with its own deadline keeps
   it exactly if the act does not open it by another.
   */
  lemma ActAccount(cfg: Config, w: World, a: Act, y: Id)
    requires Inv(w) && Allowed(cfg, w, a)
    ensures Honest(AccountOf(BookOf(w), y)) ==>
      (Honest(AccountOf(BookOf(Perform(cfg, w, a)), y)) <==> !Belies(cfg, w, a, y))
    ensures Fair(AccountOf(BookOf(w), y)) ==>
      (Fair(AccountOf(BookOf(Perform(cfg, w, a)), y)) <==> !Tears(cfg, w, a, y))
    ensures Dated(AccountOf(BookOf(w), y)) ==>
      (Dated(AccountOf(BookOf(Perform(cfg, w, a)), y)) <==> !Misdates(cfg, w, a, y))
  {
    hide Inv, AccountOf, TurnAll, Honest, Fair, Dated, Steps, Safe;
    var work := Work(cfg, w.db, a.event);
    if a.event.Storage? && a.event.s.Purge? {
      if a.cut == 0 {
        NoSteps(w);
      } else {
        assert work[..a.cut] == [a.event.s];
        OneStep(w, a.event.s);
        AsksKnown(w);
        PurgeAccount(w, a.event.s.cutoff, y);
      }
    } else {
      if !a.event.Storage? { WorkPurgeFree(cfg, w.db, a.event); }
      EventSafe(cfg, w, a.event);
      SafePrefix(w, work, a.cut);
      TurnSteps(w, work[..a.cut], y);
      hide Belies, Tears, Misdates;
      WorkAccount(cfg, w, a, y);
    }
  }

  lemma AsksKnown(w: World)
    requires Inv(w)
    ensures AsksRef(w.db.messages, w.db.awaiting)
  {
  }

  /** A torn event has a subject. */
  lemma TornSubject(cfg: Config, db: DB, a: Act)
    requires Torn(cfg, db, a)
    ensures Subject(cfg, db, a.event).Some?
  {
    hide SendPlan, DegradedPlan, ReplyPlan, DeclinePlan, ParkPlan, ChasePlan;
  }

  /**
   The exact condition.  An act, cut anywhere, keeps every ask's row in agreement with what was
   said of it unless, and always unless, it is cut at one of the places that tear.
   */
  lemma TornIff(cfg: Config, w: World, a: Act)
    requires Inv(w) && LedgerInv(BookOf(w)) && Allowed(cfg, w, a)
    ensures LedgerInv(BookOf(Perform(cfg, w, a))) <==> !Torn(cfg, w.db, a)
  {
    hide Inv, AccountOf, Fair, Torn, Subject, Perform;
    if Torn(cfg, w.db, a) {
      TornSubject(cfg, w.db, a);
      var y := Subject(cfg, w.db, a.event).value;
      FairIff(cfg, w, a, y);
      assert !Fair(AccountOf(BookOf(Perform(cfg, w, a)), y));
    } else {
      forall y: Id ensures Fair(AccountOf(BookOf(Perform(cfg, w, a)), y)) { FairIff(cfg, w, a, y); }
    }
  }

  lemma FairIff(cfg: Config, w: World, a: Act, y: Id)
    requires Inv(w) && LedgerInv(BookOf(w)) && Allowed(cfg, w, a)
    ensures Fair(AccountOf(BookOf(Perform(cfg, w, a)), y)) <==> !Tears(cfg, w, a, y)
  {
    hide Inv, AccountOf, Torn, Subject, Perform, Tears, Belies, Misdates;
    assert Fair(AccountOf(BookOf(w), y));
    ActAccount(cfg, w, a, y);
  }

  // ---- Runs ----------------------------------------------------------------------------------------

  /** No act of the run tears this ask.  Whatever else is cut, wherever, and whatever is torn of others. */
  ghost predicate NeverTorn(cfg: Config, w: World, acts: seq<Act>, id: Id)
    requires Possible(cfg, w, acts)
    decreases |acts|
  {
    acts == [] || (!Tears(cfg, w, acts[0], id) && NeverTorn(cfg, Perform(cfg, w, acts[0]), acts[1..], id))
  }

  /** No act of the run belies this ask's row: a send cut before its opening, retried or not, does not. */
  ghost predicate NeverBelied(cfg: Config, w: World, acts: seq<Act>, id: Id)
    requires Possible(cfg, w, acts)
    decreases |acts|
  {
    acts == [] || (!Belies(cfg, w, acts[0], id) && NeverBelied(cfg, Perform(cfg, w, acts[0]), acts[1..], id))
  }

  lemma {:induction false} RunFair(cfg: Config, w: World, acts: seq<Act>, id: Id)
    requires Inv(w) && Fair(AccountOf(BookOf(w), id)) && Possible(cfg, w, acts) && NeverTorn(cfg, w, acts, id)
    ensures Fair(AccountOf(BookOf(Run(cfg, w, acts)), id))
    decreases |acts|
  {
    hide Inv, AccountOf, Steps, Tears, Belies, Misdates;
    if acts != [] {
      ActAccount(cfg, w, acts[0], id);
      PerformKeeps(cfg, w, acts[0]);
      RunFair(cfg, Perform(cfg, w, acts[0]), acts[1..], id);
    }
  }

  lemma {:induction false} RunHonest(cfg: Config, w: World, acts: seq<Act>, id: Id)
    requires Inv(w) && Honest(AccountOf(BookOf(w), id)) && Possible(cfg, w, acts) && NeverBelied(cfg, w, acts, id)
    ensures Honest(AccountOf(BookOf(Run(cfg, w, acts)), id))
    decreases |acts|
  {
    hide Inv, AccountOf, Steps, Tears, Belies, Misdates;
    if acts != [] {
      ActAccount(cfg, w, acts[0], id);
      PerformKeeps(cfg, w, acts[0]);
      RunHonest(cfg, Perform(cfg, w, acts[0]), acts[1..], id);
    }
  }

  /** A broker that has just been installed. */
  const START: World := World(EMPTY, 0, [], multiset{}, multiset{}, multiset{})

  lemma StartHolds()
    ensures Inv(START) && LedgerInv(BookOf(START))
  {
  }

  /** An ask's row says what the first decisive entry of the history says, and nothing more was said or done. */
  ghost predicate TellsTheTruth(w: World, id: Id)
    requires id in w.db.awaiting
  {
    && w.db.awaiting[id].closed == Verdict(w.log, id)
    && Releases(w.log, id) == (if w.db.awaiting[id].closed == Some(Parked) then 1 else 0)
    && w.closes[id] == (if w.db.awaiting[id].closed.Some? then 1 else 0)
  }

  /**
   Closure tells the truth, ask by ask.  After any run from an empty broker in which no crash tears
   this ask, if it is still stored it is awaited, and its row says what the first decisive event
   says: open if nothing decided it, responded iff a terminal answer came first, parked iff a
   broker release came first - and then exactly one release was posted, otherwise none -
   cancelled iff a withdrawal did.
   */
  lemma ClosureTellsTheTruth(cfg: Config, acts: seq<Act>, id: Id)
    requires Possible(cfg, START, acts) && NeverTorn(cfg, START, acts, id)
    ensures var w := Run(cfg, START, acts);
      DirectedAsk(w.db.messages, id) ==> id in w.db.awaiting && TellsTheTruth(w, id)
  {
    StartHolds();
    assert Fair(AccountOf(BookOf(START), id));
    RunFair(cfg, START, acts, id);
    RunKeeps(cfg, START, acts);
    hide NeverTorn, Possible;
  }

  /**
   Crash recovery and closure compose.  Sends may be cut anywhere and retried by any path: as long
   as no replay opens this ask after it was decided, and no answer, refusal, parking or release
   of it is cut between word and record, whatever row the ask has tells the truth.
   */
  lemma RowTellsTheTruth(cfg: Config, acts: seq<Act>, id: Id)
    requires Possible(cfg, START, acts) && NeverBelied(cfg, START, acts, id)
    ensures var w := Run(cfg, START, acts); id in w.db.awaiting ==> TellsTheTruth(w, id)
  {
    StartHolds();
    assert Fair(AccountOf(BookOf(START), id));
    RunHonest(cfg, START, acts, id);
    RunKeeps(cfg, START, acts);
    hide NeverBelied, Possible;
  }
}
