/**
 The verbs as the broker runs them: statement by statement against the backend.  Every method
 extends the backend's journal by exactly the work its plan prescribes, so all that is proved
 of plans and runs is true of these bodies (src/broker/router.ts).
 */
module Routing {
  import opened Models
  import opened Store
  import opened Invariants
  import opened Verbs
  import opened Backend
  import opened CrashSafe
  import opened Mailboxes
  import opened ProjectMail

  /** Queue a message for each target in turn. */
  method EnqueueAll(backend: SqliteBackend, id: Id, targets: seq<Address>)
    requires backend.Valid()
    modifies backend
    ensures backend.Valid() && backend.outbound == old(backend.outbound)
    ensures backend.journal == old(backend.journal) + EnqueueEach(id, targets)
    ensures backend.messages == old(backend.messages) && backend.awaiting == old(backend.awaiting)
  {
    for i := 0 to |targets|
      invariant backend.Valid() && backend.outbound == old(backend.outbound)
      invariant backend.journal == old(backend.journal) + EnqueueEach(id, targets[..i])
      invariant backend.messages == old(backend.messages) && backend.awaiting == old(backend.awaiting)
    {
      backend.Enqueue(id, targets[i]);
      assert EnqueueEach(id, targets[..i + 1]) == EnqueueEach(id, targets[..i]) + [Enqueue(id, targets[i])];
    }
    assert targets[..|targets|] == targets;
  }

  /** Treat every alias of a session as having passed on its own project ask. */
  method PassAll(backend: SqliteBackend, id: Id, boxes: seq<Address>)
    requires backend.Valid()
    modifies backend
    ensures backend.Valid() && backend.outbound == old(backend.outbound)
    ensures backend.journal == old(backend.journal) + PassEach(id, boxes)
    ensures backend.messages == old(backend.messages) && backend.awaiting == old(backend.awaiting)
  {
    for i := 0 to |boxes|
      invariant backend.Valid() && backend.outbound == old(backend.outbound)
      invariant backend.journal == old(backend.journal) + PassEach(id, boxes[..i])
      invariant backend.messages == old(backend.messages) && backend.awaiting == old(backend.awaiting)
    {
      backend.PassProject(id, boxes[i]);
      assert PassEach(id, boxes[..i + 1]) == PassEach(id, boxes[..i]) + [PassProject(id, boxes[i])];
    }
    assert boxes[..|boxes|] == boxes;
  }

  /** Open the awaiting of a directed ask, anchored to when it was sent. */
  method OpenAsk(backend: SqliteBackend, cfg: Config, a: SendArgs, m: Message)
    requires backend.Valid()
    modifies backend
    ensures backend.Valid() && backend.outbound == old(backend.outbound)
    ensures backend.journal == old(backend.journal) + [OpenFor(cfg, a, m)]
  {
    var ttl := OrDefault(m.ttlS, cfg.defaultTtlS);
    var replyBy := ReplyBy(cfg, a.replyByS);
    backend.OpenAwaiting(m.id, if ttl.Some? then Some(m.ts + ttl.value) else None, replyBy, m.ts);
  }

  /** A send whose operation id is known: route what is missing, reopen nothing. */
  method Replay(backend: SqliteBackend, cfg: Config, roster: Roster, a: SendArgs, m: Message, passers: seq<Address>)
    returns (r: Answer)
    requires backend.Valid()
    modifies backend
    ensures backend.Valid() && backend.outbound == old(backend.outbound)
    ensures var p := ReplayPlan(cfg, old(backend.Db()), roster, a, m, passers);
      r == p.answer && backend.journal == old(backend.journal) + p.work
  {
    ghost var db := backend.Db();
    assert db.routes == backend.routes && db.awaiting == backend.awaiting;
    hide *;
    hide SqliteBackend.Ran;
    ReplayParts(cfg, db, roster, a, m, passers);
    if m.from != a.from { return Refusal(OperationConflict); }
    if !SamePayload(m, a) { return Refusal(OperationConflict); }
    var targets := if m.id in backend.routes then backend.routes[m.id] else Targets(roster, m.from, m.to);
    RouteAgain(backend, cfg, a, m, targets, passers);
    return Sent(m.id, targets, true);
  }

  method RouteAgain(backend: SqliteBackend, cfg: Config, a: SendArgs, m: Message, targets: seq<Address>, passers: seq<Address>)
    requires backend.Valid()
    modifies backend
    ensures backend.Valid() && backend.outbound == old(backend.outbound)
    ensures backend.journal == old(backend.journal)
      + (EnqueueEach(m.id, targets) + (if m.to.Project? then PassEach(m.id, passers) else [])
         + (if m.id !in old(backend.awaiting) && !m.to.Everyone? && IsAsk(m.kind) then [OpenFor(cfg, a, m)] else []))
  {
    hide *;
    EnqueueAll(backend, m.id, targets);
    if m.to.Project? { PassAll(backend, m.id, passers); }
    if m.id !in backend.awaiting && !m.to.Everyone? && IsAsk(m.kind) {
      OpenAsk(backend, cfg, a, m);
    }
  }

  lemma ReplayParts(cfg: Config, db: DB, roster: Roster, a: SendArgs, m: Message, passers: seq<Address>)
    ensures ReplayPlan(cfg, db, roster, a, m, passers) ==
      if m.from != a.from || !SamePayload(m, a) then Plan(Refusal(OperationConflict), [])
      else
        var targets := if m.id in db.routes then db.routes[m.id] else Targets(roster, m.from, m.to);
        Plan(Sent(m.id, targets, true),
             EnqueueEach(m.id, targets) + (if m.to.Project? then PassEach(m.id, passers) else [])
             + (if m.id !in db.awaiting && !m.to.Everyone? && IsAsk(m.kind) then [OpenFor(cfg, a, m)] else []))
  {
  }

  lemma FirstSendParts(cfg: Config, roster: Roster, a: SendArgs, id: Id, now: Time)
    ensures var m := Compose(cfg, a, id, now); var targets := Targets(roster, a.from, a.to);
      && m.id == id && m.operationId == a.operationId
      && FirstSend(cfg, roster, a, id, now) ==
         Plan(Sent(id, targets, false),
              [AppendRouted(m, targets)] + (if a.to.Project? then PassEach(id, SessionBoxes(roster, a.from)) else [])
              + EnqueueEach(id, targets) + (if !a.to.Everyone? && IsAsk(a.kind) then [OpenFor(cfg, a, m)] else []))
  {
  }

  /** The first of each id, in order. */
  method DedupeById(rows: seq<Message>) returns (out: seq<Message>)
    requires forall m, n :: m in rows && n in rows && m.id == n.id ==> m == n
    ensures forall m :: m in out <==> m in rows
    ensures forall i, j :: 0 <= i < j < |out| ==> out[i].id != out[j].id
  {
    out := [];
    var seen: set<Id> := {};
    for i := 0 to |rows|
      invariant forall id :: id in seen <==> exists m :: m in out && m.id == id
      invariant forall m :: m in out <==> m in rows[..i]
      invariant forall i, j :: 0 <= i < j < |out| ==> out[i].id != out[j].id
    {
      if rows[i].id !in seen {
        seen := seen + {rows[i].id};
        out := out + [rows[i]];
      }
    }
    assert rows[..|rows|] == rows;
  }

  class Router {
    const backend: SqliteBackend
    const cfg: Config
    var nextId: Id

    constructor (backend: SqliteBackend, cfg: Config, firstId: Id)
      ensures this.backend == backend && this.cfg == cfg && nextId == firstId
    {
      this.backend, this.cfg, nextId := backend, cfg, firstId;
    }

    method NewId() returns (id: Id)
      modifies this
      ensures id == old(nextId) && nextId == id + 1
    {
      id := nextId;
      nextId := nextId + 1;
    }

    method Send(roster: Roster, a: SendArgs, now: Time) returns (r: Answer)
      requires backend.Valid()
      modifies this, backend
      ensures backend.Valid() && nextId == old(nextId) + 1 && backend.outbound == old(backend.outbound)
      ensures var p := SendPlan(cfg, old(backend.Db()), roster, a, now, old(nextId));
        r == p.answer && backend.journal == old(backend.journal) + p.work
    {
      var newId := NewId();
      if a.from.Broker? || a.from.Everyone? { return Refusal(BadArgs); }
      var existing := backend.GetByOperationId(a.operationId);
      if existing.Some? {
        r := Replay(backend, cfg, roster, a, existing.value, SessionBoxes(roster, existing.value.from));
        return;
      }
      if cfg.strict && Find(roster, a.from).None? { return Refusal(NotRegistered); }
      if Blank(a.body) { return Refusal(EmptySend); }
      if a.kind.Response? { return Refusal(BadArgs); }
      if !a.to.Project? && !a.to.Everyone? {
        if Find(roster, a.to).None? { return Refusal(NoPeer); }
        if SameSession(roster, a.from, a.to) { return Refusal(SelfSend); }
      }
      if !a.to.Everyone? && a.to in cfg.allow && a.from !in cfg.allow[a.to] { return Refusal(NotAllowed); }
      var id := if a.messageId.Some? then a.messageId.value else newId;
      if backend.Get(id).Some? { return Refusal(MessageConflict); }
      r := Route(roster, a, id, now);
    }

    /** Store the message with its route snapshot, then fan out and open the ask. */
    method Route(roster: Roster, a: SendArgs, id: Id, now: Time) returns (r: Answer)
      requires backend.Valid() && id !in backend.messages && FindOp(backend.messages, a.operationId).None?
      modifies backend
      ensures backend.Valid() && backend.outbound == old(backend.outbound)
      ensures var p := FirstSend(cfg, roster, a, id, now);
        r == p.answer && backend.journal == old(backend.journal) + p.work
    {
      hide *;
      hide SqliteBackend.Ran;
      FirstSendParts(cfg, roster, a, id, now);
      var m := Compose(cfg, a, id, now);
      var targets := Targets(roster, a.from, a.to);
      Commit(roster, a, m, targets);
      EnqueueAll(backend, id, targets);
      if !a.to.Everyone? && IsAsk(a.kind) { OpenAsk(backend, cfg, a, m); }
      return Sent(id, targets, false);
    }

    /** The transaction, the sender's own passes, and the check that the operation is still ours. */
    method Commit(roster: Roster, a: SendArgs, m: Message, targets: seq<Address>)
      requires backend.Valid() && m.id !in backend.messages && m.operationId == a.operationId
      requires FindOp(backend.messages, a.operationId).None?
      modifies backend
      ensures backend.Valid() && backend.outbound == old(backend.outbound)
      ensures backend.journal == old(backend.journal) + [AppendRouted(m, targets)]
                                 + (if a.to.Project? then PassEach(m.id, SessionBoxes(roster, a.from)) else [])
    {
      backend.AppendRouted(m, targets);
      assert backend.messages == Insert(old(backend.messages), m);
      if a.to.Project? { PassAll(backend, m.id, SessionBoxes(roster, a.from)); }
      if a.operationId.Some? {
        var committed := backend.GetByOperationId(a.operationId);
        OnlyOne(old(backend.messages), m);
        assert committed == Some(m); // nobody else used this operation id in between
      }
    }

    /** Replay the durable intents of one sender; drop each once routed or refused for good. */
    method Reconcile(roster: Roster, alias: Address, now: Time) returns (ops: seq<string>, remaining: nat)
      requires backend.Valid()
      modifies this, backend
      ensures backend.Valid() && Enumerates(ops, Intents(old(backend.outbound), alias))
      ensures backend.journal == old(backend.journal) + ReconcileEach(cfg, old(backend.Db()), roster, ops, now, old(nextId))
      ensures remaining == |Intents(backend.outbound, alias)|
    {
      var table := backend.outbound;
      ops := backend.PendingOutbound(alias);
      StillQueuedAtFirst(ops, table, alias);
      hide *;
      hide SqliteBackend.Ran;
      ReconcileAll(roster, ops, table, now);
      remaining := backend.CountOutbound(alias);
    }

    method ReconcileAll(roster: Roster, ops: seq<string>, table: map<string, Intent>, now: Time)
      requires backend.Valid() && StillQueued(ops, 0, table, backend.outbound)
      modifies this, backend
      ensures backend.Valid()
      ensures backend.journal == old(backend.journal) + ReconcileEach(cfg, old(backend.Db()), roster, ops, now, old(nextId))
    {
      hide *;
      hide SqliteBackend.Ran;
      ghost var done: seq<Stmt> := [];
      assert ops[0..] == ops;
      for i := 0 to |ops|
        invariant backend.Valid() && backend.journal == old(backend.journal) + done
        invariant StillQueued(ops, i, table, backend.outbound)
        invariant done + ReconcileEach(cfg, backend.Db(), roster, ops[i..], now, nextId)
                  == ReconcileEach(cfg, old(backend.Db()), roster, ops, now, old(nextId))
      {
        ReconcileFirst(cfg, backend.Db(), roster, ops, i, now, nextId);
        StillQueuedNext(ops, i, table, backend.outbound);
        done := done + ReconcilePlan(cfg, backend.Db(), roster, ops[i], now, nextId).work;
        ReconcileOne(roster, ops[i], table[ops[i]], now);
      }
      ReconcileNone(cfg, backend.Db(), roster, ops, now, nextId);
    }

    method ReconcileOne(roster: Roster, op: string, intent: Intent, now: Time)
      requires backend.Valid() && op in backend.outbound && backend.outbound[op] == intent
      modifies this, backend
      ensures backend.Valid() && nextId == old(nextId) + 1
      ensures backend.outbound == old(backend.outbound) || backend.outbound == old(backend.outbound) - {op}
      ensures var work := ReconcilePlan(cfg, old(backend.Db()), roster, op, now, old(nextId)).work;
        backend.journal == old(backend.journal) + work && backend.Db() == ExecAll(old(backend.Db()), work)
    {
      ghost var work := ReconcilePlan(cfg, backend.Db(), roster, op, now, nextId).work;
      ReconcileParts(cfg, backend.Db(), roster, op, now, nextId);
      ghost var db, j := backend.Db(), backend.journal;
      JournalSoFar(backend);
      hide *;
      hide SqliteBackend.Ran;
      var r := Send(roster, intent.args, now);
      if !r.Refusal? || Permanent(r.code) { backend.DeleteOutbound(op); }
      JournalRan(backend, db, j, work);
    }

    // ---- Reply, decline, accept, snooze, cancel -----------------------------------------

    method Reply(roster: Roster, a: ReplyArgs, now: Time) returns (r: Answer)
      requires backend.Valid()
      modifies this, backend
      ensures backend.Valid() && nextId == old(nextId) + 1
      ensures var p := ReplyPlan(old(backend.Db()), roster, a, now, old(nextId));
        r == p.answer && backend.journal == old(backend.journal) + p.work
    {
      var newId := NewId();
      if a.from.Broker? || a.from.Everyone? { return Refusal(BadArgs); }
      var found := backend.Get(a.corrId);
      if found.None? { return Refusal(NoOrigin); }
      var origin := found.value;
      if IsAsk(origin.kind) {
        r := AnswerAsk(roster, a, origin, now, newId);
      } else if origin.kind.Inform? && origin.from != a.from {
        r := AnswerInform(roster, a, origin, now, newId);
      } else {
        r := Refusal(NotAnAsk);
      }
    }

    method AnswerAsk(roster: Roster, a: ReplyArgs, origin: Message, now: Time, newId: Id) returns (r: Answer)
      requires backend.Valid() && a.corrId in backend.messages && origin == backend.messages[a.corrId]
      modifies backend
      ensures backend.Valid()
      ensures var p := ReplyToAsk(old(backend.Db()), roster, a, origin, now, newId);
        r == p.answer && backend.journal == old(backend.journal) + p.work
    {
      hide ExecAll, Exec;
      ghost var db := backend.Db();
      assert origin.id == a.corrId && db.awaiting == backend.awaiting;
      hide *;
      hide SqliteBackend.Ran;
      ReplyParts(db, roster, a, origin, now, newId);
      var known := a.corrId in backend.awaiting;
      var late := known && backend.awaiting[a.corrId].closed.Some?;
      if late && backend.awaiting[a.corrId].closed == Some(Cancelled) {
        SettleCancelled(a, origin);
        return Refusal(AskWasCancelled);
      }
      if !a.status.Error? && Blank(a.body) { return Refusal(EmptyReply); }
      Post(ResponseTo(origin, a, newId, now), origin.from);
      if a.terminal && !late { backend.CloseAwaiting(a.corrId, Responded); }
      if !a.terminal { backend.DeferNudge(a.corrId, now); }
      SettleReply(roster, a, origin, true);
      return Replied(newId, late);
    }

    /** A cancelled ask is cleared from the replier's inbox, and from its project's. */
    method SettleCancelled(a: ReplyArgs, origin: Message)
      requires backend.Valid()
      modifies backend
      ensures backend.Valid()
      ensures backend.journal == old(backend.journal)
        + ([MarkConsumed(a.corrId, a.from)] + if origin.to.Project? then [MarkConsumed(a.corrId, origin.to)] else [])
    {
      hide *;
      hide SqliteBackend.Ran;
      backend.MarkConsumed(a.corrId, a.from);
      if origin.to.Project? { backend.MarkConsumed(a.corrId, origin.to); }
    }

    method AnswerInform(roster: Roster, a: ReplyArgs, origin: Message, now: Time, newId: Id) returns (r: Answer)
      requires backend.Valid() && a.corrId in backend.messages && origin == backend.messages[a.corrId]
      modifies backend
      ensures backend.Valid()
      ensures var p := ReplyToInform(old(backend.Db()), roster, a, origin, now, newId);
        r == p.answer && backend.journal == old(backend.journal) + p.work
    {
      hide ExecAll, Exec;
      if !MayAct(roster, a.corrId, a.from) { return Refusal(NotYours); }
      if !a.status.Error? && Blank(a.body) { return Refusal(EmptyReply); }
      Post(ResponseTo(origin, a, newId, now), origin.from);
      SettleReply(roster, a, origin, false);
      return Replied(newId, false);
    }

    /** Append a message and queue it for one reader. */
    method Post(m: Message, to: Address)
      requires backend.Valid()
      modifies backend
      ensures backend.Valid() && backend.journal == old(backend.journal) + [Append(m), Enqueue(m.id, to)]
      ensures backend.awaiting == old(backend.awaiting)
    {
      hide *;
      hide SqliteBackend.Ran;
      backend.Append(m);
      backend.Enqueue(m.id, to);
    }

    /** The replier's own copy, its sibling's, and the project's are answered for. */
    method SettleReply(roster: Roster, a: ReplyArgs, origin: Message, project: bool)
      requires backend.Valid() && origin.id == a.corrId
      modifies backend
      ensures backend.Valid()
      ensures backend.journal == old(backend.journal) + SettleCopies(roster, origin, a.from, project)
    {
      hide ExecAll, Exec;
      backend.MarkConsumed(a.corrId, a.from);
      if origin.to != a.from && !origin.to.Project? && SameSession(roster, a.from, origin.to) {
        backend.MarkConsumed(a.corrId, origin.to);
      }
      if project && origin.to.Project? { backend.MarkConsumed(a.corrId, origin.to); }
    }

    /** Was this message delivered to the alias, or to a project it works in? */
    predicate MayAct(roster: Roster, id: Id, alias: Address)
      reads backend
    {
      && id in backend.messages
      && (Key(id, alias) in backend.deliveries
          || (backend.messages[id].to.Project?
              && match Find(roster, alias)
                 case Some(e) => e.cwd != "" && WithinProject(e.cwd, backend.messages[id].to.path)
                 case None => false))
    }

    method Decline(roster: Roster, from: Address, id: Id, reason: string, now: Time) returns (r: Answer)
      requires backend.Valid()
      modifies this, backend
      ensures backend.Valid() && nextId == old(nextId) + 1
      ensures var p := DeclinePlan(old(backend.Db()), roster, from, id, reason, now, old(nextId));
        r == p.answer && backend.journal == old(backend.journal) + p.work
    {
      var newId := NewId();
      if id !in backend.messages { return Refusal(NoMessage); }
      if !MayAct(roster, id, from) { return Refusal(NotYours); }
      r := StepBack(roster, from, id, reason, now, newId);
    }

    /** Refuse a direct ask for good, or step back from a project's. */
    method StepBack(roster: Roster, from: Address, id: Id, reason: string, now: Time, newId: Id) returns (r: Answer)
      requires backend.Valid() && Actable(backend.Db(), roster, id, from)
      modifies backend
      ensures backend.Valid()
      ensures var p := DeclinePlan(old(backend.Db()), roster, from, id, reason, now, newId);
        r == p.answer && backend.journal == old(backend.journal) + p.work
    {
      hide ExecAll, Exec;
      ghost var db := backend.Db();
      var open := backend.IsAwaitingOpen(id);
      assert id in backend.messages && backend.messages[id].id == id;
      assert open == AskOpen(db.awaiting, id) && db.messages == backend.messages;
      hide *;
      hide SqliteBackend.Ran;
      DeclineParts(db, roster, from, id, reason, now, newId);
      var origin := backend.messages[id];
      if IsAsk(origin.kind) && origin.to.Project? {
        backend.PassProject(id, from);
        if open {
          Post(NoticeTo(origin, origin.from, SteppedBack(from), false, Inform, newId, now), origin.from);
        }
        return Passed;
      }
      backend.SetConsent(id, from, false);
      if IsAsk(origin.kind) && open {
        Post(DeclineAnswer(origin, from, reason, newId, now), origin.from);
        backend.CloseAwaiting(id, Responded);
      }
      return Done;
    }

    method Accept(roster: Roster, alias: Address, id: Id) returns (r: Answer)
      requires backend.Valid()
      modifies this, backend
      ensures backend.Valid()
      ensures var p := AcceptPlan(old(backend.Db()), roster, alias, id);
        r == p.answer && backend.journal == old(backend.journal) + p.work
    {
      if id !in backend.messages { return Refusal(NoMessage); }
      if !MayAct(roster, id, alias) { return Refusal(NotYours); }
      if backend.messages[id].to.Project? {
        r := Take(roster, alias, id);
      } else {
        backend.SetConsent(id, alias, true);
        r := Done;
      }
    }

    /** Race for a project ask, freeing it first if its holder is gone. */
    method Take(roster: Roster, alias: Address, id: Id) returns (r: Answer)
      requires backend.Valid() && Actable(backend.Db(), roster, id, alias) && backend.messages[id].to.Project?
      modifies backend
      ensures backend.Valid()
      ensures var p := AcceptPlan(old(backend.Db()), roster, alias, id);
        r == p.answer && backend.journal == old(backend.journal) + p.work
    {
      ghost var db := backend.Db();
      assert db.claims == backend.claims;
      AcceptParts(db, roster, alias, id);
      hide *;
      hide SqliteBackend.Ran;
      if id in backend.claims && backend.claims[id] != alias && !StillHeld(roster, backend.claims[id]) {
        backend.ReleaseClaim(id);
      }
      var won := backend.ClaimProject(id, alias);
      var owner := backend.claims[id];
      r := if won then Claimed(true, Some(alias)) else Claimed(false, Some(owner));
    }

    method Snooze(roster: Roster, alias: Address, id: Id, now: Time) returns (r: Answer)
      requires backend.Valid()
      modifies this, backend
      ensures backend.Valid()
      ensures var p := SnoozePlan(old(backend.Db()), roster, alias, id, now);
        r == p.answer && backend.journal == old(backend.journal) + p.work
    {
      if id !in backend.messages { return Refusal(NoMessage); }
      if !MayAct(roster, id, alias) { return Refusal(NotYours); }
      var deferred := backend.MarkSurfaced(id, alias);
      if !deferred { return Refusal(InvalidState); }
      backend.DeferNudge(id, now);
      return Done;
    }

    /** Withdraw an open ask from everyone who holds a copy of it. */
    method Cancel(id: Id, now: Time) returns (r: Answer, ghost order: seq<Address>)
      requires backend.Valid()
      modifies this, backend
      ensures backend.Valid() && nextId >= old(nextId)
      ensures Enumerates(order, RowsOf(old(backend.deliveries), id))
      ensures var p := CancelPlan(old(backend.Db()), id, order, now, old(nextId));
        r == p.answer && backend.journal == old(backend.journal) + p.work
    {
      var holders := Listing(RowsOf(backend.deliveries, id));
      order := holders;
      if id !in backend.messages { return Refusal(NoMessage), order; }
      var origin := backend.messages[id];
      if !IsAsk(origin.kind) { return Refusal(NotAnAsk), order; }
      var wasOpen := backend.IsAwaitingOpen(id);
      var rows := backend.deliveries;
      backend.CloseAwaiting(id, Cancelled);
      if wasOpen { WithdrawCopies(origin, rows, holders, now); }
      r := Done;
    }

    method WithdrawCopies(origin: Message, rows: Rows, holders: seq<Address>, now: Time)
      requires backend.Valid()
      modifies this, backend
      ensures backend.Valid() && nextId >= old(nextId)
      ensures backend.journal == old(backend.journal) + WithdrawEach(rows, origin, holders, now, old(nextId))
    {
      hide *;
      hide SqliteBackend.Ran;
      ghost var done: seq<Stmt> := [];
      assert holders[0..] == holders;
      for i := 0 to |holders|
        invariant backend.Valid() && nextId >= old(nextId) && backend.journal == old(backend.journal) + done
        invariant done + WithdrawEach(rows, origin, holders[i..], now, nextId)
                  == WithdrawEach(rows, origin, holders, now, old(nextId))
      {
        WithdrawFirst(rows, origin, holders, i, now, nextId);
        ghost var step := WithdrawCopyPlan(rows, origin, holders[i], now, nextId);
        assert (done + step) + WithdrawEach(rows, origin, holders[i + 1..], now, nextId + WithdrawIds(step))
            == done + (step + WithdrawEach(rows, origin, holders[i + 1..], now, nextId + WithdrawIds(step)));
        WithdrawCopy(origin, rows, holders[i], now);
        done := done + step;
      }
      WithdrawNone(rows, origin, holders, now, nextId);
    }

    method WithdrawCopy(origin: Message, rows: Rows, holder: Address, now: Time)
      requires backend.Valid()
      modifies this, backend
      ensures backend.Valid()
      ensures var step := WithdrawCopyPlan(rows, origin, holder, now, old(nextId));
        backend.journal == old(backend.journal) + step && nextId == old(nextId) + WithdrawIds(step)
    {
      hide ExecAll, Exec;
      var k := Key(origin.id, holder);
      if k in rows && !IsSettled(rows[k].state) {
        backend.MarkConsumed(origin.id, holder);
        if !rows[k].state.Queued? {
          Post(NoticeTo(origin, holder, Withdrawal, false, Response, nextId, now), holder);
          nextId := nextId + 1;
        }
      }
    }

    // ---- The session's mailboxes --------------------------------------------------------------

    /** Reserve every message of every alias the session holds, each once. */
    method Lease(roster: Roster, alias: Address, via: Via, leaseId: string, now: Time, leaseS: Option<int>)
      returns (rows: seq<Message>, until: Time)
      requires backend.Valid()
      modifies backend
      ensures backend.Valid() && until > now
      ensures backend.journal == old(backend.journal) + LeaseEach(SessionBoxes(roster, alias), via, leaseId, now, until)
      ensures HandsOut(rows, old(backend.messages), old(backend.deliveries), SessionBoxes(roster, alias), now)
      ensures forall i, j :: 0 <= i < j < |rows| ==> rows[i].id != rows[j].id
    {
      var seconds := if leaseS.Some? then leaseS.value else 30;
      until := now + if seconds < 1 then 1 else seconds;
      var found := LeaseBoxes(SessionBoxes(roster, alias), via, leaseId, now, until);
      rows := DedupeById(found);
    }

    method LeaseBoxes(boxes: seq<Address>, via: Via, leaseId: string, now: Time, until: Time) returns (found: seq<Message>)
      requires backend.Valid() && now < until
      modifies backend
      ensures backend.Valid() && backend.journal == old(backend.journal) + LeaseEach(boxes, via, leaseId, now, until)
      ensures HandsOut(found, old(backend.messages), old(backend.deliveries), boxes, now)
    {
      found := [];
      LeaseFirst(backend.messages, backend.deliveries, boxes, now);
      LeaseEachGrows(boxes, via, leaseId, now, until);
      hide *;
      hide SqliteBackend.Ran;
      for i := 0 to |boxes|
        invariant backend.Valid() && backend.messages == old(backend.messages)
        invariant backend.journal == old(backend.journal) + LeaseEach(boxes[..i], via, leaseId, now, until)
        invariant LeftToLease(old(backend.deliveries), backend.deliveries, boxes[..i], now)
        invariant HandsOut(found, backend.messages, old(backend.deliveries), boxes[..i], now)
      {
        ghost var rows := backend.deliveries;
        var more := backend.LeaseForDelivery(boxes[i], via, leaseId, now, until);
        OneBox(more, backend.messages, rows, boxes[i], now);
        LeaseNext(found, more, backend.messages, old(backend.deliveries), rows, boxes, i, via, leaseId, now, until);
        found := found + more;
      }
      assert boxes[..|boxes|] == boxes;
    }

    /** Acknowledge leased mail one id at a time, across the session's aliases. */
    method AckDelivery(roster: Roster, alias: Address, leaseId: string, ids: seq<Id>) returns (acknowledged: nat)
      requires backend.Valid()
      modifies backend
      ensures backend.Valid()
      ensures backend.journal == old(backend.journal) + AckEach(SessionBoxes(roster, alias), leaseId, ids)
      ensures acknowledged == Acknowledged(old(backend.deliveries), SessionBoxes(roster, alias), leaseId, ids)
    {
      hide ExecAll, Exec, Settles;
      var boxes := SessionBoxes(roster, alias);
      acknowledged := 0;
      for i := 0 to |ids|
        invariant backend.Valid()
        invariant backend.journal == old(backend.journal) + AckEach(boxes, leaseId, ids[..i])
        invariant acknowledged == Acknowledged(old(backend.deliveries), boxes, leaseId, ids[..i])
        invariant SameSettling(old(backend.deliveries), backend.deliveries, boxes, leaseId)
      {
        var counted := AckOne(boxes, leaseId, ids[i], old(backend.deliveries));
        if counted { acknowledged := acknowledged + 1; }
        assert ids[..i + 1][..i] == ids[..i];
      }
      assert ids[..|ids|] == ids;
    }

    /** One id: acked in some box, or already out of the inbox in one. */
    method AckOne(boxes: seq<Address>, leaseId: string, id: Id, ghost start: Rows) returns (counted: bool)
      requires backend.Valid() && SameSettling(start, backend.deliveries, boxes, leaseId)
      modifies backend
      ensures backend.Valid() && backend.journal == old(backend.journal) + AckBoxes(boxes, leaseId, id)
      ensures counted == Settles(old(backend.deliveries), boxes, leaseId, id)
      ensures SameSettling(start, backend.deliveries, boxes, leaseId)
    {
      var n := 0;
      ghost var was := backend.deliveries;
      AckBoxesGrow(boxes, leaseId, id);
      assert LeftToAck(was, was, boxes[..0], leaseId, id) && !Hit(was, boxes[..0], leaseId, id);
      hide *;
      hide SqliteBackend.Ran;
      for i := 0 to |boxes|
        invariant backend.Valid() && backend.journal == old(backend.journal) + AckBoxes(boxes[..i], leaseId, id)
        invariant n > 0 <==> Hit(was, boxes[..i], leaseId, id)
        invariant LeftToAck(was, backend.deliveries, boxes[..i], leaseId, id)
        invariant SameSettling(start, backend.deliveries, boxes, leaseId)
      {
        AckNext(was, backend.deliveries, boxes, i, leaseId, id);
        AckSameSettling(start, backend.deliveries, boxes[i], leaseId, id, boxes);
        var acked := backend.AckDelivery(boxes[i], leaseId, [id]);
        n := n + acked;
      }
      assert boxes[..|boxes|] == boxes;
      AckDone(was, backend.deliveries, boxes, leaseId, id);
      counted := n > 0 || OutOfInbox(backend.deliveries, boxes, id);
    }

    /** Acknowledge project mail: seen by this host, whoever ends up doing the work. */
    method AckProject(dir: string, self: Address, ids: seq<Id>) returns (acknowledged: nat)
      requires backend.Valid()
      modifies backend
      ensures backend.Valid()
      ensures backend.journal
              == old(backend.journal) + AckProjectWork(old(backend.Db()), old(backend.surfaces), dir, self, ids)
      ensures acknowledged == AckProjectCount(old(backend.Db()), old(backend.surfaces), dir, self, ids)
    {
      acknowledged := 0;
      ghost var db := backend.Db();
      ghost var done: seq<Stmt> := [];
      assert ids[0..] == ids;
      hide *;
      hide SqliteBackend.Ran;
      for i := 0 to |ids|
        invariant backend.Valid() && backend.journal == old(backend.journal) + done
        invariant backend.messages == old(backend.messages) && backend.deliveries == old(backend.deliveries)
        invariant done + AckProjectWork(db, backend.surfaces, dir, self, ids[i..])
                  == AckProjectWork(db, old(backend.surfaces), dir, self, ids)
        invariant acknowledged + AckProjectCount(db, backend.surfaces, dir, self, ids[i..])
                  == AckProjectCount(db, old(backend.surfaces), dir, self, ids)
      {
        AckProjectUnfold(db, backend.surfaces, dir, self, ids, i);
        var r := AckProjectId(dir, self, ids[i], db);
        ghost var step := if r.Marked? then [MarkProjectSurfaced(ids[i], self)] else [];
        ghost var rest := AckProjectWork(db, backend.surfaces, dir, self, ids[i + 1..]);
        assert (done + step) + rest == done + (step + rest);
        if !r.Skipped? { acknowledged := acknowledged + 1; }
        done := done + step;
      }
      AckProjectNone(db, backend.surfaces, dir, self, ids);
    }

    method AckProjectId(dir: string, self: Address, id: Id, ghost db: DB) returns (r: ProjectAck)
      requires backend.Valid() && db.messages == backend.messages && db.deliveries == backend.deliveries
      modifies backend
      ensures backend.Valid() && r == AckProjectOne(db, old(backend.surfaces), dir, self, id)
      ensures backend.messages == old(backend.messages) && backend.deliveries == old(backend.deliveries)
      ensures backend.surfaces == old(backend.surfaces) + (if r.Marked? then {Key(id, self)} else {})
      ensures backend.journal == old(backend.journal) + (if r.Marked? then [MarkProjectSurfaced(id, self)] else [])
    {
      hide ExecAll;
      if id !in backend.messages { return Skipped; }
      var to := backend.messages[id].to;
      if Key(id, to) in backend.deliveries && !IsPending(backend.deliveries[Key(id, to)].state) { return Counted; }
      if !ProjectBox(backend.deliveries, dir, to) || Key(id, self) in backend.surfaces { return Skipped; }
      backend.MarkProjectSurfaced(id, self);
      return Marked;
    }
  }

  lemma AckProjectUnfold(db: DB, surfaces: set<Key>, dir: string, self: Address, ids: seq<Id>, i: nat)
    requires i < |ids|
    ensures var r := AckProjectOne(db, surfaces, dir, self, ids[i]);
      var next := surfaces + (if r.Marked? then {Key(ids[i], self)} else {});
      && AckProjectWork(db, surfaces, dir, self, ids[i..])
         == (if r.Marked? then [MarkProjectSurfaced(ids[i], self)] else []) + AckProjectWork(db, next, dir, self, ids[i + 1..])
      && AckProjectCount(db, surfaces, dir, self, ids[i..])
         == (if r.Skipped? then 0 else 1) + AckProjectCount(db, next, dir, self, ids[i + 1..])
  {
    assert ids[i..][1..] == ids[i + 1..];
    assert surfaces + {} == surfaces;
  }

  lemma AckProjectNone(db: DB, surfaces: set<Key>, dir: string, self: Address, ids: seq<Id>)
    ensures AckProjectWork(db, surfaces, dir, self, ids[|ids|..]) == []
    ensures AckProjectCount(db, surfaces, dir, self, ids[|ids|..]) == 0
  {
  }

  lemma LeaseEachGrows(boxes: seq<Address>, via: Via, leaseId: string, now: Time, until: Time)
    ensures LeaseEach(boxes[..0], via, leaseId, now, until) == []
    ensures forall i :: 0 <= i < |boxes| ==>
              LeaseEach(boxes[..i + 1], via, leaseId, now, until)
              == LeaseEach(boxes[..i], via, leaseId, now, until) + [LeaseFor(boxes[i], via, leaseId, now, until)]
  {
  }

  lemma AckBoxesGrow(boxes: seq<Address>, leaseId: string, id: Id)
    ensures AckBoxes(boxes[..0], leaseId, id) == []
    ensures forall i :: 0 <= i < |boxes| ==>
              AckBoxes(boxes[..i + 1], leaseId, id) == AckBoxes(boxes[..i], leaseId, id) + [Ack(boxes[i], leaseId, [id])]
  {
  }

  lemma OneBox(rows: seq<Message>, messages: Messages, was: Rows, box: Address, now: Time)
    requires forall m :: m in rows <==> (m.id in messages && messages[m.id] == m && Leasable(was, Key(m.id, box), box, now))
    ensures HandsOut(rows, messages, was, [box], now)
  {
  }

  function WithdrawCopyPlan(rows: Rows, origin: Message, holder: Address, now: Time, newId: Id): seq<Stmt> {
    var k := Key(origin.id, holder);
    if k !in rows || IsSettled(rows[k].state) then []
    else if rows[k].state.Queued? then [MarkConsumed(origin.id, holder)]
    else
      [MarkConsumed(origin.id, holder), Append(NoticeTo(origin, holder, Withdrawal, false, Response, newId, now)),
       Enqueue(newId, holder)]
  }

  function WithdrawIds(step: seq<Stmt>): nat { if |step| == 3 then 1 else 0 }

  lemma WithdrawFirst(rows: Rows, origin: Message, order: seq<Address>, i: nat, now: Time, newId: Id)
    requires i < |order|
    ensures var step := WithdrawCopyPlan(rows, origin, order[i], now, newId);
      WithdrawEach(rows, origin, order[i..], now, newId)
      == step + WithdrawEach(rows, origin, order[i + 1..], now, newId + WithdrawIds(step))
  {
    assert order[i..][1..] == order[i + 1..];
  }

  lemma WithdrawNone(rows: Rows, origin: Message, order: seq<Address>, now: Time, newId: Id)
    ensures WithdrawEach(rows, origin, order[|order|..], now, newId) == []
  {
  }

  lemma AcceptParts(db: DB, roster: Roster, alias: Address, id: Id)
    requires Actable(db, roster, id, alias) && db.messages[id].to.Project?
    ensures var free := id in db.claims && db.claims[id] != alias && !StillHeld(roster, db.claims[id]);
      AcceptPlan(db, roster, alias, id)
      == if id in db.claims && !free then Plan(Claimed(false, Some(db.claims[id])), [ClaimProject(id, alias)])
         else Plan(Claimed(true, Some(alias)), (if free then [ReleaseClaim(id)] else []) + [ClaimProject(id, alias)])
  {
  }

  lemma JournalSoFar(backend: SqliteBackend)
    requires backend.Valid()
    ensures backend.Db() == ExecAll(EMPTY, backend.journal)
  {
  }

  lemma ReplyParts(db: DB, roster: Roster, a: ReplyArgs, origin: Message, now: Time, newId: Id)
    ensures var known := a.corrId in db.awaiting; var late := known && db.awaiting[a.corrId].closed.Some?;
      ReplyToAsk(db, roster, a, origin, now, newId) ==
      if late && db.awaiting[a.corrId].closed == Some(Cancelled) then
        Plan(Refusal(AskWasCancelled),
             [MarkConsumed(a.corrId, a.from)] + (if origin.to.Project? then [MarkConsumed(a.corrId, origin.to)] else []))
      else if !a.status.Error? && Blank(a.body) then Plan(Refusal(EmptyReply), [])
      else
        Plan(Replied(newId, late),
             [Append(ResponseTo(origin, a, newId, now)), Enqueue(newId, origin.from)]
             + (if a.terminal && !late then [CloseAwaiting(a.corrId, Responded)] else [])
             + (if a.terminal then [] else [DeferNudge(a.corrId, now)])
             + SettleCopies(roster, origin, a.from, true))
    ensures ResponseTo(origin, a, newId, now).id == newId
  {
  }

  lemma DeclineParts(db: DB, roster: Roster, from: Address, id: Id, reason: string, now: Time, newId: Id)
    requires Actable(db, roster, id, from)
    ensures var origin := db.messages[id]; var open := AskOpen(db.awaiting, id);
      var note := NoticeTo(origin, origin.from, SteppedBack(from), false, Inform, newId, now);
      var refusal := DeclineAnswer(origin, from, reason, newId, now);
      DeclinePlan(db, roster, from, id, reason, now, newId) ==
      if IsAsk(origin.kind) && origin.to.Project? then
        Plan(Passed, [PassProject(id, from)] + (if open then [Append(note), Enqueue(note.id, origin.from)] else []))
      else
        Plan(Done, [SetConsent(id, from, false)]
             + (if IsAsk(origin.kind) && open
                then [Append(refusal), Enqueue(refusal.id, origin.from), CloseAwaiting(id, Responded)] else []))
  {
  }

  /** The intents not replayed yet are in the outbox as they were listed. */
  ghost predicate StillQueued(ops: seq<string>, i: nat, table: map<string, Intent>, outbound: map<string, Intent>) {
    && (forall j, k :: 0 <= j < k < |ops| ==> ops[j] != ops[k])
    && (forall j :: i <= j < |ops| ==> ops[j] in table && ops[j] in outbound && outbound[ops[j]] == table[ops[j]])
  }

  lemma StillQueuedAtFirst(ops: seq<string>, table: map<string, Intent>, alias: Address)
    requires Enumerates(ops, Intents(table, alias))
    ensures StillQueued(ops, 0, table, table)
  {
    forall j | 0 <= j < |ops| ensures ops[j] in table {
      EnumeratesIn(ops, Intents(table, alias), ops[j]);
    }
  }

  lemma StillQueuedNext(ops: seq<string>, i: nat, table: map<string, Intent>, outbound: map<string, Intent>)
    requires i < |ops| && StillQueued(ops, i, table, outbound)
    ensures ops[i] in table && ops[i] in outbound && outbound[ops[i]] == table[ops[i]]
    ensures StillQueued(ops, i + 1, table, outbound) && StillQueued(ops, i + 1, table, outbound - {ops[i]})
  {
  }

  lemma ReconcileFirst(cfg: Config, db: DB, roster: Roster, ops: seq<string>, i: nat, now: Time, newId: Id)
    requires i < |ops|
    ensures var p := ReconcilePlan(cfg, db, roster, ops[i], now, newId);
      ReconcileEach(cfg, db, roster, ops[i..], now, newId)
      == p.work + ReconcileEach(cfg, ExecAll(db, p.work), roster, ops[i + 1..], now, newId + 1)
  {
    assert ops[i..][1..] == ops[i + 1..];
  }

  lemma ReconcileNone(cfg: Config, db: DB, roster: Roster, ops: seq<string>, now: Time, newId: Id)
    ensures ReconcileEach(cfg, db, roster, ops[|ops|..], now, newId) == []
  {
  }

  lemma ReconcileParts(cfg: Config, db: DB, roster: Roster, op: string, now: Time, newId: Id)
    requires op in db.outbound
    ensures var p := SendPlan(cfg, db, roster, db.outbound[op].args, now, newId);
      ReconcilePlan(cfg, db, roster, op, now, newId).work
      == p.work + (if p.answer.Refusal? && !Permanent(p.answer.code) then [] else [DeleteOutbound(op)])
  {
  }

  /** Tables follow the journal: extending it by some work is running that work. */
  lemma JournalRan(backend: SqliteBackend, db: DB, journal: seq<Stmt>, work: seq<Stmt>)
    requires backend.Valid() && db == ExecAll(EMPTY, journal) && backend.journal == journal + work
    ensures backend.Db() == ExecAll(db, work)
  {
    ExecAllConcat(EMPTY, journal, work);
  }
}
