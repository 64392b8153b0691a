/** Every guarded storage statement keeps the invariant and moves every record forward. */
module Statements {
  import opened Models
  import opened Store
  import opened Invariants

  // ---- Statements that move rows --------------------------------------------

  /** The same rows, each having climbed or stayed. */
  ghost predicate RowsMoved(a: Rows, b: Rows) {
    && a.Keys == b.Keys
    && forall k :: k in a ==>
           && Rank(a[k].state) <= Rank(b[k].state) && a[k].ts == b[k].ts
           && (b[k].state.Queued? ==> b[k].lease == a[k].lease)
  }

  lemma MovedRowsInv(messages: Messages, routes: Routes, asks: Asks, a: Rows, b: Rows)
    requires RowsMoved(a, b)
    requires RowsRef(messages, a) && RowsRouted(a, routes) && RowsDirected(messages, a)
    requires AsksRowed(messages, a, asks) && RowsInv(messages, a)
    ensures RowsRef(messages, b) && RowsRouted(b, routes) && RowsDirected(messages, b)
    ensures AsksRowed(messages, b, asks) && RowsInv(messages, b)
    ensures RowsForward(a, messages, b)
  {
    forall id | id in asks ensures id in messages && Key(id, messages[id].to) in b {
      assert Key(id, messages[id].to) in a;
    }
  }

  lemma MovedRowsClaimed(claimed: multiset<Key>, next: Id, messages: Messages, a: Rows, b: Rows)
    requires RowsMoved(a, b) && ClaimedInv(claimed, next, messages, a)
    ensures ClaimedInv(claimed, next, messages, b)
  {
  }

  /** Only the rows and the cursor differ between the two sets of tables. */
  ghost predicate OnlyRows(a: DB, b: DB) {
    b == a.(deliveries := b.deliveries, cursor := b.cursor)
  }

  ghost predicate CursorMoved(a: Cursor, b: Cursor) { CursorInv(b) && CursorForward(a, b) }

  lemma MovedKeeps(w: World, b: DB)
    requires Inv(w) && OnlyRows(w.db, b) && RowsMoved(w.db.deliveries, b.deliveries) && CursorMoved(w.db.cursor, b.cursor)
    ensures Inv(w.(db := b)) && Follows(w, w.(db := b))
  {
    MovedRowsInv(w.db.messages, w.db.routes, w.db.awaiting, w.db.deliveries, b.deliveries);
    MovedRowsClaimed(w.claimed, w.next, w.db.messages, w.db.deliveries, b.deliveries);
    FollowsReflexive(w);
  }

  lemma {:induction false} BumpAllMoves(c: Cursor, order: seq<Address>)
    requires CursorInv(c)
    ensures CursorMoved(c, BumpAll(c, order))
    decreases |order|
  {
    if order != [] {
      BumpAllMoves(c, order[..|order| - 1]);
    }
  }

  predicate MovesRows(s: Stmt) {
    s.ConsumeAll? || s.MarkDelivered? || s.MarkConsumed? || s.MarkSurfaced? || s.LeaseFor? || s.Ack?
    || s.SetConsent? || s.Tombstone?
  }

  lemma PutMoves(rows: Rows, k: Key, s: DeliveryState)
    requires IsSettled(s)
    ensures RowsMoved(rows, Put(rows, k, s))
  {
  }

  lemma SweepMoves(rows: Rows, a: Address, cutoff: Time)
    ensures RowsMoved(rows, ConsumeRows(rows, a)) && RowsMoved(rows, RetireRows(rows, cutoff))
  {
  }

  lemma HandOverMoves(rows: Rows, k: Key, via: Via)
    ensures RowsMoved(rows, DeliverRow(rows, k, via)) && RowsMoved(rows, SurfaceRow(rows, k))
  {
  }

  lemma LeaseMoves(rows: Rows, a: Address, via: Via, leaseId: string, now: Time, until: Time, ids: seq<Id>)
    ensures RowsMoved(rows, LeaseRows(rows, a, via, leaseId, now, until))
    ensures RowsMoved(rows, AckRows(rows, a, leaseId, ids))
  {
  }

  lemma BumpMoves(c: Cursor, event: bool, a: Address)
    requires CursorInv(c)
    ensures CursorMoved(c, BumpIf(event, c, a))
  {
  }

  /** No such statement touches anything but rows and the cursor, and rows only climb. */
  lemma RowStatementMoves(db: DB, s: Stmt)
    requires MovesRows(s) && CursorInv(db.cursor)
    ensures OnlyRows(db, Exec(db, s)) && RowsMoved(db.deliveries, Exec(db, s).deliveries)
    ensures CursorMoved(db.cursor, Exec(db, s).cursor)
  {
    match s
    case ConsumeAll(a) =>
      SweepMoves(db.deliveries, a, 0);
      BumpMoves(db.cursor, PendingSet(db.deliveries, a) != {}, a);
    case MarkDelivered(id, a, via) => HandOverMoves(db.deliveries, Key(id, a), via);
    case MarkConsumed(id, a) =>
      PutMoves(db.deliveries, Key(id, a), Consumed);
      BumpMoves(db.cursor, PendingRow(db.deliveries, Key(id, a)), a);
    case MarkSurfaced(id, a) =>
      HandOverMoves(db.deliveries, Key(id, a), Hook);
      BumpMoves(db.cursor, Key(id, a) in db.deliveries && db.deliveries[Key(id, a)].state.Persisted?, a);
    case LeaseFor(a, via, leaseId, now, until) => LeaseMoves(db.deliveries, a, via, leaseId, now, until, []);
    case Ack(a, leaseId, ids) =>
      LeaseMoves(db.deliveries, a, Hook, leaseId, 0, 0, ids);
      BumpMoves(db.cursor, AckableSet(db.deliveries, a, leaseId, ids) != {}, a);
    case SetConsent(id, a, accepted) =>
      PutMoves(db.deliveries, Key(id, a), Consent(accepted));
      BumpMoves(db.cursor, PendingRow(db.deliveries, Key(id, a)), a);
    case Tombstone(cutoff, order) =>
      SweepMoves(db.deliveries, Broker, cutoff);
      BumpAllMoves(db.cursor, order);
  }

  lemma ClaimKeeps(w: World, a: Address, via: Via)
    requires Inv(w)
    ensures Inv(Step(w, Claim(a, via))) && Follows(w, Step(w, Claim(a, via)))
  {
    var rows := ClaimRows(w.db.deliveries, a, via);
    var w1 := Step(w, Claim(a, via));
    assert w1 == w.(db := w.db.(deliveries := rows), claimed := w.claimed + multiset(ClaimedKeys(w.db.deliveries, a)));
    hide Exec, Step;
    MovedRowsInv(w.db.messages, w.db.routes, w.db.awaiting, w.db.deliveries, rows);
    ClaimedOnce(w.claimed, w.next, w.db.messages, w.db.deliveries, a, via);
    FollowsReflexive(w);
    hide IdsInv, RowsRef, AsksRef, RoutesRef, OpsRouted, OpInv, RowsRouted, RowsDirected, RoutesDirected, AsksRowed, RowsInv, AskersInv,
      TruthInv, ClosesInv, ClaimedInv, LogInv, RowsForward, AsksForward, MessagesForward, RoutesForward;
  }

  lemma ClaimedOnce(claimed: multiset<Key>, next: Id, messages: Messages, rows: Rows, a: Address, via: Via)
    requires ClaimedInv(claimed, next, messages, rows) && IdsInv(messages, next) && RowsRef(messages, rows)
    ensures ClaimedInv(claimed + multiset(ClaimedKeys(rows, a)), next, messages, ClaimRows(rows, a, via))
  {
    var more := claimed + multiset(ClaimedKeys(rows, a));
    forall k | k in more
      ensures more[k] == 1 && k.msg < next
      ensures k.msg in messages ==> k in rows && !ClaimRows(rows, a, via)[k].state.Queued?
    {
      if k in ClaimedKeys(rows, a) {
        assert Claimable(rows, k, a);
        assert k !in claimed;
      }
    }
  }

  // ---- Statements that add ---------------------------------------------------

  lemma EnqueueKeeps(w: World, id: Id, a: Address)
    requires Inv(w) && Guard(w, Enqueue(id, a))
    ensures Inv(Step(w, Enqueue(id, a))) && Follows(w, Step(w, Enqueue(id, a)))
  {
    FollowsReflexive(w);
    if Key(id, a) !in w.db.deliveries {
      NewRow(w, DoEnqueue(w.db, Key(id, a)).deliveries, Key(id, a));
      BumpAllMoves(w.db.cursor, [a]);
      assert BumpAll(w.db.cursor, [a]) == Bump(w.db.cursor, a);
    }
  }

  lemma NewRow(w: World, b: Rows, k: Key)
    requires Inv(w) && Guard(w, Enqueue(k.msg, k.addr)) && k !in w.db.deliveries
    requires b == w.db.deliveries[k := Delivery(None, Queued, w.db.messages[k.msg].ts, None)]
    ensures RowsRef(w.db.messages, b) && RowsRouted(b, w.db.routes) && RowsDirected(w.db.messages, b)
    ensures AsksRowed(w.db.messages, b, w.db.awaiting) && RowsInv(w.db.messages, b)
    ensures ClaimedInv(w.claimed, w.next, w.db.messages, b)
    ensures RowsForward(w.db.deliveries, w.db.messages, b)
  {
    NewRowPlaced(w, b, k);
    NewRowState(w, b, k);
  }

  lemma NewRowPlaced(w: World, b: Rows, k: Key)
    requires Inv(w) && Guard(w, Enqueue(k.msg, k.addr)) && k !in w.db.deliveries
    requires b == w.db.deliveries[k := Delivery(None, Queued, w.db.messages[k.msg].ts, None)]
    ensures RowsRef(w.db.messages, b) && RowsRouted(b, w.db.routes) && RowsDirected(w.db.messages, b)
    ensures AsksRowed(w.db.messages, b, w.db.awaiting)
  {
    forall id | id in w.db.awaiting ensures id in w.db.messages && Key(id, w.db.messages[id].to) in b {
      assert Key(id, w.db.messages[id].to) in w.db.deliveries;
    }
    hide TruthInv, ClosesInv, ClaimedInv, LogInv, CursorInv, AskersInv, OpInv, RowsInv;
  }

  lemma NewRowState(w: World, b: Rows, k: Key)
    requires Inv(w) && k.msg in w.db.messages && k !in w.db.deliveries
    requires b == w.db.deliveries[k := Delivery(None, Queued, w.db.messages[k.msg].ts, None)]
    ensures RowsInv(w.db.messages, b) && ClaimedInv(w.claimed, w.next, w.db.messages, b)
    ensures RowsForward(w.db.deliveries, w.db.messages, b)
  {
    hide TruthInv, ClosesInv, LogInv, CursorInv, AskersInv, OpInv, AsksRef, RoutesRef, RowsDirected, RowsRouted, RoutesDirected, AsksRowed;
  }

  lemma PostKeeps(w: World, m: Message, route: Option<seq<Address>>)
    requires Inv(w) && m.id >= w.next && Insertable(w.db.messages, m)
    requires IsAsk(m.kind) ==> Askable(m)
    requires m.corrId.Some? ==> m.corrId.value in w.db.messages
    requires m.operationId.Some? ==> route.Some?
    requires route.Some? && OpensThread(m.kind, m.to) ==> route.value == [m.to]
    ensures Inv(Stored(w, m, route)) && Follows(w, Stored(w, m, route))
  {
    PostInv(w, m, route);
    Appended(w, m, route);
    hide Inv, Follows;
  }

  function WithRoute(routes: Routes, id: Id, route: Option<seq<Address>>): Routes {
    if route.Some? then routes[id := route.value] else routes
  }

  /** The world after storing a message, with its route if it has one. */
  function Stored(w: World, m: Message, route: Option<seq<Address>>): World {
    Post(w.(db := w.db.(messages := w.db.messages[m.id := m], routes := WithRoute(w.db.routes, m.id, route))), m)
  }

  lemma PostInv(w: World, m: Message, route: Option<seq<Address>>)
    requires Inv(w) && m.id >= w.next && Insertable(w.db.messages, m)
    requires IsAsk(m.kind) ==> Askable(m)
    requires m.corrId.Some? ==> m.corrId.value in w.db.messages
    requires m.operationId.Some? ==> route.Some?
    requires route.Some? && OpensThread(m.kind, m.to) ==> route.value == [m.to]
    ensures Inv(Stored(w, m, route))
  {
    var ms := w.db.messages[m.id := m];
    StillOneOp(w, m);
    hide Insertable, OpInv, WithRoute, Stored;
    NewRoute(w, m, route);
    NewMessageTables(w, m, ms);
    NewMessageHistory(w, m, ms);
    hide Inv;
    AssembleInv(w, m, route);
  }

  lemma StillOneOp(w: World, m: Message)
    requires Inv(w) && Insertable(w.db.messages, m)
    ensures OpInv(w.db.messages[m.id := m])
  {
    NewMessageOp(w.db.messages, m);
  }

  /** The invariant of the world after storing a message, from its parts. */
  lemma AssembleInv(w: World, m: Message, route: Option<seq<Address>>)
    requires Inv(w)
    requires var ms := w.db.messages[m.id := m]; var routes := WithRoute(w.db.routes, m.id, route);
      var next := Max(w.next, m.id + 1); var log := w.log + [Posted(m)];
      && RoutesRef(ms, routes) && OpsRouted(ms, routes) && RoutesDirected(ms, routes) && RowsRouted(w.db.deliveries, routes)
      && IdsInv(ms, next) && AskersInv(ms) && RowsRef(ms, w.db.deliveries) && AsksRef(ms, w.db.awaiting)
      && RowsDirected(ms, w.db.deliveries) && AsksRowed(ms, w.db.deliveries, w.db.awaiting) && RowsInv(ms, w.db.deliveries)
      && OpInv(ms) && TruthInv(ms, w.db.awaiting, log) && ClosesInv(w.closes, next, ms, w.db.awaiting)
      && ClaimedInv(w.claimed, next, ms, w.db.deliveries) && LogInv(log, next)
    ensures Inv(Stored(w, m, route))
  {
    hide WithRoute, OpInv;
    hide IdsInv, RowsRef, AsksRef, RoutesRef, OpsRouted, RowsRouted, RowsDirected, RoutesDirected, AsksRowed, RowsInv,
      AskersInv, TruthInv, ClosesInv, ClaimedInv, LogInv, RowsForward, AsksForward, MessagesForward, RoutesForward, CursorInv;
  }

  /** The new message's route, if it has one, is the only new one. */
  lemma NewRoute(w: World, m: Message, route: Option<seq<Address>>)
    requires Inv(w) && m.id >= w.next
    requires m.operationId.Some? ==> route.Some?
    requires route.Some? && OpensThread(m.kind, m.to) ==> route.value == [m.to]
    ensures var ms := w.db.messages[m.id := m]; var routes := WithRoute(w.db.routes, m.id, route);
      && RoutesRef(ms, routes) && OpsRouted(ms, routes) && RoutesDirected(ms, routes)
      && RowsRouted(w.db.deliveries, routes) && RoutesForward(w.db.routes, ms, routes)
  {
    var ms := w.db.messages[m.id := m];
    assert m.id !in w.db.messages && m.id !in w.db.routes;
    forall k | k in w.db.deliveries ensures k.msg != m.id { assert k.msg in w.db.messages; }
    forall id | id in w.db.routes && DirectedAsk(ms, id) ensures w.db.routes[id] == [ms[id].to] {
      assert DirectedAsk(w.db.messages, id);
    }
    hide RowsInv, AskersInv, TruthInv, ClosesInv, ClaimedInv, LogInv, CursorInv, AsksRowed, AsksRef, RowsDirected, OpInv;
  }

  lemma Appended(w: World, m: Message, route: Option<seq<Address>>)
    requires Inv(w) && m.id >= w.next
    requires m.operationId.Some? ==> route.Some?
    requires route.Some? && OpensThread(m.kind, m.to) ==> route.value == [m.to]
    ensures Follows(w, Stored(w, m, route))
  {
    FollowsReflexive(w);
    NewRoute(w, m, route);
    assert m.id !in w.db.messages;
    hide WithRoute, RoutesForward;
  }

  lemma NewMessageTables(w: World, m: Message, ms: Messages)
    requires Inv(w) && m.id >= w.next && ms == w.db.messages[m.id := m]
    requires IsAsk(m.kind) ==> Askable(m)
    ensures IdsInv(ms, Max(w.next, m.id + 1)) && AskersInv(ms)
    ensures RowsRef(ms, w.db.deliveries) && AsksRef(ms, w.db.awaiting) && RowsDirected(ms, w.db.deliveries)
    ensures AsksRowed(ms, w.db.deliveries, w.db.awaiting) && RowsInv(ms, w.db.deliveries)
    ensures MessagesForward(w.db.messages, w.next, ms)
  {
    assert m.id !in w.db.messages;
    forall id | id in w.db.awaiting ensures DirectedAsk(ms, id) && Key(id, ms[id].to) in w.db.deliveries {
      assert DirectedAsk(w.db.messages, id) && Key(id, w.db.messages[id].to) in w.db.deliveries;
    }
    forall k | k in w.db.deliveries ensures k.msg in w.db.messages && k.msg != m.id {
    }
    forall k | k in w.db.deliveries && DirectedAsk(ms, k.msg) ensures k.addr == ms[k.msg].to {
      assert DirectedAsk(w.db.messages, k.msg);
    }
  }

  lemma NewMessageOp(messages: Messages, m: Message)
    requires OpInv(messages) && Insertable(messages, m)
    ensures OpInv(messages[m.id := m])
  {
    var ms := messages[m.id := m];
    forall i, j | i in ms && j in ms && SameOp(ms[i], ms[j]) ensures i == j {
      if i != m.id && j != m.id {
        assert SameOp(messages[i], messages[j]);
      }
    }
  }

  lemma NewMessageHistory(w: World, m: Message, ms: Messages)
    requires Inv(w) && m.id >= w.next && ms == w.db.messages[m.id := m]
    requires m.corrId.Some? ==> m.corrId.value in w.db.messages
    ensures TruthInv(ms, w.db.awaiting, w.log + [Posted(m)])
    ensures ClosesInv(w.closes, Max(w.next, m.id + 1), ms, w.db.awaiting)
    ensures ClaimedInv(w.claimed, Max(w.next, m.id + 1), ms, w.db.deliveries)
    ensures LogInv(w.log + [Posted(m)], Max(w.next, m.id + 1))
  {
    var log := w.log + [Posted(m)];
    assert m.id !in w.db.messages;
    TruthGrows(w.db.messages, w.db.awaiting, w.log, log);
    forall id | id in w.db.awaiting ensures id in w.db.messages && ms[id] == w.db.messages[id] {
      assert DirectedAsk(w.db.messages, id);
    }
    forall i | 0 <= i < |log| ensures EntryOld(log[i], Max(w.next, m.id + 1)) {
      if i < |w.log| { assert EntryOld(w.log[i], w.next); }
    }
  }

  /** A longer log backs everything a shorter one did. */
  lemma TruthGrows(messages: Messages, asks: Asks, a: seq<Entry>, b: seq<Entry>)
    requires TruthInv(messages, asks, a) && a <= b
    ensures TruthInv(messages, asks, b)
  {
    forall id | id in asks && id in messages
      ensures asks[id].closed == Some(Responded) ==> Answered(b, id, messages[id].from)
      ensures asks[id].closed == Some(Cancelled) ==> WasWithdrawn(b, id)
    {
      LogGrows(a, b, id, messages[id].from);
    }
  }

  lemma LogGrows(a: seq<Entry>, b: seq<Entry>, id: Id, asker: Address)
    requires a <= b
    ensures Answered(a, id, asker) ==> Answered(b, id, asker)
    ensures WasWithdrawn(a, id) ==> WasWithdrawn(b, id)
  {
    if Answered(a, id, asker) {
      var i :| 0 <= i < |a| && a[i].Posted? && IsAnswer(a[i].m, id, asker);
      assert b[i] == a[i];
    }
    if WasWithdrawn(a, id) {
      var i :| 0 <= i < |a| && a[i] == Withdrawn(id);
      assert b[i] == a[i];
    }
  }

  lemma RoutedKeeps(w: World, m: Message, targets: seq<Address>)
    requires Inv(w) && Guard(w, AppendRouted(m, targets))
    ensures Inv(Step(w, AppendRouted(m, targets))) && Follows(w, Step(w, AppendRouted(m, targets)))
  {
    PostKeeps(w, m, Some(targets));
    assert m.id !in w.db.routes;
    assert Step(w, AppendRouted(m, targets)) == Stored(w, m, Some(targets));
  }

  // ---- Statements on awaitings -----------------------------------------------

  lemma OpenKeeps(w: World, s: Stmt)
    requires Inv(w) && s.OpenAwaiting? && Guard(w, s)
    ensures Inv(Step(w, s)) && Follows(w, Step(w, s))
  {
    OpenRows(w, s);
    FollowsReflexive(w);
    hide RowsRef, AsksRef, RoutesRef, OpInv, RowsRouted, RowsDirected, RoutesDirected, AsksRowed, RowsInv, AskersInv,
      TruthInv, ClosesInv, ClaimedInv, LogInv, RowsForward, AsksForward, MessagesForward, RoutesForward;
  }

  lemma OpenRows(w: World, s: Stmt)
    requires Inv(w) && s.OpenAwaiting? && Guard(w, s)
    ensures var asks := Step(w, s).db.awaiting;
      && AsksRef(w.db.messages, asks) && AsksRowed(w.db.messages, w.db.deliveries, asks)
      && TruthInv(w.db.messages, asks, w.log) && ClosesInv(w.closes, w.next, w.db.messages, asks)
      && AsksForward(w.db.awaiting, w.db.messages, asks)
  {
    OpenTables(w, s);
    OpenHistory(w, s);
    hide AsksRef, AsksRowed, TruthInv, ClosesInv, AsksForward;
  }

  lemma OpenTables(w: World, s: Stmt)
    requires Inv(w) && s.OpenAwaiting? && Guard(w, s)
    ensures var asks := Step(w, s).db.awaiting;
      && AsksRef(w.db.messages, asks) && AsksRowed(w.db.messages, w.db.deliveries, asks)
      && AsksForward(w.db.awaiting, w.db.messages, asks)
  {
    hide TruthInv, ClosesInv, ClaimedInv, LogInv, RowsInv, AskersInv, OpInv, RowsRouted, RowsDirected, RoutesDirected, RoutesRef;
  }

  lemma OpenHistory(w: World, s: Stmt)
    requires Inv(w) && s.OpenAwaiting? && Guard(w, s)
    ensures var asks := Step(w, s).db.awaiting;
      TruthInv(w.db.messages, asks, w.log) && ClosesInv(w.closes, w.next, w.db.messages, asks)
  {
    hide ClaimedInv, LogInv, RowsInv, AskersInv, OpInv, RowsRouted, RowsDirected, RoutesDirected, RoutesRef, AsksRowed;
    assert s.id !in w.closes;
  }

  lemma CloseKeeps(w: World, id: Id, reason: Reason)
    requires Inv(w) && Guard(w, CloseAwaiting(id, reason))
    ensures Inv(Step(w, CloseAwaiting(id, reason))) && Follows(w, Step(w, CloseAwaiting(id, reason)))
  {
    FollowsReflexive(w);
    if AskOpen(w.db.awaiting, id) {
      assert DirectedAsk(w.db.messages, id);
      ClosedAsk(w.db.messages, w.db.deliveries, w.db.awaiting, id, reason);
      ClosedTruth(w.db.messages, w.db.awaiting, w.log, w.next, id, reason);
      ClosedCount(w.closes, w.next, w.db.messages, w.db.awaiting, id, reason);
    }
  }

  function Withdraw(log: seq<Entry>, id: Id, reason: Reason): (r: seq<Entry>)
    ensures log <= r
  {
    if reason.Cancelled? then log + [Withdrawn(id)] else log
  }

  lemma ClosedTruth(messages: Messages, asks: Asks, log: seq<Entry>, next: Id, id: Id, reason: Reason)
    requires AskOpen(asks, id) && TruthInv(messages, asks, log) && LogInv(log, next) && id in messages && id < next
    requires reason.Responded? ==> Answered(log, id, messages[id].from)
    ensures TruthInv(messages, CloseAsk(asks, id, reason), Withdraw(log, id, reason))
    ensures LogInv(Withdraw(log, id, reason), next)
  {
    var log1 := Withdraw(log, id, reason);
    TruthGrows(messages, asks, log, log1);
    LogGrows(log, log1, id, messages[id].from);
    if reason.Cancelled? { assert log1[|log|] == Withdrawn(id); }
    forall i | 0 <= i < |log1| ensures EntryOld(log1[i], next) {
      if i < |log| { assert EntryOld(log[i], next); }
    }
  }

  lemma ClosedAsk(messages: Messages, rows: Rows, asks: Asks, id: Id, reason: Reason)
    requires AskOpen(asks, id) && AsksRef(messages, asks) && AsksRowed(messages, rows, asks)
    ensures AsksRef(messages, CloseAsk(asks, id, reason)) && AsksRowed(messages, rows, CloseAsk(asks, id, reason))
    ensures AsksForward(asks, messages, CloseAsk(asks, id, reason))
  {
  }

  lemma ClosedCount(closes: multiset<Id>, next: Id, messages: Messages, asks: Asks, id: Id, reason: Reason)
    requires AskOpen(asks, id) && ClosesInv(closes, next, messages, asks) && id < next && id in messages
    ensures ClosesInv(closes + multiset{id}, next, messages, CloseAsk(asks, id, reason))
  {
    assert id !in closes;
  }

  /** The nudge clock is the only part of an awaiting that moves more than once. */
  ghost predicate OnlyClocks(a: Asks, b: Asks) {
    && a.Keys == b.Keys
    && forall id :: id in a ==>
           b[id].closed == a[id].closed && b[id].replyByS == a[id].replyByS && b[id].expiresAt == a[id].expiresAt
  }

  lemma ClockAsks(w: World, b: Asks)
    requires Inv(w) && OnlyClocks(w.db.awaiting, b)
    ensures AsksRef(w.db.messages, b) && AsksRowed(w.db.messages, w.db.deliveries, b)
    ensures TruthInv(w.db.messages, b, w.log) && ClosesInv(w.closes, w.next, w.db.messages, b)
    ensures AsksForward(w.db.awaiting, w.db.messages, b)
  {
  }

  lemma ClockKeeps(w: World, s: Stmt)
    requires Inv(w) && (s.MarkNudged? || s.DeferNudge?)
    ensures Inv(Step(w, s)) && Follows(w, Step(w, s))
  {
    hide Inv, Follows;
    ClockStep(w, s);
    hide Step;
    ClocksKeep(w, Step(w, s));
  }

  lemma ClockStep(w: World, s: Stmt)
    requires s.MarkNudged? || s.DeferNudge?
    ensures var w1 := Step(w, s);
      OnlyClocks(w.db.awaiting, w1.db.awaiting) && w1 == w.(db := w.db.(awaiting := w1.db.awaiting), defers := w1.defers)
  {
  }

  lemma ClocksKeep(w: World, w1: World)
    requires Inv(w) && OnlyClocks(w.db.awaiting, w1.db.awaiting)
    requires w1 == w.(db := w.db.(awaiting := w1.db.awaiting), defers := w1.defers)
    ensures Inv(w1) && Follows(w, w1)
  {
    ClockAsks(w, w1.db.awaiting);
  }

  // ---- Purge -------------------------------------------------------------------

  lemma PurgeKeeps(w: World, cutoff: Time)
    requires Inv(w)
    ensures Inv(Step(w, Purge(cutoff))) && Follows(w, Step(w, Purge(cutoff)))
  {
    var gone := PurgeSet(w.db, cutoff);
    FollowsReflexive(w);
    WithoutTables(w.db, gone);
    WithoutHistory(w, gone);
  }

  lemma WithoutTables(db: DB, gone: set<Id>)
    requires RowsRef(db.messages, db.deliveries) && AsksRef(db.messages, db.awaiting)
    requires RoutesRef(db.messages, db.routes) && OpsRouted(db.messages, db.routes) && OpInv(db.messages)
    requires RowsRouted(db.deliveries, db.routes) && RowsDirected(db.messages, db.deliveries)
    requires RoutesDirected(db.messages, db.routes) && AsksRowed(db.messages, db.deliveries, db.awaiting)
    ensures var b := Without(db, gone);
      && RowsRef(b.messages, b.deliveries) && AsksRef(b.messages, b.awaiting)
      && RoutesRef(b.messages, b.routes) && OpsRouted(b.messages, b.routes) && OpInv(b.messages)
      && RowsRouted(b.deliveries, b.routes) && RowsDirected(b.messages, b.deliveries)
      && RoutesDirected(b.messages, b.routes) && AsksRowed(b.messages, b.deliveries, b.awaiting)
  {
    var b := Without(db, gone);
    forall id | id in b.awaiting ensures DirectedAsk(b.messages, id) && Key(id, b.messages[id].to) in b.deliveries {
      assert DirectedAsk(db.messages, id) && Key(id, db.messages[id].to) in db.deliveries;
    }
    forall i, j | i in b.messages && j in b.messages && SameOp(b.messages[i], b.messages[j]) ensures i == j {
      assert SameOp(db.messages[i], db.messages[j]);
    }
    forall k | k in b.deliveries && DirectedAsk(b.messages, k.msg) ensures k.addr == b.messages[k.msg].to {
      assert DirectedAsk(db.messages, k.msg);
    }
    forall id | id in b.routes && DirectedAsk(b.messages, id) ensures b.routes[id] == [b.messages[id].to] {
      assert DirectedAsk(db.messages, id);
    }
  }

  lemma WithoutHistory(w: World, gone: set<Id>)
    requires Inv(w)
    ensures var b := Without(w.db, gone);
      && IdsInv(b.messages, w.next) && AskersInv(b.messages) && RowsInv(b.messages, b.deliveries)
      && TruthInv(b.messages, b.awaiting, w.log)
      && ClosesInv(w.closes, w.next, b.messages, b.awaiting)
      && ClaimedInv(w.claimed, w.next, b.messages, b.deliveries)
      && MessagesForward(w.db.messages, w.next, b.messages)
      && RoutesForward(w.db.routes, b.messages, b.routes)
      && RowsForward(w.db.deliveries, b.messages, b.deliveries)
      && AsksForward(w.db.awaiting, b.messages, b.awaiting)
  {
    var b := Without(w.db, gone);
    assert RowsInv(b.messages, b.deliveries) by {
      forall k | k in b.deliveries ensures k in w.db.deliveries && b.deliveries[k] == w.db.deliveries[k] {}
    }
    assert TruthInv(b.messages, b.awaiting, w.log) by {
      forall id | id in b.awaiting ensures id in w.db.awaiting && b.awaiting[id] == w.db.awaiting[id] {}
    }
    assert ClosesInv(w.closes, w.next, b.messages, b.awaiting);
    assert ClaimedInv(w.claimed, w.next, b.messages, b.deliveries);
  }

  // ---- All of them ---------------------------------------------------------------

  /** The step lemma: the invariant is kept, and nothing settled is undone. */
  lemma StepKeeps(w: World, s: Stmt)
    requires Inv(w) && Guard(w, s)
    ensures Inv(Step(w, s)) && Follows(w, Step(w, s))
  {
    hide Inv, Follows, Exec;
    if MovesRows(s) {
      MovedStatementKeeps(w, s);
    } else {
      match s
      case AppendRouted(m, targets) => RoutedKeeps(w, m, targets);
      case Append(m) => AppendKeeps(w, m);
      case Enqueue(id, a) => EnqueueKeeps(w, id, a);
      case Claim(a, via) => ClaimKeeps(w, a, via);
      case OpenAwaiting(_, _, _, _) => OpenKeeps(w, s);
      case CloseAwaiting(id, reason) => CloseKeeps(w, id, reason);
      case MarkNudged(_, _) => ClockKeeps(w, s);
      case DeferNudge(_, _) => ClockKeeps(w, s);
      case Purge(cutoff) => PurgeKeeps(w, cutoff);
      case _ => SideTableKeeps(w, s);
    }
  }

  lemma MovedStatementKeeps(w: World, s: Stmt)
    requires Inv(w) && MovesRows(s)
    ensures Inv(Step(w, s)) && Follows(w, Step(w, s))
  {
    hide Exec;
    assert CursorInv(w.db.cursor);
    RowStatementMoves(w.db, s);
    MovedKeeps(w, Exec(w.db, s));
  }

  lemma AppendKeeps(w: World, m: Message)
    requires Inv(w) && Guard(w, Append(m))
    ensures Inv(Step(w, Append(m))) && Follows(w, Step(w, Append(m)))
  {
    Unstored(w, m);
    hide Inv, Follows;
    PostKeeps(w, m, None);
    assert Step(w, Append(m)) == Stored(w, m, None);
  }

  lemma Unstored(w: World, m: Message)
    requires Inv(w) && m.id >= w.next && m.operationId.None?
    ensures Insertable(w.db.messages, m)
  {
  }

  /** Claims, passes, surfaced marks, the outbox and reopening are beside the protocol's tables. */
  lemma SideTableKeeps(w: World, s: Stmt)
    requires Inv(w)
    requires s.ClaimProject? || s.ReleaseClaim? || s.PassProject? || s.MarkProjectSurfaced? || s.QueueOutbound?
             || s.DeleteOutbound? || s.Reopen?
    ensures Inv(Step(w, s)) && Follows(w, Step(w, s))
  {
    hide Inv, Follows;
    CursorKept(w);
    BesideKeeps(w, Step(w, s));
  }

  lemma CursorKept(w: World)
    requires Inv(w)
    ensures CursorInv(w.db.cursor)
  {
  }

  /** What leaves the protocol's tables and the history alone keeps everything. */
  lemma BesideKeeps(w: World, b: World)
    requires Inv(w) && b == w.(db := b.db)
    requires b.db.messages == w.db.messages && b.db.deliveries == w.db.deliveries && b.db.routes == w.db.routes
    requires b.db.awaiting == w.db.awaiting && b.db.cursor.seqOf == w.db.cursor.seqOf && CursorInv(b.db.cursor)
    ensures Inv(b) && Follows(w, b)
  {
    FollowsReflexive(w);
    hide IdsInv, RowsRef, AsksRef, RoutesRef, OpsRouted, OpInv, RowsRouted, RowsDirected, RoutesDirected, AsksRowed, RowsInv, AskersInv,
      TruthInv, ClosesInv, ClaimedInv, LogInv, RowsForward, AsksForward, MessagesForward, RoutesForward;
  }
}
