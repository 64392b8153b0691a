/**
 What every storage statement keeps.  A world is the tables plus the history no table
 records; a statement whose guard holds keeps the invariant and only moves every record
 forward, so any run of guarded statements does.
 */
module Invariants {
  import opened Models
  import opened Store

  /** Everything ever posted, and every withdrawal that found its ask open. */
  datatype Entry = Posted(m: Message) | Withdrawn(id: Id)

  datatype World = World(
    db: DB,
    next: Id,                  // ids from here on have never been used
    log: seq<Entry>,
    defers: multiset<Id>,      // how often each ask's nudge clock was pushed out
    claimed: multiset<Key>,    // rows handed out by claiming delivery
    closes: multiset<Id>)      // asks closed

  function ClaimedKeys(rows: Rows, a: Address): set<Key> {
    set k | k in rows && Claimable(rows, k, a)
  }

  ghost function Step(w: World, s: Stmt): World {
    var w1 := w.(db := Exec(w.db, s));
    match s
    case AppendRouted(m, _) => if Insertable(w.db.messages, m) then Post(w1, m) else w1
    case Append(m) => if Insertable(w.db.messages, m) then Post(w1, m) else w1
    case CloseAwaiting(id, r) =>
      if AskOpen(w.db.awaiting, id)
      then w1.(closes := w.closes + multiset{id}, log := if r.Cancelled? then w.log + [Withdrawn(id)] else w.log)
      else w1
    case DeferNudge(id, _) => w1.(defers := w.defers + multiset{id})
    case Claim(a, _) => w1.(claimed := w.claimed + multiset(ClaimedKeys(w.db.deliveries, a)))
    case _ => w1
  }

  function Post(w: World, m: Message): World {
    w.(next := Max(w.next, m.id + 1), log := w.log + [Posted(m)])
  }

  ghost function Steps(w: World, work: seq<Stmt>): World
    decreases |work|
  {
    if work == [] then w else Steps(Step(w, work[0]), work[1..])
  }

  // ---- The invariant --------------------------------------------------------

  ghost predicate IdsInv(messages: Messages, next: Id) {
    forall id :: id in messages ==> messages[id].id == id && id < next
  }

  /** Referential integrity: every row, awaiting and route has its message. */
  ghost predicate RowsRef(messages: Messages, rows: Rows) {
    forall k :: k in rows ==> k.msg in messages
  }

  predicate DirectedAsk(messages: Messages, id: Id) {
    id in messages && OpensThread(messages[id].kind, messages[id].to)
  }

  ghost predicate AsksRef(messages: Messages, awaiting: Asks) {
    forall id :: id in awaiting ==> DirectedAsk(messages, id)
  }

  ghost predicate RoutesRef(messages: Messages, routes: Routes) {
    forall id :: id in routes ==> id in messages
  }

  /** A message with an operation id was stored with its route, in one transaction. */
  ghost predicate OpsRouted(messages: Messages, routes: Routes) {
    forall id :: id in messages && messages[id].operationId.Some? ==> id in routes
  }

  predicate SameOp(m: Message, n: Message) { m.operationId.Some? && m.operationId == n.operationId }

  ghost predicate OpInv(messages: Messages) {
    forall i, j :: i in messages && j in messages && SameOp(messages[i], messages[j]) ==> i == j
  }

  /** Rows stay inside the first route snapshot. */
  ghost predicate RowsRouted(rows: Rows, routes: Routes) {
    forall k :: k in rows && k.msg in routes ==> k.addr in routes[k.msg]
  }

  /** A directed ask has no row but its addressee's... */
  ghost predicate RowsDirected(messages: Messages, rows: Rows) {
    forall k :: k in rows && DirectedAsk(messages, k.msg) ==> k.addr == messages[k.msg].to
  }

  ghost predicate RoutesDirected(messages: Messages, routes: Routes) {
    forall id :: id in routes && DirectedAsk(messages, id) ==> routes[id] == [messages[id].to]
  }

  /** ...and has that row before anything is awaited of it. */
  ghost predicate AsksRowed(messages: Messages, rows: Rows, awaiting: Asks) {
    forall id :: id in awaiting ==> id in messages && Key(id, messages[id].to) in rows
  }

  ghost predicate RowsInv(messages: Messages, rows: Rows) {
    forall k :: k in rows && k.msg in messages ==>
        && (rows[k].state.Queued? ==> rows[k].lease.None?)
        && rows[k].ts == messages[k.msg].ts
  }

  /** No ask is from the broker or to it, and an ask starts its own correlation. */
  ghost predicate AskersInv(messages: Messages) {
    forall id :: id in messages && IsAsk(messages[id].kind) ==> Askable(messages[id])
  }

  predicate Askable(m: Message) { !m.from.Broker? && !m.to.Broker? && m.corrId.None? }

  predicate IsAnswer(m: Message, id: Id, asker: Address) {
    m.corrId == Some(id) && m.kind.Response? && m.terminal && !m.from.Broker? && m.to == asker
  }

  ghost predicate Answered(log: seq<Entry>, id: Id, asker: Address) {
    exists i :: 0 <= i < |log| && log[i].Posted? && IsAnswer(log[i].m, id, asker)
  }

  ghost predicate WasWithdrawn(log: seq<Entry>, id: Id) {
    exists i :: 0 <= i < |log| && log[i] == Withdrawn(id)
  }

  /** A closed ask's reason is backed by something that happened. */
  ghost predicate TruthInv(messages: Messages, awaiting: Asks, log: seq<Entry>) {
    forall id :: id in awaiting && id in messages ==>
        && (awaiting[id].closed == Some(Responded) ==> Answered(log, id, messages[id].from))
        && (awaiting[id].closed == Some(Cancelled) ==> WasWithdrawn(log, id))
  }

  /** No ask closes twice; the closed ones still stored are exactly those that closed once. */
  ghost predicate ClosesInv(closes: multiset<Id>, next: Id, messages: Messages, awaiting: Asks) {
    && (forall id :: id in awaiting && awaiting[id].closed.Some? ==> id in closes)
    && (forall id :: id in closes ==>
          && closes[id] == 1 && id < next
          && (id in messages ==> id in awaiting && awaiting[id].closed.Some?))
  }

  /** No row is handed out twice by claiming delivery. */
  ghost predicate ClaimedInv(claimed: multiset<Key>, next: Id, messages: Messages, rows: Rows) {
    forall k :: k in claimed ==>
        && claimed[k] == 1 && k.msg < next
        && (k.msg in messages ==> k in rows && !rows[k].state.Queued?)
  }

  ghost predicate CursorInv(c: Cursor) {
    c.persisted <= c.counter && forall a :: a in c.seqOf ==> 0 < c.seqOf[a] <= c.persisted
  }

  predicate EntryOld(e: Entry, next: Id) {
    match e
    case Posted(m) => m.id < next && (m.corrId.Some? ==> m.corrId.value < next)
    case Withdrawn(id) => id < next
  }

  ghost predicate LogInv(log: seq<Entry>, next: Id) {
    forall i :: 0 <= i < |log| ==> EntryOld(log[i], next)
  }

  ghost predicate Inv(w: World) {
    && IdsInv(w.db.messages, w.next)
    && RowsRef(w.db.messages, w.db.deliveries)
    && AsksRef(w.db.messages, w.db.awaiting)
    && RoutesRef(w.db.messages, w.db.routes)
    && OpsRouted(w.db.messages, w.db.routes)
    && OpInv(w.db.messages)
    && RowsRouted(w.db.deliveries, w.db.routes)
    && RowsDirected(w.db.messages, w.db.deliveries)
    && RoutesDirected(w.db.messages, w.db.routes)
    && AsksRowed(w.db.messages, w.db.deliveries, w.db.awaiting)
    && RowsInv(w.db.messages, w.db.deliveries)
    && AskersInv(w.db.messages)
    && TruthInv(w.db.messages, w.db.awaiting, w.log)
    && ClosesInv(w.closes, w.next, w.db.messages, w.db.awaiting)
    && ClaimedInv(w.claimed, w.next, w.db.messages, w.db.deliveries)
    && CursorInv(w.db.cursor)
    && LogInv(w.log, w.next)
  }

  // ---- What may happen next -------------------------------------------------

  /** When a statement is one the broker, the sweeper or a degraded client would issue. */
  ghost predicate Guard(w: World, s: Stmt) {
    match s
    case AppendRouted(m, targets) =>
      && m.id >= w.next && Insertable(w.db.messages, m) && m.corrId.None?
      && (IsAsk(m.kind) ==> Askable(m))
      && (OpensThread(m.kind, m.to) ==> targets == [m.to])
    case Append(m) =>
      && m.id >= w.next && m.operationId.None? && !IsAsk(m.kind)
      && m.corrId.Some? && m.corrId.value in w.db.messages
    case Enqueue(id, a) =>
      && id in w.db.messages
      && (id in w.db.routes ==> a in w.db.routes[id])
      && (OpensThread(w.db.messages[id].kind, w.db.messages[id].to) ==> a == w.db.messages[id].to)
    case OpenAwaiting(id, _, _, _) =>
      && id in w.db.messages && id !in w.db.awaiting
      && OpensThread(w.db.messages[id].kind, w.db.messages[id].to)
      && Key(id, w.db.messages[id].to) in w.db.deliveries
    case CloseAwaiting(id, reason) =>
      reason.Responded? && id in w.db.messages ==> Answered(w.log, id, w.db.messages[id].from)
    case Tombstone(cutoff, order) =>
      Enumerates(order, StaleAddresses(w.db.deliveries, cutoff))
    case _ => true
  }

  ghost predicate Enumerates<T>(order: seq<T>, s: set<T>) {
    && (set x | x in order) == s
    && (forall i, j :: 0 <= i < j < |order| ==> order[i] != order[j])
  }

  lemma EnumeratesIn<T>(order: seq<T>, s: set<T>, x: T)
    requires Enumerates(order, s)
    ensures x in order <==> x in s
  {
    assert x in order <==> x in set y | y in order;
  }

  // ---- What never moves back ------------------------------------------------

  /** A row only ever climbs: queued, delivered, out of the host's reach, settled. */
  function Rank(s: DeliveryState): nat {
    match s
    case Queued => 0
    case Delivered => 1
    case Surfaced => 2
    case Persisted => 2
    case Consumed => 3
    case Accepted => 3
    case Refused => 3
  }

  ghost predicate RowsForward(a: Rows, messages: Messages, b: Rows) {
    forall k :: k in a && k.msg in messages ==> k in b && Rank(a[k].state) <= Rank(b[k].state)
  }

  /** An awaiting lives as long as its message; its deadlines never move; it closes for good. */
  ghost predicate AsksForward(a: Asks, messages: Messages, b: Asks) {
    forall id :: id in a && id in messages ==>
        && id in b && b[id].replyByS == a[id].replyByS && b[id].expiresAt == a[id].expiresAt
        && (a[id].closed.Some? ==> b[id].closed == a[id].closed)
  }

  /** Messages are immutable facts, and an id is never used again. */
  ghost predicate MessagesForward(a: Messages, next: Id, b: Messages) {
    forall id :: id in b && id < next ==> id in a && b[id] == a[id]
  }

  ghost predicate RoutesForward(a: Routes, messages: Messages, b: Routes) {
    forall id :: id in a && id in messages ==> id in b && b[id] == a[id]
  }

  ghost predicate CursorForward(a: Cursor, b: Cursor) {
    forall x :: x in a.seqOf ==> x in b.seqOf && a.seqOf[x] <= b.seqOf[x]
  }

  ghost predicate Follows(a: World, b: World) {
    && a.next <= b.next
    && MessagesForward(a.db.messages, a.next, b.db.messages)
    && RoutesForward(a.db.routes, b.db.messages, b.db.routes)
    && RowsForward(a.db.deliveries, b.db.messages, b.db.deliveries)
    && AsksForward(a.db.awaiting, b.db.messages, b.db.awaiting)
    && CursorForward(a.db.cursor, b.db.cursor)
    && a.log <= b.log
  }

  lemma FollowsReflexive(w: World)
    requires Inv(w)
    ensures Follows(w, w)
  {
  }

  lemma FollowsTransitive(a: World, b: World, c: World)
    requires Inv(a) && Inv(b) && Follows(a, b) && Follows(b, c)
    ensures Follows(a, c)
  {
    RowsTransitive(a, b, c);
    AsksTransitive(a, b, c);
    RoutesTransitive(a, b, c);
    assert MessagesForward(a.db.messages, a.next, c.db.messages);
    assert CursorForward(a.db.cursor, c.db.cursor);
    assert a.log <= c.log;
  }

  lemma RowsTransitive(a: World, b: World, c: World)
    requires IdsInv(a.db.messages, a.next) && RowsRef(a.db.messages, a.db.deliveries) && a.next <= b.next
    requires MessagesForward(b.db.messages, b.next, c.db.messages)
    requires RowsForward(a.db.deliveries, b.db.messages, b.db.deliveries)
    requires RowsForward(b.db.deliveries, c.db.messages, c.db.deliveries)
    ensures RowsForward(a.db.deliveries, c.db.messages, c.db.deliveries)
  {
    forall k | k in a.db.deliveries && k.msg in c.db.messages
      ensures k in c.db.deliveries && Rank(a.db.deliveries[k].state) <= Rank(c.db.deliveries[k].state)
    {
      assert k.msg < a.next && k.msg in b.db.messages;
    }
  }

  lemma AsksTransitive(a: World, b: World, c: World)
    requires IdsInv(a.db.messages, a.next) && AsksRef(a.db.messages, a.db.awaiting) && a.next <= b.next
    requires MessagesForward(b.db.messages, b.next, c.db.messages)
    requires AsksForward(a.db.awaiting, b.db.messages, b.db.awaiting)
    requires AsksForward(b.db.awaiting, c.db.messages, c.db.awaiting)
    ensures AsksForward(a.db.awaiting, c.db.messages, c.db.awaiting)
  {
    forall id | id in a.db.awaiting && id in c.db.messages ensures id in b.db.messages {
      assert DirectedAsk(a.db.messages, id);
    }
  }

  lemma RoutesTransitive(a: World, b: World, c: World)
    requires IdsInv(a.db.messages, a.next) && RoutesRef(a.db.messages, a.db.routes) && a.next <= b.next
    requires MessagesForward(b.db.messages, b.next, c.db.messages)
    requires RoutesForward(a.db.routes, b.db.messages, b.db.routes)
    requires RoutesForward(b.db.routes, c.db.messages, c.db.routes)
    ensures RoutesForward(a.db.routes, c.db.messages, c.db.routes)
  {
    forall id | id in a.db.routes && id in c.db.messages ensures id in b.db.messages {
      assert id < a.next;
    }
  }
}
