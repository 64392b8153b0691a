/**
 The durable tables and the effect of each storage statement on them
 (src/storage/sqliteBackend.ts).  One statement is one atomic step; everything the
 broker, the sweeper and a degraded client do is a sequence of these.
 */
module Store {
  import opened Models

  type Messages = map<Id, Message>
  type Rows = map<Key, Delivery>
  type Routes = map<Id, seq<Address>>
  type Asks = map<Id, Awaiting>

  /** The inbox-event cursor: the open handle's counter, its stored copy, the last event of each address. */
  datatype Cursor = Cursor(counter: nat, persisted: nat, seqOf: map<Address, nat>)

  datatype DB = DB(
    messages: Messages,
    deliveries: Rows,
    routes: Routes,
    awaiting: Asks,
    claims: map<Id, Address>,
    passes: set<Key>,
    surfaces: set<Key>,
    outbound: map<string, Intent>,
    cursor: Cursor)

  datatype Stmt =
    | AppendRouted(m: Message, targets: seq<Address>)
    | Append(m: Message)
    | Enqueue(id: Id, addr: Address)
    | ConsumeAll(addr: Address)
    | MarkDelivered(id: Id, addr: Address, via: Via)
    | MarkConsumed(id: Id, addr: Address)
    | MarkSurfaced(id: Id, addr: Address)
    | Claim(addr: Address, via: Via)
    | LeaseFor(addr: Address, via: Via, leaseId: string, now: Time, until: Time)
    | Ack(addr: Address, leaseId: string, ids: seq<Id>)
    | SetConsent(id: Id, addr: Address, accepted: bool)
    | OpenAwaiting(id: Id, expiresAt: Option<Time>, replyByS: Option<int>, nudgeFrom: Time)
    | CloseAwaiting(id: Id, reason: Reason)
    | MarkNudged(id: Id, stage: nat)
    | DeferNudge(id: Id, now: Time)
    | ClaimProject(id: Id, addr: Address)
    | ReleaseClaim(id: Id)
    | PassProject(id: Id, addr: Address)
    | MarkProjectSurfaced(id: Id, addr: Address)
    | QueueOutbound(op: string, intent: Intent)
    | DeleteOutbound(op: string)
    | Purge(cutoff: Time)
    | Tombstone(cutoff: Time, order: seq<Address>)
    | Reopen(floor: nat)

  const EMPTY := DB(map[], map[], map[], map[], map[], {}, {}, map[], Cursor(0, 0, map[]))

  // ---- Reads ----------------------------------------------------------------

  ghost predicate HasOp(messages: Messages, op: string) {
    exists id :: id in messages && messages[id].operationId == Some(op)
  }

  ghost function FindOp(messages: Messages, op: Option<string>): Option<Message> {
    if op.Some? && HasOp(messages, op.value) then
      var id :| id in messages && messages[id].operationId == op;
      Some(messages[id])
    else None
  }

  /** A query or request opens a correlation; nothing else can be replied to as an ask. */
  function OriginOf(messages: Messages, id: Id): Option<Message> {
    if id in messages && IsAsk(messages[id].kind) then Some(messages[id]) else None
  }

  predicate AskOpen(asks: Asks, id: Id) { id in asks && asks[id].closed.None? }

  predicate TtlPassed(asks: Asks, id: Id, now: Time) {
    AskOpen(asks, id) && asks[id].expiresAt.Some? && asks[id].expiresAt.value <= now
  }

  predicate AskCancelled(asks: Asks, id: Id) { id in asks && asks[id].closed == Some(Cancelled) }

  predicate PendingRow(rows: Rows, k: Key) { k in rows && IsPending(rows[k].state) }

  /** The pending rows of an address. */
  function PendingSet(rows: Rows, a: Address): set<Id> {
    set k | k in rows && k.addr == a && PendingRow(rows, k) :: k.msg
  }

  /** What a successor would find owed: a waiting copy, or a copy some host took of an ask nobody has closed. */
  predicate Recoverable(db: DB, id: Id, a: Address) {
    && Key(id, a) in db.deliveries && id in db.messages
    && var s := db.deliveries[Key(id, a)].state;
      IsPending(s) || (s.Persisted? && IsAsk(db.messages[id].kind) && AskOpen(db.awaiting, id))
  }

  function RowsOf(rows: Rows, id: Id): set<Address> {
    set k | k in rows && k.msg == id :: k.addr
  }

  function Max(x: nat, y: nat): nat { if x < y then y else x }

  /** Newest inbox event over some addresses; 0 when nothing ever happened. */
  function LastEventSeq(seqOf: map<Address, nat>, addrs: seq<Address>): nat {
    if addrs == [] then 0
    else Max(if addrs[0] in seqOf then seqOf[addrs[0]] else 0, LastEventSeq(seqOf, addrs[1..]))
  }

  // ---- The cursor -----------------------------------------------------------

  function Bump(c: Cursor, a: Address): Cursor {
    Cursor(c.counter + 1, c.counter + 1, c.seqOf[a := c.counter + 1])
  }

  function BumpIf(event: bool, c: Cursor, a: Address): Cursor {
    if event then Bump(c, a) else c
  }

  function BumpAll(c: Cursor, order: seq<Address>): Cursor
    decreases |order|
  {
    if order == [] then c else Bump(BumpAll(c, order[..|order| - 1]), order[|order| - 1])
  }

  // ---- Rows -----------------------------------------------------------------

  function Put(rows: Rows, k: Key, s: DeliveryState): Rows {
    if k in rows then rows[k := rows[k].(state := s)] else rows
  }

  function ConsumeRows(rows: Rows, a: Address): Rows {
    map k | k in rows :: if k.addr == a && PendingRow(rows, k) then rows[k].(state := Consumed) else rows[k]
  }

  function DeliverRow(rows: Rows, k: Key, via: Via): Rows {
    if k in rows && rows[k].state.Queued? then rows[k := rows[k].(state := Delivered, via := Some(via))] else rows
  }

  predicate Surfaceable(rows: Rows, k: Key) {
    k in rows && (rows[k].state.Queued? || rows[k].state.Delivered? || rows[k].state.Persisted?)
  }

  function SurfaceRow(rows: Rows, k: Key): Rows {
    if Surfaceable(rows, k) then rows[k := rows[k].(state := Surfaced, lease := None)] else rows
  }

  predicate Claimable(rows: Rows, k: Key, a: Address) {
    k in rows && k.addr == a && rows[k].state.Queued?
  }

  function ClaimRows(rows: Rows, a: Address, via: Via): Rows {
    map k | k in rows ::
      if Claimable(rows, k, a) then rows[k].(state := Delivered, via := Some(via)) else rows[k]
  }

  predicate Leasable(rows: Rows, k: Key, a: Address, now: Time) {
    && k in rows && k.addr == a
    && (rows[k].state.Queued? || rows[k].state.Delivered?)
    && (rows[k].lease.None? || rows[k].lease.value.until <= now)
  }

  function LeaseRows(rows: Rows, a: Address, via: Via, leaseId: string, now: Time, until: Time): Rows {
    map k | k in rows ::
      if Leasable(rows, k, a, now)
      then rows[k].(state := Delivered, via := Some(via), lease := Some(Lease(leaseId, until)))
      else rows[k]
  }

  predicate Ackable(rows: Rows, k: Key, a: Address, leaseId: string, ids: seq<Id>) {
    && k in rows && k.addr == a && k.msg in ids
    && (rows[k].state.Queued? || rows[k].state.Delivered?)
    && rows[k].lease.Some? && rows[k].lease.value.id == leaseId
  }

  function AckableSet(rows: Rows, a: Address, leaseId: string, ids: seq<Id>): set<Id> {
    set k | k in rows && Ackable(rows, k, a, leaseId, ids) :: k.msg
  }

  function AckRows(rows: Rows, a: Address, leaseId: string, ids: seq<Id>): Rows {
    map k | k in rows ::
      if Ackable(rows, k, a, leaseId, ids) then rows[k].(state := Persisted, lease := None) else rows[k]
  }

  predicate Stale(rows: Rows, k: Key, cutoff: Time) {
    PendingRow(rows, k) && rows[k].ts < cutoff
  }

  function StaleAddresses(rows: Rows, cutoff: Time): set<Address> {
    set k | k in rows && Stale(rows, k, cutoff) :: k.addr
  }

  function RetireRows(rows: Rows, cutoff: Time): Rows {
    map k | k in rows :: if Stale(rows, k, cutoff) then rows[k].(state := Consumed) else rows[k]
  }

  // ---- Asks -----------------------------------------------------------------

  function CloseAsk(asks: Asks, id: Id, reason: Reason): Asks {
    if AskOpen(asks, id) then asks[id := asks[id].(closed := Some(reason))] else asks
  }

  function NudgeAsk(asks: Asks, id: Id, stage: nat): Asks {
    if id in asks && asks[id].nudgedStage < stage then asks[id := asks[id].(nudgedStage := stage)] else asks
  }

  function DeferAsk(asks: Asks, id: Id, now: Time): Asks {
    if id in asks then asks[id := asks[id].(nudgedStage := 0, nudgeFrom := now)] else asks
  }

  // ---- Statement effects ----------------------------------------------------

  /** INSERT OR IGNORE: the id and the operation id are both unique. */
  ghost predicate Insertable(messages: Messages, m: Message) {
    m.id !in messages && (m.operationId.Some? ==> !HasOp(messages, m.operationId.value))
  }

  ghost function Insert(messages: Messages, m: Message): Messages {
    if Insertable(messages, m) then messages[m.id := m] else messages
  }

  function DoEnqueue(db: DB, k: Key): DB {
    if k in db.deliveries then db
    else
      var ts := if k.msg in db.messages then db.messages[k.msg].ts else 0;
      db.(deliveries := db.deliveries[k := Delivery(None, Queued, ts, None)], cursor := Bump(db.cursor, k.addr))
  }

  /** Settle a row; only leaving the pending set is an inbox event. */
  function Settle(db: DB, k: Key, s: DeliveryState): DB {
    db.(deliveries := Put(db.deliveries, k, s),
        cursor := BumpIf(PendingRow(db.deliveries, k), db.cursor, k.addr))
  }

  predicate Purgeable(db: DB, id: Id, cutoff: Time) {
    && id in db.messages && db.messages[id].ts < cutoff
    && (forall k :: k in db.deliveries && k.msg == id ==> !PendingRow(db.deliveries, k))
    && !AskOpen(db.awaiting, id)
  }

  function PurgeSet(db: DB, cutoff: Time): set<Id> {
    set id | id in db.messages && Purgeable(db, id, cutoff)
  }

  function Without(db: DB, ids: set<Id>): DB {
    db.(messages := map id | id in db.messages && id !in ids :: db.messages[id],
        deliveries := map k | k in db.deliveries && k.msg !in ids :: db.deliveries[k],
        awaiting := map id | id in db.awaiting && id !in ids :: db.awaiting[id],
        routes := map id | id in db.routes && id !in ids :: db.routes[id])
  }

  ghost function Exec(db: DB, s: Stmt): DB {
    match s
    case AppendRouted(m, targets) =>
      db.(messages := Insert(db.messages, m),
          routes := if m.id in db.routes then db.routes else db.routes[m.id := targets])
    case Append(m) => db.(messages := Insert(db.messages, m))
    case Enqueue(id, a) => DoEnqueue(db, Key(id, a))
    case ConsumeAll(a) =>
      db.(deliveries := ConsumeRows(db.deliveries, a),
          cursor := BumpIf(PendingSet(db.deliveries, a) != {}, db.cursor, a))
    case MarkDelivered(id, a, via) => db.(deliveries := DeliverRow(db.deliveries, Key(id, a), via))
    case MarkConsumed(id, a) => Settle(db, Key(id, a), Consumed)
    case MarkSurfaced(id, a) =>
      db.(deliveries := SurfaceRow(db.deliveries, Key(id, a)),
          cursor := BumpIf(Key(id, a) in db.deliveries && db.deliveries[Key(id, a)].state.Persisted?, db.cursor, a))
    case Claim(a, via) => db.(deliveries := ClaimRows(db.deliveries, a, via))
    case LeaseFor(a, via, leaseId, now, until) =>
      db.(deliveries := LeaseRows(db.deliveries, a, via, leaseId, now, until))
    case Ack(a, leaseId, ids) =>
      db.(deliveries := AckRows(db.deliveries, a, leaseId, ids),
          cursor := BumpIf(AckableSet(db.deliveries, a, leaseId, ids) != {}, db.cursor, a))
    case SetConsent(id, a, accepted) => Settle(db, Key(id, a), Consent(accepted))
    case OpenAwaiting(id, expiresAt, replyByS, nudgeFrom) =>
      db.(awaiting := db.awaiting[id := Awaiting(expiresAt, None, replyByS, 0, nudgeFrom)])
    case CloseAwaiting(id, reason) => db.(awaiting := CloseAsk(db.awaiting, id, reason))
    case MarkNudged(id, stage) => db.(awaiting := NudgeAsk(db.awaiting, id, stage))
    case DeferNudge(id, now) => db.(awaiting := DeferAsk(db.awaiting, id, now))
    case ClaimProject(id, a) => db.(claims := if id in db.claims then db.claims else db.claims[id := a])
    case ReleaseClaim(id) => db.(claims := db.claims - {id})
    case PassProject(id, a) => db.(passes := db.passes + {Key(id, a)})
    case MarkProjectSurfaced(id, a) => db.(surfaces := db.surfaces + {Key(id, a)})
    case QueueOutbound(op, intent) =>
      db.(outbound := if op in db.outbound then db.outbound else db.outbound[op := intent])
    case DeleteOutbound(op) => db.(outbound := db.outbound - {op})
    case Purge(cutoff) => Without(db, PurgeSet(db, cutoff))
    case Tombstone(cutoff, order) =>
      db.(deliveries := RetireRows(db.deliveries, cutoff), cursor := BumpAll(db.cursor, order))
    case Reopen(floor) => db.(cursor := db.cursor.(counter := Max(db.cursor.persisted, floor)))
  }

  function Consent(accepted: bool): DeliveryState { if accepted then Accepted else Refused }

  ghost function ExecAll(db: DB, work: seq<Stmt>): DB
    decreases |work|
  {
    if work == [] then db else Exec(ExecAll(db, work[..|work| - 1]), work[|work| - 1])
  }

  /** Running one batch after another is running their concatenation. */
  lemma {:induction false} ExecAllConcat(db: DB, a: seq<Stmt>, b: seq<Stmt>)
    ensures ExecAll(db, a + b) == ExecAll(ExecAll(db, a), b)
    decreases |b|
  {
    if b == [] {
      assert a + b == a;
    } else {
      var rest := b[..|b| - 1];
      ExecAllConcat(db, a, rest);
      assert (a + b)[..|a + b| - 1] == a + rest;
    }
  }

  lemma ExecOne(db: DB, a: seq<Stmt>, s: Stmt)
    ensures ExecAll(db, a + [s]) == Exec(ExecAll(db, a), s)
  {
    assert (a + [s])[..|a|] == a;
  }

  lemma ExecJust(db: DB, s: Stmt)
    ensures ExecAll(db, [s]) == Exec(db, s)
  {
    ExecOne(db, [], s);
    assert [] + [s] == [s];
  }

  // ---- Which statements touch which tables -----------------------------------------------

  lemma MessagesFrame(db: DB, s: Stmt)
    ensures !s.AppendRouted? && !s.Append? && !s.Purge? ==> Exec(db, s).messages == db.messages
    ensures !s.Purge? ==> db.messages.Keys <= Exec(db, s).messages.Keys
  {
    InsertFrame(db.messages, s);
    hide Insert;
  }

  lemma InsertFrame(messages: Messages, s: Stmt)
    ensures (s.Append? || s.AppendRouted?) ==> messages.Keys <= Insert(messages, s.m).Keys
  {
  }

  lemma OutboxFrame(db: DB, s: Stmt)
    ensures !s.QueueOutbound? && !s.DeleteOutbound? ==> Exec(db, s).outbound == db.outbound
    ensures !s.DeleteOutbound? ==> db.outbound.Keys <= Exec(db, s).outbound.Keys
  {
  }

  lemma ClaimsFrame(db: DB, s: Stmt)
    ensures !s.ClaimProject? && !s.ReleaseClaim? ==> Exec(db, s).claims == db.claims
    ensures !s.ReleaseClaim? ==>
              forall id :: id in db.claims ==> id in Exec(db, s).claims && Exec(db, s).claims[id] == db.claims[id]
  {
  }
}
