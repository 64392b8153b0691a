/**
 The inbox-event cursor (src/storage/sqliteBackend.ts:229-249): over any run of statements,
 reopenings included, it never rewinds and it moves exactly when some watched address's
 pending set did, even if the set ends up where it began.
 */
module CursorEvents {
  import opened Models
  import opened Store
  import opened Invariants
  import opened Statements

  /** Retiring stale mail bumps each address that loses some; every other statement may run any time. */
  ghost predicate Orderly(db: DB, s: Stmt) {
    s.Tombstone? ==> Enumerates(s.order, StaleAddresses(db.deliveries, s.cutoff))
  }

  ghost predicate SameSeq(c: Cursor, d: Cursor, a: Address) {
    (a in c.seqOf <==> a in d.seqOf) && (a in c.seqOf ==> c.seqOf[a] == d.seqOf[a])
  }

  /** After an event an address's seq is above everything handed out before. */
  ghost predicate NewSeq(c: Cursor, d: Cursor, a: Address) {
    a in d.seqOf && d.seqOf[a] > c.persisted
  }

  lemma {:induction false} BumpAllSeqs(c: Cursor, order: seq<Address>, a: Address)
    requires CursorInv(c)
    ensures if a in order then NewSeq(c, BumpAll(c, order), a) else SameSeq(c, BumpAll(c, order), a)
    ensures BumpAll(c, order).counter >= c.counter
    decreases |order|
  {
    if order != [] {
      BumpAllSeqs(c, order[..|order| - 1], a);
    }
  }

  /** A row not pending before and after, or pending before and after, keeps an address's pending set. */
  lemma SamePending(a: Rows, b: Rows, addr: Address)
    requires forall k: Key :: k.addr == addr ==> (PendingRow(a, k) <==> PendingRow(b, k))
    ensures PendingSet(a, addr) == PendingSet(b, addr)
  {
    forall id ensures id in PendingSet(a, addr) <==> id in PendingSet(b, addr) {
      InPendingSet(a, id, addr);
      InPendingSet(b, id, addr);
    }
  }

  lemma InPendingSet(rows: Rows, id: Id, a: Address)
    ensures id in PendingSet(rows, a) <==> PendingRow(rows, Key(id, a))
  {
    if PendingRow(rows, Key(id, a)) {
      assert Key(id, a) in rows && Key(id, a).addr == a && Key(id, a).msg == id;
    }
  }

  lemma OtherPending(a: Rows, b: Rows, addr: Address, id: Id)
    requires PendingRow(a, Key(id, addr)) != PendingRow(b, Key(id, addr))
    ensures PendingSet(a, addr) != PendingSet(b, addr)
  {
    InPendingSet(a, id, addr);
    InPendingSet(b, id, addr);
  }

  /** One row's change is an event for its address when it enters or leaves the pending set, and for no other. */
  lemma OneRow(a: Rows, b: Rows, k: Key, c: Cursor, addr: Address)
    requires CursorInv(c)
    requires forall x :: x != k ==> (PendingRow(a, x) <==> PendingRow(b, x))
    ensures var d := BumpIf(PendingRow(a, k) != PendingRow(b, k), c, k.addr);
      if PendingSet(a, addr) == PendingSet(b, addr) then SameSeq(c, d, addr) else NewSeq(c, d, addr)
  {
    if addr == k.addr && PendingRow(a, k) != PendingRow(b, k) {
      OtherPending(a, b, addr, k.msg);
    } else {
      SamePending(a, b, addr);
    }
  }

  /** Settling a whole inbox is one event, for that inbox, if it held anything. */
  lemma ConsumeInbox(rows: Rows, a: Address, c: Cursor, addr: Address)
    requires CursorInv(c)
    ensures var b := ConsumeRows(rows, a); var d := BumpIf(PendingSet(rows, a) != {}, c, a);
      if PendingSet(rows, addr) == PendingSet(b, addr) then SameSeq(c, d, addr) else NewSeq(c, d, addr)
  {
    var b := ConsumeRows(rows, a);
    if addr == a {
      forall id ensures id !in PendingSet(b, a) { InPendingSet(b, id, a); }
      assert PendingSet(b, a) == {};
    } else {
      SamePending(rows, b, addr);
    }
  }

  lemma AckInbox(rows: Rows, a: Address, leaseId: string, ids: seq<Id>, c: Cursor, addr: Address)
    requires CursorInv(c)
    ensures var b := AckRows(rows, a, leaseId, ids); var d := BumpIf(AckableSet(rows, a, leaseId, ids) != {}, c, a);
      if PendingSet(rows, addr) == PendingSet(b, addr) then SameSeq(c, d, addr) else NewSeq(c, d, addr)
  {
    var b := AckRows(rows, a, leaseId, ids);
    if addr == a && AckableSet(rows, a, leaseId, ids) != {} {
      var id :| id in AckableSet(rows, a, leaseId, ids);
      var k :| k in rows && Ackable(rows, k, a, leaseId, ids) && k.msg == id;
      assert k == Key(id, a) && PendingRow(rows, k) && !PendingRow(b, k);
      OtherPending(rows, b, a, id);
    } else {
      forall k: Key | k.addr == addr ensures PendingRow(rows, k) <==> PendingRow(b, k) {
        assert k in rows && Ackable(rows, k, a, leaseId, ids) ==> k.msg in AckableSet(rows, a, leaseId, ids);
      }
      SamePending(rows, b, addr);
    }
  }

  lemma RetireInboxes(rows: Rows, cutoff: Time, order: seq<Address>, c: Cursor, addr: Address)
    requires CursorInv(c) && Enumerates(order, StaleAddresses(rows, cutoff))
    ensures var b := RetireRows(rows, cutoff); var d := BumpAll(c, order);
      if PendingSet(rows, addr) == PendingSet(b, addr) then SameSeq(c, d, addr) else NewSeq(c, d, addr)
  {
    var b := RetireRows(rows, cutoff);
    BumpAllSeqs(c, order, addr);
    assert addr in order <==> addr in StaleAddresses(rows, cutoff);
    if addr in order {
      var k :| k in rows && Stale(rows, k, cutoff) && k.addr == addr;
      assert k == Key(k.msg, addr) && !PendingRow(b, k);
      OtherPending(rows, b, addr, k.msg);
    } else {
      forall k: Key | k.addr == addr ensures PendingRow(rows, k) <==> PendingRow(b, k) {
        assert k in rows && Stale(rows, k, cutoff) ==> k.addr in StaleAddresses(rows, cutoff);
      }
      SamePending(rows, b, addr);
    }
  }

  lemma PurgeKeepsInboxes(db: DB, cutoff: Time, addr: Address)
    ensures PendingSet(Without(db, PurgeSet(db, cutoff)).deliveries, addr) == PendingSet(db.deliveries, addr)
  {
    var b := Without(db, PurgeSet(db, cutoff)).deliveries;
    forall k: Key | k.addr == addr ensures PendingRow(db.deliveries, k) <==> PendingRow(b, k) {
      if PendingRow(db.deliveries, k) {
        assert k.msg !in PurgeSet(db, cutoff);
      }
    }
    SamePending(db.deliveries, b, addr);
  }

  /** Handing mail out, by claim or by lease, is no event. */
  lemma HandOutKeepsInboxes(rows: Rows, a: Address, via: Via, leaseId: string, now: Time, until: Time, addr: Address)
    ensures PendingSet(rows, addr) == PendingSet(ClaimRows(rows, a, via), addr)
    ensures PendingSet(rows, addr) == PendingSet(LeaseRows(rows, a, via, leaseId, now, until), addr)
  {
    SamePending(rows, ClaimRows(rows, a, via), addr);
    SamePending(rows, LeaseRows(rows, a, via, leaseId, now, until), addr);
  }

  ghost predicate Exact(a: DB, b: DB, addr: Address) {
    if PendingSet(a.deliveries, addr) == PendingSet(b.deliveries, addr)
    then SameSeq(a.cursor, b.cursor, addr) else NewSeq(a.cursor, b.cursor, addr)
  }

  lemma EnqueueEvent(db: DB, id: Id, a: Address, addr: Address)
    requires CursorInv(db.cursor)
    ensures Exact(db, Exec(db, Enqueue(id, a)), addr)
  {
    hide PendingSet, SameSeq, NewSeq;
    OneRow(db.deliveries, DoEnqueue(db, Key(id, a)).deliveries, Key(id, a), db.cursor, addr);
  }

  lemma SettleEvent(db: DB, k: Key, s: DeliveryState, addr: Address)
    requires CursorInv(db.cursor) && IsSettled(s)
    ensures Exact(db, Settle(db, k, s), addr)
  {
    OneRow(db.deliveries, Put(db.deliveries, k, s), k, db.cursor, addr);
  }

  lemma ConsentEvent(db: DB, id: Id, a: Address, accepted: bool, addr: Address)
    requires CursorInv(db.cursor)
    ensures Exact(db, Exec(db, SetConsent(id, a, accepted)), addr)
    ensures Exact(db, Exec(db, MarkConsumed(id, a)), addr)
  {
    SettleEvent(db, Key(id, a), Consent(accepted), addr);
    SettleEvent(db, Key(id, a), Consumed, addr);
    hide Exact, Settle;
  }

  lemma SurfaceEvent(db: DB, id: Id, a: Address, via: Via, addr: Address)
    requires CursorInv(db.cursor)
    ensures Exact(db, Exec(db, MarkSurfaced(id, a)), addr)
    ensures Exact(db, Exec(db, MarkDelivered(id, a, via)), addr)
  {
    var k := Key(id, a);
    var surfaced := SurfaceRow(db.deliveries, k);
    var delivered := DeliverRow(db.deliveries, k, via);
    OneRow(db.deliveries, surfaced, k, db.cursor, addr);
    OneRow(db.deliveries, delivered, k, db.cursor, addr);
    assert PendingRow(db.deliveries, k) != PendingRow(surfaced, k) <==> k in db.deliveries && db.deliveries[k].state.Persisted?;
    assert PendingRow(db.deliveries, k) == PendingRow(delivered, k);
    hide PendingSet, SurfaceRow, DeliverRow, PendingRow, SameSeq, NewSeq;
  }

  /** Each statement moves an address's seq exactly when it changes that address's pending set. */
  lemma StatementEvent(db: DB, s: Stmt, addr: Address)
    requires CursorInv(db.cursor) && Orderly(db, s)
    ensures Exact(db, Exec(db, s), addr)
  {
    hide Exact, Exec, Orderly, CursorInv;
    match s
    case Enqueue(id, a) => EnqueueEvent(db, id, a, addr);
    case MarkDelivered(id, a, via) => SurfaceEvent(db, id, a, via, addr);
    case MarkConsumed(id, a) => ConsentEvent(db, id, a, true, addr);
    case MarkSurfaced(id, a) => SurfaceEvent(db, id, a, Hook, addr);
    case SetConsent(id, a, accepted) => ConsentEvent(db, id, a, accepted, addr);
    case _ => InboxEvent(db, s, addr);
  }

  /** Statements over a whole inbox, and those that touch none. */
  lemma InboxEvent(db: DB, s: Stmt, addr: Address)
    requires CursorInv(db.cursor) && Orderly(db, s)
    requires !s.Enqueue? && !s.MarkDelivered? && !s.MarkConsumed? && !s.MarkSurfaced? && !s.SetConsent?
    ensures Exact(db, Exec(db, s), addr)
  {
    hide PendingSet, ConsumeRows, ClaimRows, LeaseRows, AckRows, RetireRows, AckableSet, StaleAddresses, PurgeSet,
      BumpAll, NewSeq, Insert, CloseAsk, NudgeAsk, DeferAsk, PendingRow;
    match s
    case ConsumeAll(a) => ConsumeInbox(db.deliveries, a, db.cursor, addr);
    case Claim(a, via) => HandOutKeepsInboxes(db.deliveries, a, via, "", 0, 0, addr);
    case LeaseFor(a, via, leaseId, now, until) => HandOutKeepsInboxes(db.deliveries, a, via, leaseId, now, until, addr);
    case Ack(a, leaseId, ids) => AckInbox(db.deliveries, a, leaseId, ids, db.cursor, addr);
    case Purge(cutoff) => PurgeKeepsInboxes(db, cutoff, addr);
    case Tombstone(cutoff, order) => RetireInboxes(db.deliveries, cutoff, order, db.cursor, addr);
    case _ =>
  }

  lemma StatementCursor(db: DB, s: Stmt)
    requires CursorInv(db.cursor)
    ensures CursorInv(Exec(db, s).cursor) && Exec(db, s).cursor.persisted >= db.cursor.persisted
  {
    if MovesRows(s) { RowStatementMoves(db, s); }
    PersistedGrows(db, s);
  }

  lemma PersistedGrows(db: DB, s: Stmt)
    requires CursorInv(db.cursor)
    ensures Exec(db, s).cursor.persisted >= db.cursor.persisted
  {
    if s.Tombstone? { BumpAllPersisted(db.cursor, s.order); }
    hide BumpAll;
  }

  lemma {:induction false} BumpAllPersisted(c: Cursor, order: seq<Address>)
    requires CursorInv(c)
    ensures BumpAll(c, order).persisted >= c.persisted && BumpAll(c, order).counter >= BumpAll(c, order).persisted
    decreases |order|
  {
    if order != [] { BumpAllPersisted(c, order[..|order| - 1]); }
  }

  // ---- Over a run ---------------------------------------------------------------------------

  ghost predicate OrderlyRun(db: DB, work: seq<Stmt>)
    decreases |work|
  {
    work == [] || (OrderlyRun(db, work[..|work| - 1]) && Orderly(ExecAll(db, work[..|work| - 1]), work[|work| - 1]))
  }

  ghost predicate Moved(a: DB, b: DB, addrs: seq<Address>) {
    exists i :: 0 <= i < |addrs| && PendingSet(a.deliveries, addrs[i]) != PendingSet(b.deliveries, addrs[i])
  }

  /** Did some watched pending set change at some point of the run? */
  ghost predicate EverMoved(db: DB, work: seq<Stmt>, addrs: seq<Address>)
    decreases |work|
  {
    work != [] &&
    (EverMoved(db, work[..|work| - 1], addrs) || Moved(ExecAll(db, work[..|work| - 1]), ExecAll(db, work), addrs))
  }

  lemma {:induction false} SeqBounded(c: Cursor, addrs: seq<Address>)
    requires CursorInv(c)
    ensures LastEventSeq(c.seqOf, addrs) <= c.persisted
    decreases |addrs|
  {
    if addrs != [] { SeqBounded(c, addrs[1..]); }
  }

  lemma {:induction false} SeqCovers(seqOf: map<Address, nat>, addrs: seq<Address>, i: nat)
    requires i < |addrs| && addrs[i] in seqOf
    ensures seqOf[addrs[i]] <= LastEventSeq(seqOf, addrs)
    decreases |addrs|
  {
    if i > 0 { SeqCovers(seqOf, addrs[1..], i - 1); }
  }

  lemma {:induction false} SeqSame(c: Cursor, d: Cursor, addrs: seq<Address>)
    requires forall a :: a in addrs ==> SameSeq(c, d, a)
    ensures LastEventSeq(c.seqOf, addrs) == LastEventSeq(d.seqOf, addrs)
    decreases |addrs|
  {
    if addrs != [] {
      assert addrs[0] in addrs;
      SeqSame(c, d, addrs[1..]);
    }
  }

  /** One statement: the watched cursor stays put, or jumps above everything before it. */
  lemma CursorStep(db: DB, s: Stmt, addrs: seq<Address>)
    requires CursorInv(db.cursor) && Orderly(db, s)
    ensures var b := Exec(db, s);
      && (if Moved(db, b, addrs)
          then LastEventSeq(b.cursor.seqOf, addrs) > db.cursor.persisted >= LastEventSeq(db.cursor.seqOf, addrs)
          else LastEventSeq(b.cursor.seqOf, addrs) == LastEventSeq(db.cursor.seqOf, addrs))
  {
    hide Exec;
    var b := Exec(db, s);
    if Moved(db, b, addrs) {
      var i :| 0 <= i < |addrs| && PendingSet(db.deliveries, addrs[i]) != PendingSet(b.deliveries, addrs[i]);
      StatementEvent(db, s, addrs[i]);
      SeqCovers(b.cursor.seqOf, addrs, i);
      SeqBounded(db.cursor, addrs);
    } else {
      forall a | a in addrs ensures SameSeq(db.cursor, b.cursor, a) {
        var i :| 0 <= i < |addrs| && addrs[i] == a;
        StatementEvent(db, s, addrs[i]);
      }
      SeqSame(db.cursor, b.cursor, addrs);
    }
  }

  /**
   Cursor exactness: between any two points of a run the watched cursor never goes back, and
   it differs exactly when some watched pending set changed in between.
   */
  lemma {:induction false} CursorExact(db: DB, work: seq<Stmt>, addrs: seq<Address>)
    requires CursorInv(db.cursor) && OrderlyRun(db, work)
    ensures CursorInv(ExecAll(db, work).cursor)
    ensures LastEventSeq(db.cursor.seqOf, addrs) <= LastEventSeq(ExecAll(db, work).cursor.seqOf, addrs)
    ensures LastEventSeq(db.cursor.seqOf, addrs) != LastEventSeq(ExecAll(db, work).cursor.seqOf, addrs)
            <==> EverMoved(db, work, addrs)
    ensures EverMoved(db, work, addrs) ==> LastEventSeq(ExecAll(db, work).cursor.seqOf, addrs) > db.cursor.persisted
    ensures ExecAll(db, work).cursor.persisted >= db.cursor.persisted
    decreases |work|
  {
    hide Exec, Moved;
    if work != [] {
      var n := |work| - 1;
      CursorExact(db, work[..n], addrs);
      var mid := ExecAll(db, work[..n]);
      CursorStep(mid, work[n], addrs);
      StatementCursor(mid, work[n]);
    }
  }

  /**
   The promise needs one open handle at a time.  A handle that bumps with a counter of its
   own moves an address forward exactly when that counter is not behind the address's last event...
   */
  lemma StaleHandle(c: Cursor, counter: nat, a: Address)
    requires a in c.seqOf
    ensures Bump(c.(counter := counter), a).seqOf[a] > c.seqOf[a] <==> counter >= c.seqOf[a]
  {
  }

  /** ...so a degraded client writing beside a live broker can make the broker's next event rewind a watcher. */
  lemma TwoHandlesRewind(a: Address)
    ensures var broker := Bump(Cursor(10, 10, map[]), a);
      var client := Bump(broker.(counter := Max(broker.persisted, 50)), a);
      var late := Bump(client.(counter := broker.counter), a);
      LastEventSeq(late.seqOf, [a]) < LastEventSeq(client.seqOf, [a])
  {
    var broker := Bump(Cursor(10, 10, map[]), a);
    var client := Bump(broker.(counter := Max(broker.persisted, 50)), a);
    assert LastEventSeq(client.seqOf, [a][1..]) == 0;
  }

  // ---- Any number of handles ------------------------------------------------------------------

  type Handle = nat

  /** One store under several open handles, each counting on its own. */
  datatype Shared = Shared(counters: map<Handle, nat>, persisted: nat, seqOf: map<Address, nat>)

  datatype HandleOp = Open(h: Handle, floor: nat) | Event(h: Handle, a: Address)

  predicate CanDo(s: Shared, op: HandleOp) { op.Event? ==> op.h in s.counters }

  /** Opening resumes from the stored counter, floored to the boot clock; an event counts on from the handle's own. */
  function DoHandle(s: Shared, op: HandleOp): Shared
    requires CanDo(s, op)
  {
    match op
    case Open(h, floor) => s.(counters := s.counters[h := Max(s.persisted, floor)])
    case Event(h, a) =>
      var c := Bump(Cursor(s.counters[h], s.persisted, s.seqOf), a);
      Shared(s.counters[h := c.counter], c.persisted, c.seqOf)
  }

  predicate CanRun(s: Shared, ops: seq<HandleOp>)
    decreases |ops|
  {
    ops == [] || (CanDo(s, ops[0]) && CanRun(DoHandle(s, ops[0]), ops[1..]))
  }

  /** What a watcher of some addresses sees of a run: every event at one of them moves its cursor up, nothing else moves it. */
  predicate SeesAll(s: Shared, ops: seq<HandleOp>, addrs: seq<Address>)
    requires CanRun(s, ops)
    decreases |ops|
  {
    ops == [] ||
    (var next := DoHandle(s, ops[0]);
     var was, now := LastEventSeq(s.seqOf, addrs), LastEventSeq(next.seqOf, addrs);
     (if ops[0].Event? && ops[0].a in addrs then now > was else now == was) && SeesAll(next, ops[1..], addrs))
  }

  /** No event at a watched address comes from a handle whose counter is behind the watcher's cursor. */
  predicate NeverBehind(s: Shared, ops: seq<HandleOp>, addrs: seq<Address>)
    requires CanRun(s, ops)
    decreases |ops|
  {
    ops == [] ||
    ((ops[0].Event? && ops[0].a in addrs ==> s.counters[ops[0].h] >= LastEventSeq(s.seqOf, addrs))
     && NeverBehind(DoHandle(s, ops[0]), ops[1..], addrs))
  }

  /** One address's event decides the watched cursor: not at all if it is not watched, upwards exactly if it is newer than all. */
  lemma {:induction false} SeqUpdated(seqOf: map<Address, nat>, addrs: seq<Address>, a: Address, v: nat)
    ensures var was, now := LastEventSeq(seqOf, addrs), LastEventSeq(seqOf[a := v], addrs);
      if a in addrs then v <= now <= Max(was, v) else now == was
    decreases |addrs|
  {
    if addrs != [] { SeqUpdated(seqOf, addrs[1..], a, v); }
  }

  /** However handles interleave, a watcher sees every event and never goes back exactly if no handle wrote from behind its cursor. */
  lemma {:induction false} HandlesExact(s: Shared, ops: seq<HandleOp>, addrs: seq<Address>)
    requires CanRun(s, ops)
    ensures SeesAll(s, ops, addrs) <==> NeverBehind(s, ops, addrs)
    decreases |ops|
  {
    if ops != [] {
      if ops[0].Event? { SeqUpdated(s.seqOf, addrs, ops[0].a, s.counters[ops[0].h] + 1); }
      HandlesExact(DoHandle(s, ops[0]), ops[1..], addrs);
    }
  }

  /** Every event comes from a handle that wrote last, or was opened since the last event of another. */
  predicate TakeTurns(live: set<Handle>, ops: seq<HandleOp>)
    decreases |ops|
  {
    ops == [] ||
    match ops[0]
    case Open(h, _) => TakeTurns(live + {h}, ops[1..])
    case Event(h, _) => h in live && TakeTurns({h}, ops[1..])
  }

  /** These handles have seen every event so far. */
  ghost predicate UpToDate(s: Shared, live: set<Handle>) {
    && (forall h :: h in live ==> h in s.counters && s.counters[h] >= s.persisted)
    && forall a :: a in s.seqOf ==> s.seqOf[a] <= s.persisted
  }

  /**
   Handles that take turns never rewind anyone: if whoever writes after another has opened the store
   since, every watcher sees every event and no cursor goes back.
   */
  lemma {:induction false} TurnsNeverRewind(s: Shared, live: set<Handle>, ops: seq<HandleOp>, addrs: seq<Address>)
    requires UpToDate(s, live) && TakeTurns(live, ops)
    ensures CanRun(s, ops) && SeesAll(s, ops, addrs)
    decreases |ops|
  {
    if ops != [] {
      var next := DoHandle(s, ops[0]);
      SharedBounded(s, addrs);
      match ops[0] {
        case Open(h, floor) =>
          TurnsNeverRewind(next, live + {h}, ops[1..], addrs);
        case Event(h, a) =>
          SeqUpdated(s.seqOf, addrs, a, s.counters[h] + 1);
          TurnsNeverRewind(next, {h}, ops[1..], addrs);
      }
    }
  }

  lemma {:induction false} SharedBounded(s: Shared, addrs: seq<Address>)
    requires forall a :: a in s.seqOf ==> s.seqOf[a] <= s.persisted
    ensures LastEventSeq(s.seqOf, addrs) <= s.persisted
    decreases |addrs|
  {
    if addrs != [] { SharedBounded(s, addrs[1..]); }
  }
}
