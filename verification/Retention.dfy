/** What the sweeper's retirement and purge remove, and all they leave alone (src/storage/sqliteBackend.ts:692-736). */
module Retention {
  import opened Models
  import opened Store
  import opened Invariants
  import opened Statements
  import opened CursorEvents
  import opened Mailboxes

  /**
   Purge conservation: for every cutoff, every address's pending mail, every address's
   recoverable mail and the cursor are as they were, and every row, awaiting and route that
   is left still has its message.
   */
  lemma PurgeConserves(w: World, cutoff: Time, id: Id, a: Address)
    requires Inv(w)
    ensures var b := Exec(w.db, Purge(cutoff));
      && PendingSet(b.deliveries, a) == PendingSet(w.db.deliveries, a)
      && (Recoverable(b, id, a) <==> Recoverable(w.db, id, a))
      && b.cursor == w.db.cursor
      && RowsRef(b.messages, b.deliveries) && AsksRef(b.messages, b.awaiting) && RoutesRef(b.messages, b.routes)
  {
    PurgeKeepsInboxes(w.db, cutoff, a);
    WithoutTables(w.db, PurgeSet(w.db, cutoff));
    RecoverableNotPurged(w.db, cutoff, id, a);
  }

  /** So no purge changes what any session counts. */
  lemma CountSurvivesPurge(w: World, cutoff: Time, boxes: seq<Address>)
    requires Inv(w)
    ensures Count(Exec(w.db, Purge(cutoff)), boxes) == Count(w.db, boxes)
  {
    hide Inv, Recoverable;
    var b := Exec(w.db, Purge(cutoff));
    PurgeConserves(w, cutoff, 0, Broker);
    forall id ensures id in RecoverableIn(b, boxes) <==> id in RecoverableIn(w.db, boxes) {
      InRecoverable(b, boxes, id);
      InRecoverable(w.db, boxes, id);
      forall a ensures Recoverable(b, id, a) <==> Recoverable(w.db, id, a) { PurgeConserves(w, cutoff, id, a); }
    }
    assert RecoverableIn(b, boxes) == RecoverableIn(w.db, boxes);
  }

  lemma RecoverableNotPurged(db: DB, cutoff: Time, id: Id, a: Address)
    requires RowsRef(db.messages, db.deliveries)
    ensures Recoverable(Without(db, PurgeSet(db, cutoff)), id, a) <==> Recoverable(db, id, a)
  {
    if Recoverable(db, id, a) {
      assert Key(id, a).msg == id;
      assert !Purgeable(db, id, cutoff);
    }
  }

  /**
   Retiring stale mail and then purging removes exactly the settled past: messages older than
   the purge cutoff, with no open ask, whose unread copies, if any, were older than the
   retirement cutoff.
   */
  lemma {:induction false} RetireThenPurge(w: World, stale: Time, order: seq<Address>, cutoff: Time, id: Id)
    requires Inv(w) && id in w.db.messages
    ensures var b := Exec(Exec(w.db, Tombstone(stale, order)), Purge(cutoff)); var m := w.db.messages[id];
      id !in b.messages <==>
        && m.ts < cutoff && !AskOpen(w.db.awaiting, id)
        && (Waiting(w.db.deliveries, id) ==> m.ts < stale)
  {
    assert forall k :: k in w.db.deliveries && k.msg == id ==> w.db.deliveries[k].ts == w.db.messages[id].ts;
    hide Inv;
    var mid := Exec(w.db, Tombstone(stale, order));
    RetiredWaiting(w.db.deliveries, stale, id, w.db.messages[id].ts);
    PurgedIff(mid, cutoff, id);
  }

  /** Is some copy of this message still in an inbox? */
  ghost predicate Waiting(rows: Rows, id: Id) { exists k :: PendingRow(rows, k) && k.msg == id }

  lemma RetiredWaiting(rows: Rows, stale: Time, id: Id, ts: Time)
    requires forall k :: k in rows && k.msg == id ==> rows[k].ts == ts
    ensures Waiting(RetireRows(rows, stale), id) <==> Waiting(rows, id) && !(ts < stale)
  {
    var after := RetireRows(rows, stale);
    if Waiting(rows, id) && !(ts < stale) {
      var k :| PendingRow(rows, k) && k.msg == id;
      assert PendingRow(after, k);
    }
    if Waiting(after, id) {
      var k :| PendingRow(after, k) && k.msg == id;
      assert PendingRow(rows, k) && !Stale(rows, k, stale);
    }
  }

  lemma PurgedIff(db: DB, cutoff: Time, id: Id)
    requires id in db.messages
    ensures id !in Exec(db, Purge(cutoff)).messages
            <==> db.messages[id].ts < cutoff && !AskOpen(db.awaiting, id) && !Waiting(db.deliveries, id)
  {
    assert id in PurgeSet(db, cutoff) <==> Purgeable(db, id, cutoff);
  }
}
