/**
 Session mailboxes: a personal mailbox belongs to the session, so leasing, acknowledging and
 counting run over every alias it holds; and who still owes project mail
 (src/broker/router.ts:597-657, 748-801, 1188-1215).
 */
module Mailboxes {
  import opened Models
  import opened Store
  import opened Invariants
  import opened Verbs
  import opened CursorEvents

  function LeaseEach(boxes: seq<Address>, via: Via, leaseId: string, now: Time, until: Time): seq<Stmt> {
    seq(|boxes|, i requires 0 <= i < |boxes| => LeaseFor(boxes[i], via, leaseId, now, until))
  }

  function AckBoxes(boxes: seq<Address>, leaseId: string, id: Id): seq<Stmt> {
    seq(|boxes|, i requires 0 <= i < |boxes| => Ack(boxes[i], leaseId, [id]))
  }

  function AckEach(boxes: seq<Address>, leaseId: string, ids: seq<Id>): seq<Stmt>
    decreases |ids|
  {
    if ids == [] then []
    else AckEach(boxes, leaseId, ids[..|ids| - 1]) + AckBoxes(boxes, leaseId, ids[|ids| - 1])
  }

  /** A message some box of the session could be handed under a new lease. */
  predicate LeasableIn(rows: Rows, boxes: seq<Address>, id: Id, now: Time) {
    exists b :: b in boxes && Leasable(rows, Key(id, b), b, now)
  }

  /** An ack for this id succeeds: the lease still holds a copy, or some copy is out of the inbox already. */
  predicate Settles(rows: Rows, boxes: seq<Address>, leaseId: string, id: Id) {
    exists b :: b in boxes && AckedOrDone(rows, b, leaseId, id)
  }

  predicate AckedOrDone(rows: Rows, b: Address, leaseId: string, id: Id) {
    Key(id, b) in rows && (Ackable(rows, Key(id, b), b, leaseId, [id]) || !IsPending(rows[Key(id, b)].state))
  }

  function Acknowledged(rows: Rows, boxes: seq<Address>, leaseId: string, ids: seq<Id>): nat
    decreases |ids|
  {
    if ids == [] then 0
    else
      Acknowledged(rows, boxes, leaseId, ids[..|ids| - 1])
      + if Settles(rows, boxes, leaseId, ids[|ids| - 1]) then 1 else 0
  }

  // ---- One box after another ------------------------------------------------------------------

  /** Exactly the stored messages that the given boxes could be leased. */
  ghost predicate HandsOut(found: seq<Message>, messages: Messages, rows: Rows, boxes: seq<Address>, now: Time) {
    forall m :: m in found <==> (m.id in messages && messages[m.id] == m && LeasableIn(rows, boxes, m.id, now))
  }

  /** What is left to lease once some boxes are done. */
  ghost predicate LeftToLease(was: Rows, rows: Rows, done: seq<Address>, now: Time) {
    forall id, b :: Leasable(rows, Key(id, b), b, now) <==> (b !in done && Leasable(was, Key(id, b), b, now))
  }

  lemma LeaseNext(found: seq<Message>, more: seq<Message>, messages: Messages, was: Rows, rows: Rows, boxes: seq<Address>,
                  i: nat, via: Via, leaseId: string, now: Time, until: Time)
    requires i < |boxes| && now < until
    requires HandsOut(found, messages, was, boxes[..i], now) && LeftToLease(was, rows, boxes[..i], now)
    requires HandsOut(more, messages, rows, [boxes[i]], now)
    ensures HandsOut(found + more, messages, was, boxes[..i + 1], now)
    ensures LeftToLease(was, LeaseRows(rows, boxes[i], via, leaseId, now, until), boxes[..i + 1], now)
  {
    assert boxes[..i + 1] == boxes[..i] + [boxes[i]];
    forall id
      ensures LeasableIn(was, boxes[..i + 1], id, now)
              <==> LeasableIn(was, boxes[..i], id, now) || LeasableIn(rows, [boxes[i]], id, now)
    {
      assert Leasable(rows, Key(id, boxes[i]), boxes[i], now)
        <==> (boxes[i] !in boxes[..i] && Leasable(was, Key(id, boxes[i]), boxes[i], now));
    }
  }

  lemma LeaseFirst(messages: Messages, was: Rows, boxes: seq<Address>, now: Time)
    ensures HandsOut([], messages, was, boxes[..0], now) && LeftToLease(was, was, boxes[..0], now)
  {
  }

  /** What one lease still covers of a message once some boxes are acknowledged. */
  ghost predicate LeftToAck(was: Rows, rows: Rows, done: seq<Address>, leaseId: string, id: Id) {
    && (forall b :: Ackable(rows, Key(id, b), b, leaseId, [id])
              <==> (b !in done && Ackable(was, Key(id, b), b, leaseId, [id])))
    && (forall b :: AckedOrDone(rows, b, leaseId, id) <==> AckedOrDone(was, b, leaseId, id))
  }

  predicate Hit(rows: Rows, boxes: seq<Address>, leaseId: string, id: Id) {
    exists b :: b in boxes && Ackable(rows, Key(id, b), b, leaseId, [id])
  }

  lemma AckNext(was: Rows, rows: Rows, boxes: seq<Address>, i: nat, leaseId: string, id: Id)
    requires i < |boxes| && LeftToAck(was, rows, boxes[..i], leaseId, id)
    ensures LeftToAck(was, AckRows(rows, boxes[i], leaseId, [id]), boxes[..i + 1], leaseId, id)
    ensures Hit(was, boxes[..i + 1], leaseId, id)
            <==> Hit(was, boxes[..i], leaseId, id) || |AckableSet(rows, boxes[i], leaseId, [id])| > 0
  {
    assert boxes[..i + 1] == boxes[..i] + [boxes[i]];
    var b := boxes[i];
    if Ackable(rows, Key(id, b), b, leaseId, [id]) {
      assert id in AckableSet(rows, b, leaseId, [id]);
    } else {
      assert AckableSet(rows, b, leaseId, [id]) == {};
    }
  }

  lemma AckDone(was: Rows, rows: Rows, boxes: seq<Address>, leaseId: string, id: Id)
    requires LeftToAck(was, rows, boxes, leaseId, id)
    ensures Settles(was, boxes, leaseId, id) <==> Hit(was, boxes, leaseId, id) || OutOfInbox(rows, boxes, id)
  {
    forall b | b in boxes
      ensures AckedOrDone(was, b, leaseId, id) <==> (Key(id, b) in rows && !IsPending(rows[Key(id, b)].state))
    {
      assert !Ackable(rows, Key(id, b), b, leaseId, [id]);
      assert AckedOrDone(rows, b, leaseId, id) <==> AckedOrDone(was, b, leaseId, id);
    }
    if Hit(was, boxes, leaseId, id) {
      var b :| b in boxes && Ackable(was, Key(id, b), b, leaseId, [id]);
      assert AckedOrDone(was, b, leaseId, id);
    }
  }

  predicate OutOfInbox(rows: Rows, boxes: seq<Address>, id: Id) {
    exists b :: b in boxes && Key(id, b) in rows && !IsPending(rows[Key(id, b)].state)
  }

  /** An ack moves nothing that another ack of the same lease would count. */
  lemma AckKeepsSettling(rows: Rows, a: Address, leaseId: string, x: Id, boxes: seq<Address>, id: Id)
    ensures Settles(AckRows(rows, a, leaseId, [x]), boxes, leaseId, id) <==> Settles(rows, boxes, leaseId, id)
  {
    var after := AckRows(rows, a, leaseId, [x]);
    forall b ensures AckedOrDone(after, b, leaseId, id) <==> AckedOrDone(rows, b, leaseId, id) {
    }
  }

  ghost predicate SameSettling(was: Rows, rows: Rows, boxes: seq<Address>, leaseId: string) {
    forall id :: Settles(rows, boxes, leaseId, id) <==> Settles(was, boxes, leaseId, id)
  }

  lemma AckSameSettling(was: Rows, rows: Rows, a: Address, leaseId: string, x: Id, boxes: seq<Address>)
    requires SameSettling(was, rows, boxes, leaseId)
    ensures SameSettling(was, AckRows(rows, a, leaseId, [x]), boxes, leaseId)
  {
    forall id ensures Settles(AckRows(rows, a, leaseId, [x]), boxes, leaseId, id) <==> Settles(was, boxes, leaseId, id) {
      AckKeepsSettling(rows, a, leaseId, x, boxes, id);
    }
  }

  /** An acknowledgement counts everything exactly if every id settles. */
  lemma {:induction false} AllAcknowledged(rows: Rows, boxes: seq<Address>, leaseId: string, ids: seq<Id>)
    ensures Acknowledged(rows, boxes, leaseId, ids) <= |ids|
    ensures Acknowledged(rows, boxes, leaseId, ids) == |ids| <==> forall id :: id in ids ==> Settles(rows, boxes, leaseId, id)
    decreases |ids|
  {
    hide Settles;
    if ids != [] {
      var n := |ids| - 1;
      AllAcknowledged(rows, boxes, leaseId, ids[..n]);
      assert forall id :: id in ids <==> id in ids[..n] || id == ids[n];
    }
  }

  // ---- Counting ---------------------------------------------------------------------------

  /** The messages recoverable from some box, each once. */
  function RecoverableIn(db: DB, boxes: seq<Address>): set<Id> {
    set k | k in db.deliveries && k.addr in boxes && Recoverable(db, k.msg, k.addr) :: k.msg
  }

  lemma InRecoverable(db: DB, boxes: seq<Address>, id: Id)
    ensures id in RecoverableIn(db, boxes) <==> exists b :: b in boxes && Recoverable(db, id, b)
  {
    if b :| b in boxes && Recoverable(db, id, b) {
      assert Key(id, b) in db.deliveries && Key(id, b).addr in boxes && Key(id, b).msg == id;
    }
  }

  /** What the tab title shows: how much is recoverable, and a cursor that sees net-zero changes. */
  function Count(db: DB, boxes: seq<Address>): (nat, nat) {
    (|RecoverableIn(db, boxes)|, LastEventSeq(db.cursor.seqOf, boxes))
  }

  /** Two counts carry the same cursor exactly when no watched inbox changed in between, even by a net-zero swap. */
  lemma NetZeroIsVisible(db: DB, work: seq<Stmt>, boxes: seq<Address>)
    requires CursorInv(db.cursor) && OrderlyRun(db, work)
    ensures Count(ExecAll(db, work), boxes).1 == Count(db, boxes).1 <==> !EverMoved(db, work, boxes)
  {
    CursorExact(db, work, boxes);
  }

  /**
   What the cursor does not see: closing an ask takes it out of the count of every mailbox that
   holds only persisted copies of it, and is no inbox event.
   */
  lemma {:induction false} ClosingIsNoEvent(db: DB, id: Id, reason: Reason, boxes: seq<Address>)
    requires id in db.messages && IsAsk(db.messages[id].kind) && AskOpen(db.awaiting, id)
    ensures var b := Exec(db, CloseAwaiting(id, reason));
      && Count(b, boxes).1 == Count(db, boxes).1
      && RecoverableIn(b, boxes) ==
         RecoverableIn(db, boxes) - if exists a :: a in boxes && PendingRow(db.deliveries, Key(id, a)) then {} else {id}
  {
    var b := Exec(db, CloseAwaiting(id, reason));
    forall x
      ensures x in RecoverableIn(b, boxes) <==>
        x in RecoverableIn(db, boxes) && (x == id ==> exists a :: a in boxes && PendingRow(db.deliveries, Key(id, a)))
    {
      InRecoverable(db, boxes, x);
      InRecoverable(b, boxes, x);
      forall a ensures Recoverable(b, x, a) <==> (if x == id then PendingRow(db.deliveries, Key(id, a)) else Recoverable(db, x, a)) {
      }
    }
  }

  // ---- Project mail --------------------------------------------------------------------------

  /** Whose word a message carries: a broker notice speaks for the asker it is about. */
  function CausalSender(messages: Messages, m: Message): Option<Address> {
    if m.from.Broker? && m.corrId.Some? then
      match OriginOf(messages, m.corrId.value)
      case Some(origin) => Some(origin.from)
      case None => None
    else Some(m.from)
  }

  /** Is this project mail still this session's to do? */
  predicate StillOwed(db: DB, roster: Roster, m: Message, self: Address) {
    var cause := CausalSender(db.messages, m);
    && !(cause.Some? && SameSession(roster, self, cause.value))
    && !(Key(m.id, self) in db.passes && !(m.id in db.claims && db.claims[m.id] == self))
    && (m.id in db.claims && db.claims[m.id] != self ==> !StillHeld(roster, db.claims[m.id]))
  }
}
