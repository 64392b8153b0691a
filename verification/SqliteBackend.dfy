/**
 The storage backend as the object it is: tables updated in place, one SQL statement or
 transaction per method, and a counter that every inbox event bumps.  The ghost journal is
 the list of statements run so far; each method adds its own and leaves the tables as the
 statement's specification says (src/storage/sqliteBackend.ts).
 */
module Backend {
  import opened Models
  import opened Store
  import opened Invariants
  import opened Statements
  import opened Mailboxes

  /** Bound variables per SQL statement. */
  const BATCH := 500

  /** Some order of a finite set, as a query without ORDER BY returns its rows. */
  method Listing<T(==)>(s: set<T>) returns (order: seq<T>)
    ensures Enumerates(order, s)
  {
    order := [];
    var rest := s;
    while rest != {}
      invariant rest <= s && Enumerates(order, s - rest)
      decreases |rest|
    {
      var x :| x in rest;
      assert s - (rest - {x}) == (s - rest) + {x};
      order := order + [x];
      rest := rest - {x};
    }
    assert s - {} == s;
  }

  /** Oldest first, as ORDER BY ts returns them. */
  predicate Oldest(rows: seq<Message>) {
    forall i, j :: 0 <= i < j < |rows| ==> rows[i].ts <= rows[j].ts
  }

  function InsertByTs(m: Message, rows: seq<Message>): (r: seq<Message>) {
    if rows == [] || m.ts < rows[0].ts then [m] + rows else [rows[0]] + InsertByTs(m, rows[1..])
  }

  function ByTs(rows: seq<Message>): (r: seq<Message>)
    decreases |rows|
  {
    if rows == [] then [] else InsertByTs(rows[|rows| - 1], ByTs(rows[..|rows| - 1]))
  }

  lemma {:induction false} InsertKeeps(m: Message, rows: seq<Message>)
    ensures multiset(InsertByTs(m, rows)) == multiset(rows) + multiset{m}
    decreases |rows|
  {
    if rows != [] && !(m.ts < rows[0].ts) {
      assert rows == [rows[0]] + rows[1..];
      InsertKeeps(m, rows[1..]);
    }
  }

  lemma {:induction false} InsertSorted(m: Message, rows: seq<Message>)
    requires Oldest(rows)
    ensures Oldest(InsertByTs(m, rows))
    decreases |rows|
  {
    if rows != [] && !(m.ts < rows[0].ts) {
      var rest := InsertByTs(m, rows[1..]);
      InsertSorted(m, rows[1..]);
      InsertKeeps(m, rows[1..]);
      forall x | x in rest ensures rows[0].ts <= x.ts {
        assert x in multiset(rest);
        assert x == m || x in rows[1..];
      }
      assert forall j :: 0 <= j < |rest| ==> rest[j] in rest;
    }
  }

  /** Sorting by time keeps every row, and puts older ones first. */
  lemma {:induction false} SortsByTs(rows: seq<Message>)
    ensures Oldest(ByTs(rows)) && multiset(ByTs(rows)) == multiset(rows)
    decreases |rows|
  {
    if rows != [] {
      var n := |rows| - 1;
      assert rows == rows[..n] + [rows[n]];
      SortsByTs(rows[..n]);
      InsertKeeps(rows[n], ByTs(rows[..n]));
      InsertSorted(rows[n], ByTs(rows[..n]));
    }
  }

  class SqliteBackend {
    var messages: Messages
    var deliveries: Rows
    var routes: Routes
    var awaiting: Asks
    var claims: map<Id, Address>
    var passes: set<Key>
    var surfaces: set<Key>
    var outbound: map<string, Intent>
    var seqCounter: nat
    var storedCounter: nat
    var addressSeq: map<Address, nat>
    ghost var journal: seq<Stmt>

    function Db(): DB
      reads this
    {
      DB(messages, deliveries, routes, awaiting, claims, passes, surfaces, outbound,
         Cursor(seqCounter, storedCounter, addressSeq))
    }

    /** The unique index on operation ids, and ids as keys. */
    ghost predicate Keyed()
      reads this
    {
      OpInv(messages) && forall id :: id in messages ==> messages[id].id == id
    }

    /** The tables are what the journal made them. */
    ghost predicate Valid()
      reads this
    {
      Keyed() && Db() == ExecAll(EMPTY, journal)
    }

    /** What a mutator promises: it ran one statement, and entered it in the journal. */
    twostate predicate Ran(s: Stmt)
      reads this
    {
      Db() == Exec(old(Db()), s)
    }

    /** A new, empty store; the counter starts no lower than the boot clock. */
    constructor (seqFloor: nat)
      ensures Valid() && Db() == Exec(EMPTY, Reopen(seqFloor)) && journal == [Reopen(seqFloor)]
    {
      messages, deliveries, routes, awaiting := map[], map[], map[], map[];
      claims, passes, surfaces, outbound := map[], {}, {}, map[];
      seqCounter, storedCounter, addressSeq := seqFloor, 0, map[];
      journal := [Reopen(seqFloor)];
      ExecOne(EMPTY, [], Reopen(seqFloor));
      assert [] + [Reopen(seqFloor)] == [Reopen(seqFloor)];
    }

    /** Enter a statement whose effect has just taken place. */
    ghost method Record(s: Stmt)
      requires Db() == Exec(ExecAll(EMPTY, journal), s)
      modifies `journal
      ensures journal == old(journal) + [s] && Db() == ExecAll(EMPTY, journal)
    {
      ExecOne(EMPTY, journal, s);
      journal := journal + [s];
    }

    /** Opening the store again: the counter resumes from its stored copy, floored to the boot clock. */
    method Restart(seqFloor: nat)
      requires Valid()
      modifies `seqCounter, `journal
      ensures Valid() && Ran(Reopen(seqFloor))
      ensures journal == old(journal) + [Reopen(seqFloor)]
    {
      seqCounter := if storedCounter < seqFloor then seqFloor else storedCounter;
      Record(Reopen(seqFloor));
    }

    method BumpSeq(addr: Address)
      modifies `seqCounter, `storedCounter, `addressSeq
      ensures Cursor(seqCounter, storedCounter, addressSeq)
              == Bump(old(Cursor(seqCounter, storedCounter, addressSeq)), addr)
    {
      seqCounter := seqCounter + 1;
      storedCounter := seqCounter;
      addressSeq := addressSeq[addr := seqCounter];
    }

    // ---- Messages, routes, the outbox --------------------------------------------------

    function Get(id: Id): (r: Option<Message>)
      reads this
    {
      if id in messages then Some(messages[id]) else None
    }

    method GetByOperationId(op: Option<string>) returns (r: Option<Message>)
      requires Valid()
      ensures r == FindOp(messages, op)
    {
      if op.Some? && exists id :: id in messages && messages[id].operationId == op {
        var id :| id in messages && messages[id].operationId == op;
        assert HasOp(messages, op.value);
        ghost var f := FindOp(messages, op).value;
        assert SameOp(messages[f.id], messages[id]);
        return Some(messages[id]);
      }
      return None;
    }

    method InsertMessage(m: Message)
      requires Keyed()
      modifies `messages
      ensures Keyed() && messages == Insert(old(messages), m)
    {
      if m.id !in messages
         && (m.operationId.None? || !exists id :: id in messages && messages[id].operationId == m.operationId) {
        assert Insertable(messages, m);
        NewMessageOp(messages, m);
        messages := messages[m.id := m];
      }
    }

    method Append(m: Message)
      requires Valid()
      modifies `messages, `journal
      ensures Valid() && Ran(Stmt.Append(m))
      ensures journal == old(journal) + [Stmt.Append(m)]
    {
      InsertMessage(m);
      Record(Stmt.Append(m));
    }

    /** Message and route in one transaction. */
    method AppendRouted(m: Message, targets: seq<Address>)
      requires Valid()
      modifies `messages, `routes, `journal
      ensures Valid() && Ran(Stmt.AppendRouted(m, targets))
      ensures journal == old(journal) + [Stmt.AppendRouted(m, targets)]
    {
      InsertMessage(m);
      if m.id !in routes { routes := routes[m.id := targets]; }
      Record(Stmt.AppendRouted(m, targets));
    }

    method QueueOutbound(op: string, intent: Intent)
      requires Valid()
      modifies `outbound, `journal
      ensures Valid() && Ran(Stmt.QueueOutbound(op, intent))
      ensures journal == old(journal) + [Stmt.QueueOutbound(op, intent)]
    {
      if op !in outbound { outbound := outbound[op := intent]; }
      Record(Stmt.QueueOutbound(op, intent));
    }

    method DeleteOutbound(op: string)
      requires Valid()
      modifies `outbound, `journal
      ensures Valid() && Ran(Stmt.DeleteOutbound(op)) && outbound == old(outbound) - {op}
      ensures journal == old(journal) + [Stmt.DeleteOutbound(op)]
    {
      outbound := outbound - {op};
      Record(Stmt.DeleteOutbound(op));
    }

    /** The queued intents of one sender. */
    method PendingOutbound(from: Address) returns (ops: seq<string>)
      ensures Enumerates(ops, Intents(outbound, from))
    {
      ops := Listing(Intents(outbound, from));
    }

    /** The ids of what is owed at an address. */
    method RecoverableIds(addr: Address) returns (ids: seq<Id>)
      ensures Enumerates(ids, RecoverableIn(Db(), [addr]))
    {
      ids := Listing(RecoverableIn(Db(), [addr]));
    }

    method CountOutbound(from: Address) returns (n: nat)
      ensures n == |Intents(outbound, from)|
    {
      var ops := PendingOutbound(from);
      DistinctCount(ops, Intents(outbound, from));
      n := |ops|;
    }

    // ---- Delivery rows -----------------------------------------------------------------

    method Enqueue(id: Id, addr: Address)
      requires Valid()
      modifies `deliveries, `seqCounter, `storedCounter, `addressSeq, `journal
      ensures Valid() && Ran(Stmt.Enqueue(id, addr))
      ensures journal == old(journal) + [Stmt.Enqueue(id, addr)]
    {
      var ts := if id in messages then messages[id].ts else 0;
      if Key(id, addr) !in deliveries {
        deliveries := deliveries[Key(id, addr) := Delivery(None, Queued, ts, None)];
        BumpSeq(addr);
      }
      Record(Stmt.Enqueue(id, addr));
    }

    /** Consuming a whole inbox hands back what was pending. */
    method ConsumePending(addr: Address) returns (ids: set<Id>)
      requires Valid()
      modifies `deliveries, `seqCounter, `storedCounter, `addressSeq, `journal
      ensures Valid() && Ran(ConsumeAll(addr)) && ids == PendingSet(old(deliveries), addr)
      ensures journal == old(journal) + [ConsumeAll(addr)]
    {
      ids := PendingSet(deliveries, addr);
      deliveries := ConsumeRows(deliveries, addr);
      if ids != {} { BumpSeq(addr); }
      Record(ConsumeAll(addr));
    }

    method MarkDelivered(id: Id, addr: Address, via: Via)
      requires Valid()
      modifies `deliveries, `journal
      ensures Valid() && Ran(Stmt.MarkDelivered(id, addr, via))
      ensures journal == old(journal) + [Stmt.MarkDelivered(id, addr, via)]
    {
      var k := Key(id, addr);
      if k in deliveries && deliveries[k].state.Queued? {
        deliveries := deliveries[k := deliveries[k].(state := Delivered, via := Some(via))];
      }
      Record(Stmt.MarkDelivered(id, addr, via));
    }

    /** Settle a row whatever its state; only leaving the pending set is an event. */
    method SettleRow(k: Key, s: DeliveryState)
      modifies `deliveries, `seqCounter, `storedCounter, `addressSeq
      ensures Db() == Settle(old(Db()), k, s)
    {
      if k in deliveries && IsPending(deliveries[k].state) {
        deliveries := deliveries[k := deliveries[k].(state := s)];
        BumpSeq(k.addr);
      } else if k in deliveries {
        deliveries := deliveries[k := deliveries[k].(state := s)];
      }
    }

    method MarkConsumed(id: Id, addr: Address)
      requires Valid()
      modifies `deliveries, `seqCounter, `storedCounter, `addressSeq, `journal
      ensures Valid() && Ran(Stmt.MarkConsumed(id, addr))
      ensures journal == old(journal) + [Stmt.MarkConsumed(id, addr)]
    {
      SettleRow(Key(id, addr), Consumed);
      Record(Stmt.MarkConsumed(id, addr));
    }

    method SetConsent(id: Id, addr: Address, accepted: bool)
      requires Valid()
      modifies `deliveries, `seqCounter, `storedCounter, `addressSeq, `journal
      ensures Valid() && Ran(Stmt.SetConsent(id, addr, accepted))
      ensures journal == old(journal) + [Stmt.SetConsent(id, addr, accepted)]
    {
      SettleRow(Key(id, addr), Consent(accepted));
      Record(Stmt.SetConsent(id, addr, accepted));
    }

    method MarkSurfaced(id: Id, addr: Address) returns (deferred: bool)
      requires Valid()
      modifies `deliveries, `seqCounter, `storedCounter, `addressSeq, `journal
      ensures Valid() && Ran(Stmt.MarkSurfaced(id, addr)) && deferred == Surfaceable(old(deliveries), Key(id, addr))
      ensures journal == old(journal) + [Stmt.MarkSurfaced(id, addr)]
    {
      var k := Key(id, addr);
      deferred := k in deliveries && (match deliveries[k].state case Queued => true case Delivered => true
                                      case Persisted => true case _ => false);
      if deferred {
        var prior := deliveries[k].state;
        deliveries := deliveries[k := deliveries[k].(state := Surfaced, lease := None)];
        if prior.Persisted? { BumpSeq(addr); }
      }
      Record(Stmt.MarkSurfaced(id, addr));
    }

    /** Read the bodies of the given messages in batches, oldest first. */
    method Bodies(ids: set<Id>) returns (rows: seq<Message>)
      requires Valid()
      ensures Oldest(rows) && (forall m :: m in rows <==> m.id in ids && m.id in messages && messages[m.id] == m)
    {
      var order := Listing(ids);
      var found: seq<Message> := [];
      var i := 0;
      while i < |order|
        invariant 0 <= i
        invariant forall m :: m in found <==> m.id in order[..Least(i, |order|)] && m.id in messages && messages[m.id] == m
      {
        var end := Least(i + BATCH, |order|);
        found := found + Stored(order[i..end]);
        assert order[..end] == order[..i] + order[i..end];
        i := i + BATCH;
      }
      rows := ByTs(found);
      SortsByTs(found);
      assert order[..Least(i, |order|)] == order;
      forall m ensures m in rows <==> m.id in ids && m.id in messages && messages[m.id] == m {
        EnumeratesIn(order, ids, m.id);
        assert m in rows <==> m in multiset(rows);
        assert m in found <==> m in multiset(found);
      }
    }

    /** The stored messages among some ids, in the order asked for. */
    function Stored(ids: seq<Id>): (rows: seq<Message>)
      requires forall id :: id in messages ==> messages[id].id == id
      reads this
      ensures forall m :: m in rows <==> m.id in ids && m.id in messages && messages[m.id] == m
    {
      if ids == [] then []
      else (if ids[0] in messages then [messages[ids[0]]] else []) + Stored(ids[1..])
    }

    /** Claim and read in one statement: what was queued is handed out, and is queued no more. */
    method ClaimForDelivery(addr: Address, via: Via) returns (rows: seq<Message>)
      requires Valid()
      modifies `deliveries, `journal
      ensures Valid() && Ran(Claim(addr, via)) && Oldest(rows)
      ensures journal == old(journal) + [Claim(addr, via)]
      ensures forall m :: m in rows <==>
                (m.id in messages && messages[m.id] == m && Claimable(old(deliveries), Key(m.id, addr), addr))
    {
      var claimed := set k | k in deliveries && Claimable(deliveries, k, addr) :: k.msg;
      ghost var was := deliveries;
      deliveries := ClaimRows(deliveries, addr, via);
      Record(Claim(addr, via));
      rows := Bodies(claimed);
      forall id ensures id in claimed <==> Claimable(was, Key(id, addr), addr) {
        assert Key(id, addr).msg == id;
      }
    }

    method LeaseForDelivery(addr: Address, via: Via, leaseId: string, now: Time, until: Time) returns (rows: seq<Message>)
      requires Valid()
      modifies `deliveries, `journal
      ensures Valid() && Ran(LeaseFor(addr, via, leaseId, now, until)) && Oldest(rows)
      ensures journal == old(journal) + [LeaseFor(addr, via, leaseId, now, until)]
      ensures forall m :: m in rows <==>
                (m.id in messages && messages[m.id] == m && Leasable(old(deliveries), Key(m.id, addr), addr, now))
      ensures deliveries == LeaseRows(old(deliveries), addr, via, leaseId, now, until)
    {
      var claimed := set k | k in deliveries && Leasable(deliveries, k, addr, now) :: k.msg;
      ghost var was := deliveries;
      deliveries := LeaseRows(deliveries, addr, via, leaseId, now, until);
      Record(LeaseFor(addr, via, leaseId, now, until));
      rows := Bodies(claimed);
      forall id ensures id in claimed <==> Leasable(was, Key(id, addr), addr, now) {
        assert Key(id, addr).msg == id;
      }
    }

    /** Acknowledge in batches; one event if anything was acknowledged. */
    method AckDelivery(addr: Address, leaseId: string, ids: seq<Id>) returns (acknowledged: nat)
      requires Valid()
      modifies `deliveries, `seqCounter, `storedCounter, `addressSeq, `journal
      ensures Valid() && Ran(Ack(addr, leaseId, ids))
      ensures journal == old(journal) + [Ack(addr, leaseId, ids)]
      ensures acknowledged == |AckableSet(old(deliveries), addr, leaseId, ids)|
      ensures deliveries == AckRows(old(deliveries), addr, leaseId, ids)
    {
      hide AckRows, AckableSet, PurgeSet, Without;
      acknowledged := AckBatches(addr, leaseId, ids);
      if acknowledged > 0 { BumpSeq(addr); }
      Record(Ack(addr, leaseId, ids));
    }

    method AckBatches(addr: Address, leaseId: string, ids: seq<Id>) returns (acknowledged: nat)
      modifies `deliveries
      ensures deliveries == AckRows(old(deliveries), addr, leaseId, ids)
      ensures acknowledged == |AckableSet(old(deliveries), addr, leaseId, ids)|
    {
      acknowledged := 0;
      var i := 0;
      ghost var was := deliveries;
      AckNothing(was, addr, leaseId);
      hide AckRows, AckableSet;
      while i < |ids|
        invariant 0 <= i
        invariant deliveries == AckRows(was, addr, leaseId, ids[..Least(i, |ids|)])
        invariant acknowledged == |AckableSet(was, addr, leaseId, ids[..Least(i, |ids|)])|
      {
        var end := Least(i + BATCH, |ids|);
        var batch := ids[i..end];
        AckUnion(was, addr, leaseId, ids[..i], batch);
        AckCounts(was, addr, leaseId, ids[..i], batch);
        assert ids[..i] + batch == ids[..end];
        acknowledged := acknowledged + |AckableSet(deliveries, addr, leaseId, batch)|;
        deliveries := AckRows(deliveries, addr, leaseId, batch);
        i := i + BATCH;
      }
      assert ids[..Least(i, |ids|)] == ids;
    }

    // ---- Asks, claims and passes -----------------------------------------------------------

    method OpenAwaiting(id: Id, expiresAt: Option<Time>, replyByS: Option<int>, nudgeFrom: Time)
      requires Valid()
      modifies `awaiting, `journal
      ensures Valid() && Ran(Stmt.OpenAwaiting(id, expiresAt, replyByS, nudgeFrom))
      ensures journal == old(journal) + [Stmt.OpenAwaiting(id, expiresAt, replyByS, nudgeFrom)]
    {
      awaiting := awaiting[id := Awaiting(expiresAt, None, replyByS, 0, nudgeFrom)];
      Record(Stmt.OpenAwaiting(id, expiresAt, replyByS, nudgeFrom));
    }

    method CloseAwaiting(id: Id, reason: Reason)
      requires Valid()
      modifies `awaiting, `journal
      ensures Valid() && Ran(Stmt.CloseAwaiting(id, reason))
      ensures journal == old(journal) + [Stmt.CloseAwaiting(id, reason)]
    {
      if id in awaiting && awaiting[id].closed.None? {
        awaiting := awaiting[id := awaiting[id].(closed := Some(reason))];
      }
      Record(Stmt.CloseAwaiting(id, reason));
    }

    method MarkNudged(id: Id, stage: nat)
      requires Valid()
      modifies `awaiting, `journal
      ensures Valid() && Ran(Stmt.MarkNudged(id, stage))
      ensures journal == old(journal) + [Stmt.MarkNudged(id, stage)]
    {
      if id in awaiting && awaiting[id].nudgedStage < stage {
        awaiting := awaiting[id := awaiting[id].(nudgedStage := stage)];
      }
      Record(Stmt.MarkNudged(id, stage));
    }

    method DeferNudge(id: Id, now: Time)
      requires Valid()
      modifies `awaiting, `journal
      ensures Valid() && Ran(Stmt.DeferNudge(id, now))
      ensures journal == old(journal) + [Stmt.DeferNudge(id, now)]
    {
      if id in awaiting { awaiting := awaiting[id := awaiting[id].(nudgedStage := 0, nudgeFrom := now)]; }
      Record(Stmt.DeferNudge(id, now));
    }

    predicate IsAwaitingOpen(id: Id)
      reads this
    {
      id in awaiting && awaiting[id].closed.None?
    }

    method OpenAwaitings() returns (ids: seq<Id>)
      ensures Enumerates(ids, OpenAsks(awaiting))
    {
      ids := Listing(OpenAsks(awaiting));
    }

    method AwaitingPastTtl(now: Time) returns (ids: seq<Id>)
      ensures Enumerates(ids, ExpiredAsks(awaiting, now))
    {
      ids := Listing(ExpiredAsks(awaiting, now));
    }

    /** Insert or ignore: exactly one of two racing claims lands. */
    method ClaimProject(id: Id, addr: Address) returns (won: bool)
      requires Valid()
      modifies `claims, `journal
      ensures Valid() && Ran(Stmt.ClaimProject(id, addr)) && won == (id !in old(claims))
      ensures claims == if won then old(claims)[id := addr] else old(claims)
      ensures journal == old(journal) + [Stmt.ClaimProject(id, addr)]
    {
      won := id !in claims;
      if won { claims := claims[id := addr]; }
      Record(Stmt.ClaimProject(id, addr));
    }

    method ReleaseClaim(id: Id)
      requires Valid()
      modifies `claims, `journal
      ensures Valid() && Ran(Stmt.ReleaseClaim(id)) && claims == old(claims) - {id}
      ensures journal == old(journal) + [Stmt.ReleaseClaim(id)]
    {
      claims := claims - {id};
      Record(Stmt.ReleaseClaim(id));
    }

    method PassProject(id: Id, addr: Address)
      requires Valid()
      modifies `passes, `journal
      ensures Valid() && Ran(Stmt.PassProject(id, addr))
      ensures journal == old(journal) + [Stmt.PassProject(id, addr)]
    {
      passes := passes + {Key(id, addr)};
      Record(Stmt.PassProject(id, addr));
    }

    method MarkProjectSurfaced(id: Id, addr: Address)
      requires Valid()
      modifies `surfaces, `journal
      ensures Valid() && Ran(Stmt.MarkProjectSurfaced(id, addr)) && surfaces == old(surfaces) + {Key(id, addr)}
      ensures journal == old(journal) + [Stmt.MarkProjectSurfaced(id, addr)]
    {
      surfaces := surfaces + {Key(id, addr)};
      Record(Stmt.MarkProjectSurfaced(id, addr));
    }

    // ---- Retention ----------------------------------------------------------------------------

    /** Delete the settled past, one message at a time, in one transaction. */
    method Purge(cutoff: Time) returns (removed: nat)
      requires Valid()
      modifies `messages, `deliveries, `awaiting, `routes, `journal
      ensures Valid() && Ran(Stmt.Purge(cutoff)) && removed == |PurgeSet(old(Db()), cutoff)|
      ensures journal == old(journal) + [Stmt.Purge(cutoff)]
    {
      hide PurgeSet, Without;
      ghost var was := Db();
      var gone := Settled(cutoff);
      var ids := Listing(gone);
      DistinctCount(ids, gone);
      DeleteEach(ids);
      assert Firsts(ids, |ids|) == gone by { assert ids[..|ids|] == ids; }
      WithoutValid(was, gone);
      removed := |ids|;
      Record(Stmt.Purge(cutoff));
    }

    method DeleteEach(ids: seq<Id>)
      modifies `messages, `deliveries, `awaiting, `routes
      ensures Db() == Without(old(Db()), Firsts(ids, |ids|))
    {
      ghost var was := Db();
      WithoutNone(was);
      assert Firsts(ids, 0) == {};
      hide Without;
      for i := 0 to |ids|
        invariant Db() == Without(was, Firsts(ids, i))
      {
        var id := ids[i];
        WithoutNext(was, ids, i);
        deliveries := map k | k in deliveries && k.msg != id :: deliveries[k];
        awaiting := awaiting - {id};
        routes := routes - {id};
        messages := messages - {id};
      }
    }

    /** The messages with nothing actionable left. */
    function Settled(cutoff: Time): (ids: set<Id>)
      reads this
      ensures ids == PurgeSet(Db(), cutoff)
    {
      set id | id in messages && messages[id].ts < cutoff
               && (forall k :: k in deliveries && k.msg == id ==> !IsPending(deliveries[k].state))
               && !AskOpen(awaiting, id)
    }

    /** Retire what has waited too long; each inbox that lost mail gets one event. */
    method TombstoneStale(cutoff: Time) returns (ghost order: seq<Address>)
      requires Valid()
      modifies `deliveries, `seqCounter, `storedCounter, `addressSeq, `journal
      ensures Valid() && Enumerates(order, StaleAddresses(old(deliveries), cutoff)) && Ran(Tombstone(cutoff, order))
      ensures journal == old(journal) + [Tombstone(cutoff, order)]
    {
      hide RetireRows, StaleAddresses, BumpAll;
      var aliases := Listing(StaleAddresses(deliveries, cutoff));
      deliveries := RetireRows(deliveries, cutoff);
      BumpEach(aliases);
      order := aliases;
      Record(Tombstone(cutoff, order));
    }

    method BumpEach(aliases: seq<Address>)
      modifies `seqCounter, `storedCounter, `addressSeq
      ensures Cursor(seqCounter, storedCounter, addressSeq)
              == BumpAll(old(Cursor(seqCounter, storedCounter, addressSeq)), aliases)
    {
      ghost var c := Cursor(seqCounter, storedCounter, addressSeq);
      for i := 0 to |aliases|
        invariant Cursor(seqCounter, storedCounter, addressSeq) == BumpAll(c, aliases[..i])
      {
        assert aliases[..i + 1][..i] == aliases[..i];
        BumpSeq(aliases[i]);
      }
      assert aliases[..|aliases|] == aliases;
    }
  }

  function OpenAsks(asks: Asks): set<Id> { set id | id in asks && AskOpen(asks, id) }

  function ExpiredAsks(asks: Asks, now: Time): set<Id> { set id | id in asks && TtlPassed(asks, id, now) }

  /** The operations one sender has queued. */
  function Intents(outbound: map<string, Intent>, from: Address): set<string> {
    set op | op in outbound && outbound[op].args.from == from
  }

  function Least(x: nat, y: nat): nat { if x < y then x else y }

  lemma AckNothing(rows: Rows, a: Address, leaseId: string)
    ensures AckRows(rows, a, leaseId, []) == rows && AckableSet(rows, a, leaseId, []) == {}
  {
  }

  /** Acking one batch after another acks their union... */
  lemma AckUnion(rows: Rows, a: Address, leaseId: string, done: seq<Id>, batch: seq<Id>)
    ensures AckRows(AckRows(rows, a, leaseId, done), a, leaseId, batch) == AckRows(rows, a, leaseId, done + batch)
  {
    var mid := AckRows(rows, a, leaseId, done);
    forall k | k in rows
      ensures AckRows(mid, a, leaseId, batch)[k] == AckRows(rows, a, leaseId, done + batch)[k]
    {
      AckOnce(rows, k, a, leaseId, done, batch);
    }
  }

  /** ...each row once. */
  lemma AckOnce(rows: Rows, k: Key, a: Address, leaseId: string, done: seq<Id>, batch: seq<Id>)
    requires k in rows
    ensures Ackable(rows, k, a, leaseId, done + batch)
            <==> Ackable(rows, k, a, leaseId, done) || Ackable(AckRows(rows, a, leaseId, done), k, a, leaseId, batch)
    ensures !(Ackable(rows, k, a, leaseId, done) && Ackable(AckRows(rows, a, leaseId, done), k, a, leaseId, batch))
  {
    assert k.msg in done + batch <==> k.msg in done || k.msg in batch;
  }

  lemma InAckable(rows: Rows, a: Address, leaseId: string, ids: seq<Id>, id: Id)
    ensures id in AckableSet(rows, a, leaseId, ids) <==> Key(id, a) in rows && Ackable(rows, Key(id, a), a, leaseId, ids)
  {
    assert Key(id, a).msg == id;
  }

  lemma AckCounts(rows: Rows, a: Address, leaseId: string, done: seq<Id>, batch: seq<Id>)
    ensures |AckableSet(rows, a, leaseId, done + batch)|
            == |AckableSet(rows, a, leaseId, done)| + |AckableSet(AckRows(rows, a, leaseId, done), a, leaseId, batch)|
  {
    hide Ackable;
    var mid := AckRows(rows, a, leaseId, done);
    var first := AckableSet(rows, a, leaseId, done);
    var second := AckableSet(mid, a, leaseId, batch);
    var both := AckableSet(rows, a, leaseId, done + batch);
    forall id ensures (id in both <==> id in first || id in second) && !(id in first && id in second) {
      InAckable(rows, a, leaseId, done, id);
      InAckable(mid, a, leaseId, batch, id);
      InAckable(rows, a, leaseId, done + batch, id);
      if Key(id, a) in rows { AckOnce(rows, Key(id, a), a, leaseId, done, batch); }
    }
    assert both == first + second;
    assert first !! second;
  }

  function Firsts(ids: seq<Id>, i: nat): set<Id>
    requires i <= |ids|
  {
    set id | id in ids[..i]
  }

  lemma WithoutNone(db: DB)
    ensures Without(db, {}) == db
  {
  }

  lemma WithoutNext(db: DB, ids: seq<Id>, i: nat)
    requires i < |ids|
    ensures var b := Without(db, Firsts(ids, i)); var id := ids[i];
      Without(db, Firsts(ids, i + 1)) ==
      b.(messages := b.messages - {id}, deliveries := map k | k in b.deliveries && k.msg != id :: b.deliveries[k],
         awaiting := b.awaiting - {id}, routes := b.routes - {id})
  {
    assert ids[..i + 1] == ids[..i] + [ids[i]];
    assert Firsts(ids, i + 1) == Firsts(ids, i) + {ids[i]};
    WithoutOne(db, Firsts(ids, i), ids[i]);
  }

  lemma WithoutOne(db: DB, gone: set<Id>, id: Id)
    ensures var b := Without(db, gone);
      Without(db, gone + {id}) ==
      b.(messages := b.messages - {id}, deliveries := map k | k in b.deliveries && k.msg != id :: b.deliveries[k],
         awaiting := b.awaiting - {id}, routes := b.routes - {id})
  {
  }

  lemma WithoutValid(db: DB, gone: set<Id>)
    requires OpInv(db.messages) && forall id :: id in db.messages ==> db.messages[id].id == id
    ensures OpInv(Without(db, gone).messages)
    ensures forall id :: id in Without(db, gone).messages ==> Without(db, gone).messages[id].id == id
  {
  }

  lemma {:induction false} DistinctCount<T>(order: seq<T>, s: set<T>)
    requires Enumerates(order, s)
    ensures |order| == |s|
    decreases |order|
  {
    if order == [] {
      assert s == {};
    } else {
      var n := |order| - 1;
      var rest := set x | x in order[..n];
      assert s == rest + {order[n]};
      assert order[n] !in rest;
      DistinctCount(order[..n], rest);
    }
  }
}
