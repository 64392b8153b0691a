/** The two timers as they run over the backend (src/broker/sweeper.ts:75-192). */
module Sweeper {
  import opened Models
  import opened Store
  import opened Invariants
  import opened Verbs
  import opened Backend
  import opened Routing

  /** The asks still ahead in a listing are as they were listed. */
  ghost predicate Ahead(order: seq<Id>, i: nat, listed: Asks, asks: Asks) {
    && (forall j, k :: 0 <= j < k < |order| ==> order[j] != order[k])
    && (forall j :: i <= j < |order| ==> order[j] in listed && order[j] in asks && asks[order[j]] == listed[order[j]])
  }

  lemma AheadAtFirst(order: seq<Id>, some: set<Id>, asks: Asks)
    requires Enumerates(order, some) && forall id :: id in some ==> id in asks
    ensures Ahead(order, 0, asks, asks)
  {
    forall j | 0 <= j < |order| ensures order[j] in asks { EnumeratesIn(order, some, order[j]); }
  }

  lemma AheadNext(order: seq<Id>, i: nat, listed: Asks, asks: Asks, after: Asks)
    requires i < |order| && Ahead(order, i, listed, asks)
    requires forall id :: id != order[i] && id in asks ==> id in after && after[id] == asks[id]
    ensures Ahead(order, i + 1, listed, after)
  {
  }

  /** Append a broker notice and queue it for one reader. */
  method Tell(backend: SqliteBackend, m: Message, to: Address)
    requires backend.Valid()
    modifies backend
    ensures backend.Valid() && backend.journal == old(backend.journal) + [Append(m), Enqueue(m.id, to)]
    ensures backend.awaiting == old(backend.awaiting)
  {
    hide *;
    backend.Append(m);
    backend.Enqueue(m.id, to);
  }

  // ---- Parking ---------------------------------------------------------------------------

  /** Retire stale mail, purge the settled past, and park every ask whose time to live has passed. */
  method TickSweeper(backend: SqliteBackend, now: Time, newId: Id, retentionS: Option<int>, tombstoneS: Option<int>)
    returns (parked: nat, next: Id, ghost retired: seq<Address>, ghost expired: seq<Id>)
    requires backend.Valid()
    modifies backend
    ensures backend.Valid() && next >= newId && parked == |expired|
    ensures tombstoneS.Some? ==> Enumerates(retired, StaleAddresses(old(backend.deliveries), now - tombstoneS.value))
    ensures var kept := Retention(now, retentionS, tombstoneS, retired);
      var db := ExecAll(old(backend.Db()), kept);
      && Enumerates(expired, ExpiredAsks(db.awaiting, now))
      && backend.journal == old(backend.journal) + kept + ParkEach(db, expired, now, newId)
  {
    hide *;
    retired := Retain(backend, now, retentionS, tombstoneS);
    var due := Expired(backend, now);
    expired := due;
    next := ParkAll(backend, due, backend.awaiting, now, newId);
    parked := |due|;
  }

  method Retain(backend: SqliteBackend, now: Time, retentionS: Option<int>, tombstoneS: Option<int>)
    returns (ghost retired: seq<Address>)
    requires backend.Valid()
    modifies backend
    ensures backend.Valid()
    ensures tombstoneS.Some? ==> Enumerates(retired, StaleAddresses(old(backend.deliveries), now - tombstoneS.value))
    ensures var kept := Retention(now, retentionS, tombstoneS, retired);
      backend.journal == old(backend.journal) + kept && backend.Db() == ExecAll(old(backend.Db()), kept)
  {
    ghost var db, j := backend.Db(), backend.journal;
    JournalSoFar(backend);
    retired := [];
    hide ExecAll, Exec, StaleAddresses, SqliteBackend.Ran;
    if tombstoneS.Some? { retired := backend.TombstoneStale(now - tombstoneS.value); }
    if retentionS.Some? { var _ := backend.Purge(now - retentionS.value); }
    JournalRan(backend, db, j, Retention(now, retentionS, tombstoneS, retired));
  }

  /** The open asks whose time to live has passed. */
  method Expired(backend: SqliteBackend, now: Time) returns (due: seq<Id>)
    ensures Enumerates(due, ExpiredAsks(backend.Db().awaiting, now))
    ensures Ahead(due, 0, backend.awaiting, backend.awaiting)
    ensures forall id :: id in due ==> TtlPassed(backend.awaiting, id, now)
  {
    due := backend.AwaitingPastTtl(now);
    AheadAtFirst(due, ExpiredAsks(backend.awaiting, now), backend.awaiting);
    forall id | id in due ensures TtlPassed(backend.awaiting, id, now) {
      EnumeratesIn(due, ExpiredAsks(backend.awaiting, now), id);
    }
  }

  function Retention(now: Time, retentionS: Option<int>, tombstoneS: Option<int>, retired: seq<Address>): seq<Stmt> {
    (if tombstoneS.Some? then [Tombstone(now - tombstoneS.value, retired)] else [])
    + (if retentionS.Some? then [Purge(now - retentionS.value)] else [])
  }

  method ParkAll(backend: SqliteBackend, due: seq<Id>, ghost listed: Asks, now: Time, newId: Id) returns (next: Id)
    requires backend.Valid() && Ahead(due, 0, listed, backend.awaiting)
    requires forall id :: id in due ==> TtlPassed(listed, id, now)
    modifies backend
    ensures backend.Valid() && next >= newId
    ensures backend.journal == old(backend.journal) + ParkEach(old(backend.Db()), due, now, newId)
  {
    hide *;
    next := newId;
    ghost var done: seq<Stmt> := [];
    assert due[0..] == due;
    for i := 0 to |due|
      invariant backend.Valid() && next >= newId && backend.journal == old(backend.journal) + done
      invariant Ahead(due, i, listed, backend.awaiting)
      invariant done + ParkEach(backend.Db(), due[i..], now, next) == ParkEach(old(backend.Db()), due, now, newId)
    {
      ghost var work := ParkPlan(backend.Db(), due[i], now, next);
      ParkFirst(backend.Db(), due, i, now, next);
      StillDue(due, i, listed, backend.awaiting, now);
      ghost var asks := backend.awaiting;
      next := Park(backend, due[i], now, next);
      AheadNext(due, i, listed, asks, backend.awaiting);
      done := done + work;
    }
    ParkNone(backend.Db(), due, now, next);
  }

  lemma AheadHere(order: seq<Id>, i: nat, listed: Asks, asks: Asks)
    requires i < |order| && Ahead(order, i, listed, asks)
    ensures order[i] in order && order[i] in listed && order[i] in asks && asks[order[i]] == listed[order[i]]
  {
  }

  lemma StillDue(order: seq<Id>, i: nat, listed: Asks, asks: Asks, now: Time)
    requires i < |order| && Ahead(order, i, listed, asks) && forall id :: id in order ==> TtlPassed(listed, id, now)
    ensures order[i] in asks && TtlPassed(asks, order[i], now)
  {
    AheadHere(order, i, listed, asks);
  }

  lemma ParkFirst(db: DB, order: seq<Id>, i: nat, now: Time, newId: Id)
    requires i < |order|
    ensures var p := ParkPlan(db, order[i], now, newId);
      ParkEach(db, order[i..], now, newId) == p + ParkEach(ExecAll(db, p), order[i + 1..], now, newId + ParkIds(p))
  {
    assert order[i..][1..] == order[i + 1..];
  }

  lemma ParkNone(db: DB, order: seq<Id>, now: Time, newId: Id)
    ensures ParkEach(db, order[|order|..], now, newId) == []
  {
  }

  lemma ParkParts(db: DB, id: Id, now: Time, newId: Id)
    requires id in db.awaiting && TtlPassed(db.awaiting, id, now)
    ensures var p := ParkPlan(db, id, now, newId);
      p == [CloseAwaiting(id, Parked)]
           + (if id in db.messages && IsAsk(db.messages[id].kind) then
                var origin := db.messages[id];
                var m := NoticeTo(origin, origin.from, StillParked, true, Response, newId, now);
                [Append(m), Enqueue(m.id, origin.from)]
              else [])
    ensures ParkIds(ParkPlan(db, id, now, newId)) == if id in db.messages && IsAsk(db.messages[id].kind) then 1 else 0
  {
  }

  /** Close one expired ask and tell its sender it is parked. */
  method Park(backend: SqliteBackend, id: Id, now: Time, newId: Id) returns (next: Id)
    requires backend.Valid() && id in backend.awaiting && TtlPassed(backend.awaiting, id, now)
    modifies backend
    ensures backend.Valid()
    ensures var p := ParkPlan(old(backend.Db()), id, now, newId);
      && backend.journal == old(backend.journal) + p && backend.Db() == ExecAll(old(backend.Db()), p)
      && next == newId + ParkIds(p)
    ensures forall x :: x != id && x in old(backend.awaiting) ==>
              x in backend.awaiting && backend.awaiting[x] == old(backend.awaiting)[x]
  {
    ghost var db := backend.Db();
    ghost var j := backend.journal;
    next := newId;
    var asks := backend.awaiting;
    hide ExecAll;
    backend.CloseAwaiting(id, Parked);
    assert forall x :: x != id && x in asks ==> x in backend.awaiting && backend.awaiting[x] == asks[x];
    assert db.messages == backend.messages && db.awaiting == asks;
    ParkParts(db, id, now, newId);
    hide *;
    if id in backend.messages && IsAsk(backend.messages[id].kind) {
      var origin := backend.messages[id];
      Tell(backend, NoticeTo(origin, origin.from, StillParked, true, Response, newId, now), origin.from);
      next := newId + 1;
    }
    JournalRan(backend, db, j, ParkPlan(db, id, now, newId));
  }

  // ---- Chasing -----------------------------------------------------------------------------

  /** Nudge recipients, and release every sender whose deadline plus grace has come. */
  method SweepReplyDeadlines(backend: SqliteBackend, now: Time, newId: Id, grace: int)
    returns (fired: nat, ghost order: seq<Id>)
    requires backend.Valid()
    modifies backend
    ensures backend.Valid()
    ensures Enumerates(order, OpenAsks(old(backend.awaiting)))
    ensures backend.journal == old(backend.journal) + ChaseEach(old(backend.Db()), order, now, grace, newId)
  {
    var open := backend.OpenAwaitings();
    order := open;
    AheadAtFirst(open, OpenAsks(backend.awaiting), backend.awaiting);
    forall id | id in open ensures id in backend.awaiting && backend.awaiting[id].closed.None? {
      EnumeratesIn(open, OpenAsks(backend.awaiting), id);
    }
    hide *;
    fired := ChaseAll(backend, open, backend.awaiting, now, newId, grace);
  }

  method ChaseAll(backend: SqliteBackend, order: seq<Id>, listed: Asks, now: Time, newId: Id, grace: int)
    returns (fired: nat)
    requires backend.Valid() && Ahead(order, 0, listed, backend.awaiting)
    requires forall id :: id in order ==> id in listed && listed[id].closed.None?
    modifies backend
    ensures backend.Valid()
    ensures backend.journal == old(backend.journal) + ChaseEach(old(backend.Db()), order, now, grace, newId)
  {
    hide *;
    fired := 0;
    ghost var done: seq<Stmt> := [];
    assert order[0..] == order;
    for i := 0 to |order|
      invariant backend.Valid() && backend.journal == old(backend.journal) + done
      invariant Ahead(order, i, listed, backend.awaiting)
      invariant done + ChaseEach(backend.Db(), order[i..], now, grace, newId + fired)
                == ChaseEach(old(backend.Db()), order, now, grace, newId)
    {
      ghost var work := ChasePlan(backend.Db(), order[i], now, grace, newId + fired);
      ChaseFirst(backend.Db(), order, i, now, grace, newId + fired);
      AheadHere(order, i, listed, backend.awaiting);
      ghost var asks := backend.awaiting;
      var posted := Chase(backend, order[i], listed[order[i]], now, newId + fired, grace);
      AheadNext(order, i, listed, asks, backend.awaiting);
      fired := fired + posted;
      done := done + work;
    }
    ChaseNone(backend.Db(), order, now, grace, newId + fired);
  }

  lemma ChaseFirst(db: DB, order: seq<Id>, i: nat, now: Time, grace: int, newId: Id)
    requires i < |order|
    ensures var p := ChasePlan(db, order[i], now, grace, newId);
      ChaseEach(db, order[i..], now, grace, newId)
      == p + ChaseEach(ExecAll(db, p), order[i + 1..], now, grace, newId + ChaseIds(p))
  {
    assert order[i..][1..] == order[i + 1..];
  }

  lemma ChaseNone(db: DB, order: seq<Id>, now: Time, grace: int, newId: Id)
    ensures ChaseEach(db, order[|order|..], now, grace, newId) == []
  {
  }

  /** Chase one listed ask: the last call and the release, or a nudge, or nothing. */
  method Chase(backend: SqliteBackend, id: Id, a: Awaiting, now: Time, newId: Id, grace: int) returns (posted: nat)
    requires backend.Valid() && id in backend.awaiting && backend.awaiting[id] == a && a.closed.None?
    modifies backend
    ensures backend.Valid()
    ensures var p := ChasePlan(old(backend.Db()), id, now, grace, newId);
      && backend.journal == old(backend.journal) + p && backend.Db() == ExecAll(old(backend.Db()), p)
      && posted == ChaseIds(p)
    ensures forall x :: x != id && x in old(backend.awaiting) ==>
              x in backend.awaiting && backend.awaiting[x] == old(backend.awaiting)[x]
  {
    ghost var db := backend.Db();
    ghost var j := backend.journal;
    ghost var p := ChasePlan(db, id, now, grace, newId);
    posted := 0;
    hide ExecAll;
    if a.replyByS.Some? && id in backend.messages && IsAsk(backend.messages[id].kind) {
      var origin := backend.messages[id];
      if now >= origin.ts + a.replyByS.value + grace && a.nudgedStage < 2 {
        Release(backend, origin, now, newId);
        posted := 2;
      } else if now >= a.nudgeFrom + a.replyByS.value && a.nudgedStage < 1 {
        Tell(backend, NoticeTo(origin, origin.to, Nudge, false, Response, newId, now), origin.to);
        backend.MarkNudged(id, 1);
        posted := 1;
      }
    }
    JournalRan(backend, db, j, p);
  }

  /** The last call, the sender's release, the last stage, and the ask parked, in that order. */
  method Release(backend: SqliteBackend, origin: Message, now: Time, newId: Id)
    requires backend.Valid()
    modifies backend
    ensures backend.Valid()
    ensures backend.journal == old(backend.journal)
      + [Append(NoticeTo(origin, origin.to, LastCall, false, Response, newId, now)), Enqueue(newId, origin.to),
         Append(NoticeTo(origin, origin.from, NoReplyYet, true, Response, newId + 1, now)), Enqueue(newId + 1, origin.from),
         MarkNudged(origin.id, 2), CloseAwaiting(origin.id, Parked)]
    ensures forall x :: x != origin.id && x in old(backend.awaiting) ==>
              x in backend.awaiting && backend.awaiting[x] == old(backend.awaiting)[x]
  {
    hide ExecAll;
    hide SqliteBackend.Valid;
    Tell(backend, NoticeTo(origin, origin.to, LastCall, false, Response, newId, now), origin.to);
    Tell(backend, NoticeTo(origin, origin.from, NoReplyYet, true, Response, newId + 1, now), origin.from);
    backend.MarkNudged(origin.id, 2);
    backend.CloseAwaiting(origin.id, Parked);
  }
}
