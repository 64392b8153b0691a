/**
 The life of a delivery row over whole runs: handed out once, leased to one host at a time,
 never owed again once answered, and untouched by the sweeper's purge.
 */
module Leases {
  import opened Models
  import opened Store
  import opened Invariants
  import opened Statements
  import opened Verbs
  import opened Runs
  import opened VerbSafety
  import opened Outbox
  import opened Mailboxes

  // ---- Claims and leases ---------------------------------------------------------------

  /** Claiming delivery hands each row out at most once, ever. */
  lemma ClaimedAtMostOnce(cfg: Config, w: World, acts: seq<Act>, k: Key)
    requires Inv(w) && Possible(cfg, w, acts)
    ensures Run(cfg, w, acts).claimed[k] <= 1
  {
    RunKeeps(cfg, w, acts);
  }

  /** An ack under a lease no row of the address holds changes nothing, not even the cursor. */
  lemma SupersededAck(db: DB, a: Address, leaseId: string, ids: seq<Id>)
    requires forall k :: k in db.deliveries && k.addr == a && db.deliveries[k].lease.Some?
               ==> db.deliveries[k].lease.value.id != leaseId
    ensures Exec(db, Ack(a, leaseId, ids)) == db
  {
    assert AckableSet(db.deliveries, a, leaseId, ids) == {};
    assert AckRows(db.deliveries, a, leaseId, ids) == db.deliveries;
  }

  /** Out of a host's reach: surfaced, persisted or settled; or gone with its message. */
  ghost predicate OutOfReach(w: World, k: Key) {
    k.msg < w.next && (k.msg in w.db.messages ==> k in w.db.deliveries && Rank(w.db.deliveries[k].state) >= 2)
  }

  /** Once persisted or surfaced, a row is never leased again, at any later time. */
  lemma PersistedNeverLeased(cfg: Config, w: World, acts: seq<Act>, k: Key, a: Address, now: Time)
    requires Inv(w) && Possible(cfg, w, acts) && OutOfReach(w, k)
    ensures var b := Run(cfg, w, acts); OutOfReach(b, k) && !Leasable(b.db.deliveries, k, a, now)
  {
    RunKeeps(cfg, w, acts);
    var b := Run(cfg, w, acts);
    if k.msg in b.db.messages {
      assert k.msg in w.db.messages;
    } else {
      assert k !in b.db.deliveries;
    }
  }

  /** A row this lease holds, or that has left every host's reach. */
  ghost predicate Held(w: World, k: Key, l: Lease) {
    OutOfReach(w, k) ||
    (k.msg < w.next && k.msg in w.db.messages && k in w.db.deliveries
     && w.db.deliveries[k].state.Delivered? && w.db.deliveries[k].lease == Some(l))
  }

  /** A row some lease holds, or that has left every host's reach. */
  ghost predicate Leased(w: World, k: Key) {
    OutOfReach(w, k) ||
    (k.msg < w.next && k.msg in w.db.messages && k in w.db.deliveries
     && w.db.deliveries[k].state.Delivered? && w.db.deliveries[k].lease.Some?)
  }

  /** A statement that does not lease this box at or after the lease's end. */
  predicate Before(s: Stmt, a: Address, l: Lease) { s.LeaseFor? && s.addr == a ==> s.now < l.until }

  /** A leased row stays leased or leaves every host's reach; only a lease of its own box can change whose it is. */
  lemma LeasedRow(s: Stmt, db: DB, k: Key)
    requires k in db.deliveries && db.deliveries[k].state.Delivered? && db.deliveries[k].lease.Some?
    requires k in Exec(db, s).deliveries
    ensures var l := db.deliveries[k].lease; var r := Exec(db, s).deliveries[k];
      Rank(r.state) >= 2 || (r.state.Delivered? && r.lease.Some? && (Before(s, k.addr, l.value) ==> r.lease == l))
  {
  }

  lemma HeldStep(w: World, s: Stmt, k: Key, l: Lease)
    requires Inv(w) && Guard(w, s) && Leased(w, k)
    ensures Leased(Step(w, s), k) && (Held(w, k, l) && Before(s, k.addr, l) ==> Held(Step(w, s), k, l))
  {
    hide Inv, Exec, Before;
    StepKeeps(w, s);
    var w1 := Step(w, s);
    if k.msg in w1.db.messages {
      StillThere(w, w1, k);
      if !OutOfReach(w, k) {
        RowThere(w, w1, k);
        assert w1.db == Exec(w.db, s);
        LeasedRow(s, w.db, k);
      }
    }
  }

  lemma StillThere(a: World, b: World, k: Key)
    requires Follows(a, b) && k.msg < a.next && k.msg in b.db.messages
    ensures k.msg in a.db.messages
    ensures k in a.db.deliveries ==> k in b.db.deliveries && Rank(a.db.deliveries[k].state) <= Rank(b.db.deliveries[k].state)
  {
  }

  lemma RowThere(a: World, b: World, k: Key)
    requires Follows(a, b) && k.msg in b.db.messages && k in a.db.deliveries
    ensures k in b.db.deliveries
  {
  }

  lemma {:induction false} HeldSteps(w: World, work: seq<Stmt>, k: Key, l: Lease)
    requires Inv(w) && Safe(w, work) && Leased(w, k)
    ensures Leased(Steps(w, work), k)
    ensures Held(w, k, l) && (forall s :: s in work ==> Before(s, k.addr, l)) ==> Held(Steps(w, work), k, l)
    decreases |work|
  {
    hide Inv, Held, Leased, Before;
    if work != [] {
      assert work[0] in work;
      HeldStep(w, work[0], k, l);
      StepKeeps(w, work[0]);
      HeldSteps(Step(w, work[0]), work[1..], k, l);
    }
  }

  /** No act leases this box at or after the lease's end. */
  predicate AllBefore(acts: seq<Act>, a: Address, l: Lease) {
    forall i :: 0 <= i < |acts| && acts[i].event.Storage? ==> Before(acts[i].event.s, a, l)
  }

  /** No verb leases: only the storage event does. */
  lemma VerbsDoNotLease(cfg: Config, db: DB, e: Event, a: Address, l: Lease)
    requires e.Storage? ==> Before(e.s, a, l)
    ensures forall s :: s in Work(cfg, db, e) ==> Before(s, a, l)
  {
    if e.Reconcile? {
      ReconcileKeeps(cfg, db, e);
    } else if !e.Storage? {
      WorkKeeping(cfg, db, e);
    }
  }

  lemma AllBeforeRest(acts: seq<Act>, a: Address, l: Lease)
    requires acts != []
    ensures AllBefore(acts, a, l) <==> (acts[0].event.Storage? ==> Before(acts[0].event.s, a, l)) && AllBefore(acts[1..], a, l)
  {
    assert forall i :: 0 < i < |acts| ==> acts[i] == acts[1..][i - 1];
  }

  /** What is leased stays so over any acts, and the lease's own over acts that do not lease its box at or after its end. */
  lemma {:induction false} HeldRun(cfg: Config, w: World, acts: seq<Act>, k: Key, l: Lease)
    requires Inv(w) && Possible(cfg, w, acts) && Leased(w, k)
    ensures Leased(Run(cfg, w, acts), k)
    ensures Held(w, k, l) && AllBefore(acts, k.addr, l) ==> Held(Run(cfg, w, acts), k, l)
    decreases |acts|
  {
    hide Inv, Steps, Held, Leased, AllBefore, Before;
    if acts != [] {
      var act := acts[0];
      var work := Work(cfg, w.db, act.event);
      EventSafe(cfg, w, act.event);
      SafePrefix(w, work, act.cut);
      AllBeforeRest(acts, k.addr, l);
      if AllBefore(acts, k.addr, l) { VerbsDoNotLease(cfg, w.db, act.event, k.addr, l); }
      HeldSteps(w, work[..act.cut], k, l);
      PerformKeeps(cfg, w, act);
      HeldRun(cfg, Perform(cfg, w, act), acts[1..], k, l);
    }
  }

  /**
   A row under an unexpired lease is not leased again, whatever runs in between: until the
   clock reaches the lease's end, no lease statement at such a time can take it.
   */
  lemma LeaseIsExclusive(cfg: Config, w: World, acts: seq<Act>, k: Key, l: Lease, a: Address, now: Time)
    requires Inv(w) && Possible(cfg, w, acts) && Held(w, k, l) && AllBefore(acts, k.addr, l) && now < l.until
    ensures !Leasable(Run(cfg, w, acts).db.deliveries, k, a, now)
  {
    HeldRun(cfg, w, acts, k, l);
    RunKeeps(cfg, w, acts);
    NotLeasable(Run(cfg, w, acts), k, l, a, now);
  }

  lemma NotLeasable(w: World, k: Key, l: Lease, a: Address, now: Time)
    requires Inv(w) && Held(w, k, l) && now < l.until
    ensures !Leasable(w.db.deliveries, k, a, now)
  {
    if OutOfReach(w, k) && k.msg !in w.db.messages { assert k !in w.db.deliveries; }
  }

  // ---- Leased, then acknowledged -----------------------------------------------------------

  /** Leasing a free row holds it. */
  lemma LeaseHolds(w: World, k: Key, via: Via, l: Lease, now: Time)
    requires Inv(w) && Leasable(w.db.deliveries, k, k.addr, now)
    ensures Held(Step(w, LeaseFor(k.addr, via, l.id, now, l.until)), k, l)
  {
    assert k.msg in w.db.messages;
    OwnId(w, k.msg);
  }

  /** Another lease has this copy now. */
  predicate Retaken(rows: Rows, k: Key, l: Lease) {
    k in rows && rows[k].state.Delivered? && rows[k].lease.Some? && rows[k].lease.value.id != l.id
  }

  /** A leased row settles an acknowledgement exactly if it is there, not put off and not another lease's. */
  lemma LeasedAcks(w: World, k: Key, l: Lease)
    requires Inv(w) && Leased(w, k)
    ensures var rows := w.db.deliveries;
      && (AckedOrDone(rows, k.addr, l.id, k.msg) <==> k in rows && !rows[k].state.Surfaced? && !Retaken(rows, k, l))
      && (k in rows <==> k.msg in w.db.messages)
      && (Held(w, k, l) ==> !Retaken(rows, k, l))
  {
    assert k == Key(k.msg, k.addr);
    if k in w.db.deliveries { assert k.msg in w.db.messages; }
  }

  /**
   Lease a free row, let anything happen, acknowledge, however late: the row's ack counts exactly if
   its message is still stored, nobody snoozed it and no other lease has it; and none can have it
   unless its box was leased at or after this lease's end.
   */
  lemma LeasedIsAcked(cfg: Config, w: World, acts: seq<Act>, k: Key, via: Via, l: Lease, now: Time)
    requires Inv(w) && Leasable(w.db.deliveries, k, k.addr, now)
    requires Possible(cfg, Perform(cfg, w, Act(Storage(LeaseFor(k.addr, via, l.id, now, l.until)), 1)), acts)
    ensures var b := Run(cfg, Perform(cfg, w, Act(Storage(LeaseFor(k.addr, via, l.id, now, l.until)), 1)), acts).db;
      var rows := b.deliveries;
      && (AckedOrDone(rows, k.addr, l.id, k.msg) <==> k in rows && !rows[k].state.Surfaced? && !Retaken(rows, k, l))
      && (k in rows <==> k.msg in b.messages)
      && (AllBefore(acts, k.addr, l) ==> !Retaken(rows, k, l))
  {
    hide Steps;
    var s := LeaseFor(k.addr, via, l.id, now, l.until);
    var w1 := Perform(cfg, w, Act(Storage(s), 1));
    assert [s][..1] == [s];
    OneStep(w, s);
    LeaseHolds(w, k, via, l, now);
    PerformKeeps(cfg, w, Act(Storage(s), 1));
    HeldRun(cfg, w1, acts, k, l);
    RunKeeps(cfg, w1, acts);
    LeasedAcks(Run(cfg, w1, acts), k, l);
  }

  /**
   Does this copy settle its message's acknowledgement?  One that was leased, or out of reach, does if
   it is stored, nobody put it off and no other lease has it; one that came later only once it has
   left the inbox or comes under this lease.
   */
  ghost predicate Counts(w: World, rows: Rows, k: Key, l: Lease) {
    k in rows && if Leased(w, k) then !rows[k].state.Surfaced? && !Retaken(rows, k, l)
                 else AckedOrDone(rows, k.addr, l.id, k.msg)
  }

  /** The lease holds every copy of these messages that these boxes have by now. */
  ghost predicate HeldAll(w: World, rows: Rows, boxes: seq<Address>, ids: seq<Id>, l: Lease) {
    forall id, b :: id in ids && b in boxes && Key(id, b) in rows ==> Held(w, Key(id, b), l)
  }

  predicate BoxesBefore(acts: seq<Act>, boxes: seq<Address>, l: Lease) {
    forall b :: b in boxes ==> AllBefore(acts, b, l)
  }

  /**
   The count a host compares with what it leased.  Whatever ran since, it is full exactly if every
   message has some copy among the session's boxes that counts.  So where the lease held every copy,
   a broadcast's in several boxes included, and none of those boxes was leased at or after its end, it
   is short exactly if every copy of some message has been snoozed, or purged with it.
   */
  lemma AckMismatch(cfg: Config, w: World, acts: seq<Act>, l: Lease, boxes: seq<Address>, ids: seq<Id>)
    requires Inv(w) && Possible(cfg, w, acts)
    ensures var rows := Run(cfg, w, acts).db.deliveries;
      && (Acknowledged(rows, boxes, l.id, ids) == |ids| <==>
            forall id :: id in ids ==> exists b :: b in boxes && Counts(w, rows, Key(id, b), l))
      && (HeldAll(w, rows, boxes, ids, l) && BoxesBefore(acts, boxes, l) ==>
            (Acknowledged(rows, boxes, l.id, ids) == |ids| <==>
               forall id :: id in ids ==>
                 exists b :: b in boxes && Key(id, b) in rows && !rows[Key(id, b)].state.Surfaced?))
  {
    hide Inv, Held, Leased, AckedOrDone, Counts, AllBefore, Follows;
    var rows := Run(cfg, w, acts).db.deliveries;
    RunKeeps(cfg, w, acts);
    AllAcknowledged(rows, boxes, l.id, ids);
    forall id ensures Settles(rows, boxes, l.id, id) <==> exists x :: x in boxes && Counts(w, rows, Key(id, x), l) {
      forall x ensures AckedOrDone(rows, x, l.id, id) <==> Counts(w, rows, Key(id, x), l) {
        CopyCounts(cfg, w, acts, Key(id, x), l);
      }
    }
    if HeldAll(w, rows, boxes, ids, l) && BoxesBefore(acts, boxes, l) {
      forall id, x | id in ids && x in boxes
        ensures Counts(w, rows, Key(id, x), l) <==> Key(id, x) in rows && !rows[Key(id, x)].state.Surfaced?
      {
        HeldCounts(cfg, w, acts, Key(id, x), l);
      }
    }
  }

  lemma CopyCounts(cfg: Config, w: World, acts: seq<Act>, k: Key, l: Lease)
    requires Inv(w) && Possible(cfg, w, acts)
    ensures var rows := Run(cfg, w, acts).db.deliveries; AckedOrDone(rows, k.addr, l.id, k.msg) <==> Counts(w, rows, k, l)
  {
    RunKeeps(cfg, w, acts);
    assert k == Key(k.msg, k.addr);
    if Leased(w, k) {
      HeldRun(cfg, w, acts, k, l);
      LeasedAcks(Run(cfg, w, acts), k, l);
    }
    hide Inv, Held, Leased, Follows;
  }

  lemma HeldCounts(cfg: Config, w: World, acts: seq<Act>, k: Key, l: Lease)
    requires Inv(w) && Possible(cfg, w, acts) && AllBefore(acts, k.addr, l)
    ensures var rows := Run(cfg, w, acts).db.deliveries;
      (k in rows ==> Held(w, k, l)) ==> (Counts(w, rows, k, l) <==> k in rows && !rows[k].state.Surfaced?)
  {
    if k in Run(cfg, w, acts).db.deliveries && Held(w, k, l) {
      RunKeeps(cfg, w, acts);
      HeldRun(cfg, w, acts, k, l);
      LeasedAcks(Run(cfg, w, acts), k, l);
    }
    hide Inv, Follows;
  }
}
