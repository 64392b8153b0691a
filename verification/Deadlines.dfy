/**
 The deadline bound: what a sweep of the reply deadlines leaves open, that nothing moves a
 deadline, and what a crash in the middle of a chase costs (src/broker/sweeper.ts:120-192).
 */
module Deadlines {
  import opened Models
  import opened Store
  import opened Invariants
  import opened Statements
  import opened Verbs
  import opened Runs
  import opened VerbSafety
  import opened Outbox
  import opened Ledger
  import opened Tearing

  /** An open ask whose sender was promised release by now. */
  predicate Overdue(db: DB, id: Id, now: Time, grace: int) {
    AskOpen(db.awaiting, id) && id in db.messages && SenderDue(db.awaiting[id], db.messages[id], now, grace)
  }

  // ---- One chase -----------------------------------------------------------------------------

  lemma OriginStored(w: World, id: Id)
    requires Inv(w) && AskOpen(w.db.awaiting, id)
    ensures OriginOf(w.db.messages, id) == Some(w.db.messages[id]) && w.db.messages[id].id == id && id < w.next
  {
    assert DirectedAsk(w.db.messages, id);
  }

  /** How far a chase of one ask got, told from what it has written. */
  function Chased(a: Awaiting, length: nat, cut: nat): Awaiting {
    if length == 6 then
      a.(nudgedStage := if cut >= 5 then 2 else a.nudgedStage, closed := if cut == 6 then Some(Parked) else None)
    else if length == 3 then a.(nudgedStage := if cut == 3 then 1 else a.nudgedStage)
    else a
  }

  /** What a piece of work did to one ask: its row, the notices about it, and nothing to other asks or old messages. */
  ghost predicate Moved(b: Book, c: Book, id: Id, a: Awaiting, releases: nat, nudges: nat) {
    && id in b.asks && c.asks == b.asks[id := a] && c.defers == b.defers
    && (forall x :: x in b.messages ==> x in c.messages && c.messages[x] == b.messages[x])
    && Releases(c.log, id) == Releases(b.log, id) + releases
    && Nudges(c.log, id) == Nudges(b.log, id) + nudges
  }

  lemma PostMoves(b: Book, c: Book, id: Id, a: Awaiting, releases: nat, nudges: nat, m: Message)
    requires Moved(b, c, id, a, releases, nudges) && m.id !in b.messages
    ensures Moved(b, Write(c, Append(m)), id, a,
                  releases + (if IsRelease(Posted(m), id) then 1 else 0), nudges + (if IsNudge(Posted(m), id) then 1 else 0))
  {
    Snoc(c.log, Posted(m), id);
  }

  lemma RowMoves(b: Book, c: Book, id: Id, a: Awaiting, releases: nat, nudges: nat, s: Stmt)
    requires Moved(b, c, id, a, releases, nudges) && a.closed.None?
    requires s.Enqueue? || (s.MarkNudged? && s.id == id) || s == CloseAwaiting(id, Parked)
    ensures Moved(b, Write(c, s), id,
                  if s.CloseAwaiting? then a.(closed := Some(Parked))
                  else if s.MarkNudged? && a.nudgedStage < s.stage then a.(nudgedStage := s.stage) else a, releases, nudges)
  {
    assert c.asks[id] == a;
  }

  lemma WriteSnoc(b: Book, work: seq<Stmt>, cut: nat)
    requires cut < |work|
    ensures WriteAll(b, work[..cut + 1]) == Write(WriteAll(b, work[..cut]), work[cut])
  {
    assert work[..cut + 1] == work[..cut] + [work[cut]];
    WriteConcat(b, work[..cut], [work[cut]]);
    WriteOne(WriteAll(b, work[..cut]), work[cut]);
  }

  /** Cut anywhere, a chase touches its own ask alone; it posts first, then records the stage, and closes last. */
  lemma {:induction false} ChaseCut(w: World, id: Id, now: Time, grace: int, newId: Id, cut: nat)
    requires Inv(w) && AskOpen(w.db.awaiting, id) && newId >= w.next
    requires cut <= |ChasePlan(w.db, id, now, grace, newId)|
    ensures var work := ChasePlan(w.db, id, now, grace, newId);
      Moved(BookOf(w), WriteAll(BookOf(w), work[..cut]), id, Chased(w.db.awaiting[id], |work|, cut),
            if |work| == 6 && cut >= 3 then 1 else 0, if |work| == 3 && cut >= 1 then 1 else 0)
  {
    hide Inv, Moved, WriteAll, IsRelease, IsNudge;
    OriginStored(w, id);
    Unused(w, newId);
    Unused(w, newId + 1);
    var work := ChasePlan(w.db, id, now, grace, newId);
    var b := BookOf(w);
    if cut == 0 {
      assert work[..0] == [];
      Untouched(b, id);
    } else {
      var n := cut - 1;
      var a := Chased(w.db.awaiting[id], |work|, n);
      ChaseCut(w, id, now, grace, newId, n);
      WriteSnoc(b, work, n);
      NoticesOf(w.db, id, now, grace, newId);
      if work[n].Append? {
        PostMoves(b, WriteAll(b, work[..n]), id, a, if |work| == 6 && n >= 3 then 1 else 0,
                  if |work| == 3 && n >= 1 then 1 else 0, work[n].m);
      } else {
        RowMoves(b, WriteAll(b, work[..n]), id, a, if |work| == 6 && n >= 3 then 1 else 0,
                 if |work| == 3 && n >= 1 then 1 else 0, work[n]);
      }
    }
  }

  lemma Untouched(b: Book, id: Id)
    requires id in b.asks
    ensures Moved(b, WriteAll(b, []), id, b.asks[id], 0, 0)
  {
    assert b.asks[id := b.asks[id]] == b.asks;
  }

  /** Which of a chase's notices release the sender, and which nudge. */
  lemma NoticesOf(db: DB, id: Id, now: Time, grace: int, newId: Id)
    requires AskOpen(db.awaiting, id) && id in db.messages && db.messages[id].id == id
    ensures var work := ChasePlan(db, id, now, grace, newId);
      forall i :: 0 <= i < |work| && work[i].Append? ==>
        && (IsRelease(Posted(work[i].m), id) <==> |work| == 6 && i == 2)
        && (IsNudge(Posted(work[i].m), id) <==> |work| == 3)
  {
  }

  lemma ChasePurgeFree(db: DB, id: Id, now: Time, grace: int, newId: Id)
    ensures forall s :: s in ChasePlan(db, id, now, grace, newId) ==> !s.Purge?
  {
  }

  /** What one chase, cut anywhere, does to a world. */
  lemma ChaseEffect(w: World, id: Id, now: Time, grace: int, newId: Id, cut: nat)
    requires Inv(w) && newId >= w.next && cut <= |ChasePlan(w.db, id, now, grace, newId)|
    ensures var work := ChasePlan(w.db, id, now, grace, newId); var c := Steps(w, work[..cut]);
      && Safe(w, work) && Inv(c) && Follows(w, c)
      && c.db.awaiting == (if AskOpen(w.db.awaiting, id)
                           then w.db.awaiting[id := Chased(w.db.awaiting[id], |work|, cut)] else w.db.awaiting)
      && (forall x :: x in w.db.messages ==> x in c.db.messages && c.db.messages[x] == w.db.messages[x])
      && Releases(c.log, id) == Releases(w.log, id) + (if |work| == 6 && cut >= 3 then 1 else 0)
      && Nudges(c.log, id) == Nudges(w.log, id) + (if |work| == 3 && cut >= 1 then 1 else 0)
      && c.defers == w.defers
  {
    hide Inv, Steps, Follows, Safe;
    var work := ChasePlan(w.db, id, now, grace, newId);
    ChaseSafe(w, id, now, grace, newId);
    SafeRuns(w, work, cut);
    SafePrefix(w, work, cut);
    ChasePurgeFree(w.db, id, now, grace, newId);
    WriteSteps(w, work[..cut]);
    if AskOpen(w.db.awaiting, id) {
      ChaseCut(w, id, now, grace, newId, cut);
      assert BookOf(Steps(w, work[..cut])).asks == Steps(w, work[..cut]).db.awaiting;
    } else {
      assert work[..cut] == [];
      assert WriteAll(BookOf(w), []) == BookOf(w);
    }
  }

  /** Work whose messages lie below a bound leaves the next fresh id below it. */
  lemma {:induction false} NextBounded(w: World, work: seq<Stmt>, bound: Id)
    requires w.next <= bound && forall s :: s in work ==> (s.Append? || s.AppendRouted?) ==> s.m.id < bound
    ensures Steps(w, work).next <= bound
    decreases |work|
  {
    if work != [] {
      assert work[0] in work;
      NextBounded(Step(w, work[0]), work[1..], bound);
    }
  }

  // ---- A whole sweep ---------------------------------------------------------------------------

  /** How one ask comes out of a sweep of a list. */
  ghost predicate Swept(a: DB, b: DB, order: seq<Id>, now: Time, grace: int, id: Id) {
    && (id in a.messages ==> id in b.messages && b.messages[id] == a.messages[id])
    && (id in b.awaiting <==> id in a.awaiting)
    && (id in a.awaiting ==>
          && b.awaiting[id].replyByS == a.awaiting[id].replyByS
          && b.awaiting[id].closed ==
             (if id in order && Overdue(a, id, now, grace) && a.awaiting[id].nudgedStage < 2
              then Some(Parked) else a.awaiting[id].closed)
          && (AskOpen(b.awaiting, id) ==> (b.awaiting[id].nudgedStage < 2 <==> a.awaiting[id].nudgedStage < 2)))
  }

  lemma ChaseOne(w: World, x: Id, now: Time, grace: int, newId: Id, id: Id)
    requires Inv(w) && newId >= w.next
    ensures var w1 := Steps(w, ChasePlan(w.db, x, now, grace, newId));
      Inv(w1) && Follows(w, w1) && Swept(w.db, w1.db, [x], now, grace, id)
  {
    hide Inv, Steps, Follows, Safe;
    var p := ChasePlan(w.db, x, now, grace, newId);
    assert p[..|p|] == p;
    ChaseEffect(w, x, now, grace, newId, |p|);
    if AskOpen(w.db.awaiting, x) { OriginStored(w, x); }
  }

  lemma SweptJoin(a: DB, b: DB, c: DB, x: Id, order: seq<Id>, now: Time, grace: int, id: Id)
    requires Swept(a, b, [x], now, grace, id) && Swept(b, c, order, now, grace, id)
    requires AskOpen(a.awaiting, id) ==> id in a.messages
    ensures Swept(a, c, [x] + order, now, grace, id)
  {
  }

  /**
   A sweep of any list, by any clock, releases the sender of every overdue ask on it that had
   not reached the last stage, and closes nothing else.
   */
  lemma {:induction false} SweepReleases(w: World, order: seq<Id>, now: Time, grace: int, newId: Id, id: Id)
    requires Inv(w) && newId >= w.next
    ensures var w2 := Steps(w, ChaseEach(w.db, order, now, grace, newId));
      Inv(w2) && Follows(w, w2) && Swept(w.db, w2.db, order, now, grace, id)
    decreases |order|
  {
    hide Inv, Steps, Follows, Swept, ChasePlan;
    if order == [] {
      NoSteps(w);
      FollowsReflexive(w);
      assert Swept(w.db, w.db, [], now, grace, id) by { SweptNone(w.db, now, grace, id); }
    } else {
      var p := ChasePlan(w.db, order[0], now, grace, newId);
      var w1 := Steps(w, p);
      var rest := ChaseEach(w1.db, order[1..], now, grace, newId + ChaseIds(p));
      ChaseOne(w, order[0], now, grace, newId, id);
      ChaseMints(w, order[0], now, grace, newId);
      StepsDb(w, p);
      StepsConcat(w, p, rest);
      SweepReleases(w1, order[1..], now, grace, newId + ChaseIds(p), id);
      FollowsTransitive(w, w1, Steps(w1, rest));
      if AskOpen(w.db.awaiting, id) { OriginStored(w, id); }
      SweptJoin(w.db, w1.db, Steps(w1, rest).db, order[0], order[1..], now, grace, id);
      assert [order[0]] + order[1..] == order;
    }
  }

  lemma SweptNone(a: DB, now: Time, grace: int, id: Id)
    ensures Swept(a, a, [], now, grace, id)
  {
  }

  lemma ChaseMints(w: World, id: Id, now: Time, grace: int, newId: Id)
    requires newId >= w.next
    ensures var p := ChasePlan(w.db, id, now, grace, newId); Steps(w, p).next <= newId + ChaseIds(p)
  {
    var p := ChasePlan(w.db, id, now, grace, newId);
    NextBounded(w, p, newId + ChaseIds(p));
  }

  // ---- Which crash strands an ask --------------------------------------------------------------

  /** This ask is not open past its last stage, so a sweep still looks at it if it is open. */
  predicate Watched(db: DB, id: Id) { AskOpen(db.awaiting, id) ==> db.awaiting[id].nudgedStage < 2 }

  /** A release of this ask cut between its last stage and the close. */
  predicate Stranded(cfg: Config, db: DB, a: Act, id: Id) {
    a.event.Chase? && a.event.id == id && |ChasePlan(db, id, a.event.now, cfg.finalGraceS, a.event.newId)| == 6 && a.cut == 5
  }

  lemma {:induction false} WatchedSteps(w: World, work: seq<Stmt>, id: Id)
    requires Watched(w.db, id) && forall s :: s in work ==> !s.MarkNudged?
    ensures Watched(Steps(w, work).db, id)
    decreases |work|
  {
    if work != [] {
      assert work[0] in work;
      WatchedStep(w, work[0], id);
      WatchedSteps(Step(w, work[0]), work[1..], id);
    }
  }

  lemma WatchedStep(w: World, s: Stmt, id: Id)
    requires Watched(w.db, id) && !s.MarkNudged?
    ensures Watched(Step(w, s).db, id)
  {
  }

  lemma QuietWork(cfg: Config, w: World, e: Event)
    requires Fresh(w, e) && !e.Chase?
    ensures forall s :: s in Work(cfg, w.db, e) ==>
      !s.MarkNudged? && ((s.Append? || s.AppendRouted?) ==> s.m.body != Notice(Nudge))
  {
    if e.Reconcile? {
      ReconcileKeeps(cfg, w.db, e);
    } else if !e.Storage? && !e.Accept? {
      WorkKeeping(cfg, w.db, e);
      assert forall s :: s in Work(cfg, w.db, e) ==> Mild(s);
    }
  }

  /** An act leaves an ask within a sweep's reach exactly if it does not strand that ask. */
  lemma StrandedIff(cfg: Config, w: World, a: Act, id: Id)
    requires Inv(w) && Watched(w.db, id) && Allowed(cfg, w, a)
    ensures Watched(Perform(cfg, w, a).db, id) <==> !Stranded(cfg, w.db, a, id)
  {
    hide Inv, Steps, Follows, Safe;
    if a.event.Chase? {
      var x := a.event.id;
      ChaseEffect(w, x, a.event.now, cfg.finalGraceS, a.event.newId, a.cut);
      if !AskOpen(w.db.awaiting, x) { NotChased(w.db, x, a.event.now, cfg.finalGraceS, a.event.newId); }
      hide ChasePlan;
      assert Stranded(cfg, w.db, a, id) ==> AskOpen(Perform(cfg, w, a).db.awaiting, id);
    } else {
      QuietWork(cfg, w, a.event);
      WatchedSteps(w, Work(cfg, w.db, a.event)[..a.cut], id);
    }
  }

  lemma NotChased(db: DB, id: Id, now: Time, grace: int, newId: Id)
    requires !AskOpen(db.awaiting, id)
    ensures ChasePlan(db, id, now, grace, newId) == []
  {
  }

  /** No act of the run strands this ask. */
  ghost predicate NeverStranded(cfg: Config, w: World, acts: seq<Act>, id: Id)
    requires Possible(cfg, w, acts)
    decreases |acts|
  {
    acts == [] || (!Stranded(cfg, w.db, acts[0], id) && NeverStranded(cfg, Perform(cfg, w, acts[0]), acts[1..], id))
  }

  lemma {:induction false} RunWatched(cfg: Config, w: World, acts: seq<Act>, id: Id)
    requires Inv(w) && Watched(w.db, id) && Possible(cfg, w, acts) && NeverStranded(cfg, w, acts, id)
    ensures Watched(Run(cfg, w, acts).db, id)
    decreases |acts|
  {
    hide Inv, Watched, Steps;
    if acts != [] {
      StrandedIff(cfg, w, acts[0], id);
      PerformKeeps(cfg, w, acts[0]);
      RunWatched(cfg, Perform(cfg, w, acts[0]), acts[1..], id);
    }
  }

  /**
   The deadline bound.  After any run in which no release of this ask is cut between its last
   stage and its close, whatever is cut of others, and a sweep at `now` whose listing holds the ask
   if it is open, no run of anything leaves it open if its reply deadline plus grace had come by `now`.
   */
  lemma DeadlineBound(cfg: Config, acts: seq<Act>, order: seq<Id>, now: Time, newId: Id, later: seq<Act>, id: Id)
    requires Possible(cfg, START, acts) && NeverStranded(cfg, START, acts, id)
    requires var w := Run(cfg, START, acts);
      && newId >= w.next
      && (AskOpen(w.db.awaiting, id) ==> id in order)
      && Possible(cfg, Steps(w, ChaseEach(w.db, order, now, cfg.finalGraceS, newId)), later)
      && id in w.db.awaiting
    ensures var w := Run(cfg, START, acts);
      var w2 := Run(cfg, Steps(w, ChaseEach(w.db, order, now, cfg.finalGraceS, newId)), later);
      !Overdue(w2.db, id, now, cfg.finalGraceS)
  {
    hide Inv, Steps, Follows;
    StartHolds();
    RunKeeps(cfg, START, acts);
    RunWatched(cfg, START, acts, id);
    var w := Run(cfg, START, acts);
    var w1 := Steps(w, ChaseEach(w.db, order, now, cfg.finalGraceS, newId));
    SweepReleases(w, order, now, cfg.finalGraceS, newId, id);
    RunKeeps(cfg, w1, later);
    DeadlineFixed(w1, Run(cfg, w1, later), id, now, cfg.finalGraceS);
    AskStored(w, id);
  }

  /** No run of snoozes, partials or anything else moves the instant a sender is released. */
  lemma {:induction false} DeadlineFixed(a: World, b: World, id: Id, now: Time, grace: int)
    requires Inv(a) && Inv(b) && Follows(a, b) && id in a.db.awaiting
    ensures id in b.db.messages ==>
      && id in b.db.awaiting && id in a.db.messages
      && (SenderDue(b.db.awaiting[id], b.db.messages[id], now, grace)
          <==> SenderDue(a.db.awaiting[id], a.db.messages[id], now, grace))
    ensures Overdue(b.db, id, now, grace) ==> Overdue(a.db, id, now, grace)
  {
    assert DirectedAsk(a.db.messages, id);
    assert id in b.db.awaiting ==> DirectedAsk(b.db.messages, id);
  }

  // ---- How often an ask is nudged ------------------------------------------------------------------

  /** A nudge is paid for by the opening of its ask, by a push of its clock, or by one of `r` crashes. */
  ghost predicate Paid(w: World, id: Id, r: nat) {
    && Nudges(w.log, id) <= 1 + w.defers[id] + r
    && (AskOpen(w.db.awaiting, id) && w.db.awaiting[id].nudgedStage == 0 ==> Nudges(w.log, id) <= w.defers[id] + r)
    && (id !in w.db.awaiting && (id in w.db.messages || id >= w.next) ==> Nudges(w.log, id) == 0)
  }

  lemma NudgesStep(w: World, s: Stmt, id: Id)
    requires (s.Append? || s.AppendRouted?) ==> !IsNudge(Posted(s.m), id)
    ensures Nudges(Step(w, s).log, id) == Nudges(w.log, id)
  {
    if s.Append? || s.AppendRouted? { Snoc(w.log, Posted(s.m), id); }
    if s.CloseAwaiting? { Snoc(w.log, Withdrawn(s.id), id); }
    hide Exec, Nudges, IsNudge;
  }

  /** How an ask comes to wait for its first nudge: it did, it has just been opened, or its clock was pushed. */
  lemma StageZero(w: World, s: Stmt, id: Id)
    requires Guard(w, s)
    ensures var b := Step(w, s);
      AskOpen(b.db.awaiting, id) && b.db.awaiting[id].nudgedStage == 0 ==>
        || (AskOpen(w.db.awaiting, id) && w.db.awaiting[id].nudgedStage == 0)
        || (id !in w.db.awaiting && id in w.db.messages)
        || b.defers == w.defers + multiset{id}
    ensures Step(w, s).defers == w.defers || exists x :: Step(w, s).defers == w.defers + multiset{x}
  {
  }

  lemma NotYetAwaited(w: World, s: Stmt, id: Id)
    requires Inv(w) && Guard(w, s)
    ensures var b := Step(w, s);
      id !in b.db.awaiting && (id in b.db.messages || id >= b.next) ==>
        id !in w.db.awaiting && (id in w.db.messages || id >= w.next)
  {
    StepKeeps(w, s);
    if id in w.db.awaiting { AskStored(w, id); OwnId(w, id); }
  }

  lemma PaidStep(w: World, s: Stmt, id: Id, r: nat)
    requires Inv(w) && Guard(w, s) && Paid(w, id, r)
    requires (s.Append? || s.AppendRouted?) ==> !IsNudge(Posted(s.m), id)
    ensures Paid(Step(w, s), id, r)
  {
    hide Inv, Guard, Step, Nudges, IsNudge;
    NudgesStep(w, s, id);
    StageZero(w, s, id);
    NotYetAwaited(w, s, id);
  }

  lemma {:induction false} PaidSteps(w: World, work: seq<Stmt>, id: Id, r: nat)
    requires Inv(w) && Safe(w, work) && Paid(w, id, r)
    requires forall s :: s in work ==> (s.Append? || s.AppendRouted?) ==> !IsNudge(Posted(s.m), id)
    ensures Paid(Steps(w, work), id, r)
    decreases |work|
  {
    hide Inv, Paid, Step;
    if work != [] {
      assert work[0] in work;
      PaidStep(w, work[0], id, r);
      StepKeeps(w, work[0]);
      PaidSteps(Step(w, work[0]), work[1..], id, r);
    }
  }

  /** A nudge of this ask cut between its notice and its stage: it will be repeated. */
  predicate Repeats(cfg: Config, db: DB, a: Act, id: Id) {
    && a.event.Chase? && a.event.id == id && a.cut in {1, 2}
    && |ChasePlan(db, id, a.event.now, cfg.finalGraceS, a.event.newId)| == 3
  }

  lemma OthersNudge(w: World, x: Id, now: Time, grace: int, newId: Id, id: Id)
    requires Inv(w) && x != id
    ensures forall s :: s in ChasePlan(w.db, x, now, grace, newId) ==> (s.Append? || s.AppendRouted?) ==> !IsNudge(Posted(s.m), id)
  {
    hide Inv;
    if AskOpen(w.db.awaiting, x) { OriginStored(w, x); }
  }

  lemma PaidAct(cfg: Config, w: World, a: Act, id: Id, r: nat)
    requires Inv(w) && Allowed(cfg, w, a) && Paid(w, id, r)
    ensures Paid(Perform(cfg, w, a), id, r + if Repeats(cfg, w.db, a, id) then 1 else 0)
  {
    hide Inv, Steps, Follows, Safe, Nudges;
    var e := a.event;
    var work := Work(cfg, w.db, e);
    EventSafe(cfg, w, e);
    SafePrefix(w, work, a.cut);
    if e.Chase? && e.id == id {
      if AskOpen(w.db.awaiting, id) {
        ChaseEffect(w, id, e.now, cfg.finalGraceS, e.newId, a.cut);
        ChaseStage(w.db, id, e.now, cfg.finalGraceS, e.newId);
        hide ChasePlan;
      } else {
        NotChased(w.db, id, e.now, cfg.finalGraceS, e.newId);
        PaidSteps(w, work[..a.cut], id, r);
      }
    } else if e.Chase? {
      OthersNudge(w, e.id, e.now, cfg.finalGraceS, e.newId, id);
      PaidSteps(w, work[..a.cut], id, r);
    } else {
      QuietWork(cfg, w, e);
      PaidSteps(w, work[..a.cut], id, r);
    }
  }

  lemma ChaseStage(db: DB, id: Id, now: Time, grace: int, newId: Id)
    requires AskOpen(db.awaiting, id)
    ensures var work := ChasePlan(db, id, now, grace, newId); |work| in {0, 3, 6} && (|work| == 3 ==> db.awaiting[id].nudgedStage == 0)
  {
  }

  /** How many nudges of this ask a run cuts between notice and stage. */
  ghost function RepeatsIn(cfg: Config, w: World, acts: seq<Act>, id: Id): nat
    requires Possible(cfg, w, acts)
    decreases |acts|
  {
    if acts == [] then 0
    else (if Repeats(cfg, w.db, acts[0], id) then 1 else 0) + RepeatsIn(cfg, Perform(cfg, w, acts[0]), acts[1..], id)
  }

  lemma {:induction false} PaidRun(cfg: Config, w: World, acts: seq<Act>, id: Id, r: nat)
    requires Inv(w) && Possible(cfg, w, acts) && Paid(w, id, r)
    ensures Paid(Run(cfg, w, acts), id, r + RepeatsIn(cfg, w, acts, id))
    decreases |acts|
  {
    hide Inv, Paid, Perform, Allowed, Repeats;
    if acts != [] {
      var once := if Repeats(cfg, w.db, acts[0], id) then 1 else 0;
      PaidAct(cfg, w, acts[0], id, r);
      PerformKeeps(cfg, w, acts[0]);
      PaidRun(cfg, Perform(cfg, w, acts[0]), acts[1..], id, r + once);
    }
  }

  /**
   In any run, cut anywhere, an ask is nudged at most once more than its clock was pushed out and
   a crash fell between a nudge's notice and its stage.
   */
  lemma NudgesAreBounded(cfg: Config, acts: seq<Act>, id: Id)
    requires Possible(cfg, START, acts)
    ensures var w := Run(cfg, START, acts); Nudges(w.log, id) <= 1 + w.defers[id] + RepeatsIn(cfg, START, acts, id)
  {
    StartHolds();
    StartPaid(id);
    hide Inv, Possible, Run, RepeatsIn, Nudges;
    PaidRun(cfg, START, acts, id, 0);
  }

  lemma StartPaid(id: Id)
    ensures Paid(START, id, 0)
  {
  }

  // ---- Time to live ----------------------------------------------------------------------------------

  lemma ClosePost(w: World, close: Stmt, m: Message, to: Address)
    requires close.CloseAwaiting? && Inv(w) && m.id >= w.next && Insertable(w.db.messages, m)
    ensures var w1 := Steps(w, [close, Append(m), Enqueue(m.id, to)]);
      w1.db.awaiting == CloseAsk(w.db.awaiting, close.id, close.reason) && w1.next == m.id + 1
  {
    hide Inv, Exec, Insertable;
    var p := [close, Append(m), Enqueue(m.id, to)];
    assert p == [close, p[1]] + [p[2]];
    hide Step, Steps;
    StepsConcat(w, [close, p[1]], [p[2]]);
    TwoSteps(w, close, p[1]);
    var w1 := Step(w, close);
    CloseStep(w, close);
    PostStep(w1, m);
    OneStep(Step(w1, p[1]), p[2]);
    QueueStep(Step(w1, p[1]), m.id, to);
  }

  lemma CloseStep(w: World, close: Stmt)
    requires close.CloseAwaiting?
    ensures var b := Step(w, close);
      b.db.awaiting == CloseAsk(w.db.awaiting, close.id, close.reason) && b.next == w.next && b.db.messages == w.db.messages
  {
  }

  lemma PostStep(w: World, m: Message)
    requires m.id >= w.next && Insertable(w.db.messages, m)
    ensures var b := Step(w, Append(m)); b.db.awaiting == w.db.awaiting && b.next == m.id + 1
  {
  }

  lemma QueueStep(w: World, id: Id, to: Address)
    ensures var b := Step(w, Enqueue(id, to)); b.db.awaiting == w.db.awaiting && b.next == w.next
  {
  }

  /** Parking one ask closes it, if its time was up, and keeps the rest as it was. */
  lemma ParkOne(w: World, x: Id, now: Time, newId: Id, id: Id)
    requires Inv(w) && newId >= w.next
    ensures var p := ParkPlan(w.db, x, now, newId); var w1 := Steps(w, p);
      && Inv(w1) && w1.next <= newId + ParkIds(p)
      && (id in w1.db.awaiting <==> id in w.db.awaiting)
      && (id in w.db.awaiting ==>
            w1.db.awaiting[id] == if x == id && TtlPassed(w.db.awaiting, id, now)
                                  then w.db.awaiting[id].(closed := Some(Parked)) else w.db.awaiting[id])
  {
    hide Inv, Follows, Safe, Steps;
    var p := ParkPlan(w.db, x, now, newId);
    assert p[..|p|] == p;
    ParkSafe(w, x, now, newId);
    SafeRuns(w, p, |p|);
    if p == [] {
      NoSteps(w);
    } else {
      AskStored(w, x);
      Unused(w, newId);
      var origin := w.db.messages[x];
      var m := NoticeTo(origin, origin.from, StillParked, true, Response, newId, now);
      assert p == [CloseAwaiting(x, Parked), Append(m), Enqueue(newId, origin.from)];
      ClosePost(w, p[0], m, origin.from);
    }
  }

  /**
   A tick of the sweeper leaves none of the listed asks open past its time to live, and closes
   nothing else.
   */
  lemma {:induction false} TickParks(w: World, order: seq<Id>, now: Time, newId: Id, id: Id)
    requires Inv(w) && newId >= w.next
    ensures var w2 := Steps(w, ParkEach(w.db, order, now, newId));
      && Inv(w2) && (id in w2.db.awaiting <==> id in w.db.awaiting)
      && (id in w.db.awaiting ==>
            w2.db.awaiting[id] == if id in order && TtlPassed(w.db.awaiting, id, now)
                                  then w.db.awaiting[id].(closed := Some(Parked)) else w.db.awaiting[id])
    decreases |order|
  {
    hide Inv, Steps, ParkPlan;
    if order == [] {
      NoSteps(w);
    } else {
      var p := ParkPlan(w.db, order[0], now, newId);
      var w1 := Steps(w, p);
      ParkOne(w, order[0], now, newId, id);
      StepsDb(w, p);
      StepsConcat(w, p, ParkEach(w1.db, order[1..], now, newId + ParkIds(p)));
      TickParks(w1, order[1..], now, newId + ParkIds(p), id);
    }
  }

  // ---- What a crash costs ------------------------------------------------------------------------

  /**
   The stage is recorded after the notices, so a crash in between repeats them, and one just
   before the ask is closed leaves it behind: kill a release after `cut` of its six statements
   and sweep again.  Its sender is told twice exactly when the cut fell after the terminal
   notice and before the stage; the ask is still open exactly when it fell between the last two.
   */
  lemma CrashedRelease(cfg: Config, w: World, id: Id, now: Time, newId: Id, cut: nat, later: Time, laterId: Id)
    requires Inv(w) && newId >= w.next && cut <= 6 && now <= later
    requires Overdue(w.db, id, now, cfg.finalGraceS) && w.db.awaiting[id].nudgedStage < 2
    requires var c := Perform(cfg, w, Act(Chase(id, now, newId), cut)); laterId >= c.next
    ensures var c := Perform(cfg, w, Act(Chase(id, now, newId), cut));
      var d := Steps(c, ChasePlan(c.db, id, later, cfg.finalGraceS, laterId));
      && Releases(d.log, id) == Releases(w.log, id) + (if cut in {3, 4} then 2 else 1)
      && (AskOpen(d.db.awaiting, id) <==> cut == 5)
  {
    hide Inv, Steps, Follows, Safe;
    OriginStored(w, id);
    hide Releases, Nudges;
    ChaseEffect(w, id, now, cfg.finalGraceS, newId, cut);
    var c := Perform(cfg, w, Act(Chase(id, now, newId), cut));
    var p := ChasePlan(c.db, id, later, cfg.finalGraceS, laterId);
    assert p[..|p|] == p;
    ChaseEffect(c, id, later, cfg.finalGraceS, laterId, |p|);
  }

  /** A nudge cut after its notice and before its stage is repeated. */
  lemma CrashedNudge(cfg: Config, w: World, id: Id, now: Time, newId: Id, cut: nat, later: Time, laterId: Id)
    requires Inv(w) && newId >= w.next && cut <= 3 && now <= later
    requires AskOpen(w.db.awaiting, id) && |ChasePlan(w.db, id, now, cfg.finalGraceS, newId)| == 3
    requires var c := Perform(cfg, w, Act(Chase(id, now, newId), cut)); laterId >= c.next
    requires !Overdue(w.db, id, later, cfg.finalGraceS)
    ensures var c := Perform(cfg, w, Act(Chase(id, now, newId), cut));
      var d := Steps(c, ChasePlan(c.db, id, later, cfg.finalGraceS, laterId));
      Nudges(d.log, id) == Nudges(w.log, id) + (if cut in {1, 2} then 2 else 1)
  {
    hide Inv, Steps, Follows, Safe;
    OriginStored(w, id);
    hide Releases, Nudges;
    ChaseEffect(w, id, now, cfg.finalGraceS, newId, cut);
    var c := Perform(cfg, w, Act(Chase(id, now, newId), cut));
    var p := ChasePlan(c.db, id, later, cfg.finalGraceS, laterId);
    assert p[..|p|] == p;
    ChaseEffect(c, id, later, cfg.finalGraceS, laterId, |p|);
  }
}
