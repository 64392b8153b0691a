/**
 Whose deadline an ask is chased by.  Its own, unless a send crashed before it opened the ask and the
 replay that opens it named no deadline where the send did.
 */
module OwnDeadlines {
  import opened Models
  import opened Store
  import opened Invariants
  import opened Verbs
  import opened Runs
  import opened VerbSafety
  import opened Retry
  import opened Ledger
  import opened Tearing
  import opened Deadlines

  /** No act of the run opens this ask by another deadline than it was sent with. */
  ghost predicate NeverMisdated(cfg: Config, w: World, acts: seq<Act>, id: Id)
    requires Possible(cfg, w, acts)
    decreases |acts|
  {
    acts == [] || (!Misdates(cfg, w, acts[0], id) && NeverMisdated(cfg, Perform(cfg, w, acts[0]), acts[1..], id))
  }

  /** Is this ask chased by the deadline its message carries? */
  predicate OwnDeadline(db: DB, id: Id) {
    id in db.awaiting ==> id in db.messages && db.awaiting[id].replyByS == db.messages[id].replyByS
  }

  lemma DatedOwn(w: World, id: Id)
    requires Inv(w)
    ensures Dated(AccountOf(BookOf(w), id)) <==> OwnDeadline(w.db, id)
  {
    if id in w.db.awaiting { AskStored(w, id); }
    hide Verdict, Releases;
  }

  /** An act leaves an ask with its own deadline exactly if it does not open it by another. */
  lemma MisdatedIff(cfg: Config, w: World, a: Act, id: Id)
    requires Inv(w) && OwnDeadline(w.db, id) && Allowed(cfg, w, a)
    ensures OwnDeadline(Perform(cfg, w, a).db, id) <==> !Misdates(cfg, w, a, id)
  {
    hide Inv, AccountOf, Steps, Tears, Belies, Misdates;
    PerformKeeps(cfg, w, a);
    DatedOwn(w, id);
    DatedOwn(Perform(cfg, w, a), id);
    ActAccount(cfg, w, a, id);
  }

  /**
   Whose deadline an ask is chased by.  From any state, whatever runs and wherever it is cut, an ask
   is chased by the deadline it was sent with, unless a replay of a send that crashed before it opened
   the ask names no deadline where the send did: the broker takes that for the same request, and
   opens the ask by its own default.
   */
  lemma {:induction false} DeadlineIsOwn(cfg: Config, w: World, acts: seq<Act>, id: Id)
    requires Inv(w) && OwnDeadline(w.db, id) && Possible(cfg, w, acts) && NeverMisdated(cfg, w, acts, id)
    ensures OwnDeadline(Run(cfg, w, acts).db, id)
    decreases |acts|
  {
    hide Inv, Steps, OwnDeadline, Misdates;
    if acts != [] {
      MisdatedIff(cfg, w, acts[0], id);
      PerformKeeps(cfg, w, acts[0]);
      DeadlineIsOwn(cfg, Perform(cfg, w, acts[0]), acts[1..], id);
    }
  }

  /** Once opened by another deadline, an ask is chased by that one for good. */
  lemma MisdatedForGood(cfg: Config, w: World, a: Act, later: seq<Act>, id: Id)
    requires Inv(w) && OwnDeadline(w.db, id) && Allowed(cfg, w, a) && Misdates(cfg, w, a, id)
    requires Possible(cfg, Perform(cfg, w, a), later)
    ensures var b := Run(cfg, Perform(cfg, w, a), later).db;
      id in b.messages ==> id in b.awaiting && b.awaiting[id].replyByS != b.messages[id].replyByS
  {
    hide Inv, Steps, Misdates;
    var w1 := Perform(cfg, w, a);
    MisdatedIff(cfg, w, a, id);
    PerformKeeps(cfg, w, a);
    AskStored(w1, id);
    ClosedStays(cfg, w1, later, id);
  }

  lemma OwnKept(a: World, b: World, id: Id)
    requires Inv(a) && Inv(b) && Follows(a, b) && id in a.db.awaiting && OwnDeadline(a.db, id)
    ensures OwnDeadline(b.db, id)
  {
    AskStored(a, id);
    if id in b.db.awaiting { AskStored(b, id); }
  }

  /**
   The deadline bound, by what the sender asked for.  After any run that neither strands this ask nor
   opens it by another deadline, and a sweep at `now` whose listing holds it if it is open, it is
   open after any later run only if its own deadline plus grace had not come by `now`.
   */
  lemma SentDeadlineBound(cfg: Config, acts: seq<Act>, order: seq<Id>, now: Time, newId: Id, later: seq<Act>, id: Id)
    requires Possible(cfg, START, acts) && NeverStranded(cfg, START, acts, id) && NeverMisdated(cfg, START, acts, id)
    requires var w := Run(cfg, START, acts);
      && newId >= w.next
      && (AskOpen(w.db.awaiting, id) ==> id in order)
      && Possible(cfg, Steps(w, ChaseEach(w.db, order, now, cfg.finalGraceS, newId)), later)
      && id in w.db.awaiting
    ensures var w := Run(cfg, START, acts);
      var b := Run(cfg, Steps(w, ChaseEach(w.db, order, now, cfg.finalGraceS, newId)), later).db;
      AskOpen(b.awaiting, id) && id in b.messages && b.messages[id].replyByS.Some? ==>
        now < b.messages[id].ts + b.messages[id].replyByS.value + cfg.finalGraceS
  {
    hide Inv, Steps, Follows, OwnDeadline, NeverStranded, NeverMisdated;
    StartHolds();
    assert OwnDeadline(START.db, id) by { StartOwn(id); }
    RunKeeps(cfg, START, acts);
    DeadlineIsOwn(cfg, START, acts, id);
    DeadlineBound(cfg, acts, order, now, newId, later, id);
    var w := Run(cfg, START, acts);
    var w1 := Steps(w, ChaseEach(w.db, order, now, cfg.finalGraceS, newId));
    SweepReleases(w, order, now, cfg.finalGraceS, newId, id);
    RunKeeps(cfg, w1, later);
    var w2 := Run(cfg, w1, later);
    FollowsTransitive(w, w1, w2);
    OwnKept(w, w2, id);
    OwnNotOverdue(w2.db, id, now, cfg.finalGraceS);
  }

  lemma StartOwn(id: Id)
    ensures OwnDeadline(START.db, id)
  {
  }

  lemma OwnNotOverdue(db: DB, id: Id, now: Time, grace: int)
    requires OwnDeadline(db, id) && !Overdue(db, id, now, grace)
    ensures AskOpen(db.awaiting, id) && id in db.messages && db.messages[id].replyByS.Some? ==>
      now < db.messages[id].ts + db.messages[id].replyByS.value + grace
  {
  }

  /** A replay that names no deadline opens the stored ask; by another deadline exactly if the ask was sent with one. */
  lemma FoundLate(cfg: Config, db: DB, f: Event, cut: nat, m: Message)
    requires Sends(db, f) && |Work(cfg, db, f)| <= cut
    requires var r := RequestOf(db, f);
      && FindOp(db.messages, r.operationId) == Some(m) && m.id in db.messages && db.messages[m.id] == m
      && m.from == r.from && SamePayload(m, r) && r.replyByS.Absent? && OpensThread(m.kind, m.to)
      && !r.from.Broker? && !r.from.Everyone? && !Blank(r.body)
    requires m.id !in db.awaiting
    ensures (Misdated(cfg, db, Act(f, cut)) <==> m.replyByS != cfg.defaultReplyByS)
    ensures Subject(cfg, db, f) == Some(m.id)
  {
    hide FindOp, RouteOf, EnqueueEach, PassEach, SamePayload, OpenFor;
    assert SamePayload(m, RequestOf(db, f)) ==> m.kind == RequestOf(db, f).kind && m.to == RequestOf(db, f).to by {
      SameKind(m, RequestOf(db, f));
    }
    if f.Degraded? { assert SamePayload(m, f.args) <==> SamePayload(m, RequestOf(db, f)) by { SameForOp(m, f.args, f.op); } }
  }

  lemma SameKind(m: Message, a: SendArgs)
    ensures SamePayload(m, a) ==> m.kind == a.kind && m.to == a.to
  {
  }

  lemma SameForOp(m: Message, a: SendArgs, op: string)
    ensures SamePayload(m, a) <==> SamePayload(m, a.(operationId := Some(op)))
  {
  }

  /** The same request, except that it leaves the deadline to the broker. */
  predicate DropsDeadline(r: SendArgs, a: SendArgs, id: Id, at: Time) {
    r.replyByS.Absent? && SameRequest(r.(replyByS := a.replyByS), a, id, at)
  }

  lemma DropPayload(cfg: Config, a: SendArgs, r: SendArgs, id: Id, at: Time)
    requires DropsDeadline(r, a, id, at) && !NullThread(r)
    ensures SamePayload(Compose(cfg, a, id, at), r)
    ensures r.operationId == a.operationId && r.operationId.Some? && r.from == a.from && r.body == a.body && r.replyByS.Absent?
    ensures var m := Compose(cfg, a, id, at);
      && m.id == id && m.operationId == a.operationId && m.from == a.from && m.kind == a.kind && m.to == a.to
      && (OpensThread(a.kind, a.to) ==> m.replyByS == ReplyBy(cfg, a.replyByS))
  {
  }

  /**
   A deadline is lost between the two.  A send of a directed ask, by any path, got past storing it;
   whatever ran since, the ask has not been opened.  A complete retry by any path that is the same but
   names no deadline is taken for the same request, and opens the ask by another deadline exactly if the
   send asked for one that is not the broker's default.
   */
  lemma ForgottenDeadline(cfg: Config, w: World, send: Act, acts: seq<Act>, id: Id, targets: seq<Address>, retry: Act)
    requires Inv(w) && Allowed(cfg, w, send) && Sends(w.db, send.event) && send.cut > StoredBy(send.event)
    requires SendAnswer(cfg, w.db, send.event) == Sent(id, targets, false)
    requires Possible(cfg, Perform(cfg, w, send), acts)
    requires var w2 := Run(cfg, Perform(cfg, w, send), acts); var a := RequestOf(w.db, send.event);
      && OpensThread(a.kind, a.to) && !a.from.Everyone? && id in w2.db.messages && id !in w2.db.awaiting
      && Sends(w2.db, retry.event) && |Work(cfg, w2.db, retry.event)| <= retry.cut
      && DropsDeadline(RequestOf(w2.db, retry.event), a, id, send.event.now) && !NullThread(RequestOf(w2.db, retry.event))
    ensures var w2 := Run(cfg, Perform(cfg, w, send), acts);
      Misdates(cfg, w2, retry, id) <==> ReplyBy(cfg, RequestOf(w.db, send.event).replyByS) != cfg.defaultReplyByS
  {
    hide Inv, Steps, SendAnswer, DropsDeadline, NullThread, RequestOf, Misdated, Subject, SamePayload, FindOp;
    var e := send.event;
    var a := RequestOf(w.db, e);
    var w2 := Run(cfg, Perform(cfg, w, send), acts);
    DropPayload(cfg, a, RequestOf(w2.db, retry.event), id, e.now);
    FirstStores(cfg, w.db, e, id, targets);
    hide Work;
    SentIsFound(cfg, w, send, acts, id, targets);
    FoundLate(cfg, w2.db, retry.event, retry.cut, Compose(cfg, a, id, e.now));
  }
}
