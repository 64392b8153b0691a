/**
 Sending again.  Until a message is purged its operation id names it alone, an identical
 retry lands on it whoever has registered since, its rows fill the first route snapshot and
 nothing else, and nothing already settled or closed comes back.
 */
module Retry {
  import opened Models
  import opened Store
  import opened Invariants
  import opened Statements
  import opened Verbs
  import opened Runs
  import opened VerbSafety

  /** At most one message per operation id, in every reachable world. */
  lemma OneMessagePerOperation(cfg: Config, w: World, acts: seq<Act>, i: Id, j: Id)
    requires Inv(w) && Possible(cfg, w, acts)
    ensures var ms := Run(cfg, w, acts).db.messages; i in ms && j in ms && SameOp(ms[i], ms[j]) ==> i == j
  {
    RunKeeps(cfg, w, acts);
  }

  /** A settled row stays settled, however the run goes on, until its message is purged. */
  lemma SettledStays(cfg: Config, w: World, acts: seq<Act>, k: Key)
    requires Inv(w) && Possible(cfg, w, acts)
    requires k in w.db.deliveries && IsSettled(w.db.deliveries[k].state)
    ensures var b := Run(cfg, w, acts).db;
      k.msg in b.messages ==> k in b.deliveries && IsSettled(b.deliveries[k].state)
  {
    hide Inv, Follows;
    RunKeeps(cfg, w, acts);
    if k.msg in Run(cfg, w, acts).db.messages { SettledKept(w, Run(cfg, w, acts), k); }
  }

  lemma SettledKept(a: World, b: World, k: Key)
    requires Follows(a, b) && k in a.db.deliveries && IsSettled(a.db.deliveries[k].state) && k.msg in b.db.messages
    ensures k in b.db.deliveries && IsSettled(b.db.deliveries[k].state)
  {
  }

  /** A closed ask keeps its reason, and no ask's deadlines ever move. */
  lemma ClosedStays(cfg: Config, w: World, acts: seq<Act>, id: Id)
    requires Inv(w) && Possible(cfg, w, acts) && id in w.db.awaiting
    ensures var b := Run(cfg, w, acts).db;
      id in b.messages ==>
        && b.messages[id] == w.db.messages[id] && id in b.awaiting
        && b.awaiting[id].replyByS == w.db.awaiting[id].replyByS
        && b.awaiting[id].expiresAt == w.db.awaiting[id].expiresAt
        && (w.db.awaiting[id].closed.Some? ==> b.awaiting[id].closed == w.db.awaiting[id].closed)
  {
    RunKeeps(cfg, w, acts);
    AskStored(w, id);
    OwnId(w, id);
  }

  // ---- An identical retry -------------------------------------------------------------

  /** An explicit null thread on an ask that opens one: the ask is stored under a thread of its own. */
  predicate NullThread(a: SendArgs) { a.conversationId.Null? && OpensThread(a.kind, a.to) }

  /**
   The request that made a message is that message's payload, unless it asked for a null
   thread where one was opened; the intent a degraded client keeps always is.
   */
  lemma OwnPayload(cfg: Config, a: SendArgs, id: Id, now: Time)
    ensures SamePayload(Compose(cfg, a, id, now), a) <==> !NullThread(a)
    ensures SamePayload(Compose(cfg, a, id, now), IntentOf(a, id, now).args)
  {
  }

  lemma RetryFinds(w: World, m: Message)
    requires Inv(w) && m.id in w.db.messages && w.db.messages[m.id] == m && m.operationId.Some?
    ensures FindOp(w.db.messages, m.operationId) == Some(m)
  {
    assert HasOp(w.db.messages, m.operationId.value);
    FoundOp(w.db.messages, w.next, m.operationId);
    var f := FindOp(w.db.messages, m.operationId).value;
    assert SameOp(w.db.messages[f.id], w.db.messages[m.id]);
  }

  // ---- The route is filled exactly -------------------------------------------------------

  /** The answer a sending event gives: directly, while degraded, or by replaying an intent. */
  ghost function SendAnswer(cfg: Config, db: DB, e: Event): Answer
    requires e.Send? || e.Degraded? || e.Reconcile?
  {
    match e
    case Send(roster, a, now, newId) => SendPlan(cfg, db, roster, a, now, newId).answer
    case Degraded(roster, a, op, id, now) => DegradedPlan(cfg, db, roster, a, op, id, now).answer
    case Reconcile(roster, op, now, newId) => ReconcilePlan(cfg, db, roster, op, now, newId).answer
  }

  lemma FanMember(id: Id, targets: seq<Address>, t: Address)
    requires t in targets
    ensures Enqueue(id, t) in EnqueueEach(id, targets)
  {
    var i :| 0 <= i < |targets| && targets[i] == t;
    assert EnqueueEach(id, targets)[i] == Enqueue(id, t);
  }

  /** A sending event enqueues every target it names. */
  lemma SendEnqueues(cfg: Config, db: DB, e: Event, id: Id, targets: seq<Address>, replayed: bool, t: Address)
    requires (e.Send? || e.Degraded? || e.Reconcile?) && SendAnswer(cfg, db, e) == Sent(id, targets, replayed)
    requires t in targets
    ensures Enqueue(id, t) in Work(cfg, db, e)
  {
    FanMember(id, targets, t);
  }

  /** A first send stores its route; a replay uses the stored one. */
  lemma SendRoutes(cfg: Config, w: World, e: Event, id: Id, targets: seq<Address>, replayed: bool)
    requires Inv(w) && (e.Send? || e.Degraded? || e.Reconcile?) && SendAnswer(cfg, w.db, e) == Sent(id, targets, replayed)
    ensures replayed ==> id in w.db.messages && id in w.db.routes && w.db.routes[id] == targets
    ensures !replayed ==> exists m: Message :: m.id == id && AppendRouted(m, targets) in Work(cfg, w.db, e)
  {
    if replayed {
      var op := if e.Send? then e.args.operationId else if e.Degraded? then Some(e.op)
                else w.db.outbound[e.op].args.operationId;
      FoundOp(w.db.messages, w.next, op);
    } else {
      var a := if e.Send? then e.args else if e.Degraded? then e.args.(operationId := Some(e.op))
               else w.db.outbound[e.op].args;
      var m := Compose(cfg, a, id, e.now);
      assert AppendRouted(m, targets) in Work(cfg, w.db, e);
    }
  }

  /** A row a safe piece of work enqueues is there when the work is done. */
  lemma {:induction false} EnqueueSticks(w: World, work: seq<Stmt>, id: Id, t: Address)
    requires Inv(w) && Safe(w, work) && Enqueue(id, t) in work
    ensures id in Steps(w, work).db.messages ==> Key(id, t) in Steps(w, work).db.deliveries
    decreases |work|
  {
    hide Inv;
    var w1 := Step(w, work[0]);
    StepKeeps(w, work[0]);
    if work[0] == Enqueue(id, t) {
      SafeRuns(w1, work[1..], |work| - 1);
      assert work[1..][..|work| - 1] == work[1..];
      assert Key(id, t) in w1.db.deliveries;
    } else {
      EnqueueSticks(w1, work[1..], id, t);
    }
  }

  /** So is a route. */
  lemma {:induction false} RouteSticks(w: World, work: seq<Stmt>, m: Message, targets: seq<Address>)
    requires Inv(w) && Safe(w, work) && AppendRouted(m, targets) in work
    ensures m.id in Steps(w, work).db.messages ==>
      && m.id in Steps(w, work).db.routes && Steps(w, work).db.routes[m.id] == targets
      && Steps(w, work).db.messages[m.id] == m
    decreases |work|
  {
    hide Inv;
    var w1 := Step(w, work[0]);
    StepKeeps(w, work[0]);
    if work[0] == AppendRouted(m, targets) {
      SafeRuns(w1, work[1..], |work| - 1);
      assert work[1..][..|work| - 1] == work[1..];
      Unused(w, m.id);
    } else {
      RouteSticks(w1, work[1..], m, targets);
    }
  }

  /**
   From the end of any completed send on, whatever follows, the message's rows are exactly
   its first route snapshot: no target lost, nobody added.
   */
  lemma RouteFilled(cfg: Config, w: World, send: Act, acts: seq<Act>, id: Id, targets: seq<Address>, replayed: bool)
    requires Inv(w) && Allowed(cfg, w, send) && Whole(cfg, w, send)
    requires send.event.Send? || send.event.Degraded? || send.event.Reconcile?
    requires SendAnswer(cfg, w.db, send.event) == Sent(id, targets, replayed)
    requires Possible(cfg, Perform(cfg, w, send), acts)
    ensures var b := Run(cfg, Perform(cfg, w, send), acts).db;
      id in b.messages ==>
        && id in b.routes && b.routes[id] == targets
        && forall a :: Key(id, a) in b.deliveries <==> a in targets
  {
    hide Inv, Steps;
    var work := Work(cfg, w.db, send.event);
    var w1 := Perform(cfg, w, send);
    var w2 := Run(cfg, w1, acts);
    assert work[..send.cut] == work;
    PerformKeeps(cfg, w, send);
    EventSafe(cfg, w, send.event);
    RunKeeps(cfg, w1, acts);
    if id in w2.db.messages {
      SendRoutes(cfg, w, send.event, id, targets, replayed);
      if replayed {
        OwnId(w, id);
      } else {
        var m: Message :| m.id == id && AppendRouted(m, targets) in work;
        RouteSticks(w, work, m, targets);
        SentIdUsed(w, work, m, targets);
      }
      StillStored(w1, w2, id);
      forall t | t in targets ensures Key(id, t) in w2.db.deliveries {
        SendEnqueues(cfg, w.db, send.event, id, targets, replayed, t);
        EnqueueSticks(w, work, id, t);
      }
      RowsInRoute(w2, id);
    }
  }

  /** A route snapshot never changes, and no run gives its message a row outside it. */
  lemma RowsStayInRoute(cfg: Config, w: World, acts: seq<Act>, id: Id, a: Address)
    requires Inv(w) && Possible(cfg, w, acts) && id in w.db.routes
    ensures var b := Run(cfg, w, acts).db;
      id in b.messages ==>
        id in b.routes && b.routes[id] == w.db.routes[id] && (Key(id, a) in b.deliveries ==> a in w.db.routes[id])
  {
    hide Inv, Follows;
    var b := Run(cfg, w, acts);
    RunKeeps(cfg, w, acts);
    if id in b.db.messages {
      RouteKept(w, b, id);
      RowsInRoute(b, id);
    }
  }

  lemma RouteKept(a: World, b: World, id: Id)
    requires Follows(a, b) && id in a.db.routes && id in b.db.messages
    ensures id in b.db.routes && b.db.routes[id] == a.db.routes[id]
  {
  }

  /** An id that a safe piece of work appends lies below the next fresh one. */
  lemma {:induction false} SentIdUsed(w: World, work: seq<Stmt>, m: Message, targets: seq<Address>)
    requires Inv(w) && Safe(w, work) && AppendRouted(m, targets) in work
    ensures m.id < Steps(w, work).next
    decreases |work|
  {
    hide Inv;
    var w1 := Step(w, work[0]);
    StepKeeps(w, work[0]);
    if work[0] == AppendRouted(m, targets) {
      SafeRuns(w1, work[1..], |work| - 1);
      assert work[1..][..|work| - 1] == work[1..];
    } else {
      SentIdUsed(w1, work[1..], m, targets);
    }
  }

  lemma StillStored(a: World, b: World, id: Id)
    requires Follows(a, b) && id < a.next && id in b.db.messages
    ensures id in a.db.messages && b.db.messages[id] == a.db.messages[id]
  {
  }

  lemma RowsInRoute(w: World, id: Id)
    requires Inv(w) && id in w.db.routes
    ensures forall a :: Key(id, a) in w.db.deliveries ==> a in w.db.routes[id]
  {
  }

  // ---- The identical retry, by whatever path -------------------------------------------------

  /** The request a sending event carries: its own, or the queued intent it replays. */
  function RequestOf(db: DB, e: Event): SendArgs
    requires e.Send? || e.Degraded? || (e.Reconcile? && e.op in db.outbound)
  {
    match e
    case Send(_, a, _, _) => a
    case Degraded(_, a, op, _, _) => a.(operationId := Some(op))
    case Reconcile(_, op, _, _) => db.outbound[op].args
  }

  predicate Sends(db: DB, e: Event) { e.Send? || e.Degraded? || (e.Reconcile? && e.op in db.outbound) }

  /** The same request under the same operation id, as first made or as a degraded client queued it. */
  predicate SameRequest(r: SendArgs, a: SendArgs, id: Id, at: Time) {
    && r.operationId.Some? && r.operationId == a.operationId
    && (r.(messageId := None) == a.(messageId := None) || r == IntentOf(a, id, at).args)
  }

  /** Which of an event's statements stores its message. */
  function StoredBy(e: Event): nat { if e.Degraded? then 1 else 0 }

  lemma FirstStores(cfg: Config, db: DB, e: Event, id: Id, targets: seq<Address>)
    requires Sends(db, e) && SendAnswer(cfg, db, e) == Sent(id, targets, false)
    ensures var a := RequestOf(db, e);
      && |Work(cfg, db, e)| > StoredBy(e)
      && Work(cfg, db, e)[StoredBy(e)] == AppendRouted(Compose(cfg, a, id, e.now), targets)
      && !Blank(a.body) && !a.from.Broker?
  {
    hide FindOp, Targets, EnqueueEach, PassEach;
    if e.Degraded? {
      var a := e.args.(operationId := Some(e.op));
      assert DegradedPlan(cfg, db, e.roster, e.args, e.op, e.id, e.now) == DegradedSend(cfg, e.roster, a, e.op, id, e.now);
    } else {
      FirstSendStores(cfg, db, e.roster, RequestOf(db, e), e.now, e.newId, id, targets);
    }
  }

  lemma FirstSendStores(cfg: Config, db: DB, roster: Roster, a: SendArgs, now: Time, newId: Id, id: Id, targets: seq<Address>)
    requires SendPlan(cfg, db, roster, a, now, newId).answer == Sent(id, targets, false)
    ensures var work := SendPlan(cfg, db, roster, a, now, newId).work;
      |work| > 0 && work[0] == AppendRouted(Compose(cfg, a, id, now), targets) && !Blank(a.body) && !a.from.Broker?
  {
    hide FindOp;
  }

  /** What a sending event answers when its operation id finds a message that records the request. */
  lemma FoundAnswer(cfg: Config, db: DB, f: Event, a: SendArgs, id: Id, at: Time, targets: seq<Address>)
    requires Sends(db, f) && SameRequest(RequestOf(db, f), a, id, at) && !Blank(a.body) && !a.from.Broker?
    requires FindOp(db.messages, a.operationId) == Some(Compose(cfg, a, id, at)) && id in db.routes && db.routes[id] == targets
    ensures SendAnswer(cfg, db, f)
         == if !f.Degraded? && a.from.Everyone? then Refusal(BadArgs)
            else if NullThread(RequestOf(db, f)) then Refusal(OperationConflict)
            else Sent(id, targets, true)
  {
    var m := Compose(cfg, a, id, at);
    var r := RequestOf(db, f);
    SamePayloadIff(cfg, a, r, id, at);
    if f.Degraded? {
      assert SamePayload(m, f.args) <==> SamePayload(m, r);
    }
    hide FindOp, SamePayload;
  }

  lemma SamePayloadIff(cfg: Config, a: SendArgs, r: SendArgs, id: Id, at: Time)
    requires SameRequest(r, a, id, at)
    ensures SamePayload(Compose(cfg, a, id, at), r) <==> !NullThread(r)
    ensures r.from == a.from && r.body == a.body && a.operationId.Some?
    ensures var m := Compose(cfg, a, id, at); m.id == id && m.operationId == a.operationId
  {
  }

  /** What a send stored once it got past that statement is found under its operation id until it is purged. */
  lemma SentIsFound(cfg: Config, w: World, send: Act, acts: seq<Act>, id: Id, targets: seq<Address>)
    requires Inv(w) && Allowed(cfg, w, send) && Sends(w.db, send.event) && send.cut > StoredBy(send.event)
    requires SendAnswer(cfg, w.db, send.event) == Sent(id, targets, false) && RequestOf(w.db, send.event).operationId.Some?
    requires Possible(cfg, Perform(cfg, w, send), acts)
    ensures var db := Run(cfg, Perform(cfg, w, send), acts).db; var a := RequestOf(w.db, send.event);
      var m := Compose(cfg, a, id, send.event.now);
      id in db.messages ==>
        && db.messages[id] == m && FindOp(db.messages, a.operationId) == Some(m)
        && id in db.routes && db.routes[id] == targets
  {
    hide Inv, Steps, SendAnswer, Safe, RequestOf;
    var e := send.event;
    var a := RequestOf(w.db, e);
    var m := Compose(cfg, a, id, e.now);
    var w1 := Perform(cfg, w, send);
    var w2 := Run(cfg, w1, acts);
    var work := Work(cfg, w.db, e);
    assert m.id == id && m.operationId == a.operationId;
    hide Compose;
    FirstStores(cfg, w.db, e, id, targets);
    EventSafe(cfg, w, e);
    SafePrefix(w, work, send.cut);
    assert work[..send.cut][StoredBy(e)] == AppendRouted(m, targets);
    PerformKeeps(cfg, w, send);
    RunKeeps(cfg, w1, acts);
    hide Work;
    if id in w2.db.messages {
      RouteSticks(w, work[..send.cut], m, targets);
      SentIdUsed(w, work[..send.cut], m, targets);
      StillStored(w1, w2, id);
      RouteKept(w1, w2, id);
      RetryFinds(w2, m);
    }
  }

  /**
   An identical retry never reaches anyone new.  Whatever path the first attempt took - the broker,
   a degraded client, a replayed intent - and whatever happened since it got past the statement
   that stores its message, the same request under the same operation id, by any path, answers with
   the same message and the first route snapshot.  It conflicts exactly when it names a null thread
   where one was opened; only the broadcast address, which a degraded client lets through, is
   refused by the broker as a sender.
   */
  lemma IdenticalRetry(cfg: Config, w: World, send: Act, acts: seq<Act>, id: Id, targets: seq<Address>, retry: Event)
    requires Inv(w) && Allowed(cfg, w, send) && Sends(w.db, send.event) && send.cut > StoredBy(send.event)
    requires SendAnswer(cfg, w.db, send.event) == Sent(id, targets, false)
    requires Possible(cfg, Perform(cfg, w, send), acts)
    requires var w2 := Run(cfg, Perform(cfg, w, send), acts);
      Sends(w2.db, retry) && SameRequest(RequestOf(w2.db, retry), RequestOf(w.db, send.event), id, send.event.now)
    ensures var w2 := Run(cfg, Perform(cfg, w, send), acts); var r := RequestOf(w2.db, retry);
      id in w2.db.messages ==>
        SendAnswer(cfg, w2.db, retry)
        == if !retry.Degraded? && r.from.Everyone? then Refusal(BadArgs)
           else if NullThread(r) then Refusal(OperationConflict)
           else Sent(id, targets, true)
  {
    hide Inv, Steps, SendAnswer, SameRequest, NullThread, RequestOf;
    var e := send.event;
    var a := RequestOf(w.db, e);
    var w2 := Run(cfg, Perform(cfg, w, send), acts);
    SamePayloadIff(cfg, a, RequestOf(w2.db, retry), id, e.now);
    hide Compose, Work;
    FirstStores(cfg, w.db, e, id, targets);
    SentIsFound(cfg, w, send, acts, id, targets);
    if id in w2.db.messages { FoundAnswer(cfg, w2.db, retry, a, id, e.now, targets); }
  }
}
