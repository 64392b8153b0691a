/**
 A degraded send that dies after any statement from the stored message on is finished by
 reconciling its outbox intent, whatever registry the broker has by then: but for the passes the
 tables end up the same as if it had not died (src/client.ts:268-313, src/broker/router.ts:271-316, 461-481).
 */
module CrashSafe {
  import opened Models
  import opened Store
  import opened Invariants
  import opened Verbs
  import opened VerbSafety
  import opened Retry

  // ---- Doing fan-out, passes and opening again ---------------------------------------------

  lemma FanStep(db: DB, id: Id, targets: seq<Address>)
    requires targets != []
    ensures var n := |targets| - 1;
      ExecAll(db, EnqueueEach(id, targets)) == DoEnqueue(ExecAll(db, EnqueueEach(id, targets[..n])), Key(id, targets[n]))
  {
    var n := |targets| - 1;
    assert EnqueueEach(id, targets) == EnqueueEach(id, targets[..n]) + [Enqueue(id, targets[n])];
    ExecOne(db, EnqueueEach(id, targets[..n]), Enqueue(id, targets[n]));
  }

  /** Fan-out adds the missing rows and touches nothing else. */
  lemma {:induction false} FanRows(db: DB, id: Id, targets: seq<Address>)
    ensures var d := ExecAll(db, EnqueueEach(id, targets));
      && d == db.(deliveries := d.deliveries, cursor := d.cursor)
      && (forall t :: t in targets ==> Key(id, t) in d.deliveries)
      && (forall k :: k in db.deliveries ==> k in d.deliveries && d.deliveries[k] == db.deliveries[k])
      && (forall k :: k in d.deliveries ==> k in db.deliveries || (k.msg == id && k.addr in targets))
    decreases |targets|
  {
    if targets == [] {
      assert EnqueueEach(id, targets) == [];
    } else {
      FanStep(db, id, targets);
      FanRows(db, id, targets[..|targets| - 1]);
    }
  }

  /** Enqueueing rows that are all there changes nothing. */
  lemma {:induction false} FanIdle(db: DB, id: Id, targets: seq<Address>)
    requires forall t :: t in targets ==> Key(id, t) in db.deliveries
    ensures ExecAll(db, EnqueueEach(id, targets)) == db
    decreases |targets|
  {
    if targets == [] {
      assert EnqueueEach(id, targets) == [];
    } else {
      FanStep(db, id, targets);
      assert targets[|targets| - 1] in targets;
      FanIdle(db, id, targets[..|targets| - 1]);
    }
  }

  /** Fan-out resumed from any point ends where one uninterrupted fan-out ends. */
  lemma FanResumes(db: DB, id: Id, targets: seq<Address>, j: nat)
    requires j <= |targets|
    ensures ExecAll(ExecAll(db, EnqueueEach(id, targets[..j])), EnqueueEach(id, targets))
         == ExecAll(db, EnqueueEach(id, targets))
  {
    var part := EnqueueEach(id, targets[..j]);
    var rest := EnqueueEach(id, targets[j..]);
    assert EnqueueEach(id, targets) == part + rest;
    var d := ExecAll(db, part);
    FanRows(db, id, targets[..j]);
    FanIdle(d, id, targets[..j]);
    ExecAllConcat(d, part, rest);
    ExecAllConcat(db, part, rest);
  }

  /** The whole fan-out holds no row back, wherever it is cut. */
  lemma FanPrefix(id: Id, targets: seq<Address>, j: nat)
    requires j <= |targets|
    ensures EnqueueEach(id, targets)[..j] == EnqueueEach(id, targets[..j])
  {
  }

  function PassKeys(id: Id, boxes: seq<Address>): set<Key> { set a | a in boxes :: Key(id, a) }

  lemma {:induction false} PassesAdd(db: DB, id: Id, boxes: seq<Address>)
    ensures ExecAll(db, PassEach(id, boxes)) == db.(passes := db.passes + PassKeys(id, boxes))
    decreases |boxes|
  {
    if boxes == [] {
      assert PassEach(id, boxes) == [];
    } else {
      var n := |boxes| - 1;
      assert PassEach(id, boxes) == PassEach(id, boxes[..n]) + [PassProject(id, boxes[n])];
      hide ExecAll, PassKeys;
      ExecOne(db, PassEach(id, boxes[..n]), PassProject(id, boxes[n]));
      PassesAdd(db, id, boxes[..n]);
      PassKeysSnoc(id, boxes);
    }
  }

  lemma PassKeysSnoc(id: Id, boxes: seq<Address>)
    requires boxes != []
    ensures var n := |boxes| - 1; PassKeys(id, boxes) == PassKeys(id, boxes[..n]) + {Key(id, boxes[n])}
  {
  }

  // ---- The send and its replay ------------------------------------------------------------

  /** The parts of a degraded send after its intent and its routed message. */
  datatype Tail = Tail(id: Id, targets: seq<Address>, passes: seq<Address>, open: seq<Stmt>)

  function TailWork(t: Tail): seq<Stmt> { EnqueueEach(t.id, t.targets) + PassEach(t.id, t.passes) + t.open }

  /** At most one statement, opening this message's ask. */
  predicate Opening(t: Tail) { t.open == [] || (|t.open| == 1 && t.open[0].OpenAwaiting? && t.open[0].id == t.id) }

  ghost function Opened(db: DB, t: Tail): DB
    requires Opening(t)
  {
    if t.open == [] then db else Exec(db, t.open[0])
  }

  /** What a replay writes: the same tail, its ask opened only if it is not there. */
  ghost function Replayed(db: DB, t: Tail, passes: seq<Address>): DB
    requires Opening(t)
  {
    var d := ExecAll(db, EnqueueEach(t.id, t.targets));
    var e := d.(passes := d.passes + PassKeys(t.id, passes));
    if t.id in e.awaiting then e else Opened(e, t)
  }

  /** The passes a tail has written after some of its statements. */
  function PassesRun(t: Tail, cut: nat): seq<Address> {
    if cut <= |t.targets| then [] else if cut - |t.targets| <= |t.passes| then t.passes[..cut - |t.targets|] else t.passes
  }

  /**
   Replaying a tail after any part of it equals replaying it from the start: the rows, the cursor
   and the ask come out the same, whoever replays; the passes are those of both.
   */
  lemma ReplayAnyCut(db: DB, t: Tail, passes: seq<Address>, cut: nat)
    requires Opening(t) && t.id !in db.awaiting && cut <= |TailWork(t)|
    ensures Replayed(ExecAll(db, TailWork(t)[..cut]), t, passes)
         == Replayed(db, t, passes).(passes := db.passes + PassKeys(t.id, PassesRun(t, cut)) + PassKeys(t.id, passes))
  {
    if cut <= |t.targets| {
      ReplayMidFan(db, t, passes, cut);
    } else {
      ReplayAfterFan(db, t, passes, cut);
    }
  }

  lemma ReplayMidFan(db: DB, t: Tail, passes: seq<Address>, cut: nat)
    requires Opening(t) && cut <= |t.targets|
    ensures Replayed(ExecAll(db, TailWork(t)[..cut]), t, passes) == Replayed(db, t, passes)
    ensures Replayed(db, t, passes).passes == db.passes + PassKeys(t.id, []) + PassKeys(t.id, passes)
  {
    ReplayedPasses(db, t, passes);
    var fan := EnqueueEach(t.id, t.targets);
    assert TailWork(t)[..cut] == fan[..cut];
    FanPrefix(t.id, t.targets, cut);
    FanResumes(db, t.id, t.targets, cut);
    hide ExecAll, Exec, EnqueueEach, PassEach, PassKeys, Opened;
  }

  lemma ReplayedPasses(db: DB, t: Tail, passes: seq<Address>)
    requires Opening(t)
    ensures Replayed(db, t, passes).passes == db.passes + PassKeys(t.id, []) + PassKeys(t.id, passes)
  {
    FanRows(db, t.id, t.targets);
    assert PassKeys(t.id, []) == {};
    hide ExecAll, EnqueueEach, PassKeys;
  }

  lemma ReplayAfterFan(db: DB, t: Tail, passes: seq<Address>, cut: nat)
    requires Opening(t) && t.id !in db.awaiting && |t.targets| < cut <= |TailWork(t)|
    ensures Replayed(ExecAll(db, TailWork(t)[..cut]), t, passes)
         == Replayed(db, t, passes).(passes := db.passes + PassKeys(t.id, PassesRun(t, cut)) + PassKeys(t.id, passes))
  {
    var fan := EnqueueEach(t.id, t.targets);
    var j := cut - |fan|;
    var tail := (PassEach(t.id, t.passes) + t.open)[..j];
    hide ExecAll, Exec, PassEach, PassKeys, Opened, Replayed;
    assert TailWork(t)[..cut] == fan + tail;
    hide EnqueueEach, TailWork;
    FanRows(db, t.id, t.targets);
    ReplayedFull(db, t, passes);
    ExecAllConcat(db, fan, tail);
    ReplayLateCut(ExecAll(db, fan), t, passes, tail, j);
  }

  lemma ReplayLateCut(full: DB, t: Tail, passes: seq<Address>, tail: seq<Stmt>, j: nat)
    requires Opening(t) && t.id !in full.awaiting && forall x :: x in t.targets ==> Key(t.id, x) in full.deliveries
    requires j <= |t.passes| + |t.open| && tail == (PassEach(t.id, t.passes) + t.open)[..j]
    ensures Replayed(ExecAll(full, tail), t, passes)
         == Replayed(full, t, passes).(passes := full.passes + PassKeys(t.id, if j <= |t.passes| then t.passes[..j] else t.passes)
                                                 + PassKeys(t.id, passes))
  {
    AfterFan(full, t, tail, j);
    var d := ExecAll(full, tail);
    hide ExecAll, Exec, EnqueueEach, PassEach, PassKeys, Opened, Replayed;
    FanIdle(full, t.id, t.targets);
    FanIdle(d, t.id, t.targets);
    ReplayLate(full, d, t, passes, PassKeys(t.id, if j <= |t.passes| then t.passes[..j] else t.passes));
  }

  lemma ReplayedFull(db: DB, t: Tail, passes: seq<Address>)
    requires Opening(t)
    ensures var full := ExecAll(db, EnqueueEach(t.id, t.targets));
      Replayed(full, t, passes) == Replayed(db, t, passes) && ExecAll(full, EnqueueEach(t.id, t.targets)) == full
  {
    FanRows(db, t.id, t.targets);
    FanIdle(ExecAll(db, EnqueueEach(t.id, t.targets)), t.id, t.targets);
    hide ExecAll, Exec, EnqueueEach, PassKeys, Opened;
  }

  lemma ReplayLate(full: DB, d: DB, t: Tail, passes: seq<Address>, before: set<Key>)
    requires Opening(t) && t.id !in full.awaiting
    requires d == full.(passes := full.passes + before, awaiting := d.awaiting)
    requires d.awaiting == full.awaiting || (t.open != [] && d.awaiting == Opened(full, t).awaiting)
    requires ExecAll(d, EnqueueEach(t.id, t.targets)) == d && ExecAll(full, EnqueueEach(t.id, t.targets)) == full
    ensures Replayed(d, t, passes) == Replayed(full, t, passes).(passes := full.passes + before + PassKeys(t.id, passes))
  {
    hide ExecAll, EnqueueEach, PassKeys;
  }

  /** Once the fan-out is complete, a cut tail has added some of its passes and perhaps its ask. */
  lemma AfterFan(db: DB, t: Tail, tail: seq<Stmt>, j: nat)
    requires Opening(t) && j <= |t.passes| + |t.open| && tail == (PassEach(t.id, t.passes) + t.open)[..j]
    ensures var d := ExecAll(db, tail);
      && d == db.(passes := db.passes + PassKeys(t.id, if j <= |t.passes| then t.passes[..j] else t.passes), awaiting := d.awaiting)
      && (d.awaiting == db.awaiting || (t.open != [] && d.awaiting == Opened(db, t).awaiting))
  {
    var pass := PassEach(t.id, t.passes);
    if j <= |pass| {
      PassPrefix(t.id, t.passes, j);
      assert tail == pass[..j];
      hide ExecAll, Exec, PassEach, PassKeys;
      PassesAdd(db, t.id, t.passes[..j]);
    } else {
      assert tail == pass + t.open;
      hide ExecAll, Exec, PassEach, PassKeys;
      ExecAllConcat(db, pass, t.open);
      PassesAdd(db, t.id, t.passes);
      OpenedLast(db, ExecAll(db, pass), t);
    }
  }

  lemma PassPrefix(id: Id, boxes: seq<Address>, j: nat)
    requires j <= |boxes|
    ensures PassEach(id, boxes)[..j] == PassEach(id, boxes[..j])
  {
  }

  lemma OpenedLast(db: DB, d: DB, t: Tail)
    requires Opening(t) && t.open != [] && d == db.(passes := d.passes)
    ensures ExecAll(d, t.open) == d.(awaiting := Opened(db, t).awaiting)
  {
    assert t.open == [t.open[0]];
    ExecJust(d, t.open[0]);
    hide ExecAll;
  }

  // ---- The theorem --------------------------------------------------------------------------

  function TailOf(cfg: Config, roster: Roster, a: SendArgs, m: Message): Tail {
    Tail(m.id, Targets(roster, a.from, a.to),
         if a.to.Project? then DegradedBoxes(roster, a.from) else [],
         if OpensThread(a.kind, a.to) then [OpenFor(cfg, a, m)] else [])
  }

  /** The aliases a replay marks as having passed. */
  function ReplayPassers(roster: Roster, a: SendArgs): seq<Address> {
    if a.to.Project? then SessionBoxes(roster, a.from) else []
  }

  /** The tables once a degraded send has kept its intent and stored its routed message. */
  ghost function Stored(db: DB, op: string, intent: Intent, m: Message, targets: seq<Address>): DB {
    db.(outbound := if op in db.outbound then db.outbound else db.outbound[op := intent],
        messages := db.messages[m.id := m], routes := db.routes[m.id := targets])
  }

  /** A degraded send, cut anywhere after those two statements, is the stored state plus part of the tail. */
  lemma DegradedCut(cfg: Config, db: DB, roster: Roster, a: SendArgs, op: string, id: Id, now: Time, cut: nat)
    requires Insertable(db.messages, Compose(cfg, a, id, now)) && id !in db.routes
    requires 2 <= cut <= |DegradedSend(cfg, roster, a, op, id, now).work|
    ensures var m := Compose(cfg, a, id, now); var t := TailOf(cfg, roster, a, m);
      && cut - 2 <= |TailWork(t)|
      && ExecAll(db, DegradedSend(cfg, roster, a, op, id, now).work[..cut])
         == ExecAll(Stored(db, op, IntentOf(a, id, now), m, t.targets), TailWork(t)[..cut - 2])
  {
    var m := Compose(cfg, a, id, now);
    var t := TailOf(cfg, roster, a, m);
    var head := [QueueOutbound(op, IntentOf(a, id, now)), AppendRouted(m, t.targets)];
    var work := DegradedSend(cfg, roster, a, op, id, now).work;
    DegradedShape(cfg, roster, a, op, id, now);
    assert m.id == id;
    hide ExecAll, Exec, TailWork, DegradedSend, Compose, TailOf, IntentOf;
    assert work[..cut] == head + TailWork(t)[..cut - 2];
    ExecAllConcat(db, head, TailWork(t)[..cut - 2]);
    StoredRuns(db, op, IntentOf(a, id, now), m, t.targets);
  }

  lemma DegradedShape(cfg: Config, roster: Roster, a: SendArgs, op: string, id: Id, now: Time)
    ensures var m := Compose(cfg, a, id, now); var t := TailOf(cfg, roster, a, m);
      DegradedSend(cfg, roster, a, op, id, now).work
      == [QueueOutbound(op, IntentOf(a, id, now)), AppendRouted(m, t.targets)] + TailWork(t)
  {
    assert PassEach(id, []) == [];
  }

  lemma StoredRuns(db: DB, op: string, intent: Intent, m: Message, targets: seq<Address>)
    requires Insertable(db.messages, m) && m.id !in db.routes
    ensures ExecAll(db, [QueueOutbound(op, intent), AppendRouted(m, targets)]) == Stored(db, op, intent, m, targets)
  {
    var first := QueueOutbound(op, intent);
    assert [first, AppendRouted(m, targets)] == [first] + [AppendRouted(m, targets)];
    hide ExecAll, Exec, Insertable;
    ExecOne(db, [first], AppendRouted(m, targets));
    ExecJust(db, first);
    QueueRuns(db, op, intent);
    RoutedRuns(Exec(db, first), m, targets);
  }

  lemma QueueRuns(db: DB, op: string, intent: Intent)
    ensures Exec(db, QueueOutbound(op, intent))
         == db.(outbound := if op in db.outbound then db.outbound else db.outbound[op := intent])
  {
  }

  lemma RoutedRuns(db: DB, m: Message, targets: seq<Address>)
    requires Insertable(db.messages, m) && m.id !in db.routes
    ensures Exec(db, AppendRouted(m, targets)) == db.(messages := db.messages[m.id := m], routes := db.routes[m.id := targets])
  {
  }

  /** Nothing in a tail touches messages, routes or the outbox. */
  lemma TailFrame(db: DB, t: Tail, cut: nat)
    requires Opening(t) && cut <= |TailWork(t)|
    ensures var d := ExecAll(db, TailWork(t)[..cut]);
      d.messages == db.messages && d.routes == db.routes && d.outbound == db.outbound
  {
    var fan := EnqueueEach(t.id, t.targets);
    if cut <= |fan| {
      assert TailWork(t)[..cut] == fan[..cut];
      FanPrefix(t.id, t.targets, cut);
      FanRows(db, t.id, t.targets[..cut]);
    } else {
      var tail := (PassEach(t.id, t.passes) + t.open)[..cut - |fan|];
      assert TailWork(t)[..cut] == fan + tail;
      ExecAllConcat(db, fan, tail);
      FanRows(db, t.id, t.targets);
      AfterFan(ExecAll(db, fan), t, tail, cut - |fan|);
    }
  }

  lemma OnlyOne(messages: Messages, m: Message)
    requires Insertable(messages, m) && m.operationId.Some?
    ensures FindOp(messages[m.id := m], m.operationId) == Some(m)
  {
    var ms := messages[m.id := m];
    assert m.id in ms && ms[m.id].operationId == Some(m.operationId.value);
    assert HasOp(ms, m.operationId.value);
    assert forall i :: i in messages ==> messages[i].operationId != Some(m.operationId.value);
  }

  /** An intent whose message is stored is replayed as its tail, and then dropped. */
  lemma ReconcileShape(cfg: Config, db: DB, roster: Roster, registry: Roster, a: SendArgs, op: string, m: Message, now: Time, newId: Id)
    requires FindOp(db.messages, Some(op)) == Some(m) && op in db.outbound && m.id in db.routes
    requires m == Compose(cfg, a, m.id, m.ts) && a.operationId == Some(op)
    requires db.outbound[op].args == IntentOf(a, m.id, m.ts).args && !a.from.Broker? && !a.from.Everyone?
    requires db.routes[m.id] == Targets(roster, a.from, a.to)
    ensures var t := TailOf(cfg, roster, a, m);
      ReconcilePlan(cfg, db, registry, op, now, newId)
      == Plan(Sent(m.id, t.targets, true),
              EnqueueEach(m.id, t.targets) + PassEach(m.id, ReplayPassers(registry, a))
              + (if m.id !in db.awaiting then t.open else []) + [DeleteOutbound(op)])
  {
    var args := db.outbound[op].args;
    OwnPayload(cfg, a, m.id, m.ts);
    assert OpenFor(cfg, args, m) == OpenFor(cfg, a, m);
    if !a.to.Project? { assert PassEach(m.id, ReplayPassers(registry, a)) == []; }
  }

  lemma ReplayRuns(db: DB, t: Tail, passers: seq<Address>, op: string)
    requires Opening(t)
    ensures ExecAll(db, EnqueueEach(t.id, t.targets) + PassEach(t.id, passers)
                        + (if t.id !in db.awaiting then t.open else []) + [DeleteOutbound(op)])
         == Replayed(db, t, passers).(outbound := db.outbound - {op})
  {
    hide Exec;
    var fan := EnqueueEach(t.id, t.targets);
    var pass := PassEach(t.id, passers);
    var open := if t.id !in db.awaiting then t.open else [];
    ExecOne(db, fan + pass + open, DeleteOutbound(op));
    ExecAllConcat(db, fan + pass, open);
    ExecAllConcat(db, fan, pass);
    FanRows(db, t.id, t.targets);
    var d := ExecAll(db, fan);
    PassesAdd(d, t.id, passers);
    DropsIntent(ExecAll(db, fan + pass), t, open, op);
  }

  lemma DropsIntent(e: DB, t: Tail, open: seq<Stmt>, op: string)
    requires Opening(t) && (open == [] || open == t.open)
    ensures Exec(ExecAll(e, open), DeleteOutbound(op))
         == (if open == [] then e else Opened(e, t)).(outbound := e.outbound - {op})
  {
    if open != [] {
      assert open == [] + [open[0]];
      ExecOne(e, [], open[0]);
    }
  }

  /**
   Crash-safe send.  Kill a degraded send after any of its statements from the stored message
   on, restart, and reconcile by whatever registry the broker has by then: the answer and every
   table but the passes are those of the send that was not killed.  The passes of a project ask
   are those the client had written and those of the sender's session as the broker knows it;
   nothing differs at all if that session still has the aliases the client knew.
   (The intent must be this send's own: an operation id already in the outbox keeps its first
   intent.  The one sender the degraded path lets through that the broker will not replay is the
   broadcast address.)
   */
  lemma CrashSafeSend(cfg: Config, w: World, roster: Roster, registry: Roster, args: SendArgs, op: string, id: Id, now: Time,
                      cut: nat, later: Time, newId: Id)
    requires Inv(w) && id >= w.next && !args.from.Everyone?
    requires var p := DegradedPlan(cfg, w.db, roster, args, op, id, now);
      p.answer.Sent? && !p.answer.replayed && 2 <= cut <= |p.work|
    requires op in w.db.outbound ==> w.db.outbound[op].args == IntentOf(args.(operationId := Some(op)), id, now).args
    ensures var work := DegradedPlan(cfg, w.db, roster, args, op, id, now).work;
      var cutDb := ExecAll(w.db, work[..cut]);
      var wholeDb := ExecAll(w.db, work);
      var cutPlan := ReconcilePlan(cfg, cutDb, registry, op, later, newId);
      var wholePlan := ReconcilePlan(cfg, wholeDb, registry, op, later, newId);
      var cutEnd := ExecAll(cutDb, cutPlan.work);
      var wholeEnd := ExecAll(wholeDb, wholePlan.work);
      var t := TailOf(cfg, roster, args, Compose(cfg, args.(operationId := Some(op)), id, now));
      && cutPlan.answer == wholePlan.answer == Sent(id, Targets(roster, args.from, args.to), true)
      && cutEnd == wholeEnd.(passes := w.db.passes + PassKeys(id, PassesRun(t, cut - 2)) + PassKeys(id, ReplayPassers(registry, args)))
      && wholeEnd.passes == w.db.passes + PassKeys(id, t.passes) + PassKeys(id, ReplayPassers(registry, args))
      && ((forall x :: x in t.passes ==> x in ReplayPassers(registry, args)) ==> cutEnd == wholeEnd)
      && Finished(cfg, roster, args.(operationId := Some(op)), op, id, now, cutEnd)
  {
    hide Inv;
    Unused(w, id);
    var a := args.(operationId := Some(op));
    var m := Compose(cfg, a, id, now);
    assert TailOf(cfg, roster, args, m) == TailOf(cfg, roster, a, m);
    assert DegradedPlan(cfg, w.db, roster, args, op, id, now) == DegradedSend(cfg, roster, a, op, id, now);
    assert Insertable(w.db.messages, m) && m.id == id;
    NoRowsYet(w, id);
    hide DegradedPlan, ExecAll, DegradedSend, ReconcilePlan, PassKeys, Finished, Targets, Compose, TailOf, PassesRun;
    CrashSafeSent(cfg, w.db, roster, registry, a, op, id, now, cut, later, newId);
  }

  lemma CrashSafeSent(cfg: Config, db: DB, roster: Roster, registry: Roster, a: SendArgs, op: string, id: Id, now: Time,
                      cut: nat, later: Time, newId: Id)
    requires a.operationId == Some(op) && !a.from.Broker? && !a.from.Everyone?
    requires Insertable(db.messages, Compose(cfg, a, id, now)) && id !in db.routes && id !in db.awaiting
    requires forall x :: Key(id, x) !in db.deliveries
    requires op in db.outbound ==> db.outbound[op].args == IntentOf(a, id, now).args
    requires 2 <= cut <= |DegradedSend(cfg, roster, a, op, id, now).work|
    ensures var work := DegradedSend(cfg, roster, a, op, id, now).work;
      var cutPlan := ReconcilePlan(cfg, ExecAll(db, work[..cut]), registry, op, later, newId);
      var wholePlan := ReconcilePlan(cfg, ExecAll(db, work), registry, op, later, newId);
      var cutEnd := ExecAll(ExecAll(db, work[..cut]), cutPlan.work);
      var wholeEnd := ExecAll(ExecAll(db, work), wholePlan.work);
      var t := TailOf(cfg, roster, a, Compose(cfg, a, id, now));
      && cutPlan.answer == wholePlan.answer == Sent(id, t.targets, true)
      && cutEnd == wholeEnd.(passes := db.passes + PassKeys(id, PassesRun(t, cut - 2)) + PassKeys(id, ReplayPassers(registry, a)))
      && wholeEnd.passes == db.passes + PassKeys(id, t.passes) + PassKeys(id, ReplayPassers(registry, a))
      && ((forall x :: x in t.passes ==> x in ReplayPassers(registry, a)) ==> cutEnd == wholeEnd)
      && Finished(cfg, roster, a, op, id, now, cutEnd)
  {
    var m := Compose(cfg, a, id, now);
    var t := TailOf(cfg, roster, a, m);
    var work := DegradedSend(cfg, roster, a, op, id, now).work;
    var base := Stored(db, op, IntentOf(a, id, now), m, t.targets);
    var passers := ReplayPassers(registry, a);
    assert work[..|work|] == work;
    DegradedShape(cfg, roster, a, op, id, now);
    assert PassesRun(t, |work| - 2) == t.passes;
    ReplayFinishes(cfg, base, roster, registry, a, op, m, PassesRun(t, cut - 2));
    SameButPasses(base, t, passers, cut - 2, op);
    hide ExecAll, DegradedSend, ReconcilePlan, PassKeys, Finished, Reconciled, Compose, TailOf, PassesRun;
    CutReconciles(cfg, db, roster, registry, a, op, id, now, cut, later, newId);
    CutReconciles(cfg, db, roster, registry, a, op, id, now, |work|, later, newId);
  }

  /** Two reconciled stores differ in their passes alone, and not at all if the replay writes those of the tail again. */
  lemma SameButPasses(base: DB, t: Tail, passers: seq<Address>, cut: nat, op: string)
    requires Opening(t)
    ensures var some := Reconciled(base, t, passers, PassesRun(t, cut), op); var all := Reconciled(base, t, passers, t.passes, op);
      && some == all.(passes := base.passes + PassKeys(t.id, PassesRun(t, cut)) + PassKeys(t.id, passers))
      && all.passes == base.passes + PassKeys(t.id, t.passes) + PassKeys(t.id, passers)
      && ((forall x :: x in t.passes ==> x in passers) ==> some == all)
  {
    PassersCovered(t, cut, passers);
    hide PassKeys, Replayed, PassesRun;
    SameUnion(base.passes, PassKeys(t.id, PassesRun(t, cut)), PassKeys(t.id, t.passes), PassKeys(t.id, passers));
  }

  lemma SameUnion<T>(a: set<T>, x: set<T>, y: set<T>, z: set<T>)
    ensures x <= y <= z ==> a + x + z == a + y + z
  {
  }

  /** Fully routed: the message, its route, exactly its rows, its ask anchored to the send, no intent. */
  ghost predicate Finished(cfg: Config, roster: Roster, a: SendArgs, op: string, id: Id, now: Time, db: DB) {
    var m := Compose(cfg, a, id, now);
    var targets := Targets(roster, a.from, a.to);
    var ttl := OrDefault(a.ttlS, cfg.defaultTtlS);
    && id in db.messages && db.messages[id] == m && id in db.routes && db.routes[id] == targets
    && (forall x :: Key(id, x) in db.deliveries <==> x in targets)
    && (OpensThread(a.kind, a.to) ==>
          id in db.awaiting && db.awaiting[id]
          == Awaiting(if ttl.Some? then Some(now + ttl.value) else None, None, ReplyBy(cfg, a.replyByS), 0, now))
    && op !in db.outbound
  }

  lemma NoRowsYet(w: World, id: Id)
    requires Inv(w) && id >= w.next
    ensures forall x :: Key(id, x) !in w.db.deliveries
  {
    forall x ensures Key(id, x) !in w.db.deliveries {
      assert Key(id, x).msg == id && id !in w.db.messages;
    }
  }

  lemma ReplayFinishes(cfg: Config, base: DB, roster: Roster, registry: Roster, a: SendArgs, op: string, m: Message, run: seq<Address>)
    requires m == Compose(cfg, a, m.id, m.ts) && m.id in base.messages && base.messages[m.id] == m
    requires m.id in base.routes && base.routes[m.id] == Targets(roster, a.from, a.to) && m.id !in base.awaiting
    requires forall x :: Key(m.id, x) !in base.deliveries
    ensures var t := TailOf(cfg, roster, a, m);
      Finished(cfg, roster, a, op, m.id, m.ts, Reconciled(base, t, ReplayPassers(registry, a), run, op))
  {
    FanRows(base, m.id, Targets(roster, a.from, a.to));
  }

  /** The passes that ran are among the tail's; a session that still has them all adds them again. */
  lemma PassersCovered(t: Tail, cut: nat, passers: seq<Address>)
    ensures PassKeys(t.id, PassesRun(t, cut)) <= PassKeys(t.id, t.passes)
    ensures (forall x :: x in t.passes ==> x in passers) ==> PassKeys(t.id, t.passes) <= PassKeys(t.id, passers)
  {
  }

  /** A replayed tail on top of some of its own passes, its intent dropped. */
  ghost function Reconciled(base: DB, t: Tail, passers: seq<Address>, run: seq<Address>, op: string): DB
    requires Opening(t)
  {
    Replayed(base, t, passers).(passes := base.passes + PassKeys(t.id, run) + PassKeys(t.id, passers),
                                outbound := base.outbound - {op})
  }

  /** What reconciling leaves, wherever the send was cut: the same tables, but for the passes. */
  lemma CutReconciles(cfg: Config, db: DB, roster: Roster, registry: Roster, a: SendArgs, op: string, id: Id, now: Time,
                      cut: nat, later: Time, newId: Id)
    requires a.operationId == Some(op) && !a.from.Broker? && !a.from.Everyone?
    requires Insertable(db.messages, Compose(cfg, a, id, now)) && id !in db.routes && id !in db.awaiting
    requires op in db.outbound ==> db.outbound[op].args == IntentOf(a, id, now).args
    requires 2 <= cut <= |DegradedSend(cfg, roster, a, op, id, now).work|
    ensures var d := ExecAll(db, DegradedSend(cfg, roster, a, op, id, now).work[..cut]);
      var m := Compose(cfg, a, id, now);
      var t := TailOf(cfg, roster, a, m);
      var base := Stored(db, op, IntentOf(a, id, now), m, t.targets);
      var p := ReconcilePlan(cfg, d, registry, op, later, newId);
      && p.answer == Sent(id, t.targets, true)
      && ExecAll(d, p.work) == Reconciled(base, t, ReplayPassers(registry, a), PassesRun(t, cut - 2), op)
  {
    var m := Compose(cfg, a, id, now);
    var t := TailOf(cfg, roster, a, m);
    var base := Stored(db, op, IntentOf(a, id, now), m, t.targets);
    DegradedCut(cfg, db, roster, a, op, id, now, cut);
    TailFrame(base, t, cut - 2);
    var d := ExecAll(base, TailWork(t)[..cut - 2]);
    OnlyOne(db.messages, m);
    ReconcileShape(cfg, d, roster, registry, a, op, m, later, newId);
    ReplayRuns(d, t, ReplayPassers(registry, a), op);
    ReplayAnyCut(base, t, ReplayPassers(registry, a), cut - 2);
  }
}
