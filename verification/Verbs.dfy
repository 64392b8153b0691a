/**
 What each verb decides and writes: its answer, and the storage statements it issues in
 order (src/broker/router.ts, src/broker/sweeper.ts, the degraded path of src/client.ts).
 A process may die between any two statements, so a crash leaves a prefix of the work.
 */
module Verbs {
  import opened Models
  import opened Store

  // ---- The roster a verb consults -------------------------------------------

  /** One registered alias as a verb sees it: the session behind it and whether it is offline. */
  datatype Member = Member(alias: Address, session: string, cwd: string, offline: bool)
  type Roster = seq<Member>

  function Find(roster: Roster, a: Address): Option<Member> {
    if roster == [] then None
    else if roster[0].alias == a then Some(roster[0])
    else Find(roster[1..], a)
  }

  /** Registration refuses the reserved names, so every member is a peer. */
  predicate Sane(roster: Roster) { forall i :: 0 <= i < |roster| ==> roster[i].alias.Peer? }

  lemma ReservedUnknown(roster: Roster, a: Address)
    requires Sane(roster) && !a.Peer?
    ensures Find(roster, a).None?
  {
    if roster != [] {
      assert roster[0].alias.Peer?;
      ReservedUnknown(roster[1..], a);
    }
  }

  function SessionOf(roster: Roster, a: Address): Option<string> {
    match Find(roster, a)
    case Some(m) => Some(m.session)
    case None => None
  }

  predicate SameSession(roster: Roster, a: Address, b: Address) {
    SessionOf(roster, a).Some? && SessionOf(roster, a) == SessionOf(roster, b)
  }

  function AliasesOf(roster: Roster, session: string): seq<Address> {
    if roster == [] then []
    else (if roster[0].session == session then [roster[0].alias] else []) + AliasesOf(roster[1..], session)
  }

  /** Every mailbox the session behind an alias owns. */
  function SessionBoxes(roster: Roster, anchor: Address): seq<Address> {
    match SessionOf(roster, anchor)
    case Some(s) => AliasesOf(roster, s)
    case None => [anchor]
  }

  /** Who a broadcast reaches: live aliases of other sessions. */
  function LiveOthers(roster: Roster, from: Address, session: Option<string>): seq<Address> {
    if roster == [] then []
    else
      var m := roster[0];
      (if !m.offline && m.alias != from && session != Some(m.session) then [m.alias] else [])
      + LiveOthers(roster[1..], from, session)
  }

  predicate WithinProject(cwd: string, dir: string) { cwd == dir || dir + "/" <= cwd }

  predicate StillHeld(roster: Roster, owner: Address) {
    match Find(roster, owner)
    case Some(m) => !m.offline
    case None => false
  }

  // ---- Answers ---------------------------------------------------------------

  datatype Code = BadArgs | EmptySend | NotAllowed | SelfSend | OperationConflict | MessageConflict
    | NotRegistered | NoPeer | NotAnAsk | NoOrigin | AskWasCancelled | EmptyReply | NoMessage | NotYours | InvalidState

  datatype Answer =
    | Refusal(code: Code)
    | Sent(id: Id, recipients: seq<Address>, replayed: bool)
    | Replied(id: Id, late: bool)
    | Passed
    | Claimed(accepted: bool, holder: Option<Address>)
    | Done

  datatype Plan = Plan(answer: Answer, work: seq<Stmt>)

  datatype Config = Config(defaultTtlS: Option<int>, defaultReplyByS: Option<int>, finalGraceS: int, strict: bool,
                           allow: map<Address, set<Address>>)

  function Refuse(code: Code): Plan { Plan(Refusal(code), []) }

  predicate Permanent(code: Code) {
    code.BadArgs? || code.EmptySend? || code.NotAllowed? || code.SelfSend? || code.OperationConflict? || code.MessageConflict?
  }

  // ---- Send --------------------------------------------------------------------

  function ReplyBy(cfg: Config, f: Field<int>): Option<int> {
    match f
    case Absent => cfg.defaultReplyByS
    case Null => None
    case Given(v) => Some(v)
  }

  function OrDefault<T>(o: Option<T>, d: Option<T>): Option<T> { if o.Some? then o else d }

  function ThreadKey(a: SendArgs, id: Id): Option<Conversation> {
    if a.conversationId.Given? then Some(a.conversationId.value)
    else if OpensThread(a.kind, a.to) then Some(ThreadOf(id))
    else None
  }

  function Compose(cfg: Config, a: SendArgs, id: Id, now: Time): Message {
    Message(id, a.operationId, a.kind, a.from, a.to, Text(a.body), ThreadKey(a, id), None, None, None, true,
            a.contextPtr, a.ttlS, if OpensThread(a.kind, a.to) then ReplyBy(cfg, a.replyByS) else None, now)
  }

  /** Is this request the send that message already records? */
  predicate SamePayload(m: Message, a: SendArgs) {
    && m.to == a.to && m.kind == a.kind && m.body == Text(a.body) && m.ttlS == a.ttlS
    && m.replyByS == (if !OpensThread(m.kind, m.to) then None else if a.replyByS.Absent? then m.replyByS
                      else if a.replyByS.Null? then None else Some(a.replyByS.value))
    && (a.conversationId.Absent?
        || m.conversationId == if a.conversationId.Null? then None else Some(a.conversationId.value))
    && m.contextPtr == a.contextPtr
  }

  function EnqueueEach(id: Id, targets: seq<Address>): seq<Stmt> {
    seq(|targets|, i requires 0 <= i < |targets| => Enqueue(id, targets[i]))
  }

  function PassEach(id: Id, boxes: seq<Address>): seq<Stmt> {
    seq(|boxes|, i requires 0 <= i < |boxes| => PassProject(id, boxes[i]))
  }

  function OpenFor(cfg: Config, a: SendArgs, m: Message): Stmt {
    var ttl := OrDefault(m.ttlS, cfg.defaultTtlS);
    OpenAwaiting(m.id, if ttl.Some? then Some(m.ts + ttl.value) else None, ReplyBy(cfg, a.replyByS), m.ts)
  }

  function Targets(roster: Roster, from: Address, to: Address): seq<Address> {
    if to.Everyone? then LiveOthers(roster, from, SessionOf(roster, from)) else [to]
  }

  function RouteOf(db: DB, roster: Roster, m: Message): seq<Address> {
    if m.id in db.routes then db.routes[m.id] else Targets(roster, m.from, m.to)
  }

  /** Replaying a send routes what is missing and opens what was never opened. */
  function ReplayPlan(cfg: Config, db: DB, roster: Roster, a: SendArgs, m: Message, passers: seq<Address>): Plan {
    if m.from != a.from || !SamePayload(m, a) then Refuse(OperationConflict)
    else
      var targets := RouteOf(db, roster, m);
      Plan(Sent(m.id, targets, true),
           EnqueueEach(m.id, targets)
           + (if m.to.Project? then PassEach(m.id, passers) else [])
           + (if m.id !in db.awaiting && OpensThread(m.kind, m.to) then [OpenFor(cfg, a, m)] else []))
  }

  /** Why a first-time send is refused, if it is. */
  function SendRefusal(cfg: Config, roster: Roster, a: SendArgs): Option<Code> {
    if cfg.strict && Find(roster, a.from).None? then Some(NotRegistered)
    else if Blank(a.body) then Some(EmptySend)
    else if a.kind.Response? then Some(BadArgs)
    else if !a.to.Project? && !a.to.Everyone? && Find(roster, a.to).None? then Some(NoPeer)
    else if !a.to.Project? && !a.to.Everyone? && SameSession(roster, a.from, a.to) then Some(SelfSend)
    else if !a.to.Everyone? && a.to in cfg.allow && a.from !in cfg.allow[a.to] then Some(NotAllowed)
    else None
  }

  function FirstSend(cfg: Config, roster: Roster, a: SendArgs, id: Id, now: Time): Plan {
    var m := Compose(cfg, a, id, now);
    var targets := Targets(roster, a.from, a.to);
    Plan(Sent(id, targets, false),
         [AppendRouted(m, targets)]
         + (if a.to.Project? then PassEach(id, SessionBoxes(roster, a.from)) else [])
         + EnqueueEach(id, targets)
         + (if OpensThread(a.kind, a.to) then [OpenFor(cfg, a, m)] else []))
  }

  ghost function SendPlan(cfg: Config, db: DB, roster: Roster, a: SendArgs, now: Time, newId: Id): Plan {
    if a.from.Broker? || a.from.Everyone? then Refuse(BadArgs)
    else
      match FindOp(db.messages, a.operationId)
      case Some(m) => ReplayPlan(cfg, db, roster, a, m, SessionBoxes(roster, m.from))
      case None =>
        match SendRefusal(cfg, roster, a)
        case Some(code) => Refuse(code)
        case None =>
          var id := if a.messageId.Some? then a.messageId.value else newId;
          if id in db.messages then Refuse(MessageConflict) else FirstSend(cfg, roster, a, id, now)
  }

  // ---- Sending while the broker is down -----------------------------------------

  /** The aliases a degraded client treats as having passed: none if the sender is unknown. */
  function DegradedBoxes(roster: Roster, from: Address): seq<Address> {
    if SessionOf(roster, from).Some? then SessionBoxes(roster, from) else []
  }

  /** The intent keeps the resolved thread key and message id, so a replay asks for the same message. */
  function IntentOf(a: SendArgs, id: Id, now: Time): Intent {
    var key := ThreadKey(a, id);
    Intent(a.(conversationId := if key.Some? then Given(key.value) else Null, messageId := Some(id)), now)
  }

  function DegradedSend(cfg: Config, roster: Roster, a: SendArgs, op: string, id: Id, now: Time): Plan {
    var m := Compose(cfg, a, id, now);
    var targets := Targets(roster, a.from, a.to);
    Plan(Sent(id, targets, false),
         [QueueOutbound(op, IntentOf(a, id, now)), AppendRouted(m, targets)]
         + EnqueueEach(id, targets)
         + (if a.to.Project? then PassEach(id, DegradedBoxes(roster, a.from)) else [])
         + (if OpensThread(a.kind, a.to) then [OpenFor(cfg, a, m)] else []))
  }

  /** A first send is the routed message, the sender's passes with the fan-out, and the ask. */
  lemma FirstWork(cfg: Config, roster: Roster, a: SendArgs, id: Id, now: Time)
    ensures var m := Compose(cfg, a, id, now); var targets := Targets(roster, a.from, a.to);
      var passes := if a.to.Project? then PassEach(id, SessionBoxes(roster, a.from)) else [];
      var open := if OpensThread(a.kind, a.to) then [OpenFor(cfg, a, m)] else [];
      FirstSend(cfg, roster, a, id, now).work == [AppendRouted(m, targets)] + (passes + EnqueueEach(id, targets)) + open
  {
    hide Compose, Targets, PassEach, SessionBoxes, OpenFor, EnqueueEach;
    var m := Compose(cfg, a, id, now);
    var targets := Targets(roster, a.from, a.to);
    var passes := if a.to.Project? then PassEach(id, SessionBoxes(roster, a.from)) else [];
    var open := if OpensThread(a.kind, a.to) then [OpenFor(cfg, a, m)] else [];
    assert [AppendRouted(m, targets)] + passes + EnqueueEach(id, targets) + open
      == [AppendRouted(m, targets)] + (passes + EnqueueEach(id, targets)) + open;
  }

  lemma Regroup<T>(q: T, r: T, x: seq<T>, y: seq<T>, z: seq<T>)
    ensures [q, r] + x + y + z == [q] + ([r] + (x + y) + z)
  {
  }

  /** A degraded send is its intent, then the routed message, the fan-out with the passes, and the ask. */
  lemma DegradedWork(cfg: Config, roster: Roster, a: SendArgs, op: string, id: Id, now: Time)
    ensures var m := Compose(cfg, a, id, now); var targets := Targets(roster, a.from, a.to);
      var passes := if a.to.Project? then PassEach(id, DegradedBoxes(roster, a.from)) else [];
      var open := if OpensThread(a.kind, a.to) then [OpenFor(cfg, a, m)] else [];
      DegradedSend(cfg, roster, a, op, id, now).work
      == [QueueOutbound(op, IntentOf(a, id, now))]
         + ([AppendRouted(m, targets)] + (EnqueueEach(id, targets) + passes) + open)
  {
    hide Compose, Targets, PassEach, DegradedBoxes, OpenFor, IntentOf, EnqueueEach;
    var m := Compose(cfg, a, id, now);
    var targets := Targets(roster, a.from, a.to);
    var passes := if a.to.Project? then PassEach(id, DegradedBoxes(roster, a.from)) else [];
    var open := if OpensThread(a.kind, a.to) then [OpenFor(cfg, a, m)] else [];
    Regroup(QueueOutbound(op, IntentOf(a, id, now)), AppendRouted(m, targets), EnqueueEach(id, targets), passes, open);
  }

  /** The degraded client checks the same things in its own order; `id` is derived from the operation id. */
  function DegradedRefusal(cfg: Config, roster: Roster, a: SendArgs): Option<Code> {
    if a.kind.Response? then Some(BadArgs)
    else if cfg.strict && Find(roster, a.from).None? then Some(NotRegistered)
    else SendRefusal(cfg.(strict := false), roster, a)
  }

  ghost function DegradedPlan(cfg: Config, db: DB, roster: Roster, a: SendArgs, op: string, id: Id, now: Time): Plan {
    if Blank(a.body) then Refuse(EmptySend)
    else if a.from.Broker? then Refuse(BadArgs)
    else
      match FindOp(db.messages, Some(op))
      case Some(m) => ReplayPlan(cfg, db, roster, a, m, DegradedBoxes(roster, m.from))
      case None =>
        match DegradedRefusal(cfg, roster, a)
        case Some(code) => Refuse(code)
        case None => DegradedSend(cfg, roster, a.(operationId := Some(op)), op, id, now)
  }

  /** Replay one outbox intent; delete it once routed or refused for good. */
  ghost function ReconcilePlan(cfg: Config, db: DB, roster: Roster, op: string, now: Time, newId: Id): Plan {
    if op !in db.outbound then Plan(Done, [])
    else
      var p := SendPlan(cfg, db, roster, db.outbound[op].args, now, newId);
      if p.answer.Refusal? && !Permanent(p.answer.code) then p
      else Plan(p.answer, p.work + [DeleteOutbound(op)])
  }

  /** Replay intents one after another. */
  ghost function ReconcileEach(cfg: Config, db: DB, roster: Roster, ops: seq<string>, now: Time, newId: Id): seq<Stmt>
    decreases |ops|
  {
    if ops == [] then []
    else
      var p := ReconcilePlan(cfg, db, roster, ops[0], now, newId);
      p.work + ReconcileEach(cfg, ExecAll(db, p.work), roster, ops[1..], now, newId + 1)
  }

  // ---- Reply, decline, accept, snooze, cancel ---------------------------------------

  datatype ReplyArgs = ReplyArgs(from: Address, corrId: Id, body: string, terminal: bool, status: Status,
                                 errorCode: Option<ErrorCode>)

  function ResponseTo(origin: Message, a: ReplyArgs, id: Id, now: Time): Message {
    Message(id, None, Response, a.from, origin.from, Text(a.body), origin.conversationId, Some(a.corrId),
            Some(a.status), a.errorCode, a.terminal, None, None, None, now)
  }

  function NoticeTo(origin: Message, to: Address, notice: Notice, terminal: bool, kind: Kind, id: Id, now: Time): Message {
    Message(id, None, kind, Broker, to, Notice(notice), origin.conversationId, Some(origin.id),
            Some(Ok), None, terminal, None, None, None, now)
  }

  /** The copies an answer settles: the replier's own, and its session's or its project's. */
  function SettleCopies(roster: Roster, origin: Message, from: Address, project: bool): seq<Stmt> {
    [MarkConsumed(origin.id, from)]
    + (if origin.to != from && !origin.to.Project? && SameSession(roster, from, origin.to)
       then [MarkConsumed(origin.id, origin.to)] else [])
    + (if project && origin.to.Project? then [MarkConsumed(origin.id, origin.to)] else [])
  }

  predicate EmptyAnswer(a: ReplyArgs) { !a.status.Error? && Blank(a.body) }

  function ReplyToAsk(db: DB, roster: Roster, a: ReplyArgs, origin: Message, now: Time, newId: Id): Plan {
    if AskCancelled(db.awaiting, a.corrId) then
      Plan(Refusal(AskWasCancelled),
           [MarkConsumed(a.corrId, a.from)] + (if origin.to.Project? then [MarkConsumed(a.corrId, origin.to)] else []))
    else if EmptyAnswer(a) then Refuse(EmptyReply)
    else
      var late := a.corrId in db.awaiting && db.awaiting[a.corrId].closed.Some?;
      Plan(Replied(newId, late),
           [Append(ResponseTo(origin, a, newId, now)), Enqueue(newId, origin.from)]
           + (if a.terminal && !late then [CloseAwaiting(a.corrId, Responded)] else [])
           + (if a.terminal then [] else [DeferNudge(a.corrId, now)])
           + SettleCopies(roster, origin, a.from, true))
  }

  /** Was the message delivered to this alias, or to a project it works in? */
  predicate Actable(db: DB, roster: Roster, id: Id, alias: Address) {
    id in db.messages &&
    (Key(id, alias) in db.deliveries ||
     (db.messages[id].to.Project? && Find(roster, alias).Some? && Find(roster, alias).value.cwd != ""
      && WithinProject(Find(roster, alias).value.cwd, db.messages[id].to.path)))
  }

  function NotActable(db: DB, id: Id): Plan { Refuse(if id in db.messages then NotYours else NoMessage) }

  function ReplyToInform(db: DB, roster: Roster, a: ReplyArgs, origin: Message, now: Time, newId: Id): Plan {
    if !Actable(db, roster, a.corrId, a.from) then NotActable(db, a.corrId)
    else if EmptyAnswer(a) then Refuse(EmptyReply)
    else
      Plan(Replied(newId, false),
           [Append(ResponseTo(origin, a, newId, now)), Enqueue(newId, origin.from)]
           + SettleCopies(roster, origin, a.from, false))
  }

  function ReplyPlan(db: DB, roster: Roster, a: ReplyArgs, now: Time, newId: Id): Plan {
    if a.from.Broker? || a.from.Everyone? then Refuse(BadArgs)
    else if a.corrId !in db.messages then Refuse(NoOrigin)
    else
      var origin := db.messages[a.corrId];
      if IsAsk(origin.kind) then ReplyToAsk(db, roster, a, origin, now, newId)
      else if origin.kind.Inform? && origin.from != a.from then ReplyToInform(db, roster, a, origin, now, newId)
      else Refuse(NotAnAsk)
  }

  function DeclineAnswer(origin: Message, from: Address, reason: string, id: Id, now: Time): Message {
    Message(id, None, Response, from, origin.from, Text(reason), origin.conversationId, Some(origin.id),
            Some(Error), Some(Declined), true, None, None, None, now)
  }

  function DeclinePlan(db: DB, roster: Roster, from: Address, id: Id, reason: string, now: Time, newId: Id): Plan {
    if !Actable(db, roster, id, from) then NotActable(db, id)
    else
      match OriginOf(db.messages, id)
      case None => Plan(Done, [SetConsent(id, from, false)])
      case Some(origin) =>
        if origin.to.Project? then
          Plan(Passed,
               [PassProject(id, from)]
               + (if AskOpen(db.awaiting, id)
                  then [Append(NoticeTo(origin, origin.from, SteppedBack(from), false, Inform, newId, now)),
                        Enqueue(newId, origin.from)]
                  else []))
        else
          Plan(Done,
               [SetConsent(id, from, false)]
               + (if AskOpen(db.awaiting, id)
                  then [Append(DeclineAnswer(origin, from, reason, newId, now)), Enqueue(newId, origin.from),
                        CloseAwaiting(id, Responded)]
                  else []))
  }

  /** Consent; for project mail, an exclusive claim that only a vanished holder loses. */
  function AcceptPlan(db: DB, roster: Roster, alias: Address, id: Id): Plan {
    if !Actable(db, roster, id, alias) then NotActable(db, id)
    else if !db.messages[id].to.Project? then Plan(Done, [SetConsent(id, alias, true)])
    else if id in db.claims && (db.claims[id] == alias || StillHeld(roster, db.claims[id])) then
      Plan(Claimed(false, Some(db.claims[id])), [ClaimProject(id, alias)])
    else
      Plan(Claimed(true, Some(alias)),
           (if id in db.claims then [ReleaseClaim(id)] else []) + [ClaimProject(id, alias)])
  }

  function SnoozePlan(db: DB, roster: Roster, alias: Address, id: Id, now: Time): Plan {
    if !Actable(db, roster, id, alias) then NotActable(db, id)
    else if !Surfaceable(db.deliveries, Key(id, alias)) then Plan(Refusal(InvalidState), [MarkSurfaced(id, alias)])
    else Plan(Done, [MarkSurfaced(id, alias), DeferNudge(id, now)])
  }

  /** A copy that was seen is withdrawn with a notice; one never seen is consumed silently. */
  function WithdrawEach(rows: Rows, origin: Message, order: seq<Address>, now: Time, newId: Id): seq<Stmt> {
    if order == [] then []
    else
      var k := Key(origin.id, order[0]);
      if k !in rows || IsSettled(rows[k].state) then WithdrawEach(rows, origin, order[1..], now, newId)
      else if rows[k].state.Queued? then
        [MarkConsumed(origin.id, order[0])] + WithdrawEach(rows, origin, order[1..], now, newId)
      else
        [MarkConsumed(origin.id, order[0]),
         Append(NoticeTo(origin, order[0], Withdrawal, false, Response, newId, now)),
         Enqueue(newId, order[0])]
        + WithdrawEach(rows, origin, order[1..], now, newId + 1)
  }

  function CancelPlan(db: DB, id: Id, order: seq<Address>, now: Time, newId: Id): Plan {
    match OriginOf(db.messages, id)
    case None => Refuse(if id in db.messages then NotAnAsk else NoMessage)
    case Some(origin) =>
      Plan(Done,
           [CloseAwaiting(id, Cancelled)]
           + (if AskOpen(db.awaiting, id) then WithdrawEach(db.deliveries, origin, order, now, newId) else []))
  }

  // ---- The sweeper -------------------------------------------------------------------

  /** Park one ask whose time to live has passed. */
  function ParkPlan(db: DB, id: Id, now: Time, newId: Id): seq<Stmt> {
    if !TtlPassed(db.awaiting, id, now) then []
    else
      [CloseAwaiting(id, Parked)]
      + (match OriginOf(db.messages, id)
         case None => []
         case Some(origin) => [Append(NoticeTo(origin, origin.from, StillParked, true, Response, newId, now)),
                               Enqueue(newId, origin.from)])
  }

  /** How many ids parking one ask takes. */
  function ParkIds(p: seq<Stmt>): nat { if |p| == 3 then 1 else 0 }

  /** Park a list of asks in turn. */
  ghost function ParkEach(db: DB, order: seq<Id>, now: Time, newId: Id): seq<Stmt>
    decreases |order|
  {
    if order == [] then []
    else
      var p := ParkPlan(db, order[0], now, newId);
      p + ParkEach(ExecAll(db, p), order[1..], now, newId + ParkIds(p))
  }

  predicate SenderDue(a: Awaiting, origin: Message, now: Time, grace: int) {
    a.replyByS.Some? && now >= origin.ts + a.replyByS.value + grace
  }

  /** Chase one unanswered ask: the last call and the sender's release, or a nudge. */
  function ChasePlan(db: DB, id: Id, now: Time, grace: int, newId: Id): seq<Stmt> {
    if !AskOpen(db.awaiting, id) || db.awaiting[id].replyByS.None? || OriginOf(db.messages, id).None? then []
    else
      var a := db.awaiting[id];
      var origin := db.messages[id];
      if SenderDue(a, origin, now, grace) && a.nudgedStage < 2 then
        [Append(NoticeTo(origin, origin.to, LastCall, false, Response, newId, now)), Enqueue(newId, origin.to),
         Append(NoticeTo(origin, origin.from, NoReplyYet, true, Response, newId + 1, now)), Enqueue(newId + 1, origin.from),
         MarkNudged(id, 2), CloseAwaiting(id, Parked)]
      else if now >= a.nudgeFrom + a.replyByS.value && a.nudgedStage < 1 then
        [Append(NoticeTo(origin, origin.to, Nudge, false, Response, newId, now)), Enqueue(newId, origin.to),
         MarkNudged(id, 1)]
      else []
  }

  /** How many ids one chase takes. */
  function ChaseIds(p: seq<Stmt>): nat { if |p| == 6 then 2 else if |p| == 3 then 1 else 0 }

  /** One sweep: every ask of a list chased in turn, by one clock. */
  ghost function ChaseEach(db: DB, order: seq<Id>, now: Time, grace: int, newId: Id): seq<Stmt>
    decreases |order|
  {
    if order == [] then []
    else
      var p := ChasePlan(db, order[0], now, grace, newId);
      p + ChaseEach(ExecAll(db, p), order[1..], now, grace, newId + ChaseIds(p))
  }
}
