/** Who a send reaches, what a first send had to be, and that a refused verb leaves nothing behind. */
module Admission {
  import opened Models
  import opened Store
  import opened Verbs
  import opened Runs

  /** A broadcast is for live aliases of other sessions. */
  predicate Hears(m: Member, from: Address, session: Option<string>, t: Address) {
    m.alias == t && !m.offline && t != from && session != Some(m.session)
  }

  /** A broadcast reaches exactly the aliases that are not offline and belong to another session. */
  lemma {:induction false} BroadcastReaches(roster: Roster, from: Address, session: Option<string>, t: Address)
    ensures t in LiveOthers(roster, from, session)
            <==> exists i :: 0 <= i < |roster| && Hears(roster[i], from, session, t)
    decreases |roster|
  {
    if roster != [] {
      var rest := roster[1..];
      BroadcastReaches(rest, from, session, t);
      if exists i :: 0 <= i < |rest| && Hears(rest[i], from, session, t) {
        var i :| 0 <= i < |rest| && Hears(rest[i], from, session, t);
        assert roster[i + 1] == rest[i];
      }
      if exists i :: 0 <= i < |roster| && Hears(roster[i], from, session, t) {
        var i :| 0 <= i < |roster| && Hears(roster[i], from, session, t);
        assert i > 0 ==> rest[i - 1] == roster[i];
      }
    }
  }

  /** What a send is admitted for the first time only if it is. */
  ghost predicate Admissible(cfg: Config, roster: Roster, a: SendArgs) {
    && !a.from.Broker? && !a.kind.Response? && !Blank(a.body)
    && (cfg.strict ==> Find(roster, a.from).Some?)
    && (a.to.Project? || a.to.Everyone? || (Find(roster, a.to).Some? && !SameSession(roster, a.from, a.to)))
    && (a.to.Everyone? || a.to !in cfg.allow || a.from in cfg.allow[a.to])
  }

  /**
   The broker and a client acting for it while it is down admit the same first sends, except
   that only the broker turns away the broadcast address as a sender, and only it can find the
   message id taken.
   */
  lemma {:induction false} SameAdmission(cfg: Config, db: DB, roster: Roster, a: SendArgs, op: string, id: Id, now: Time)
    requires a.operationId == Some(op) && FindOp(db.messages, Some(op)).None?
    ensures DegradedPlan(cfg, db, roster, a, op, id, now).answer.Sent? <==> Admissible(cfg, roster, a)
    ensures SendPlan(cfg, db, roster, a.(messageId := Some(id)), now, id).answer.Sent?
            <==> Admissible(cfg, roster, a) && !a.from.Everyone? && id !in db.messages
  {
  }

  /** What each verb answers. */
  ghost function AnswerOf(cfg: Config, db: DB, e: Event): Answer
    requires !e.Reconcile? && !e.Park? && !e.Chase? && !e.Storage?
  {
    match e
    case Send(roster, a, now, newId) => SendPlan(cfg, db, roster, a, now, newId).answer
    case Degraded(roster, a, op, id, now) => DegradedPlan(cfg, db, roster, a, op, id, now).answer
    case Reply(roster, a, now, newId) => ReplyPlan(db, roster, a, now, newId).answer
    case Decline(roster, alias, id, reason, now, newId) => DeclinePlan(db, roster, alias, id, reason, now, newId).answer
    case Accept(roster, alias, id) => AcceptPlan(db, roster, alias, id).answer
    case Snooze(roster, alias, id, now) => SnoozePlan(db, roster, alias, id, now).answer
    case Cancel(id, order, now, newId) => CancelPlan(db, id, order, now, newId).answer
  }

  /**
   A refused verb leaves the tables as they were; the one exception is a reply to a cancelled
   ask, which does nothing but settle the replier's and the project's copies of it.
   */
  lemma {:induction false} RefusalChangesNothing(cfg: Config, db: DB, e: Event)
    requires !e.Reconcile? && !e.Park? && !e.Chase? && !e.Storage? && AnswerOf(cfg, db, e).Refusal?
    ensures AnswerOf(cfg, db, e).code != AskWasCancelled ==> ExecAll(db, Work(cfg, db, e)) == db
    ensures AnswerOf(cfg, db, e).code == AskWasCancelled ==>
      && e.Reply? && AskCancelled(db.awaiting, e.reply.corrId)
      && forall s :: s in Work(cfg, db, e) ==> s == MarkConsumed(e.reply.corrId, e.reply.from)
                                               || s == MarkConsumed(e.reply.corrId, db.messages[e.reply.corrId].to)
  {
    hide ExecAll;
    if e.Snooze? && Work(cfg, db, e) != [] {
      ExecJust(db, MarkSurfaced(e.id, e.alias));
    } else if AnswerOf(cfg, db, e).code != AskWasCancelled {
      assert Work(cfg, db, e) == [];
      NothingRun(db);
    }
  }

  lemma NothingRun(db: DB)
    ensures ExecAll(db, []) == db
  {
  }
}
