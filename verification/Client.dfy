/** A client that finds the broker down and writes the shared tables itself (src/client.ts:185-313). */
module DegradedClient {
  import opened Models
  import opened Store
  import opened Verbs
  import opened Backend
  import opened Routing

  class Client {
    const cfg: Config

    constructor (cfg: Config)
      ensures this.cfg == cfg
    {
      this.cfg := cfg;
    }

    /** Refuse what the broker would refuse, else queue the intent and run the send here. */
    method Degraded(store: SqliteBackend, roster: Roster, a: SendArgs, op: string, derivedId: Id, now: Time)
      returns (r: Answer)
      requires store.Valid()
      modifies store
      ensures store.Valid()
      ensures var id := if a.messageId.Some? then a.messageId.value else derivedId;
        var p := DegradedPlan(cfg, old(store.Db()), roster, a, op, id, now);
        r == p.answer && store.journal == old(store.journal) + p.work
    {
      if Blank(a.body) { return Refusal(EmptySend); }
      if a.from.Broker? { return Refusal(BadArgs); }
      var existing := store.GetByOperationId(Some(op));
      if existing.Some? {
        r := Replay(store, cfg, roster, a, existing.value, DegradedBoxes(roster, existing.value.from));
        return;
      }
      if a.kind.Response? { return Refusal(BadArgs); }
      if cfg.strict && Find(roster, a.from).None? { return Refusal(NotRegistered); }
      if !a.to.Project? && !a.to.Everyone? {
        if Find(roster, a.to).None? { return Refusal(NoPeer); }
        if SameSession(roster, a.from, a.to) { return Refusal(SelfSend); }
      }
      if !a.to.Everyone? && a.to in cfg.allow && a.from !in cfg.allow[a.to] { return Refusal(NotAllowed); }
      var id := if a.messageId.Some? then a.messageId.value else derivedId;
      r := QueueAndRoute(store, roster, a.(operationId := Some(op)), op, id, now);
    }

    /** The pipeline a crash may stop anywhere: intent, message with route, fan-out, passes, ask. */
    method QueueAndRoute(store: SqliteBackend, roster: Roster, a: SendArgs, op: string, id: Id, now: Time) returns (r: Answer)
      requires store.Valid()
      modifies store
      ensures store.Valid()
      ensures var p := DegradedSend(cfg, roster, a, op, id, now);
        r == p.answer && store.journal == old(store.journal) + p.work
    {
      hide *;
      DegradedParts(cfg, roster, a, op, id, now);
      store.QueueOutbound(op, IntentOf(a, id, now));
      var targets := Targets(roster, a.from, a.to);
      var m := Compose(cfg, a, id, now);
      store.AppendRouted(m, targets);
      EnqueueAll(store, id, targets);
      if !a.to.Everyone? {
        if a.to.Project? { PassAll(store, id, DegradedBoxes(roster, a.from)); }
        if IsAsk(a.kind) { OpenAsk(store, cfg, a, m); }
      }
      r := Sent(id, targets, false);
    }
  }

  lemma DegradedParts(cfg: Config, roster: Roster, a: SendArgs, op: string, id: Id, now: Time)
    ensures var m := Compose(cfg, a, id, now); var targets := Targets(roster, a.from, a.to);
      DegradedSend(cfg, roster, a, op, id, now) ==
      Plan(Sent(id, targets, false),
           [QueueOutbound(op, IntentOf(a, id, now)), AppendRouted(m, targets)] + EnqueueEach(id, targets)
           + (if !a.to.Everyone? && a.to.Project? then PassEach(id, DegradedBoxes(roster, a.from)) else [])
           + (if !a.to.Everyone? && IsAsk(a.kind) then [OpenFor(cfg, a, m)] else []))
  {
  }
}
