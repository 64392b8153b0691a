/**
 What it means to step back, refuse or put off an ask (src/broker/router.ts:901-904, 987-1004,
 1069-1126): one member of a project speaks for itself, the addressee of a direct ask for
 everyone, and a word from the recipient buys it a full new waiting time.
 */
module Consent {
  import opened Models
  import opened Store
  import opened Invariants
  import opened Statements
  import opened Verbs
  import opened Runs
  import opened VerbSafety
  import opened Mailboxes
  import opened Ledger
  import opened Tearing

  // ---- Declining ---------------------------------------------------------------------------

  /**
   Declining project mail is "not me": the ask stays as open as it was, nobody's copy moves,
   the asker is told if it still waits, and the decliner stops owing it unless it holds the claim;
   whatever anyone else owed it still owes, and nothing more.
   */
  lemma PassSpeaksForOne(cfg: Config, w: World, a: Act, roster: Roster, m: Message, x: Address)
    requires Inv(w) && Allowed(cfg, w, a) && Whole(cfg, w, a) && a.event.Decline?
    requires var e := a.event; DeclinePlan(w.db, e.roster, e.alias, e.id, e.reason, e.now, e.newId).answer.Passed?
    requires m.id == a.event.id && m.id in w.db.messages && w.db.messages[m.id] == m
    ensures var e := a.event; var b := Perform(cfg, w, a); var origin := w.db.messages[e.id];
      && b.db.awaiting == w.db.awaiting
      && (forall k :: k in w.db.deliveries ==> k in b.db.deliveries && b.db.deliveries[k] == w.db.deliveries[k])
      && (StillOwed(b.db, roster, m, e.alias) <==>
            StillOwed(w.db, roster, m, e.alias) && m.id in w.db.claims && w.db.claims[m.id] == e.alias)
      && (x != e.alias ==> (StillOwed(b.db, roster, m, x) <==> StillOwed(w.db, roster, m, x)))
      && (if AskOpen(w.db.awaiting, e.id)
          then Key(e.newId, origin.from) in b.db.deliveries && |b.log| == |w.log| + 1 && b.log[|w.log|].Posted?
               && b.log[|w.log|].m.corrId == Some(e.id) && !b.log[|w.log|].m.terminal
          else b.log == w.log)
  {
    hide Inv, StillOwed, DeclinePlan, Steps, Posting, Work;
    var e := a.event;
    OwnId(w, e.id);
    PassWork(w, e);
    AskerIsPeer(w, e.id);
    PassedWorld(cfg, w, a);
    NoRowOf(w, e.newId);
    PassedLeaves(w, e, Perform(cfg, w, a));
    hide Perform;
    PassOwes(w.db, Perform(cfg, w, a).db, roster, m, e.alias, x);
  }

  /** The note a step back leaves with the asker. */
  function Note(origin: Message, e: Event): Message
    requires e.Decline?
  {
    NoticeTo(origin, origin.from, SteppedBack(e.alias), false, Inform, e.newId, e.now)
  }

  /** The world after stepping back: a pass, and a note if the asker still waits. */
  function Passed(w: World, e: Event): World
    requires e.Decline? && e.id in w.db.messages
  {
    var w1 := w.(db := w.db.(passes := w.db.passes + {Key(e.id, e.alias)}));
    var origin := w.db.messages[e.id];
    if AskOpen(w.db.awaiting, e.id) then Posting(w1, Note(origin, e), origin.from) else w1
  }

  lemma PassedWorld(cfg: Config, w: World, a: Act)
    requires Inv(w) && Allowed(cfg, w, a) && Whole(cfg, w, a) && a.event.Decline?
    requires var e := a.event; DeclinePlan(w.db, e.roster, e.alias, e.id, e.reason, e.now, e.newId).answer.Passed?
    ensures a.event.id in w.db.messages && Perform(cfg, w, a) == Passed(w, a.event)
  {
    hide Inv, DeclinePlan, Steps, Posting;
    var e := a.event;
    PassWork(w, e);
    var origin := w.db.messages[e.id];
    var pass := PassProject(e.id, e.alias);
    var work := Work(cfg, w.db, e);
    assert work[..a.cut] == work;
    PassOne(w, e.id, e.alias);
    OneStep(w, pass);
    if AskOpen(w.db.awaiting, e.id) {
      StepKeeps(w, pass);
      hide Step, Work;
      PostSafe(Steps(w, [pass]), Note(origin, e), origin.from);
      StepsConcat(w, [pass], [Append(Note(origin, e)), Enqueue(e.newId, origin.from)]);
    }
  }

  lemma PassedLeaves(w: World, e: Event, b: World)
    requires e.Decline? && e.id in w.db.messages && w.db.messages[e.id].id == e.id && b == Passed(w, e)
    requires forall k :: k in w.db.deliveries ==> k.msg != e.newId
    ensures var origin := w.db.messages[e.id];
      && b.db.awaiting == w.db.awaiting && b.db.claims == w.db.claims && b.db.passes == w.db.passes + {Key(e.id, e.alias)}
      && (forall k :: k in w.db.deliveries ==> k in b.db.deliveries && b.db.deliveries[k] == w.db.deliveries[k])
      && (if AskOpen(w.db.awaiting, e.id)
          then Key(e.newId, origin.from) in b.db.deliveries && |b.log| == |w.log| + 1 && b.log[|w.log|].Posted?
               && b.log[|w.log|].m.corrId == Some(e.id) && !b.log[|w.log|].m.terminal
          else b.log == w.log)
  {
    var note := Note(w.db.messages[e.id], e);
    assert note.id == e.newId && note.corrId == Some(e.id) && !note.terminal;
    hide Note, Bump;
  }

  /** Stepping back writes a pass, and a note to an asker who still waits. */
  lemma PassWork(w: World, e: Event)
    requires Inv(w) && e.Decline? && Fresh(w, e)
    requires DeclinePlan(w.db, e.roster, e.alias, e.id, e.reason, e.now, e.newId).answer.Passed?
    ensures e.id in w.db.messages && IsAsk(w.db.messages[e.id].kind)
    ensures var origin := w.db.messages[e.id];
      && DeclinePlan(w.db, e.roster, e.alias, e.id, e.reason, e.now, e.newId).work
         == [PassProject(e.id, e.alias)]
            + (if AskOpen(w.db.awaiting, e.id) then [Append(Note(origin, e)), Enqueue(e.newId, origin.from)] else [])
      && Guard(Steps(w, [PassProject(e.id, e.alias)]), Append(Note(origin, e)))
  {
    PassOne(w, e.id, e.alias);
    OneStep(w, PassProject(e.id, e.alias));
    OwnId(w, e.id);
    hide Inv, Actable;
  }

  /** One more pass changes what its own session owes, and nobody else. */
  lemma PassOwes(db: DB, b: DB, roster: Roster, m: Message, alias: Address, x: Address)
    requires b.claims == db.claims && b.passes == db.passes + {Key(m.id, alias)} && !m.from.Broker?
    ensures StillOwed(b, roster, m, alias) <==> StillOwed(db, roster, m, alias) && m.id in db.claims && db.claims[m.id] == alias
    ensures x != alias ==> (StillOwed(b, roster, m, x) <==> StillOwed(db, roster, m, x))
  {
  }

  lemma AskerIsPeer(w: World, id: Id)
    requires Inv(w) && id in w.db.messages && IsAsk(w.db.messages[id].kind)
    ensures !w.db.messages[id].from.Broker?
  {
  }

  lemma NoRowOf(w: World, id: Id)
    requires Inv(w) && id >= w.next
    ensures forall k :: k in w.db.deliveries ==> k.msg != id
  {
  }

  /**
   Declining a direct ask is final: the ask is closed as responded if it was open, the copy is
   refused, and the asker holds a terminal refusal.
   */
  lemma DeclineAnswers(cfg: Config, w: World, a: Act)
    requires Inv(w) && Allowed(cfg, w, a) && Whole(cfg, w, a) && a.event.Decline?
    requires var e := a.event; DeclinePlan(w.db, e.roster, e.alias, e.id, e.reason, e.now, e.newId).answer.Done?
    requires AskOpen(w.db.awaiting, a.event.id)
    ensures var e := a.event; var b := Perform(cfg, w, a).db; var origin := w.db.messages[e.id];
      && e.id in b.awaiting && b.awaiting[e.id].closed == Some(Responded)
      && (Key(e.id, e.alias) in w.db.deliveries ==>
            Key(e.id, e.alias) in b.deliveries && b.deliveries[Key(e.id, e.alias)].state.Refused?)
      && e.newId in b.messages && b.messages[e.newId] == DeclineAnswer(origin, e.alias, e.reason, e.newId, e.now)
      && Key(e.newId, origin.from) in b.deliveries && b.deliveries[Key(e.newId, origin.from)].state.Queued?
  {
    hide Inv, Posting, Step;
    RefusedWorld(cfg, w, a);
    AskStored(w, a.event.id);
    Unused(w, a.event.newId);
    NoRowOf(w, a.event.newId);
    RefusedLeaves(w, a.event);
  }

  function Refusing(w: World, e: Event): Message
    requires e.Decline? && e.id in w.db.messages
  {
    DeclineAnswer(w.db.messages[e.id], e.alias, e.reason, e.newId, e.now)
  }

  /** The world after a direct decline of an open ask. */
  ghost function Refused(w: World, e: Event): World
    requires e.Decline? && e.id in w.db.messages
  {
    Step(Posting(Step(w, SetConsent(e.id, e.alias, false)), Refusing(w, e), w.db.messages[e.id].from), CloseAwaiting(e.id, Responded))
  }

  lemma RefusedWorld(cfg: Config, w: World, a: Act)
    requires Inv(w) && Allowed(cfg, w, a) && Whole(cfg, w, a) && a.event.Decline?
    requires var e := a.event; DeclinePlan(w.db, e.roster, e.alias, e.id, e.reason, e.now, e.newId).answer.Done?
    requires AskOpen(w.db.awaiting, a.event.id)
    ensures a.event.id in w.db.messages && Perform(cfg, w, a) == Refused(w, a.event)
  {
    hide Inv, Steps;
    var e := a.event;
    AskStored(w, e.id);
    var work := DeclinePlan(w.db, e.roster, e.alias, e.id, e.reason, e.now, e.newId).work;
    assert work[..a.cut] == work;
    var origin := w.db.messages[e.id];
    var consent := SetConsent(e.id, e.alias, false);
    var post := [Append(Refusing(w, e)), Enqueue(e.newId, origin.from)];
    var close := CloseAwaiting(e.id, Responded);
    var w1 := Step(w, consent);
    assert work == [consent] + post + [close];
    StepKeeps(w, consent);
    hide DeclinePlan, Posting;
    PostSafe(w1, Refusing(w, e), origin.from);
    StepsConcat(w, [consent] + post, [close]);
    StepsConcat(w, [consent], post);
    OneStep(w, consent);
    OneStep(Posting(w1, Refusing(w, e), origin.from), close);
  }

  lemma RefusedLeaves(w: World, e: Event)
    requires e.Decline? && e.id in w.db.messages && AskOpen(w.db.awaiting, e.id) && e.newId !in w.db.messages
    requires forall k :: k in w.db.deliveries ==> k.msg != e.newId
    ensures var b := Refused(w, e).db; var origin := w.db.messages[e.id];
      && e.id in b.awaiting && b.awaiting[e.id].closed == Some(Responded)
      && (Key(e.id, e.alias) in w.db.deliveries ==>
            Key(e.id, e.alias) in b.deliveries && b.deliveries[Key(e.id, e.alias)].state.Refused?)
      && e.newId in b.messages && b.messages[e.newId] == DeclineAnswer(origin, e.alias, e.reason, e.newId, e.now)
      && Key(e.newId, origin.from) in b.deliveries && b.deliveries[Key(e.newId, origin.from)].state.Queued?
  {
  }

  // ---- Putting off ---------------------------------------------------------------------------

  /** A word from the recipient: a snooze that took, or a partial answer to an ask. */
  ghost predicate PutsOff(db: DB, e: Event, id: Id) {
    match e
    case Snooze(roster, alias, x, now) => x == id && SnoozePlan(db, roster, alias, x, now).answer.Done?
    case Reply(roster, reply, now, newId) =>
      reply.corrId == id && !reply.terminal && OriginOf(db.messages, id).Some?
      && ReplyPlan(db, roster, reply, now, newId).answer.Replied?
    case _ => false
  }

  /**
   Whoever puts an ask off is not nudged about it again before a full waiting time has passed,
   and is then; the sender's own deadline has not moved.
   */
  lemma PutOffWaits(cfg: Config, w: World, a: Act, id: Id, at: Time, grace: int, n: Id)
    requires Inv(w) && Allowed(cfg, w, a) && Whole(cfg, w, a) && PutsOff(w.db, a.event, id)
    requires AskOpen(w.db.awaiting, id) && w.db.awaiting[id].replyByS.Some?
    ensures var b := Perform(cfg, w, a).db; var replyBy := w.db.awaiting[id].replyByS.value;
      && id in b.awaiting && b.awaiting[id].replyByS == Some(replyBy) && id in b.messages
      && (SenderDue(b.awaiting[id], b.messages[id], at, grace) <==> at >= w.db.messages[id].ts + replyBy + grace)
      && (!SenderDue(b.awaiting[id], b.messages[id], at, grace) ==>
            (|ChasePlan(b, id, at, grace, n)| == 3 <==> at >= a.event.now + replyBy))
  {
    hide Inv, Safe, Steps;
    var work := Work(cfg, w.db, a.event);
    assert work[..a.cut] == work;
    AskStored(w, id);
    EventSafe(cfg, w, a.event);
    WorkPurgeFree(cfg, w.db, a.event);
    WriteSteps(w, work);
    PutOffWrites(cfg, w, a.event, id);
    var b := Perform(cfg, w, a);
    assert BookOf(b).asks == b.db.awaiting && BookOf(b).messages == b.db.messages;
  }

  /** In the book, putting off pushes the clock of one ask and nothing else of it. */
  lemma PutOffWrites(cfg: Config, w: World, e: Event, id: Id)
    requires Inv(w) && Fresh(w, e) && PutsOff(w.db, e, id) && AskOpen(w.db.awaiting, id)
    ensures var c := WriteAll(BookOf(w), Work(cfg, w.db, e));
      && c.asks == DeferAsk(w.db.awaiting, id, e.now)
      && id in c.messages && id in w.db.messages && c.messages[id] == w.db.messages[id]
  {
    hide Inv;
    var b := BookOf(w);
    AskStored(w, id);
    if e.Snooze? {
      var work := SnoozePlan(w.db, e.roster, e.alias, id, e.now).work;
      assert WriteAll(b, work) == WriteAll(b, work[1..]) && work[1..] == [DeferNudge(id, e.now)];
      WriteOne(b, DeferNudge(id, e.now));
    } else {
      PartialWrites(w, e, id);
    }
  }

  lemma PairWrites(b: Book, m: Message, to: Address)
    ensures WriteAll(b, [Append(m), Enqueue(m.id, to)]) == Write(b, Append(m))
  {
    assert [Append(m), Enqueue(m.id, to)][1..] == [Enqueue(m.id, to)];
    WriteOne(Write(b, Append(m)), Enqueue(m.id, to));
  }

  lemma CopiesSilent(roster: Roster, origin: Message, from: Address, project: bool)
    ensures forall s :: s in SettleCopies(roster, origin, from, project) ==> Silent(s)
  {
  }

  lemma PartialWrites(w: World, e: Event, id: Id)
    requires Inv(w) && Fresh(w, e) && PutsOff(w.db, e, id) && e.Reply? && id in w.db.messages
    ensures var m := ResponseTo(w.db.messages[id], e.reply, e.newId, e.now);
      && WriteAll(BookOf(w), ReplyPlan(w.db, e.roster, e.reply, e.now, e.newId).work)
         == Write(Write(BookOf(w), Append(m)), DeferNudge(id, e.now))
      && m.id != id
  {
    OwnId(w, id);
    hide Inv;
    var b := BookOf(w);
    var origin := w.db.messages[id];
    var m := ResponseTo(origin, e.reply, e.newId, e.now);
    var post := [Append(m), Enqueue(e.newId, origin.from)];
    var defer := [DeferNudge(id, e.now)];
    var copies := SettleCopies(e.roster, origin, e.reply.from, true);
    assert ReplyPlan(w.db, e.roster, e.reply, e.now, e.newId).work == post + defer + copies;
    CopiesSilent(e.roster, origin, e.reply.from, true);
    hide ReplyPlan, SettleCopies, WriteAll, Write, ResponseTo;
    PairWrites(b, m, origin.from);
    WriteConcat(b, post, defer);
    WriteConcat(b, post + defer, copies);
    WriteOne(Write(b, Append(m)), defer[0]);
    SilentWork(Write(Write(b, Append(m)), defer[0]), copies);
  }
}
