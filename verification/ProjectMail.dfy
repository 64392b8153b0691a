/**
 Shared project mail: one member owes it at a time, its sender never does, and what a host
 acknowledged is not handed to it again (src/broker/router.ts:605-615, 626-641, 777-801).
 */
module ProjectMail {
  import opened Models
  import opened Store
  import opened Invariants
  import opened Verbs
  import opened Runs
  import opened VerbSafety
  import opened Mailboxes
  import opened Retry
  import opened ProjectClaims
  import opened CursorEvents

  // ---- One member owes it ------------------------------------------------------------------

  /**
   From the end of an accept on, whatever runs short of a takeover from a holder who has gone, and
   under any roster that still has the holder: it alone owes the mail, unless the mail is its own
   session's, and then nobody does.
   */
  lemma {:induction false} HolderAloneOwes(cfg: Config, w: World, a: Act, acts: seq<Act>, roster: Roster, x: Address, m: Message)
    requires Allowed(cfg, w, a) && Whole(cfg, w, a) && a.event.Accept? && m.id == a.event.id
    requires AcceptPlan(w.db, a.event.roster, a.event.alias, a.event.id).answer.Claimed?
    requires Possible(cfg, Perform(cfg, w, a), acts)
    requires var answer := AcceptPlan(w.db, a.event.roster, a.event.alias, a.event.id).answer;
      && answer.holder.Some? && StillHeld(roster, answer.holder.value)
      && forall i :: 0 <= i < |acts| ==> !TakesOver(acts[i].event, m.id, answer.holder.value)
    ensures var holder := AcceptPlan(w.db, a.event.roster, a.event.alias, a.event.id).answer.holder.value;
      var b := Run(cfg, Perform(cfg, w, a), acts).db; var cause := CausalSender(b.messages, m);
      StillOwed(b, roster, m, x) <==> x == holder && !(cause.Some? && SameSession(roster, x, cause.value))
  {
    hide Steps, AcceptPlan, TakesOver;
    AcceptNamesHolder(cfg, w, a);
    HolderHolds(cfg, Perform(cfg, w, a), acts, m.id);
  }

  // ---- Passes and surfaced copies are for good -------------------------------------------------

  lemma MarksFrame(db: DB, s: Stmt)
    ensures db.passes <= Exec(db, s).passes && db.surfaces <= Exec(db, s).surfaces
  {
  }

  lemma {:induction false} MarksStay(w: World, work: seq<Stmt>)
    ensures w.db.passes <= Steps(w, work).db.passes && w.db.surfaces <= Steps(w, work).db.surfaces
    decreases |work|
  {
    hide Exec;
    if work != [] {
      MarksFrame(w.db, work[0]);
      MarksStay(Step(w, work[0]), work[1..]);
    }
  }

  lemma {:induction false} MarksStayOverRuns(cfg: Config, w: World, acts: seq<Act>)
    requires Possible(cfg, w, acts)
    ensures w.db.passes <= Run(cfg, w, acts).db.passes && w.db.surfaces <= Run(cfg, w, acts).db.surfaces
    decreases |acts|
  {
    hide Steps;
    if acts != [] {
      MarksStay(w, Work(cfg, w.db, acts[0].event)[..acts[0].cut]);
      MarksStayOverRuns(cfg, Perform(cfg, w, acts[0]), acts[1..]);
    }
  }

  lemma {:induction false} PassSticks(w: World, work: seq<Stmt>, id: Id, a: Address)
    requires PassProject(id, a) in work
    ensures Key(id, a) in Steps(w, work).db.passes
    decreases |work|
  {
    if work[0] == PassProject(id, a) {
      MarksStay(Step(w, work[0]), work[1..]);
    } else {
      PassSticks(Step(w, work[0]), work[1..], id, a);
    }
  }

  lemma PassMember(id: Id, boxes: seq<Address>, a: Address)
    requires a in boxes
    ensures PassProject(id, a) in PassEach(id, boxes)
  {
    var i :| 0 <= i < |boxes| && boxes[i] == a;
    assert PassEach(id, boxes)[i] == PassProject(id, a);
  }

  /** The aliases a send of project mail treats as having passed: by the broker, or by a degraded client. */
  function Passers(db: DB, e: Event): seq<Address>
    requires Sends(db, e)
  {
    var from := RequestOf(db, e).from;
    if e.Degraded? then DegradedBoxes(e.roster, from) else SessionBoxes(e.roster, from)
  }

  /** A send of project mail, first or replayed and by whatever path, passes for each of them. */
  lemma SendPasses(cfg: Config, db: DB, e: Event, id: Id, targets: seq<Address>, replayed: bool, self: Address)
    requires Sends(db, e) && SendAnswer(cfg, db, e) == Sent(id, targets, replayed) && RequestOf(db, e).to.Project?
    requires self in Passers(db, e)
    ensures PassProject(id, self) in Work(cfg, db, e)
  {
    hide FindOp, EnqueueEach, PassEach, SessionBoxes, DegradedBoxes, RouteOf, Targets;
    PassMember(id, Passers(db, e), self);
  }

  /**
   A session never owes its own project ask: every alias it held when a send of the ask - by the
   broker, by a degraded client, or by the replay of its intent - ran to its end has passed on it, at
   any later time and under any roster, unless it claims it.
   */
  lemma SenderNeverOwes(cfg: Config, w: World, send: Act, acts: seq<Act>, id: Id, targets: seq<Address>, replayed: bool,
                        roster: Roster, self: Address, m: Message)
    requires Allowed(cfg, w, send) && Whole(cfg, w, send) && Sends(w.db, send.event)
    requires SendAnswer(cfg, w.db, send.event) == Sent(id, targets, replayed)
    requires RequestOf(w.db, send.event).to.Project? && self in Passers(w.db, send.event)
    requires Possible(cfg, Perform(cfg, w, send), acts) && m.id == id
    ensures var b := Run(cfg, Perform(cfg, w, send), acts).db;
      StillOwed(b, roster, m, self) ==> id in b.claims && b.claims[id] == self
  {
    hide Steps, SendAnswer, Passers, RequestOf;
    var work := Work(cfg, w.db, send.event);
    assert work[..send.cut] == work;
    SendPasses(cfg, w.db, send.event, id, targets, replayed, self);
    hide Work;
    PassSticks(w, work, id, self);
    MarksStayOverRuns(cfg, Perform(cfg, w, send), acts);
  }

  // ---- Leased and acknowledged once ------------------------------------------------------------------

  /** The project mailboxes with waiting mail that a session working in a directory may consume. */
  predicate ProjectBox(rows: Rows, dir: string, box: Address) {
    box.Project? && WithinProject(dir, box.path) && PendingSet(rows, box) != {}
  }

  /** Project mail a lease would hand to this alias. */
  predicate ProjectLeasable(db: DB, roster: Roster, dir: string, self: Address, m: Message) {
    && ProjectBox(db.deliveries, dir, m.to) && m.id in db.messages && db.messages[m.id] == m
    && PendingRow(db.deliveries, Key(m.id, m.to))
    && StillOwed(db, roster, m, self)
    && Key(m.id, self) !in db.surfaces
  }

  /** Out of the project inbox for everyone. */
  predicate SettledCopy(db: DB, m: Message) {
    Key(m.id, m.to) in db.deliveries && !PendingRow(db.deliveries, Key(m.id, m.to))
  }

  datatype ProjectAck = Skipped | Counted | Marked

  /** What acknowledging one id does: nothing, counts it, or marks it seen by this host. */
  function AckProjectOne(db: DB, surfaces: set<Key>, dir: string, self: Address, id: Id): ProjectAck {
    if id !in db.messages then Skipped
    else
      var m := db.messages[id];
      if SettledCopy(db, m.(id := id)) then Counted
      else if !ProjectBox(db.deliveries, dir, m.to) || Key(id, self) in surfaces then Skipped
      else Marked
  }

  function AckProjectWork(db: DB, surfaces: set<Key>, dir: string, self: Address, ids: seq<Id>): seq<Stmt>
    decreases |ids|
  {
    if ids == [] then []
    else if AckProjectOne(db, surfaces, dir, self, ids[0]).Marked? then
      [MarkProjectSurfaced(ids[0], self)] + AckProjectWork(db, surfaces + {Key(ids[0], self)}, dir, self, ids[1..])
    else AckProjectWork(db, surfaces, dir, self, ids[1..])
  }

  function AckProjectCount(db: DB, surfaces: set<Key>, dir: string, self: Address, ids: seq<Id>): nat
    decreases |ids|
  {
    if ids == [] then 0
    else
      var r := AckProjectOne(db, surfaces, dir, self, ids[0]);
      (if r.Skipped? then 0 else 1)
      + AckProjectCount(db, if r.Marked? then surfaces + {Key(ids[0], self)} else surfaces, dir, self, ids[1..])
  }

  /** Marking one message as seen changes the acknowledgement of no other. */
  lemma AckOther(db: DB, surfaces: set<Key>, dir: string, self: Address, x: Id, id: Id)
    requires x != id
    ensures AckProjectOne(db, surfaces + {Key(x, self)}, dir, self, id) == AckProjectOne(db, surfaces, dir, self, id)
  {
  }

  /** Acknowledging distinct ids counts every one exactly if it would skip none of them. */
  lemma {:induction false} AllProjectAcked(db: DB, surfaces: set<Key>, dir: string, self: Address, ids: seq<Id>)
    requires forall i, j :: 0 <= i < j < |ids| ==> ids[i] != ids[j]
    ensures AckProjectCount(db, surfaces, dir, self, ids) <= |ids|
    ensures AckProjectCount(db, surfaces, dir, self, ids) == |ids|
            <==> forall id :: id in ids ==> !AckProjectOne(db, surfaces, dir, self, id).Skipped?
    decreases |ids|
  {
    if ids != [] {
      var next := if AckProjectOne(db, surfaces, dir, self, ids[0]).Marked? then surfaces + {Key(ids[0], self)} else surfaces;
      hide AckProjectOne;
      forall id | id in ids[1..]
        ensures AckProjectOne(db, next, dir, self, id) == AckProjectOne(db, surfaces, dir, self, id)
      {
        var i :| 0 <= i < |ids[1..]| && ids[1..][i] == id;
        assert ids[i + 1] == id;
        AckOther(db, surfaces, dir, self, ids[0], id);
      }
      AllProjectAcked(db, next, dir, self, ids[1..]);
      assert forall id :: id in ids <==> id == ids[0] || id in ids[1..];
    }
  }

  /** Mail that was leasable is skipped later exactly if it is gone, or still waiting and seen by this host already. */
  lemma LeasedLater(w: World, b: World, roster: Roster, dir: string, self: Address, id: Id)
    requires Inv(w) && Inv(b) && Follows(w, b) && id in w.db.messages
    requires ProjectLeasable(w.db, roster, dir, self, w.db.messages[id])
    ensures AckProjectOne(b.db, b.db.surfaces, dir, self, id).Skipped? <==>
      id !in b.db.messages || (PendingRow(b.db.deliveries, Key(id, w.db.messages[id].to)) && Key(id, self) in b.db.surfaces)
  {
    OwnId(w, id);
    if id in b.db.messages {
      StillStored(w, b, id);
      var to := w.db.messages[id].to;
      RowStays(w, b, Key(id, to));
      if PendingRow(b.db.deliveries, Key(id, to)) { InPendingSet(b.db.deliveries, id, to); }
    }
  }

  lemma RowStays(a: World, b: World, k: Key)
    requires Follows(a, b) && k in a.db.deliveries && k.msg in b.db.messages
    ensures k in b.db.deliveries
  {
  }

  /**
   Lease project mail, let anything happen, acknowledge it: the count is short exactly if some
   message has been purged, or still waits and this host had marked it seen in between.
   */
  lemma LeasedProjectMailIsAcked(cfg: Config, w: World, acts: seq<Act>, roster: Roster, dir: string, self: Address, ids: seq<Id>)
    requires Inv(w) && Possible(cfg, w, acts)
    requires forall i, j :: 0 <= i < j < |ids| ==> ids[i] != ids[j]
    requires forall id :: id in ids ==> id in w.db.messages && ProjectLeasable(w.db, roster, dir, self, w.db.messages[id])
    ensures var b := Run(cfg, w, acts).db;
      AckProjectCount(b, b.surfaces, dir, self, ids) == |ids| <==>
        forall id :: id in ids ==>
          id in b.messages && (PendingRow(b.deliveries, Key(id, w.db.messages[id].to)) ==> Key(id, self) !in b.surfaces)
  {
    hide Inv, Follows, ProjectLeasable, AckProjectOne;
    var b := Run(cfg, w, acts);
    RunKeeps(cfg, w, acts);
    AllProjectAcked(b.db, b.db.surfaces, dir, self, ids);
    forall id | id in ids
      ensures AckProjectOne(b.db, b.db.surfaces, dir, self, id).Skipped? <==>
        id !in b.db.messages || (PendingRow(b.db.deliveries, Key(id, w.db.messages[id].to)) && Key(id, self) in b.db.surfaces)
    {
      LeasedLater(w, b, roster, dir, self, id);
    }
  }

  /** Once marked as seen by a host, mail is never leased to it again, whatever runs. */
  lemma SeenNeverLeasedAgain(cfg: Config, w: World, acts: seq<Act>, roster: Roster, dir: string, self: Address, m: Message)
    requires Possible(cfg, w, acts) && Key(m.id, self) in w.db.surfaces
    ensures !ProjectLeasable(Run(cfg, w, acts).db, roster, dir, self, m)
  {
    MarksStayOverRuns(cfg, w, acts);
  }

  // ---- The cursor of a project's count -----------------------------------------------------------------

  /** A listing of the project mailboxes a count looks at: those with waiting mail, and no others. */
  ghost predicate Watches(rows: Rows, dir: string, boxes: seq<Address>) {
    forall a :: a in boxes <==> ProjectBox(rows, dir, a)
  }

  lemma {:induction false} FewerSeqs(seqOf: map<Address, nat>, few: seq<Address>, many: seq<Address>)
    requires forall a :: a in few ==> a in many
    ensures LastEventSeq(seqOf, few) <= LastEventSeq(seqOf, many)
    decreases |few|
  {
    if few != [] {
      assert few[0] in many;
      var i :| 0 <= i < |many| && many[i] == few[0];
      if few[0] in seqOf { SeqCovers(seqOf, many, i); }
      forall a | a in few[1..] ensures a in many { assert a in few; }
      FewerSeqs(seqOf, few[1..], many);
    }
  }

  lemma {:induction false} NeverMoved(db: DB, work: seq<Stmt>, boxes: seq<Address>, a: Address)
    requires !EverMoved(db, work, boxes) && a in boxes
    ensures PendingSet(ExecAll(db, work).deliveries, a) == PendingSet(db.deliveries, a)
    decreases |work|
  {
    hide Exec;
    if work != [] {
      NeverMoved(db, work[..|work| - 1], boxes, a);
      var i :| 0 <= i < |boxes| && boxes[i] == a;
    }
  }

  /**
   A project's count looks only at mailboxes that wait now, so its cursor can go back.  Between two
   counts it jumps above everything before exactly if one of those has moved; else it is the newest
   event of those, no later than the earlier cursor, and 0 once nothing waits.
   */
  lemma ProjectCursor(db: DB, work: seq<Stmt>, dir: string, before: seq<Address>, after: seq<Address>)
    requires CursorInv(db.cursor) && OrderlyRun(db, work)
    requires Watches(db.deliveries, dir, before) && Watches(ExecAll(db, work).deliveries, dir, after)
    ensures var was := Count(db, before).1; var now := Count(ExecAll(db, work), after).1;
      && (now > was <==> EverMoved(db, work, after))
      && (!EverMoved(db, work, after) ==> now == LastEventSeq(db.cursor.seqOf, after) <= was)
      && (after == [] ==> now == 0)
  {
    hide ExecAll, EverMoved;
    CursorExact(db, work, after);
    SeqBounded(db.cursor, before);
    if !EverMoved(db, work, after) {
      forall a | a in after ensures a in before { NeverMoved(db, work, after, a); }
      FewerSeqs(db.cursor.seqOf, after, before);
    }
  }
}
