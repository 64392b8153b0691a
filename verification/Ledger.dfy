/**
 A reference reading of the history, and what each statement does to it: for one ask, what the
 first decisive entry decided, how often its sender was released and how often it was nudged,
 beside what the awaiting table says.
 */
module Ledger {
  import opened Models
  import opened Store
  import opened Invariants
  import opened Statements
  import opened Verbs
  import opened Runs

  // ---- The reference reading of a history --------------------------------------------------

  /** What one entry decides about an ask: an answer, a release by the broker, or a withdrawal. */
  function Decides(e: Entry, id: Id): Option<Reason> {
    match e
    case Posted(m) =>
      if m.corrId == Some(id) && m.kind.Response? && m.terminal
      then Some(if m.from.Broker? then Parked else Responded) else None
    case Withdrawn(x) => if x == id then Some(Cancelled) else None
  }

  /** The first decisive entry decides. */
  function Verdict(log: seq<Entry>, id: Id): Option<Reason>
    decreases |log|
  {
    if log == [] then None
    else OrDefault(Verdict(log[..|log| - 1], id), Decides(log[|log| - 1], id))
  }

  predicate IsRelease(e: Entry, id: Id) { e.Posted? && e.m.from.Broker? && Decides(e, id).Some? }

  predicate IsNudge(e: Entry, id: Id) {
    e.Posted? && e.m.corrId == Some(id) && e.m.from.Broker? && e.m.body == Notice(Nudge)
  }

  function Releases(log: seq<Entry>, id: Id): nat
    decreases |log|
  {
    if log == [] then 0
    else Releases(log[..|log| - 1], id) + if IsRelease(log[|log| - 1], id) then 1 else 0
  }

  function Nudges(log: seq<Entry>, id: Id): nat
    decreases |log|
  {
    if log == [] then 0
    else Nudges(log[..|log| - 1], id) + if IsNudge(log[|log| - 1], id) then 1 else 0
  }

  lemma Snoc(log: seq<Entry>, e: Entry, id: Id)
    ensures Verdict(log + [e], id) == OrDefault(Verdict(log, id), Decides(e, id))
    ensures Releases(log + [e], id) == Releases(log, id) + if IsRelease(e, id) then 1 else 0
    ensures Nudges(log + [e], id) == Nudges(log, id) + if IsNudge(e, id) then 1 else 0
  {
    assert (log + [e])[..|log|] == log;
  }

  lemma {:induction false} NeverMentioned(log: seq<Entry>, next: Id, id: Id)
    requires LogInv(log, next) && id >= next
    ensures Verdict(log, id).None? && Releases(log, id) == 0 && Nudges(log, id) == 0
    decreases |log|
  {
    if log != [] {
      assert EntryOld(log[|log| - 1], next);
      NeverMentioned(log[..|log| - 1], next, id);
    }
  }

  /** A release decides, so an undecided ask has had none. */
  lemma {:induction false} UndecidedUnreleased(log: seq<Entry>, id: Id)
    requires Verdict(log, id).None?
    ensures Releases(log, id) == 0
    decreases |log|
  {
    if log != [] { UndecidedUnreleased(log[..|log| - 1], id); }
  }

  // ---- The part of the world the ledger reads ------------------------------------------------

  datatype Book = Book(messages: Messages, asks: Asks, log: seq<Entry>, defers: multiset<Id>)

  function BookOf(w: World): Book { Book(w.db.messages, w.db.awaiting, w.log, w.defers) }

  /** A statement's effect on the book, for everything but purging. */
  ghost function Write(b: Book, s: Stmt): Book {
    match s
    case AppendRouted(m, _) => b.(messages := b.messages[m.id := m], log := b.log + [Posted(m)])
    case Append(m) => b.(messages := b.messages[m.id := m], log := b.log + [Posted(m)])
    case OpenAwaiting(id, expiresAt, replyByS, nudgeFrom) =>
      b.(asks := b.asks[id := Awaiting(expiresAt, None, replyByS, 0, nudgeFrom)])
    case CloseAwaiting(id, reason) =>
      b.(asks := CloseAsk(b.asks, id, reason), log := if AskOpen(b.asks, id) then Withdraw(b.log, id, reason) else b.log)
    case MarkNudged(id, stage) => b.(asks := NudgeAsk(b.asks, id, stage))
    case DeferNudge(id, now) => b.(asks := DeferAsk(b.asks, id, now), defers := b.defers + multiset{id})
    case _ => b
  }

  ghost function WriteAll(b: Book, work: seq<Stmt>): Book
    decreases |work|
  {
    if work == [] then b else WriteAll(Write(b, work[0]), work[1..])
  }

  lemma WriteStep(w: World, s: Stmt)
    requires Guard(w, s) && !s.Purge? && ((s.Append? || s.AppendRouted?) ==> Insertable(w.db.messages, s.m))
    ensures BookOf(Step(w, s)) == Write(BookOf(w), s)
  {
    hide Guard, Insertable, BumpAll, ClaimedKeys, LeaseRows, AckRows, ConsumeRows, RetireRows;
  }

  lemma {:induction false} WriteSteps(w: World, work: seq<Stmt>)
    requires Inv(w) && Safe(w, work) && forall s :: s in work ==> !s.Purge?
    ensures BookOf(Steps(w, work)) == WriteAll(BookOf(w), work)
    decreases |work|
  {
    hide Inv;
    if work != [] {
      assert work[0] in work;
      AppendInserts(w, work[0]);
      WriteStep(w, work[0]);
      StepKeeps(w, work[0]);
      WriteSteps(Step(w, work[0]), work[1..]);
    }
  }

  lemma AppendInserts(w: World, s: Stmt)
    requires Inv(w) && Guard(w, s)
    ensures (s.Append? || s.AppendRouted?) ==> Insertable(w.db.messages, s.m) && s.m.id >= w.next
  {
  }

  lemma {:induction false} WriteConcat(b: Book, x: seq<Stmt>, y: seq<Stmt>)
    ensures WriteAll(b, x + y) == WriteAll(WriteAll(b, x), y)
    decreases |x|
  {
    if x == [] {
      assert x + y == y;
    } else {
      assert (x + y)[1..] == x[1..] + y;
      WriteConcat(Write(b, x[0]), x[1..], y);
    }
  }

  /** Statements the book does not notice. */
  predicate Silent(s: Stmt) {
    !s.AppendRouted? && !s.Append? && !s.OpenAwaiting? && !s.CloseAwaiting? && !s.MarkNudged? && !s.DeferNudge? && !s.Purge?
  }

  lemma {:induction false} SilentWork(b: Book, work: seq<Stmt>)
    requires forall s :: s in work ==> Silent(s)
    ensures WriteAll(b, work) == b
    decreases |work|
  {
    if work != [] {
      assert Silent(work[0]);
      SilentWork(b, work[1..]);
    }
  }

  lemma WriteOne(b: Book, s: Stmt)
    ensures WriteAll(b, [s]) == Write(b, s)
  {
    assert [s][1..] == [];
  }

  // ---- One ask's account ------------------------------------------------------------------------

  /**
   What the tables and the history say of one ask: the deadline it was sent with, if it is one; is it
   awaited, how did that end and by which deadline; what decided it, and how often it was released.
   */
  datatype Account = Account(asked: Option<Option<int>>, row: Option<Option<Reason>>, due: Option<Option<int>>,
                             verdict: Option<Reason>, releases: nat)

  function AccountOf(b: Book, y: Id): Account {
    Account(if DirectedAsk(b.messages, y) then Some(b.messages[y].replyByS) else None,
            if y in b.asks then Some(b.asks[y].closed) else None, if y in b.asks then Some(b.asks[y].replyByS) else None,
            Verdict(b.log, y), Releases(b.log, y))
  }

  const BLANK: Account := Account(None, None, None, None, 0)

  /** A row, if there is one, agrees with the history, and a parked ask's sender was released exactly once. */
  predicate Honest(acc: Account) {
    acc.row.Some? ==> acc.row.value == acc.verdict && acc.releases == if acc.verdict == Some(Parked) then 1 else 0
  }

  /** Every stored ask has a row besides. */
  predicate Fair(acc: Account) { Honest(acc) && (acc.asked.Some? ==> acc.row.Some?) }

  /** An awaited ask is chased by the deadline it was sent with. */
  predicate Dated(acc: Account) { acc.due.Some? ==> acc.asked == acc.due }

  ghost predicate LedgerInv(b: Book) { forall y: Id :: Fair(AccountOf(b, y)) }

  function Told(acc: Account, m: Message, y: Id): Account {
    acc.(asked := if m.id == y && OpensThread(m.kind, m.to) then Some(m.replyByS) else acc.asked,
         verdict := OrDefault(acc.verdict, Decides(Posted(m), y)),
         releases := acc.releases + if IsRelease(Posted(m), y) then 1 else 0)
  }

  /** One statement's effect on one account. */
  function Turn(acc: Account, s: Stmt, y: Id): Account {
    match s
    case AppendRouted(m, _) => Told(acc, m, y)
    case Append(m) => Told(acc, m, y)
    case OpenAwaiting(id, _, replyByS, _) => if id == y then acc.(row := Some(None), due := Some(replyByS)) else acc
    case CloseAwaiting(id, reason) =>
      if id == y && acc.row == Some(None) then
        acc.(row := Some(Some(reason)), verdict := if reason.Cancelled? then OrDefault(acc.verdict, Some(Cancelled)) else acc.verdict)
      else acc
    case _ => acc
  }

  lemma TurnWrites(b: Book, s: Stmt, y: Id)
    requires (s.Append? || s.AppendRouted?) ==> s.m.id !in b.messages
    ensures AccountOf(Write(b, s), y) == Turn(AccountOf(b, y), s, y)
  {
    match s
    case AppendRouted(m, targets) =>
      ToldWrites(b, m, y);
      assert Write(b, s) == Write(b, Append(m));
    case Append(m) => ToldWrites(b, m, y);
    case CloseAwaiting(id, reason) => CloseWrites(b, id, reason, y);
    case _ =>
  }

  lemma ToldWrites(b: Book, m: Message, y: Id)
    requires m.id !in b.messages
    ensures AccountOf(Write(b, Append(m)), y) == Told(AccountOf(b, y), m, y)
  {
    Snoc(b.log, Posted(m), y);
    hide Verdict, Releases, Nudges, Decides, IsRelease;
  }

  lemma CloseWrites(b: Book, id: Id, reason: Reason, y: Id)
    ensures AccountOf(Write(b, CloseAwaiting(id, reason)), y) == Turn(AccountOf(b, y), CloseAwaiting(id, reason), y)
  {
    Snoc(b.log, Withdrawn(id), y);
    hide Verdict, Releases, Nudges;
  }

  function TurnAll(acc: Account, work: seq<Stmt>, y: Id): Account
    decreases |work|
  {
    if work == [] then acc else Turn(TurnAll(acc, work[..|work| - 1], y), work[|work| - 1], y)
  }

  /** Statements that leave an account as it is. */
  predicate Idle(s: Stmt, y: Id) {
    match s
    case AppendRouted(m, _) => m.id != y && Decides(Posted(m), y).None?
    case Append(m) => !(m.id == y && OpensThread(m.kind, m.to)) && Decides(Posted(m), y).None?
    case OpenAwaiting(id, _, _, _) => id != y
    case CloseAwaiting(id, _) => id != y
    case _ => true
  }

  lemma IdleTurn(acc: Account, s: Stmt, y: Id)
    requires Idle(s, y)
    ensures Turn(acc, s, y) == acc
  {
  }

  /** Work with at most two statements that matter, cut anywhere: none of them ran, the first did, or both. */
  lemma {:induction false} TwoTurns(acc: Account, work: seq<Stmt>, y: Id, p: nat, q: nat, cut: nat)
    requires p < q && cut <= |work| && forall i :: 0 <= i < |work| && i != p && i != q ==> Idle(work[i], y)
    ensures TurnAll(acc, work[..cut], y) ==
      if cut <= p then acc
      else if cut <= q then Turn(acc, work[p], y)
      else Turn(Turn(acc, work[p], y), work[q], y)
    decreases cut
  {
    hide Turn, Idle;
    if cut > 0 {
      TwoTurns(acc, work, y, p, q, cut - 1);
      assert work[..cut][..cut - 1] == work[..cut - 1];
      if cut - 1 != p && cut - 1 != q { IdleTurn(TurnAll(acc, work[..cut - 1], y), work[cut - 1], y); }
    }
  }

  /** A world's accounts follow its statements. */
  lemma {:induction false} TurnSteps(w: World, work: seq<Stmt>, y: Id)
    requires Inv(w) && Safe(w, work) && forall s :: s in work ==> !s.Purge?
    ensures AccountOf(BookOf(Steps(w, work)), y) == TurnAll(AccountOf(BookOf(w), y), work, y)
    decreases |work|
  {
    hide Inv, Turn, AccountOf, Safe;
    if work == [] {
      NoSteps(w);
    } else {
      var n := |work| - 1;
      var front := work[..n];
      SafePrefix(w, work, n);
      TurnSteps(w, front, y);
      SafeRuns(w, front, n);
      assert front[..n] == front && work == front + [work[n]];
      StepsConcat(w, front, [work[n]]);
      var v := Steps(w, front);
      OneStep(v, work[n]);
      LastGuarded(w, work);
      assert work[n] in work;
      AppendInserts(v, work[n]);
      WriteStep(v, work[n]);
      assert (work[n].Append? || work[n].AppendRouted?) ==> Insertable(v.db.messages, work[n].m);
      TurnWrites(BookOf(v), work[n], y);
    }
  }

  lemma {:induction false} LastGuarded(w: World, work: seq<Stmt>)
    requires Safe(w, work) && work != []
    ensures Guard(Steps(w, work[..|work| - 1]), work[|work| - 1])
    decreases |work|
  {
    hide Guard, Step;
    var n := |work| - 1;
    if n == 0 {
      assert work[..n] == [];
    } else {
      assert work[..n][1..] == work[1..][..n - 1];
      LastGuarded(Step(w, work[0]), work[1..]);
    }
  }
}
