/**
 The host that feeds one Codex thread: lease, persist as tool output, verify against the
 thread's durable history, then acknowledge (src/codex/host.ts).  The broker and the App
 Server are everything behind a call: while the host waits, mail moves, clocks run, users type
 and a started turn may or may not reach the thread.
 */
module Host {
  import opened Models
  import opened Store
  import opened Invariants
  import opened Backend
  import Mailboxes

  // ---- Durable threads -------------------------------------------------------------------

  /** A thread item: mail the host delivered, or anything else. */
  datatype Item = Received(ids: seq<Id>) | Other
  datatype TurnStatus = Completed | Failed | Interrupted | Cancelled | Unfinished(status: string)
  datatype Turn = Turn(id: nat, status: TurnStatus, items: seq<Item>)

  type History = map<string, seq<Turn>>

  function FindTurn(turns: seq<Turn>, id: nat): Option<Turn> {
    if turns == [] then None else if turns[0].id == id then Some(turns[0]) else FindTurn(turns[1..], id)
  }

  function ItemIds(items: seq<Item>): seq<Id> {
    if items == [] then []
    else ItemIds(items[..|items| - 1]) + match items[|items| - 1] case Received(ids) => ids case Other => []
  }

  /** Every message id a thread holds as received mail, in order. */
  function IpcIds(turns: seq<Turn>): seq<Id> {
    if turns == [] then [] else IpcIds(turns[..|turns| - 1]) + ItemIds(turns[|turns| - 1].items)
  }

  function IdsIn(h: History, thread: string): seq<Id> { if thread in h then IpcIds(h[thread]) else [] }

  predicate NoRepeats(ids: seq<Id>) { forall i, j :: 0 <= i < j < |ids| ==> ids[i] != ids[j] }

  predicate Apart(ids: seq<Id>, more: seq<Id>) { forall id :: id in more ==> id !in ids }

  /** No message twice in one thread, and a row of these mailboxes marked persisted is backed by a thread. */
  ghost predicate Sound(h: History, rows: Rows, boxes: set<Address>) {
    && (forall t :: t in h ==> NoRepeats(IdsIn(h, t)))
    && (forall k :: k in rows && k.addr in boxes && rows[k].state.Persisted? ==> Somewhere(h, k.msg))
  }

  ghost predicate Somewhere(h: History, id: Id) { exists t :: t in h && id in IdsIn(h, t) }

  /** What the host may meet after any wait. */
  datatype Durable = Durable(history: History, rows: Rows)

  // ---- What others do while the host waits --------------------------------------------------

  /** Anything but an acknowledgement for these mailboxes: no row of theirs becomes persisted. */
  predicate OnlyOthers(boxes: set<Address>, a: Rows, b: Rows) {
    forall k :: k in b && k.addr in boxes && b[k].state.Persisted? ==> k in a && a[k].state.Persisted?
  }

  lemma StatementPersistsNothing(boxes: set<Address>, db: DB, s: Stmt)
    requires s.Ack? ==> s.addr !in boxes
    ensures OnlyOthers(boxes, db.deliveries, Exec(db, s).deliveries)
  {
  }

  /** Indeed no work of the broker's persists a row of theirs, unless it acknowledges for one of them. */
  lemma {:induction false} OnlyAcksPersist(boxes: set<Address>, db: DB, work: seq<Stmt>)
    requires forall s :: s in work && s.Ack? ==> s.addr !in boxes
    ensures OnlyOthers(boxes, db.deliveries, ExecAll(db, work).deliveries)
    decreases |work|
  {
    hide Exec;
    if work != [] {
      var n := |work| - 1;
      OnlyAcksPersist(boxes, db, work[..n]);
      assert work[n] in work;
      StatementPersistsNothing(boxes, ExecAll(db, work[..n]), work[n]);
    }
  }

  /** Users' turns come and change; received mail stays as it is. */
  predicate SameMail(a: History, b: History) {
    && (forall t :: t in a ==> t in b)
    && (forall t :: t in b ==> IdsIn(b, t) == IdsIn(a, t))
  }

  /** The same turns with the same items; their statuses may differ. */
  predicate SameItems(a: seq<Turn>, b: seq<Turn>) {
    |a| == |b| && forall i :: 0 <= i < |a| ==> a[i].id == b[i].id && a[i].items == b[i].items
  }

  lemma {:induction false} SameItemsIds(a: seq<Turn>, b: seq<Turn>)
    requires SameItems(a, b)
    ensures IpcIds(a) == IpcIds(b)
    decreases |a|
  {
    if a != [] { SameItemsIds(a[..|a| - 1], b[..|b| - 1]); }
  }

  /** A thread keeps the turns it has and gets more at its end. */
  predicate Extends(a: seq<Turn>, b: seq<Turn>) { |a| <= |b| && SameItems(a, b[..|a|]) }

  /** Users write at most `k` turns to the end of each thread, none of them received mail; any turn may change status. */
  predicate UsersWrote(a: History, b: History, k: nat) {
    && SameMail(a, b)
    && forall t :: t in b ==> Extends(TurnsOf(a, t), TurnsOf(b, t)) && |TurnsOf(b, t)| <= |TurnsOf(a, t)| + k
  }

  /** A turn that was started and has not reached its thread yet. */
  datatype Pending = Pending(thread: string, turn: nat, ids: seq<Id>)

  function Landed(h: History, p: Pending): History {
    h[p.thread := (if p.thread in h then h[p.thread] else []) + [Turn(p.turn, Unfinished(""), [Received(p.ids)])]]
  }

  lemma LandedIds(h: History, p: Pending)
    ensures forall t :: t in h || t == p.thread ==>
              IdsIn(Landed(h, p), t) == IdsIn(h, t) + if t == p.thread then p.ids else []
  {
    var turns := if p.thread in h then h[p.thread] else [];
    var last := Turn(p.turn, Unfinished(""), [Received(p.ids)]);
    assert (turns + [last])[..|turns|] == turns;
    assert [Received(p.ids)][..0] == [];
    assert ItemIds(last.items) == [] + p.ids == p.ids;
    assert IpcIds(turns + [last]) == IpcIds(turns) + p.ids;
  }

  lemma LandedSound(h: History, rows: Rows, boxes: set<Address>, p: Pending)
    requires Sound(h, rows, boxes) && NoRepeats(p.ids) && Apart(IdsIn(h, p.thread), p.ids)
    ensures Sound(Landed(h, p), rows, boxes)
  {
    LandedIds(h, p);
    var l := Landed(h, p);
    forall t | t in l ensures NoRepeats(IdsIn(l, t)) {
      if t == p.thread { Joined(IdsIn(h, t), p.ids); } else { assert NoRepeats(IdsIn(h, t)); }
    }
    forall k | k in rows && k.addr in boxes && rows[k].state.Persisted? ensures Somewhere(l, k.msg) {
      var t :| t in h && k.msg in IdsIn(h, t);
      assert t in l && k.msg in IdsIn(l, t);
    }
  }

  /** Giving a delivery up must be final: if the turn lands after the retry's, the thread holds its mail twice. */
  lemma LateLandingRepeats(h: History, thread: string, late: nat, retry: nat, ids: seq<Id>)
    requires NoRepeats(IdsIn(h, thread)) && NoRepeats(ids) && Apart(IdsIn(h, thread), ids)
    ensures NoRepeats(IdsIn(Landed(Landed(h, Pending(thread, retry, ids)), Pending(thread, late, ids)), thread)) <==> ids == []
  {
    hide Landed, IdsIn;
    var first := Landed(h, Pending(thread, retry, ids));
    LandedIds(h, Pending(thread, retry, ids));
    LandedIds(first, Pending(thread, late, ids));
    Twice(IdsIn(h, thread), ids);
  }

  lemma Twice(before: seq<Id>, ids: seq<Id>)
    requires NoRepeats(before)
    ensures NoRepeats(before + ids + ids) <==> ids == []
  {
    var both := before + ids + ids;
    if ids != [] {
      assert both[|before|] == both[|before| + |ids|];
    } else {
      assert both == before;
    }
  }

  lemma Joined(a: seq<Id>, b: seq<Id>)
    requires NoRepeats(a) && NoRepeats(b) && Apart(a, b)
    ensures NoRepeats(a + b)
  {
    forall i, j | 0 <= i < j < |a + b| ensures (a + b)[i] != (a + b)[j] {
      if i < |a| <= j { assert b[j - |a|] in b; }
    }
  }

  lemma OthersSound(h: History, rows: Rows, h2: History, rows2: Rows, boxes: set<Address>)
    requires Sound(h, rows, boxes) && OnlyOthers(boxes, rows, rows2) && SameMail(h, h2)
    ensures Sound(h2, rows2, boxes)
  {
    forall t | t in h2 ensures NoRepeats(IdsIn(h2, t)) {
      if t in h { assert NoRepeats(IdsIn(h, t)); } else { assert IdsIn(h2, t) == []; }
    }
    forall k | k in rows2 && k.addr in boxes && rows2[k].state.Persisted? ensures Somewhere(h2, k.msg) {
      assert Somewhere(h, k.msg);
      var t :| t in h && k.msg in IdsIn(h, t);
      assert t in h2 && k.msg in IdsIn(h2, t);
    }
  }

  lemma AckedSound(h: History, rows: Rows, boxes: set<Address>, a: Address, leaseId: string, ids: seq<Id>)
    requires Sound(h, rows, boxes) && forall id :: id in ids ==> Somewhere(h, id)
    ensures Sound(h, AckRows(rows, a, leaseId, ids), boxes)
  {
    hide Somewhere, NoRepeats;
  }

  // ---- The other side of every call ------------------------------------------------------------

  class World {
    const boxes: set<Address>    // the mailboxes of the session, all it ever has
    var history: History
    var rows: Rows
    var now: Time
    var pending: Option<Pending>
    var waits: seq<Durable>
    var unwritten: nat    // turns users will still write while a delivery is being awaited

    constructor (boxes: set<Address>, history: History, rows: Rows, now: Time)
      requires Sound(history, rows, boxes)
      ensures Valid() && this.boxes == boxes && this.history == history && this.rows == rows && pending.None?
    {
      this.boxes, this.history, this.rows, this.now := boxes, history, rows, now;
      pending, waits := None, [];
      var any: nat := *;
      unwritten := any;
    }

    /** The durable state is sound now and was at every wait; an unlanded turn would keep it so. */
    ghost predicate Valid()
      reads this
    {
      && Sound(history, rows, boxes)
      && (forall d :: d in waits ==> Sound(d.history, d.rows, boxes))
      && (pending.Some? ==> NoRepeats(pending.value.ids) && Apart(IdsIn(history, pending.value.thread), pending.value.ids))
    }

    /** One wait with no turn in flight: mail, clocks and users' turns move. */
    method Wait()
      requires Valid() && pending.None?
      modifies this
      ensures Valid() && pending.None? && SameMail(old(history), history) && old(waits) <= waits
    {
      var laterRows: Rows, laterHistory: History, later: Time := *, *, *;
      if !OnlyOthers(boxes, rows, laterRows) { laterRows := rows; }
      if !SameMail(history, laterHistory) { laterHistory := history; }
      if later < now { later := now; }
      OthersSound(history, rows, laterHistory, laterRows, boxes);
      rows, history, now := laterRows, laterHistory, later;
      waits := waits + [Durable(history, rows)];
    }

    /** Users write some more turns. */
    method UsersWrite()
      requires Valid()
      modifies `history, `unwritten
      ensures Valid() && Landing(old(history), pending, history, pending)
      ensures forall t :: Room(history, pending, unwritten, t) <= Room(old(history), pending, old(unwritten), t)
    {
      hide Sound, IdsIn, Extends, UsersWrote, Landing, Apart, SameMail;
      var later: History, k: nat := *, *;
      if k > unwritten || !UsersWrote(history, later, k) {
        later, k := history, 0;
        NothingWritten(history);
      }
      WroteSound(history, later, k, pending, rows, boxes);
      history, unwritten := later, unwritten - k;
    }

    /** The turn in flight, if any, lands now or does not. */
    method MayLand()
      requires Valid()
      modifies `history, `pending
      ensures Valid() && Landing(old(history), old(pending), history, pending)
      ensures forall t :: Room(history, pending, unwritten, t) <= Room(old(history), old(pending), unwritten, t)
    {
      hide Landed, Landing, Sound, IdsIn, Extends, Apart, NoRepeats;
      var lands: bool := *;
      if lands && pending.Some? {
        LandedSound(history, rows, boxes, pending.value);
        LandedLands(history, pending.value);
        history, pending := Landed(history, pending.value), None;
      } else {
        LandingSelf(history, pending);
      }
    }

    /** One wait on the App Server: mail and clocks move, users write, and a started turn may land in between. */
    method WaitForTurn()
      requires Valid()
      modifies this
      ensures Valid() && now > old(now) && old(waits) <= waits
      ensures Landing(old(history), old(pending), history, pending)
      ensures forall t :: Room(history, pending, unwritten, t) <= Room(old(history), old(pending), old(unwritten), t)
    {
      hide Landing, Room;
      MailMoves();
      UsersWrite();
      ghost var h1, p1 := history, pending;
      MayLand();
      LandingTwice(old(history), old(pending), h1, p1, history, pending);
      ghost var h2, p2 := history, pending;
      UsersWrite();
      LandingTwice(old(history), old(pending), h2, p2, history, pending);
      waits := waits + [Durable(history, rows)];
    }

    /** Mail and clocks move. */
    method MailMoves()
      requires Valid()
      modifies `rows, `now
      ensures Valid() && now > old(now)
    {
      var laterRows: Rows, later: Time := *, *;
      if !OnlyOthers(boxes, rows, laterRows) { laterRows := rows; }
      if later <= now { later := now + 1; }
      OthersSound(history, rows, history, laterRows, boxes);
      rows, now := laterRows, later;
    }

    method Heartbeat() returns (ok: bool)
      requires Valid() && pending.None?
      modifies this
      ensures Valid() && pending.None? && SameMail(old(history), history) && old(waits) <= waits
    {
      Wait();
      ok := *;
    }

    method ThreadStatus(thread: string) returns (ok: bool, active: bool)
      requires Valid() && pending.None?
      modifies this
      ensures Valid() && pending.None? && SameMail(old(history), history) && old(waits) <= waits
    {
      Wait();
      ok, active := *, *;
    }

    /** The mailboxes the session has at the moment, in the registry's order. */
    method SessionBoxes() returns (current: seq<Address>)
      ensures forall b :: b in current ==> b in boxes
    {
      current := *;
      if !(forall b :: b in current ==> b in boxes) { current := []; }
    }

    /**
     Lease the mail of every mailbox the session has by now; project mail is whatever the project
     mailboxes hold for us.
     */
    method Lease(leaseId: string, seconds: int) returns (ok: bool, personal: set<Id>, project: set<Id>)
      requires Valid() && pending.None?
      modifies this
      ensures Valid() && pending.None? && SameMail(old(history), history) && old(waits) <= waits
    {
      Wait();
      project := *;
      ok := *;
      var until := now + if seconds < 1 then 1 else seconds;
      var current := SessionBoxes();
      personal := {};
      ghost var before := rows;
      for i := 0 to |current|
        modifies `rows
        invariant OnlyOthers(boxes, before, rows)
      {
        personal := personal + set k | k in rows && Leasable(rows, k, current[i], now) :: k.msg;
        rows := LeaseRows(rows, current[i], Channel, leaseId, now, until);
      }
      OthersSound(history, before, history, rows, boxes);
    }

    /** Mark leased rows as persisted. The host may only do so for mail some thread holds. */
    method AckDelivery(leaseId: string, ids: set<Id>, order: seq<Id>) returns (ok: bool, acknowledged: nat)
      requires Valid() && pending.None? && Enumerates(order, ids)
      requires forall id :: id in ids ==> Somewhere(history, id)
      modifies this
      ensures Valid() && pending.None? && SameMail(old(history), history) && old(waits) <= waits
    {
      Wait();
      forall id | id in ids ensures Somewhere(history, id) {
        assert Somewhere(old(history), id);
        var t :| t in old(history) && id in IdsIn(old(history), t);
        assert t in history && id in IdsIn(history, t);
      }
      var current := SessionBoxes();
      acknowledged := Mailboxes.Acknowledged(rows, current, leaseId, order);
      for i := 0 to |current|
        modifies `rows
        invariant Sound(history, rows, boxes)
      {
        AckedSound(history, rows, boxes, current[i], leaseId, order);
        rows := AckRows(rows, current[i], leaseId, order);
      }
      ok := *;
    }

    /** One page of a thread's turns, oldest first. */
    method ListTurns(thread: string, cursor: nat) returns (ok: bool, data: seq<Turn>, next: Option<nat>)
      requires Valid()
      modifies this
      ensures Valid() && now > old(now) && old(waits) <= waits
      ensures Landing(old(history), old(pending), history, pending)
      ensures forall t :: Room(history, pending, unwritten, t) <= Room(old(history), old(pending), old(unwritten), t)
      ensures ok ==> var turns := TurnsOf(history, thread);
        && cursor <= |turns| && data == turns[cursor..Upto(cursor, |turns|)]
        && next == (if cursor + PAGE < |turns| then Some(cursor + PAGE) else None)
    {
      WaitForTurn();
      ok := *;
      var turns := TurnsOf(history, thread);
      if cursor > |turns| { ok := false; }
      data, next := [], None;
      if ok {
        data := turns[cursor..Upto(cursor, |turns|)];
        next := if cursor + PAGE < |turns| then Some(cursor + PAGE) else None;
      }
    }

    /** Ask for a turn that delivers mail. It may land or not, and be reported as started or not. */
    method StartTurn(thread: string, ids: seq<Id>) returns (started: Option<nat>)
      requires Valid() && pending.None?
      requires NoRepeats(ids) && Apart(IdsIn(history, thread), ids)
      modifies this
      ensures Valid() && now > old(now) && old(waits) <= waits
      ensures exists turn: nat :: Landing(old(history), Some(Pending(thread, turn, ids)), history, pending)
    {
      var turn: nat := *;
      pending := Some(Pending(thread, turn, ids));
      WaitForTurn();
      assert Landing(old(history), Some(Pending(thread, turn, ids)), history, pending);
      var reported: bool := *;
      started := if reported then Some(turn) else None;
    }

    /** A delivery that was given up has landed by now or never will. */
    method GiveUp()
      requires Valid()
      modifies `pending
      ensures Valid() && pending.None?
    {
      pending := None;
    }
  }

  const PAGE: nat := 100

  function Upto(cursor: nat, n: nat): nat { if cursor + PAGE < n then cursor + PAGE else n }

  function TurnsOf(h: History, thread: string): seq<Turn> { if thread in h then h[thread] else [] }

  /** A wait in which the turn in flight, if any, landed or did not; either way threads only got longer. */
  ghost predicate Landing(h: History, p: Option<Pending>, h2: History, p2: Option<Pending>) {
    && (forall t :: t in h ==> t in h2)
    && (forall t :: Extends(TurnsOf(h, t), TurnsOf(h2, t)))
    && (p2 == p || (p.Some? && p2.None?))
    && (forall t :: IdsIn(h2, t) == IdsIn(h, t) + if p2 != p && t == p.value.thread then p.value.ids else [])
  }

  /** How long a thread can still get while a delivery is awaited. */
  function Room(h: History, p: Option<Pending>, unwritten: nat, t: string): nat {
    |TurnsOf(h, t)| + (if p.Some? then 1 else 0) + unwritten
  }

  lemma WroteLands(h: History, h2: History, k: nat, p: Option<Pending>)
    requires UsersWrote(h, h2, k)
    ensures Landing(h, p, h2, p) && forall t :: |TurnsOf(h2, t)| <= |TurnsOf(h, t)| + k
  {
    hide IpcIds;
    forall t ensures Extends(TurnsOf(h, t), TurnsOf(h2, t)) && IdsIn(h2, t) == IdsIn(h, t) && |TurnsOf(h2, t)| <= |TurnsOf(h, t)| + k {
      if t !in h2 { assert t !in h; }
    }
  }

  lemma NothingWritten(h: History)
    ensures UsersWrote(h, h, 0)
  {
    hide IdsIn;
  }

  lemma WroteSound(h: History, h2: History, k: nat, p: Option<Pending>, rows: Rows, boxes: set<Address>)
    requires UsersWrote(h, h2, k) && Sound(h, rows, boxes)
    ensures Sound(h2, rows, boxes) && Landing(h, p, h2, p)
    ensures forall t :: IdsIn(h2, t) == IdsIn(h, t) && |TurnsOf(h2, t)| <= |TurnsOf(h, t)| + k
  {
    WroteLands(h, h2, k, p);
    hide Sound, IdsIn, Extends;
    OthersSound(h, rows, h2, rows, boxes);
  }

  lemma LandingSelf(h: History, p: Option<Pending>)
    ensures Landing(h, p, h, p)
  {
  }

  lemma LandedLands(h: History, p: Pending)
    ensures Landing(h, Some(p), Landed(h, p), None)
    ensures forall t :: |TurnsOf(Landed(h, p), t)| <= |TurnsOf(h, t)| + 1
  {
    LandedIds(h, p);
    hide IpcIds;
    var l := Landed(h, p);
    forall t ensures IdsIn(l, t) == IdsIn(h, t) + if t == p.thread then p.ids else [] {
      if t !in h && t != p.thread { assert t !in l; }
    }
  }

  datatype Outcome = Finished(count: nat) | Threw

  /** The only consumer of one thread's mail. */
  class CodexIpcHost {
    const world: World
    var threadId: string
    var historyLoaded: bool
    var persistedIds: set<Id>

    /** The thread's mail is what the host believes it is, whenever it believes it knows. */
    ghost predicate Knows()
      reads this, world
    {
      Trails() && (historyLoaded ==> persistedIds == Mail(world.history, threadId))
    }

    /** While a turn is in flight the host may know too little, never too much. */
    ghost predicate Trails()
      reads this, world
    {
      persistedIds <= Mail(world.history, threadId)
    }

    /** A new host may claim an empty history only of a thread that has none. */
    constructor (world: World, threadId: string, historyKnownEmpty: bool)
      requires world.Valid() && world.pending.None?
      requires historyKnownEmpty ==> IdsIn(world.history, threadId) == []
      ensures Knows() && this.world == world && this.threadId == threadId
    {
      this.world, this.threadId := world, threadId;
      historyLoaded, persistedIds := historyKnownEmpty, {};
    }

    method SwitchThread(threadId: string, historyKnownEmpty: bool)
      requires historyKnownEmpty ==> IdsIn(world.history, threadId) == []
      modifies this
      ensures Knows() && this.threadId == threadId
    {
      this.threadId := threadId;
      historyLoaded := historyKnownEmpty;
      persistedIds := {};
    }

    method Forget()
      modifies this
      ensures Knows() && threadId == old(threadId)
    {
      historyLoaded, persistedIds := false, {};
    }

    /** Has the terminal left this thread? If so, what is known of it is void. */
    method RequireCurrentThread() returns (ok: bool)
      requires Knows()
      modifies this
      ensures Knows() && threadId == old(threadId)
      ensures ok ==> historyLoaded == old(historyLoaded) && persistedIds == old(persistedIds)
    {
      ok := *;
      if !ok { Forget(); }
    }

    /** Read the whole durable thread, page by page, and remember every message id in it. */
    method RefreshPersistedMessageIds() returns (ok: bool, turns: seq<Turn>)
      requires world.Valid() && Trails()
      modifies this, world
      ensures world.Valid() && old(world.waits) <= world.waits && world.now > old(world.now)
      ensures Landing(old(world.history), old(world.pending), world.history, world.pending)
      ensures threadId == old(threadId) && Trails()
      ensures ok ==> Knows() && historyLoaded && SameItems(turns, TurnsOf(world.history, threadId))
      ensures !ok ==> historyLoaded == old(historyLoaded) && persistedIds == old(persistedIds)
    {
      hide World.Valid, Landed, IdsIn, Sound;
      ghost var h, p := world.history, world.pending;
      ok, turns := ReadTurns();
      LandingMail(h, p, world.history, world.pending, threadId);
      if !ok { return; }
      var found := Collect(turns);
      SameItemsIds(turns, TurnsOf(world.history, threadId));
      MailOf(world.history, threadId);
      persistedIds := persistedIds + found;
      historyLoaded := true;
    }

    /** All pages of the thread, in order. */
    method ReadTurns() returns (ok: bool, turns: seq<Turn>)
      requires world.Valid()
      modifies world
      ensures world.Valid() && old(world.waits) <= world.waits && world.now > old(world.now)
      ensures Landing(old(world.history), old(world.pending), world.history, world.pending)
      ensures ok ==> SameItems(turns, TurnsOf(world.history, threadId))
    {
      hide World.Valid, Landed, Landing, SameItems, Extends;
      var data: seq<Turn>, next: Option<nat>;
      ok, data, next := world.ListTurns(threadId, 0);
      turns := data;
      if ok { FirstPage(TurnsOf(world.history, threadId), data, next); }
      while ok && next.Some?
        invariant world.Valid() && old(world.waits) <= world.waits && world.now > old(world.now)
        invariant Landing(old(world.history), old(world.pending), world.history, world.pending)
        invariant ok ==> PageInvariant(turns, next, TurnsOf(world.history, threadId))
        decreases ok, Left(next, Room(world.history, world.pending, world.unwritten, threadId))
      {
        ghost var h, p := world.history, world.pending;
        var cursor := next.value;
        ok, data, next := world.ListTurns(threadId, cursor);
        LandingTwice(old(world.history), old(world.pending), h, p, world.history, world.pending);
        LandingTurns(h, p, world.history, world.pending, threadId);
        if ok { PageNext(turns, cursor, TurnsOf(h, threadId), TurnsOf(world.history, threadId), data, next); }
        turns := turns + data;
      }
    }

    /** Poll the durable thread until it holds every message, its turn has ended, or time is up. */
    method WaitUntilPersisted(ids: seq<Id>, turnId: nat, deadline: Time) returns (ok: bool)
      requires world.Valid() && Trails()
      modifies this, world
      ensures world.Valid() && old(world.waits) <= world.waits
      ensures Landing(old(world.history), old(world.pending), world.history, world.pending)
      ensures threadId == old(threadId) && Trails()
      ensures ok ==> Knows() && historyLoaded && forall id :: id in ids ==> id in persistedIds
    {
      hide World.Valid, IdsIn, Mail, Landing, SameItems;
      ghost var h, p := world.history, world.pending;
      LandingSelf(h, p);
      ok := false;
      while true
        invariant world.Valid() && old(world.waits) <= world.waits && threadId == old(threadId) && Trails()
        invariant Landing(h, p, world.history, world.pending)
        decreases deadline - world.now
      {
        if deadline <= world.now { return false; }
        ghost var h0, p0 := world.history, world.pending;
        var read, turns := RefreshPersistedMessageIds();
        LandingTwice(h, p, h0, p0, world.history, world.pending);
        if !read { return false; }
        if forall id :: id in ids ==> id in persistedIds { return true; }
        var turn := FindTurn(turns, turnId);
        if turn.Some? && !turn.value.status.Unfinished? { return false; }
        if deadline <= world.now { return false; }
        ghost var h1, p1 := world.history, world.pending;
        world.WaitForTurn();
        LandingTwice(h, p, h1, p1, world.history, world.pending);
        LandingMail(h1, p1, world.history, world.pending, threadId);
      }
    }

    /**
     One pass: lease, deliver what the thread does not hold yet, verify, acknowledge.  However
     it ends, the host knows what it believes, and at every wait on the way the durable state
     was sound; mail it reports delivered is in the thread.
     */
    method PumpOnce(leaseId: string, leaseS: int, timeout: int) returns (r: Outcome, mail: set<Id>)
      requires world.Valid() && world.pending.None? && Knows()
      modifies this, world
      ensures world.Valid() && world.pending.None? && Knows() && threadId == old(threadId)
      ensures old(world.waits) <= world.waits
      ensures MailGrew(old(world.history), world.history, threadId)
      ensures r.Finished? && r.count > 0 ==> r.count == |mail| && mail <= Mail(world.history, threadId)
    {
      hide World.Valid, IdsIn, Mail, Somewhere, SameMail, MailGrew;
      ghost var h0 := world.history;
      var reserved, personal, project := Reserve(leaseId, leaseS);
      ghost var h1 := world.history;
      SameMailKept(h0, h1, threadId);
      mail := personal + project;
      if reserved.Threw? || mail == {} { return reserved, {}; }
      var deadline := world.now + timeout;
      if !historyLoaded {
        if deadline <= world.now { return Threw, mail; }
        var refreshed, _ := RefreshPersistedMessageIds();
        LandingMail(h1, None, world.history, world.pending, threadId);
        MailGrewTransitive(h0, h1, world.history, threadId);
        if !refreshed { return Threw, mail; }
      }
      ghost var h := world.history;
      MailGrewSelf(h1, threadId);
      MailGrewTransitive(h0, h1, h, threadId);
      var delivered := DeliverMissing(mail, deadline);
      ghost var h2 := world.history;
      MailGrewTransitive(h0, h, h2, threadId);
      if !delivered { return Threw, mail; }
      var current := RequireCurrentThread();
      if !current { return Threw, mail; }
      InThread(h2, threadId, mail);
      var acked := Acknowledge(leaseId, personal, project);
      SameMailKept(h2, world.history, threadId);
      MailGrewTransitive(h0, h2, world.history, threadId);
      r := if acked then Finished(|mail|) else Threw;
    }

    /** Check in, make sure the thread is idle and still ours, and lease what is waiting. */
    method Reserve(leaseId: string, leaseS: int) returns (r: Outcome, personal: set<Id>, project: set<Id>)
      requires world.Valid() && world.pending.None? && Knows()
      modifies this, world
      ensures world.Valid() && world.pending.None? && Knows() && threadId == old(threadId)
      ensures old(world.waits) <= world.waits && SameMail(old(world.history), world.history)
      ensures r == Threw || r == Finished(0)
    {
      hide World.Valid, IdsIn, Mail, SameMail;
      personal, project := {}, {};
      ghost var h0 := world.history;
      var ok := world.Heartbeat();
      ghost var h1 := world.history;
      SameMailKept(h0, h1, threadId);
      if !ok { return Threw, {}, {}; }
      var active: bool;
      ok, active := world.ThreadStatus(threadId);
      ghost var h2 := world.history;
      SameMailKept(h1, h2, threadId);
      SameMailTransitive(h0, h1, h2);
      if !ok { return Threw, {}, {}; }
      if active { return Finished(0), {}, {}; }
      var current := RequireCurrentThread();
      if !current { return Threw, {}, {}; }
      ok, personal, project := world.Lease(leaseId, leaseS);
      SameMailKept(h2, world.history, threadId);
      SameMailTransitive(h0, h2, world.history);
      if !ok { return Threw, {}, {}; }
      if personal + project == {} { return Finished(0), {}, {}; }
      current := RequireCurrentThread();
      r := if current then Finished(0) else Threw;
    }

    /** Acknowledge what the thread holds, and insist that all of it counted. */
    method Acknowledge(leaseId: string, personal: set<Id>, project: set<Id>) returns (ok: bool)
      requires world.Valid() && world.pending.None? && Knows()
      requires forall id :: id in personal ==> Somewhere(world.history, id)
      modifies world
      ensures world.Valid() && world.pending.None? && Knows()
      ensures old(world.waits) <= world.waits && SameMail(old(world.history), world.history)
    {
      hide World.Valid, IdsIn, Mail, Somewhere, SameMail;
      ghost var h := world.history;
      var order := Listing(personal);
      var acked, personalAck := world.AckDelivery(leaseId, personal, order);
      SameMailKept(h, world.history, threadId);
      var projectAck: nat := *;
      ok := acked && personalAck + projectAck == |personal| + |project|;
    }

    /** Start a turn with the mail the thread does not hold, and see it through or give it up. */
    method DeliverMissing(mail: set<Id>, deadline: Time) returns (ok: bool)
      requires world.Valid() && world.pending.None? && Knows() && historyLoaded
      modifies this, world
      ensures world.Valid() && world.pending.None? && Knows() && threadId == old(threadId)
      ensures old(world.waits) <= world.waits
      ensures MailGrew(old(world.history), world.history, threadId)
      ensures ok ==> historyLoaded && mail <= persistedIds
    {
      hide World.Valid, Landed, IdsIn, Sound, Somewhere;
      var missing := mail - persistedIds;
      if missing == {} {
        assert forall id :: id in mail && id !in persistedIds ==> id in missing;
        return true;
      }
      if deadline <= world.now { Forget(); return false; }
      var ids := Listing(missing);
      forall id ensures id in ids <==> id in missing { EnumeratesIn(ids, missing, id); }
      ghost var h := world.history;
      var started := world.StartTurn(threadId, ids);
      ghost var turn: nat :| Landing(h, Some(Pending(threadId, turn, ids)), world.history, world.pending);
      ghost var p := Some(Pending(threadId, turn, ids));
      LandingMail(h, p, world.history, world.pending, threadId);
      ok := false;
      if started.Some? {
        ghost var h1, p1 := world.history, world.pending;
        ok := WaitUntilPersisted(ids, started.value, deadline);
        LandingTwice(h, p, h1, p1, world.history, world.pending);
      }
      LandingMail(h, p, world.history, world.pending, threadId);
      if !ok {
        world.GiveUp();
        Forget();
      } else {
        NothingPending(world, threadId, ids, persistedIds);
      }
    }
  }

  /** What happens to one session's hosts: passes, thread switches, and deaths in the middle of a pass. */
  datatype HostEvent =
    | Pump(leaseId: string, leaseS: int, timeout: int)
    | Switch(thread: string, claimsEmpty: bool)
    | Die(leaseId: string, leaseS: int, timeout: int, wait: nat, thread: string, claimsEmpty: bool)

  /**
   Exactly-once delivery, over any life of a session: passes with any outcome of any call, over
   whatever mailboxes the session has at each lease and each acknowledgement, thread switches, and
   hosts that die at any wait of any pass and are replaced by one that knows nothing.  Every durable
   state met along the way is sound: no thread holds a message twice, and a row of any of the
   session's mailboxes is persisted only if a thread holds its message.
   */
  method Drive(boxes: set<Address>, history: History, rows: Rows, thread: string, life: seq<HostEvent>)
    returns (met: seq<Durable>)
    requires Sound(history, rows, boxes)
    ensures forall d :: d in met ==> Sound(d.history, d.rows, boxes)
  {
    hide World.Valid, Sound;
    var world := new World(boxes, history, rows, 0);
    var host := new CodexIpcHost(world, thread, false);
    met := [];
    for i := 0 to |life|
      invariant world.boxes == boxes && fresh(world) && fresh(host) && host.world == world
      invariant world.Valid() && world.pending.None? && host.Knows()
      invariant forall d :: d in met ==> Sound(d.history, d.rows, boxes)
    {
      match life[i] {
        case Pump(leaseId, leaseS, timeout) =>
          var _, _ := host.PumpOnce(leaseId, leaseS, timeout);
        case Switch(next, claimsEmpty) =>
          host.SwitchThread(next, claimsEmpty && IdsIn(world.history, next) == []);
        case Die(leaseId, leaseS, timeout, wait, next, claimsEmpty) =>
          var before := |world.waits|;
          var _, _ := host.PumpOnce(leaseId, leaseS, timeout);
          if before < |world.waits| {
            var d := world.waits[before + wait % (|world.waits| - before)];
            WaitSound(world, d);
            world := new World(boxes, d.history, d.rows, world.now);
            host := new CodexIpcHost(world, next, claimsEmpty && IdsIn(world.history, next) == []);
          }
      }
      WaitsSound(world);
      met := met + world.waits;
    }
  }

  lemma WaitSound(world: World, d: Durable)
    requires world.Valid() && d in world.waits
    ensures Sound(d.history, d.rows, world.boxes)
  {
  }

  lemma WaitsSound(world: World)
    requires world.Valid()
    ensures forall d :: d in world.waits ==> Sound(d.history, d.rows, world.boxes)
  {
  }

  /** Every message id among some turns' items. */
  method Collect(turns: seq<Turn>) returns (found: set<Id>)
    ensures found == set id | id in IpcIds(turns)
  {
    found := {};
    for i := 0 to |turns|
      invariant found == set id | id in IpcIds(turns[..i])
    {
      assert turns[..i + 1][..i] == turns[..i];
      var items := turns[i].items;
      for j := 0 to |items|
        invariant found == set id | id in IpcIds(turns[..i]) + ItemIds(items[..j])
      {
        assert items[..j + 1][..j] == items[..j];
        match items[j]
        case Received(ids) => found := found + set id | id in ids;
        case Other =>
      }
      assert items[..|items|] == items;
    }
    assert turns[..|turns|] == turns;
  }

  /** Mail only ever grows, and only in the given thread. */
  ghost predicate MailGrew(a: History, b: History, thread: string) {
    forall t: string :: if t == thread then IdsIn(a, t) <= IdsIn(b, t) else IdsIn(b, t) == IdsIn(a, t)
  }

  lemma SameMailKept(a: History, b: History, thread: string)
    requires SameMail(a, b)
    ensures Mail(b, thread) == Mail(a, thread) && MailGrew(a, b, thread)
  {
    assert thread !in b ==> thread !in a;
  }

  lemma SameMailTransitive(a: History, b: History, c: History)
    requires SameMail(a, b) && SameMail(b, c)
    ensures SameMail(a, c)
  {
  }

  lemma MailGrewSelf(a: History, thread: string)
    ensures MailGrew(a, a, thread)
  {
  }

  lemma MailGrewTransitive(a: History, b: History, c: History, thread: string)
    requires MailGrew(a, b, thread) && MailGrew(b, c, thread)
    ensures MailGrew(a, c, thread)
  {
  }

  lemma InThread(h: History, thread: string, mail: set<Id>)
    requires mail <= Mail(h, thread)
    ensures forall id :: id in mail ==> Somewhere(h, id)
  {
    forall id | id in mail ensures Somewhere(h, id) {
      assert id in Mail(h, thread);
      assert thread in h && id in IdsIn(h, thread);
    }
  }

  /** What the pages read so far hold: the thread's first turns, or all of them. */
  ghost predicate PageInvariant(turns: seq<Turn>, next: Option<nat>, all: seq<Turn>) {
    match next
    case Some(k) => k <= |all| && SameItems(turns, all[..k])
    case None => SameItems(turns, all)
  }

  lemma FirstPage(all: seq<Turn>, data: seq<Turn>, next: Option<nat>)
    requires data == all[0..Upto(0, |all|)] && next == if PAGE < |all| then Some(PAGE) else None
    ensures PageInvariant(data, next, all)
  {
  }

  /** The next page carries a listing on, even if turns were written or landed meanwhile. */
  lemma PageNext(turns: seq<Turn>, cursor: nat, was: seq<Turn>, all: seq<Turn>, data: seq<Turn>, next: Option<nat>)
    requires PageInvariant(turns, Some(cursor), was) && Extends(was, all) && cursor <= |all|
    requires data == all[cursor..Upto(cursor, |all|)]
    requires next == if cursor + PAGE < |all| then Some(cursor + PAGE) else None
    ensures PageInvariant(turns + data, next, all)
  {
    forall i | 0 <= i < cursor ensures turns[i].id == all[i].id && turns[i].items == all[i].items {
      assert turns[i].id == was[..cursor][i].id && turns[i].items == was[..cursor][i].items;
      assert was[i].id == all[..|was|][i].id && was[i].items == all[..|was|][i].items;
    }
    assert all[..cursor] + all[cursor..Upto(cursor, |all|)] == all[..Upto(cursor, |all|)];
    assert all[..|all|] == all;
  }

  function Left(next: Option<nat>, n: nat): nat { if next.Some? && next.value <= n then n - next.value + 1 else 0 }

  lemma MailOf(h: History, thread: string)
    ensures Mail(h, thread) == set id | id in IpcIds(TurnsOf(h, thread))
  {
    assert IpcIds([]) == [];
  }

  lemma LandingTurns(h: History, p: Option<Pending>, h2: History, p2: Option<Pending>, thread: string)
    requires Landing(h, p, h2, p2)
    ensures Extends(TurnsOf(h, thread), TurnsOf(h2, thread))
  {
  }

  lemma LandingMail(h: History, p: Option<Pending>, h2: History, p2: Option<Pending>, thread: string)
    requires Landing(h, p, h2, p2)
    ensures Mail(h, thread) <= Mail(h2, thread)
    ensures p.Some? && p.value.thread == thread ==> MailGrew(h, h2, thread)
    ensures p.None? ==> MailGrew(h, h2, thread) && Mail(h2, thread) == Mail(h, thread)
  {
    hide IdsIn, Extends;
  }

  lemma LandingTwice(h: History, p: Option<Pending>, h1: History, p1: Option<Pending>, h2: History, p2: Option<Pending>)
    requires Landing(h, p, h1, p1) && Landing(h1, p1, h2, p2)
    ensures Landing(h, p, h2, p2)
  {
    hide IdsIn;
    forall t ensures Extends(TurnsOf(h, t), TurnsOf(h2, t)) {
      ExtendsTransitive(TurnsOf(h, t), TurnsOf(h1, t), TurnsOf(h2, t));
    }
  }

  lemma ExtendsTransitive(a: seq<Turn>, b: seq<Turn>, c: seq<Turn>)
    requires Extends(a, b) && Extends(b, c)
    ensures Extends(a, c)
  {
    forall i | 0 <= i < |a| ensures a[i].id == c[i].id && a[i].items == c[i].items {
      assert a[i].id == b[..|a|][i].id && a[i].items == b[..|a|][i].items;
      assert b[i].id == c[..|b|][i].id && b[i].items == c[..|b|][i].items;
    }
  }

  /** Once the thread holds every message of a turn, nothing is in flight. */
  lemma NothingPending(world: World, thread: string, ids: seq<Id>, held: set<Id>)
    requires world.Valid() && ids != [] && held <= Mail(world.history, thread) && forall id :: id in ids ==> id in held
    requires world.pending.Some? ==> world.pending.value.thread == thread && world.pending.value.ids == ids
    ensures world.pending.None?
  {
    assert ids[0] in ids;
  }

  function Mail(h: History, thread: string): set<Id> { set id | id in IdsIn(h, thread) }
}
