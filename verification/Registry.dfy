/**
 The roster of registered peers, aged by how recently they were heard from, with a durable
 snapshot (src/broker/registry.ts).
 */
module Registry {
  import opened Models
  import opened Verbs
  import opened Invariants
  import opened Backend
  import opened Store
  import opened Mailboxes

  /** What a row records: heard from, or explicitly gone. Idle is never stored, only derived. */
  datatype Standing = Heard | Left
  datatype Liveness = Live | Idle | Offline

  datatype Entry = Entry(sessionId: string, cwd: string, host: bool, lastSeen: Time, standing: Standing,
                         token: Option<string>, succeeded: Option<string>, service: bool)

  type Entries = map<Address, Entry>

  datatype Info = Info(sessionId: string, cwd: string, host: bool, service: bool)

  // ---- What each operation does to the rows -------------------------------------------------

  function Heartened(e: Entry, a: Address, sessionId: string, except: Address, now: Time): Entry {
    if a != except && e.sessionId == sessionId && e.standing.Heard? then e.(lastSeen := now) else e
  }

  /** A sign of life through one alias speaks for every sibling that has not left. */
  function TouchSiblings(es: Entries, sessionId: string, except: Address, now: Time): Entries {
    map a | a in es :: Heartened(es[a], a, sessionId, except, now)
  }

  /** Is a registration refused: an owned alias without its token, or a managed host's moving session? */
  predicate Denied(es: Entries, alias: Address, info: Info, presented: Option<string>) {
    alias in es
    && ((es[alias].token.Some? && presented != es[alias].token)
        || (es[alias].host && es[alias].sessionId != info.sessionId))
  }

  predicate Replaces(es: Entries, alias: Address, info: Info) {
    alias in es && !es[alias].service && es[alias].sessionId != info.sessionId
  }

  function Registered(es: Entries, alias: Address, info: Info, presented: Option<string>, minted: string, now: Time): Entry {
    var known := alias in es;
    Entry(
      if known && es[alias].service then es[alias].sessionId else info.sessionId,
      info.cwd,
      info.host || (known && es[alias].host),
      now,
      Heard,
      if known && es[alias].token.Some? && presented == es[alias].token then es[alias].token else Some(minted),
      if Replaces(es, alias, info) then Some(es[alias].sessionId) else if known then es[alias].succeeded else None,
      info.service || (known && es[alias].service))
  }

  function DoRegister(es: Entries, alias: Address, info: Info, presented: Option<string>, minted: string, now: Time): Entries {
    if Denied(es, alias, info, presented) then es
    else TouchSiblings(es[alias := Registered(es, alias, info, presented, minted, now)], info.sessionId, alias, now)
  }

  function DoHeartbeat(es: Entries, alias: Address, now: Time): Entries {
    if alias !in es then es
    else TouchSiblings(es[alias := es[alias].(lastSeen := now, standing := Heard)], es[alias].sessionId, alias, now)
  }

  /** An act refreshes the session too, but never brings back an alias that left. */
  function DoAct(es: Entries, alias: Address, now: Time): Entries {
    if alias !in es || es[alias].standing.Left? then es else DoHeartbeat(es, alias, now)
  }

  function DoLeave(es: Entries, alias: Address): Entries {
    if alias in es then es[alias := es[alias].(standing := Left, lastSeen := 0)] else es
  }

  function DoRestore(es: Entries, alias: Address, sessionId: string, cwd: string, token: string): Entries {
    if alias in es && es[alias].token.Some? then es
    else es[alias := Entry(sessionId, cwd, false, 0, Left, Some(token), None, false)]
  }

  function DoDrop(es: Entries, alias: Address, token: string): Entries {
    if alias in es && es[alias].token == Some(token) && es[alias].standing.Left? then es - {alias} else es
  }

  datatype Ages = Ages(idleS: int, offlineS: int)

  function StatusOf(ages: Ages, e: Entry, now: Time): Liveness {
    if e.standing.Left? then Offline
    else if now - e.lastSeen > ages.offlineS then Offline
    else if now - e.lastSeen > ages.idleS then Idle
    else Live
  }

  /** A row the roster may forget: dark since before the cutoff, owing nothing, and no service that has not left. */
  predicate Forgettable(ages: Ages, e: Entry, before: Time, now: Time, owed: bool) {
    && !(e.service && e.lastSeen != 0)
    && StatusOf(ages, e, now).Offline? && e.lastSeen < before
    && !owed
  }

  /** Recoverable mail a successor still owes, or an intent that needs its sender. */
  predicate Owed(db: DB, a: Address) { RecoverableIn(db, [a]) != {} || Intents(db.outbound, a) != {} }

  function ForgottenSet(ages: Ages, es: Entries, before: Time, now: Time, db: DB): set<Address> {
    set a | a in es && Forgettable(ages, es[a], before, now, Owed(db, a))
  }

  // ---- One row after another ----------------------------------------------------------------

  /** The siblings touched so far. */
  function Touched(es: Entries, sessionId: string, except: Address, now: Time, done: seq<Address>): Entries {
    map a | a in es :: if a in done then Heartened(es[a], a, sessionId, except, now) else es[a]
  }

  lemma TouchedNone(es: Entries, sessionId: string, except: Address, now: Time, order: seq<Address>)
    ensures Touched(es, sessionId, except, now, order[..0]) == es
  {
  }

  lemma TouchedNext(es: Entries, sessionId: string, except: Address, now: Time, order: seq<Address>, i: nat)
    requires Enumerates(order, es.Keys) && i < |order|
    ensures var before := Touched(es, sessionId, except, now, order[..i]); var a := order[i];
      && a in before
      && Touched(es, sessionId, except, now, order[..i + 1]) == before[a := Heartened(before[a], a, sessionId, except, now)]
  {
    EnumeratesIn(order, es.Keys, order[i]);
    assert order[..i + 1] == order[..i] + [order[i]];
    assert order[i] !in order[..i];
  }

  lemma TouchedAll(es: Entries, sessionId: string, except: Address, now: Time, order: seq<Address>)
    requires Enumerates(order, es.Keys)
    ensures Touched(es, sessionId, except, now, order[..|order|]) == TouchSiblings(es, sessionId, except, now)
  {
    assert order[..|order|] == order;
    forall a | a in es ensures a in order { EnumeratesIn(order, es.Keys, a); }
  }

  // ---- The registry ---------------------------------------------------------------------------

  class Registry {
    const ages: Ages
    var entries: Entries
    var saved: Entries

    /** Start from the snapshot as it is: no row is presumed dead. */
    constructor (ages: Ages, snapshot: Entries)
      ensures this.ages == ages && entries == snapshot && saved == snapshot
    {
      this.ages, entries, saved := ages, snapshot, snapshot;
    }

    method Touch(sessionId: string, except: Address, now: Time)
      modifies `entries
      ensures entries == TouchSiblings(old(entries), sessionId, except, now)
    {
      var aliases := Listing(entries.Keys);
      ghost var es := entries;
      TouchedNone(es, sessionId, except, now, aliases);
      hide *;
      for i := 0 to |aliases|
        invariant entries == Touched(es, sessionId, except, now, aliases[..i])
      {
        TouchedNext(es, sessionId, except, now, aliases, i);
        TouchOne(aliases[i], sessionId, except, now);
      }
      TouchedAll(es, sessionId, except, now, aliases);
    }

    method TouchOne(a: Address, sessionId: string, except: Address, now: Time)
      requires a in entries
      modifies `entries
      ensures entries == old(entries)[a := Heartened(old(entries)[a], a, sessionId, except, now)]
    {
      var s := entries[a];
      assert entries == entries[a := s];
      if a == except || s.sessionId != sessionId { return; }
      if s.standing.Left? { return; }
      entries := entries[a := s.(lastSeen := now, standing := Heard)];
    }

    method Register(alias: Address, info: Info, presented: Option<string>, minted: string, now: Time)
      returns (ok: bool, replaced: bool, token: Option<string>)
      modifies this
      ensures ok <==> !Denied(old(entries), alias, info, presented)
      ensures entries == DoRegister(old(entries), alias, info, presented, minted, now)
      ensures saved == if ok then entries else old(saved)
      ensures ok ==> replaced == Replaces(old(entries), alias, info) && alias in entries && token == entries[alias].token
      ensures !ok ==> !replaced && token.None?
    {
      if alias in entries {
        var prev := entries[alias];
        if prev.token.Some? && presented != prev.token { return false, false, None; }
        if prev.host && prev.sessionId != info.sessionId { return false, false, None; }
      }
      replaced := Replaces(entries, alias, info);
      var row := Registered(entries, alias, info, presented, minted, now);
      entries := entries[alias := row];
      Touch(info.sessionId, alias, now);
      saved := entries;
      ok, token := true, row.token;
    }

    method Heartbeat(alias: Address, now: Time)
      modifies this
      ensures entries == DoHeartbeat(old(entries), alias, now) && saved == old(saved)
    {
      if alias in entries {
        var sessionId := entries[alias].sessionId;
        entries := entries[alias := entries[alias].(lastSeen := now, standing := Heard)];
        Touch(sessionId, alias, now);
      }
    }

    method TouchByAct(alias: Address, now: Time)
      modifies this
      ensures entries == DoAct(old(entries), alias, now) && saved == old(saved)
    {
      if alias !in entries || entries[alias].standing.Left? { return; }
      entries := entries[alias := entries[alias].(lastSeen := now, standing := Heard)];
      Touch(entries[alias].sessionId, alias, now);
    }

    method Leave(alias: Address)
      modifies this
      ensures entries == DoLeave(old(entries), alias)
      ensures saved == if alias in old(entries) then entries else old(saved)
    {
      if alias in entries {
        entries := entries[alias := entries[alias].(standing := Left, lastSeen := 0)];
        saved := entries;
      }
    }

    /** The minimum sender identity needed to replay outage mail. */
    method RestoreOutboxOwner(alias: Address, sessionId: string, cwd: string, token: string) returns (t: string)
      modifies this
      ensures entries == DoRestore(old(entries), alias, sessionId, cwd, token)
      ensures alias in entries && entries[alias].token == Some(t)
      ensures saved == if entries == old(entries) then old(saved) else entries
    {
      if alias in entries && entries[alias].token.Some? { return entries[alias].token.value; }
      entries := entries[alias := Entry(sessionId, cwd, false, 0, Left, Some(token), None, false)];
      assert entries != old(entries) by { assert alias in old(entries) ==> old(entries)[alias].token.None?; }
      saved := entries;
      t := token;
    }

    method DropRestoredOutboxOwner(alias: Address, token: string)
      modifies this
      ensures entries == DoDrop(old(entries), alias, token)
      ensures saved == if entries == old(entries) then old(saved) else entries
    {
      if alias !in entries || entries[alias].token != Some(token) || entries[alias].standing.Heard? { return; }
      entries := entries - {alias};
      assert alias !in entries;
      saved := entries;
    }

    /** Forget dark peers nothing is owed to or by. */
    method PruneOffline(backend: SqliteBackend, before: Time, now: Time) returns (removed: nat)
      modifies this
      ensures entries == old(entries) - ForgottenSet(ages, old(entries), before, now, backend.Db())
      ensures removed == |ForgottenSet(ages, old(entries), before, now, backend.Db())|
      ensures saved == if removed > 0 then entries else old(saved)
    {
      var aliases := Listing(entries.Keys);
      ghost var db := backend.Db();
      ghost var all := ForgottenSet(ages, entries, before, now, db);
      ghost var es := entries;
      NoneAmong(aliases, all);
      AllAmong(aliases, es.Keys, all);
      KeepsAll(es, all);
      hide *;
      removed := 0;
      for i := 0 to |aliases|
        invariant removed == |Among(aliases[..i], all)| && saved == old(saved) && db == backend.Db()
        invariant entries == Kept(es, Among(aliases[..i], all))
      {
        IsForgotten(ages, es, before, now, db, aliases[i]);
        PrunedNext(es, aliases, i, all);
        var gone := Consider(backend, aliases[i], before, now, db);
        if gone { removed := removed + 1; }
      }
      if removed > 0 { saved := entries; }
    }

    /** Forget one row if it may be forgotten. */
    method Consider(backend: SqliteBackend, a: Address, before: Time, now: Time, ghost db: DB) returns (gone: bool)
      requires a in entries && db == backend.Db()
      modifies `entries
      ensures gone == Forgettable(ages, old(entries)[a], before, now, Owed(db, a))
      ensures entries == if gone then old(entries) - {a} else old(entries)
    {
      hide Owed;
      hide SqliteBackend.Db;
      var e := entries[a];
      if e.service && e.lastSeen != 0 { return false; }
      if StatusOf(ages, e, now) != Offline || e.lastSeen >= before { return false; }
      var owed := IsOwed(backend, a);
      if owed { return false; }
      entries := entries - {a};
      return true;
    }
  }

  /** Is there work a successor still owes, or an intent only this sender can replay? */
  method IsOwed(backend: SqliteBackend, a: Address) returns (owed: bool)
    ensures owed == Owed(backend.Db(), a)
  {
    var mail := backend.RecoverableIds(a);
    var intents := backend.PendingOutbound(a);
    ListsNone(mail, RecoverableIn(backend.Db(), [a]));
    ListsNone(intents, Intents(backend.outbound, a));
    assert backend.Db().outbound == backend.outbound;
    owed := |mail| > 0 || |intents| > 0;
  }

  lemma ListsNone<T>(order: seq<T>, s: set<T>)
    requires Enumerates(order, s)
    ensures |order| == 0 <==> s == {}
  {
    if order != [] { EnumeratesIn(order, s, order[0]); }
    if x :| x in s { EnumeratesIn(order, s, x); }
  }

  function Kept(es: Entries, gone: set<Address>): Entries { es - gone }

  lemma KeepsAll(es: Entries, all: set<Address>)
    ensures Kept(es, {}) == es && Kept(es, all) == es - all
  {
  }

  /** One more row considered: it goes, and is counted, exactly if it is among the forgotten. */
  lemma PrunedNext(es: Entries, order: seq<Address>, i: nat, all: set<Address>)
    requires Enumerates(order, es.Keys) && i < |order|
    ensures var a := order[i]; var before := Among(order[..i], all); var after := Among(order[..i + 1], all);
      && a in Kept(es, before) && Kept(es, before)[a] == es[a] && a in es
      && Kept(es, after) == (if a in all then Kept(es, before) - {a} else Kept(es, before))
      && |after| == |before| + if a in all then 1 else 0
  {
    NextAmong(order, i, es.Keys, all);
    KeptNext(es, Among(order[..i], all), order[i]);
    hide Enumerates, Kept, Among;
  }

  lemma KeptNext(es: Entries, gone: set<Address>, a: Address)
    requires a in es && a !in gone
    ensures a in Kept(es, gone) && Kept(es, gone)[a] == es[a]
    ensures Kept(es, gone) - {a} == Kept(es, gone + {a})
    ensures gone + {} == gone && |gone + {a}| == |gone| + 1
  {
  }

  function Among(order: seq<Address>, all: set<Address>): set<Address> { set a | a in all && a in order }

  lemma NoneAmong(order: seq<Address>, all: set<Address>)
    ensures Among(order[..0], all) == {}
  {
  }

  lemma IsForgotten(ages: Ages, es: Entries, before: Time, now: Time, db: DB, a: Address)
    ensures a in ForgottenSet(ages, es, before, now, db) <==> a in es && Forgettable(ages, es[a], before, now, Owed(db, a))
  {
  }

  lemma NextAmong(order: seq<Address>, i: nat, keys: set<Address>, all: set<Address>)
    requires Enumerates(order, keys) && i < |order|
    ensures order[i] in keys && order[i] !in Among(order[..i], all)
    ensures Among(order[..i + 1], all) == Among(order[..i], all) + if order[i] in all then {order[i]} else {}
  {
    EnumeratesIn(order, keys, order[i]);
    assert order[..i + 1] == order[..i] + [order[i]];
  }

  lemma AllAmong(order: seq<Address>, keys: set<Address>, all: set<Address>)
    requires Enumerates(order, keys) && all <= keys
    ensures Among(order[..|order|], all) == all
  {
    assert order[..|order|] == order;
    forall a | a in all ensures a in order { EnumeratesIn(order, keys, a); }
  }

  // ---- Runs, with restarts -----------------------------------------------------------------------

  datatype State = State(entries: Entries, saved: Entries)

  datatype Op =
    | Register(alias: Address, info: Info, presented: Option<string>, minted: string, now: Time)
    | Heartbeat(alias: Address, now: Time)
    | Act(alias: Address, now: Time)
    | Leave(alias: Address)
    | Restore(alias: Address, sessionId: string, cwd: string, token: string)
    | Drop(alias: Address, token: string)
    | Prune(ages: Ages, before: Time, now: Time, db: DB)
    | Restart

  function Save(s: State, es: Entries): State { State(es, if es == s.entries then s.saved else es) }

  function Do(s: State, op: Op): State {
    var es := s.entries;
    match op
    case Register(alias, info, presented, minted, now) =>
      if Denied(es, alias, info, presented) then s
      else var next := DoRegister(es, alias, info, presented, minted, now); State(next, next)
    case Heartbeat(alias, now) => s.(entries := DoHeartbeat(es, alias, now))
    case Act(alias, now) => s.(entries := DoAct(es, alias, now))
    case Leave(alias) => if alias in es then State(DoLeave(es, alias), DoLeave(es, alias)) else s
    case Restore(alias, sessionId, cwd, token) => Save(s, DoRestore(es, alias, sessionId, cwd, token))
    case Drop(alias, token) => Save(s, DoDrop(es, alias, token))
    case Prune(ages, before, now, db) => Save(s, es - ForgottenSet(ages, es, before, now, db))
    case Restart => s.(entries := s.saved)
  }

  function Run(s: State, ops: seq<Op>): State
    decreases |ops|
  {
    if ops == [] then s else Run(Do(s, ops[0]), ops[1..])
  }

  /** One session, one liveness. */
  ghost predicate Agree(es: Entries) {
    forall a, b :: a in es && b in es && Siblings(es[a], es[b]) ==> es[a].lastSeen == es[b].lastSeen
  }

  /** Two names of one session, neither a service, neither gone. */
  predicate Siblings(e: Entry, f: Entry) {
    && e.sessionId == f.sessionId && !e.service && !f.service
    && e.standing.Heard? && f.standing.Heard?
  }

  /** Signs of life through one row reach every sibling at once. */
  lemma TouchAgrees(es: Entries, alias: Address, row: Entry, sessionId: string, now: Time)
    requires Agree(es) && row.lastSeen == now && (row.service || row.sessionId == sessionId)
    ensures Agree(TouchSiblings(es[alias := row], sessionId, alias, now))
  {
    var next := TouchSiblings(es[alias := row], sessionId, alias, now);
    forall a, b | a in next && b in next && Siblings(next[a], next[b]) ensures next[a].lastSeen == next[b].lastSeen {
      if next[a].sessionId != sessionId {
        assert a in es && b in es && Siblings(es[a], es[b]);
      }
    }
  }

  lemma StepAgrees(s: State, op: Op)
    requires Agree(s.entries) && Agree(s.saved)
    ensures Agree(Do(s, op).entries) && Agree(Do(s, op).saved)
  {
    hide TouchSiblings;
    var es := s.entries;
    match op
    case Register(alias, info, presented, minted, now) =>
      TouchAgrees(es, alias, Registered(es, alias, info, presented, minted, now), info.sessionId, now);
    case Heartbeat(alias, now) =>
      if alias in es { TouchAgrees(es, alias, es[alias].(lastSeen := now, standing := Heard), es[alias].sessionId, now); }
    case Act(alias, now) =>
      if alias in es { TouchAgrees(es, alias, es[alias].(lastSeen := now, standing := Heard), es[alias].sessionId, now); }
    case _ =>
  }

  /**
   One session, one liveness: in every reachable state, restarts included, the aliases of a
   session that are neither services nor gone were last heard from at the same moment, so
   they have the same status at any time.
   */
  lemma {:induction false} OneSessionOneLiveness(s: State, ops: seq<Op>, ages: Ages, now: Time, a: Address, b: Address)
    requires Agree(s.entries) && Agree(s.saved)
    ensures var es := Run(s, ops).entries;
      a in es && b in es && Siblings(es[a], es[b]) ==>
        es[a].lastSeen == es[b].lastSeen && StatusOf(ages, es[a], now) == StatusOf(ages, es[b], now)
    decreases |ops|
  {
    if ops != [] {
      StepAgrees(s, ops[0]);
      OneSessionOneLiveness(Do(s, ops[0]), ops[1..], ages, now, a, b);
    }
  }

  // ---- A leave sticks -----------------------------------------------------------------------------

  predicate Gone(es: Entries, a: Address) { a in es ==> es[a].standing.Left? }

  predicate Revives(op: Op, a: Address) { (op.Register? || op.Heartbeat?) && op.alias == a }

  lemma StaysGone(s: State, op: Op, a: Address)
    requires Gone(s.entries, a) && Gone(s.saved, a) && !Revives(op, a)
    ensures Gone(Do(s, op).entries, a) && Gone(Do(s, op).saved, a)
  {
  }

  /** Once it has left, an alias is offline until it registers or heartbeats itself, whatever its siblings do. */
  lemma {:induction false} LeftStaysOffline(s: State, ops: seq<Op>, a: Address, ages: Ages, now: Time)
    requires a in s.entries
    requires forall i :: 0 <= i < |ops| ==> !Revives(ops[i], a)
    ensures var es := Run(Do(s, Leave(a)), ops).entries; a in es ==> StatusOf(ages, es[a], now).Offline?
  {
    LeftRun(Do(s, Leave(a)), ops, a);
  }

  lemma {:induction false} LeftRun(s: State, ops: seq<Op>, a: Address)
    requires Gone(s.entries, a) && Gone(s.saved, a) && forall i :: 0 <= i < |ops| ==> !Revives(ops[i], a)
    ensures Gone(Run(s, ops).entries, a)
    decreases |ops|
  {
    if ops != [] {
      StaysGone(s, ops[0], a);
      forall i | 0 <= i < |ops[1..]| ensures !Revives(ops[1..][i], a) { assert ops[1..][i] == ops[i + 1]; }
      LeftRun(Do(s, ops[0]), ops[1..], a);
    }
  }

  /** Does this operation write the snapshot? */
  predicate Snapshots(s: State, op: Op) {
    match op
    case Register(alias, info, presented, _, _) => !Denied(s.entries, alias, info, presented)
    case Leave(alias) => alias in s.entries
    case Restore(_, _, _, _) => Do(s, op).entries != s.entries
    case Drop(_, _) => Do(s, op).entries != s.entries
    case Prune(_, _, _, _) => Do(s, op).entries != s.entries
    case _ => false
  }

  predicate SnapshotsIn(s: State, ops: seq<Op>)
    decreases |ops|
  {
    ops != [] && (Snapshots(s, ops[0]) || SnapshotsIn(Do(s, ops[0]), ops[1..]))
  }

  /** Neither a restart, nor a leave, a borrowing or a pruning of this alias. */
  predicate Spares(s: State, op: Op, a: Address) {
    match op
    case Restart => false
    case Leave(alias) => alias != a
    case Restore(alias, _, _, _) => alias != a
    case Prune(ages, before, now, db) => a !in ForgottenSet(ages, s.entries, before, now, db)
    case _ => true
  }

  predicate AllSpare(s: State, ops: seq<Op>, a: Address)
    decreases |ops|
  {
    ops == [] || (Spares(s, ops[0], a) && AllSpare(Do(s, ops[0]), ops[1..], a))
  }

  lemma SparedStep(s: State, op: Op, a: Address)
    requires !Gone(s.entries, a) && Spares(s, op, a)
    ensures !Gone(Do(s, op).entries, a)
    ensures Do(s, op).saved == if Snapshots(s, op) then Do(s, op).entries else s.saved
  {
  }

  lemma {:induction false} RevivalLasts(s: State, ops: seq<Op>, a: Address)
    requires !Gone(s.entries, a) && AllSpare(s, ops, a)
    ensures !Gone(Run(s, ops).saved, a) <==> !Gone(s.saved, a) || SnapshotsIn(s, ops)
    decreases |ops|
  {
    hide Do, Snapshots, Spares;
    if ops != [] {
      SparedStep(s, ops[0], a);
      RevivalLasts(Do(s, ops[0]), ops[1..], a);
    }
  }

  /**
   A heartbeat brings an alias that left back, but writes no snapshot.  Whatever follows, short of
   another leave, a borrowing or a pruning of it, the revival survives the next restart exactly if
   some operation in between wrote one; a registration's always does.
   */
  lemma RevivalAndRestart(s: State, a: Address, now: Time, ops: seq<Op>)
    requires a in s.entries && AllSpare(Do(Do(s, Leave(a)), Heartbeat(a, now)), ops, a)
    ensures var revived := Do(Do(s, Leave(a)), Heartbeat(a, now));
      !Gone(Do(Run(revived, ops), Restart).entries, a) <==> SnapshotsIn(revived, ops)
  {
    RevivalLasts(Do(Do(s, Leave(a)), Heartbeat(a, now)), ops, a);
  }

  lemma RegistrationSurvives(s: State, a: Address, info: Info, presented: Option<string>, minted: string, now: Time, ops: seq<Op>)
    requires !Denied(s.entries, a, info, presented)
    requires AllSpare(Do(s, Register(a, info, presented, minted, now)), ops, a)
    ensures !Gone(Do(Run(Do(s, Register(a, info, presented, minted, now)), ops), Restart).entries, a)
  {
    RevivalLasts(Do(s, Register(a, info, presented, minted, now)), ops, a);
  }

  /**
   An identity borrowed to replay outage mail leaves no trace, exactly when the alias was not
   registered: a row without a token, from before tokens, does not survive the replay.
   */
  lemma BorrowedIdentity(es: Entries, alias: Address, sessionId: string, cwd: string, token: string)
    requires alias in es ==> es[alias].token.None?
    ensures var after := DoDrop(DoRestore(es, alias, sessionId, cwd, token), alias, token);
      after == es - {alias} && (after == es <==> alias !in es)
  {
    var restored := DoRestore(es, alias, sessionId, cwd, token);
    assert restored - {alias} == es - {alias};
    assert alias !in es - {alias};
    assert alias !in es ==> es - {alias} == es;
  }

  /** A member of the roster the verbs consult. */
  function MemberOf(ages: Ages, alias: Address, e: Entry, now: Time): Member {
    Member(alias, e.sessionId, e.cwd, StatusOf(ages, e, now).Offline?)
  }

  /** So a broadcast reaches all of a session's aliases or none, however they were last heard from. */
  lemma SiblingsReachable(s: State, ops: seq<Op>, ages: Ages, now: Time, a: Address, b: Address)
    requires Agree(s.entries) && Agree(s.saved)
    ensures var es := Run(s, ops).entries;
      a in es && b in es && Siblings(es[a], es[b]) ==>
        (MemberOf(ages, a, es[a], now).offline <==> MemberOf(ages, b, es[b], now).offline)
  {
    OneSessionOneLiveness(s, ops, ages, now, a, b);
  }
}
