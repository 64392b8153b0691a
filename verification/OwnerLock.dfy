/** One delivery host per thread and per alias, across crashes and hand-offs (src/codex/main.ts:100-161). */
module OwnerLock {
  import opened Models
  import opened Backend
  import opened Invariants

  /** Who hosts a thread. Rows from before aliases were recorded have none. */
  datatype Row = Row(pid: nat, ownerId: string, alias: Option<string>, active: bool)

  type Rows = map<string, Row>

  datatype Claim = Claim(thread: string, requested: Option<string>, replacing: Option<string>, pid: nat, ownerId: string)

  function AlphanumericLower(t: string): string {
    if t == "" then ""
    else
      var c := t[0];
      (if 'a' <= c <= 'z' || '0' <= c <= '9' then [c]
       else if 'A' <= c <= 'Z' then [(c as int - 'A' as int + 'a' as int) as char] else "")
      + AlphanumericLower(t[1..])
  }

  function DefaultAlias(thread: string): string {
    var short := AlphanumericLower(thread);
    "cx-codex-" + if |short| <= 8 then short else short[..8]
  }

  /** The alias asked for, else the thread's last one, else one made from the thread. */
  function AliasFor(rows: Rows, c: Claim): string {
    if c.requested.Some? then c.requested.value
    else if c.thread in rows && rows[c.thread].alias.Some? then rows[c.thread].alias.value
    else DefaultAlias(c.thread)
  }

  predicate Hosted(rows: Rows, alive: set<nat>, thread: string) {
    thread in rows && rows[thread].active && rows[thread].pid in alive
  }

  /** The other threads actively hosted under an alias. */
  function Rivals(rows: Rows, thread: string, alias: string): set<string> {
    set t | t in rows && t != thread && rows[t].active && rows[t].alias == Some(alias)
  }

  predicate Blocks(rows: Rows, alive: set<nat>, c: Claim, t: string)
    requires t in rows
  {
    rows[t].pid in alive && Some(rows[t].ownerId) != c.replacing
  }

  /** A claim is granted unless a live host has the thread, or a live host not being replaced has the alias. */
  predicate Granted(rows: Rows, alive: set<nat>, c: Claim) {
    && !Hosted(rows, alive, c.thread)
    && forall t :: t in Rivals(rows, c.thread, AliasFor(rows, c)) ==> !Blocks(rows, alive, c, t)
  }

  /** Rivals stand down, and the thread is hosted by the claimant. */
  function Taken(rows: Rows, c: Claim): Rows {
    var alias := AliasFor(rows, c);
    Deactivated(rows, Rivals(rows, c.thread, alias))[c.thread := Row(c.pid, c.ownerId, Some(alias), true)]
  }

  function Deactivated(rows: Rows, threads: set<string>): Rows {
    map t | t in rows :: if t in threads then rows[t].(active := false) else rows[t]
  }

  function Released(rows: Rows, thread: string, ownerId: string): Rows {
    if thread in rows && rows[thread].ownerId == ownerId then rows[thread := rows[thread].(active := false)] else rows
  }

  // ---- The lock ------------------------------------------------------------------------------

  class Owners {
    var rows: Rows

    constructor ()
      ensures rows == map[]
    {
      rows := map[];
    }

    /** One transaction: granted claims take effect at once, refused ones leave no trace. */
    method Acquire(alive: set<nat>, c: Claim) returns (granted: bool, alias: string)
      modifies this
      ensures granted <==> Granted(old(rows), alive, c)
      ensures granted ==> alias == AliasFor(old(rows), c) && rows == Taken(old(rows), c)
      ensures !granted ==> rows == old(rows)
    {
      var begun := rows;
      alias := AliasFor(rows, c);
      if Hosted(rows, alive, c.thread) { return false, alias; }
      var rivals := Listing(Rivals(rows, c.thread, alias));
      for i := 0 to |rivals|
        invariant rows == Deactivated(begun, set t | t in rivals[..i])
        invariant forall j :: 0 <= j < i ==> rivals[j] in begun && !Blocks(begun, alive, c, rivals[j])
      {
        var t := rivals[i];
        EnumeratesIn(rivals, Rivals(begun, c.thread, alias), t);
        if begun[t].pid in alive && Some(begun[t].ownerId) != c.replacing {
          rows := begun;
          return false, alias;
        }
        Grows(rivals, i);
        rows := rows[t := rows[t].(active := false)];
      }
      assert (set t | t in rivals[..|rivals|]) == Rivals(begun, c.thread, alias) by { assert rivals[..|rivals|] == rivals; }
      forall t | t in Rivals(begun, c.thread, alias) ensures !Blocks(begun, alive, c, t) {
        EnumeratesIn(rivals, Rivals(begun, c.thread, alias), t);
      }
      rows := rows[c.thread := Row(c.pid, c.ownerId, Some(alias), true)];
      granted := true;
    }
  }

  lemma Grows(order: seq<string>, i: nat)
    requires i < |order|
    ensures forall t :: t in order[..i + 1] <==> t in order[..i] || t == order[i]
  {
    assert order[..i + 1] == order[..i] + [order[i]];
  }

  /** What a granted claim hands its process: the way to let go, once. */
  class Handle {
    const owners: Owners
    const thread: string
    const ownerId: string
    var released: bool

    constructor (owners: Owners, thread: string, ownerId: string)
      ensures this.owners == owners && this.thread == thread && this.ownerId == ownerId && !released
    {
      this.owners, this.thread, this.ownerId, released := owners, thread, ownerId, false;
    }

    method Release()
      modifies this, owners
      ensures released
      ensures owners.rows == if old(released) then old(owners.rows) else Released(old(owners.rows), thread, ownerId)
    {
      if released { return; }
      released := true;
      if thread in owners.rows && owners.rows[thread].ownerId == ownerId {
        owners.rows := owners.rows[thread := owners.rows[thread].(active := false)];
      }
    }
  }

  // ---- Runs: claims, releases, deaths -----------------------------------------------------------

  datatype State = State(rows: Rows, alive: set<nat>, used: set<string>)

  datatype Op = Acquire(c: Claim) | Release(thread: string, ownerId: string) | Die(pid: nat) | Spawn(pid: nat)

  /** Owner ids are fresh; a claimant is alive. */
  predicate Can(s: State, op: Op) { op.Acquire? ==> op.c.ownerId !in s.used && op.c.pid in s.alive }

  function Do(s: State, op: Op): State {
    match op
    case Acquire(c) =>
      s.(rows := if Granted(s.rows, s.alive, c) then Taken(s.rows, c) else s.rows, used := s.used + {c.ownerId})
    case Release(thread, ownerId) => s.(rows := Released(s.rows, thread, ownerId))
    case Die(pid) => s.(alive := s.alive - {pid})
    case Spawn(pid) => s.(alive := s.alive + {pid})
  }

  predicate Possible(s: State, ops: seq<Op>)
    decreases |ops|
  {
    ops == [] || (Can(s, ops[0]) && Possible(Do(s, ops[0]), ops[1..]))
  }

  function Run(s: State, ops: seq<Op>): State
    decreases |ops|
  {
    if ops == [] then s else Run(Do(s, ops[0]), ops[1..])
  }

  /** No two active hosts share an alias; every owner id in the table was used. */
  ghost predicate LockInv(s: State) {
    && (forall t, u :: t in s.rows && u in s.rows && Clash(s.rows[t], s.rows[u]) ==> t == u)
    && (forall t :: t in s.rows ==> s.rows[t].ownerId in s.used)
  }

  predicate Clash(r: Row, q: Row) { r.active && q.active && r.alias.Some? && r.alias == q.alias }

  lemma DoKeeps(s: State, op: Op)
    requires LockInv(s) && Can(s, op)
    ensures LockInv(Do(s, op))
  {
    match op
    case Acquire(c) =>
      if Granted(s.rows, s.alive, c) { TakenKeeps(s, c); }
    case _ =>
  }

  lemma TakenKeeps(s: State, c: Claim)
    requires LockInv(s)
    ensures LockInv(State(Taken(s.rows, c), s.alive, s.used + {c.ownerId}))
  {
    var rows := Taken(s.rows, c);
    forall t, u | t in rows && u in rows && Clash(rows[t], rows[u]) ensures t == u {
      assert t != c.thread && u != c.thread ==> Clash(s.rows[t], s.rows[u]);
    }
  }

  /** In every reachable state the active hosts have pairwise distinct aliases. */
  lemma {:induction false} AliasesDistinct(s: State, ops: seq<Op>)
    requires LockInv(s) && Possible(s, ops)
    ensures LockInv(Run(s, ops))
    decreases |ops|
  {
    if ops != [] {
      DoKeeps(s, ops[0]);
      AliasesDistinct(Do(s, ops[0]), ops[1..]);
    }
  }

  /**
   What ends the tenure of a thread's live host: its process dies, it lets go itself, or a claim
   for another thread takes its alias over, naming it as replaced.  A refused claim ends nothing,
   nor does one that settles on another alias.
   */
  predicate Ends(s: State, op: Op, t: string)
    requires t in s.rows
  {
    match op
    case Acquire(c) =>
      && Granted(s.rows, s.alive, c) && c.thread != t
      && c.replacing == Some(s.rows[t].ownerId) && s.rows[t].alias == Some(AliasFor(s.rows, c))
    case Release(thread, ownerId) => thread == t && ownerId == s.rows[t].ownerId
    case Die(pid) => pid == s.rows[t].pid
    case Spawn(_) => false
  }

  /** A live host stays as it is exactly if the operation does not end its tenure. */
  lemma TenureIff(s: State, op: Op, t: string)
    requires t in s.rows && s.rows[t].active && s.rows[t].pid in s.alive
    ensures var d := Do(s, op); t in d.rows && d.rows[t] == s.rows[t] && d.rows[t].pid in d.alive <==> !Ends(s, op, t)
  {
  }

  /** No operation of the run ends the tenure of this thread's host. */
  predicate NeverEnds(s: State, ops: seq<Op>, t: string)
    decreases |ops|
  {
    ops == [] || (t in s.rows && !Ends(s, ops[0], t) && NeverEnds(Do(s, ops[0]), ops[1..], t))
  }

  /**
   A live host keeps its thread through any run of claims, refused or for other aliases even if they
   name it, hand-offs between others, deaths of others and releases by anyone else, however late.
   */
  lemma {:induction false} LiveHostKeeps(s: State, ops: seq<Op>, t: string)
    requires t in s.rows && s.rows[t].active && s.rows[t].pid in s.alive && Possible(s, ops) && NeverEnds(s, ops, t)
    ensures var d := Run(s, ops); t in d.rows && d.rows[t] == s.rows[t] && d.rows[t].pid in d.alive
    decreases |ops|
  {
    if ops != [] {
      TenureIff(s, ops[0], t);
      LiveHostKeeps(Do(s, ops[0]), ops[1..], t);
    }
  }

  /**
   A hand-off to another thread: the claim that names its predecessor is granted whenever the
   new thread is free, and the predecessor's own release, however late, disturbs nobody: the
   successor hosts the alias alone for as long as it lives and keeps hold.
   */
  lemma HandOff(s: State, c: Claim, from: string, later: seq<Op>)
    requires LockInv(s) && Can(s, Acquire(c)) && from in s.rows && s.rows[from].active && from != c.thread
    requires s.rows[from].alias.Some? && c.requested == s.rows[from].alias && c.replacing == Some(s.rows[from].ownerId)
    requires !Hosted(s.rows, s.alive, c.thread)
    requires Possible(Do(s, Acquire(c)), later) && NeverEnds(Do(s, Acquire(c)), later, c.thread)
    ensures Granted(s.rows, s.alive, c) && Ends(s, Acquire(c), from)
    ensures forall d: State, o: string :: c.thread in d.rows ==> !Ends(d, Release(from, o), c.thread)
    ensures var rows := Run(Do(s, Acquire(c)), later).rows;
      && c.thread in rows && rows[c.thread] == Row(c.pid, c.ownerId, c.requested, true)
      && forall t :: t in rows && t != c.thread && rows[t].active ==> rows[t].alias != c.requested
  {
    var alias := AliasFor(s.rows, c);
    forall t | t in Rivals(s.rows, c.thread, alias) ensures !Blocks(s.rows, s.alive, c, t) {
      assert Clash(s.rows[t], s.rows[from]);
    }
    var d := Do(s, Acquire(c));
    DoKeeps(s, Acquire(c));
    assert s.rows[from].ownerId in s.used;
    LiveHostKeeps(d, later, c.thread);
    AliasesDistinct(d, later);
    var rows := Run(d, later).rows;
    forall t | t in rows && t != c.thread && rows[t].active ensures rows[t].alias != c.requested {
      assert !Clash(rows[t], rows[c.thread]);
    }
  }
}
