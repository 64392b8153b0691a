/** Exclusive claims on project mail (src/broker/router.ts:798-801, 1030-1055). */
module ProjectClaims {
  import opened Models
  import opened Store
  import opened Invariants
  import opened Verbs
  import opened Runs
  import opened Outbox

  predicate KeepsClaims(work: seq<Stmt>) { forall s :: s in work ==> !s.ReleaseClaim? }

  lemma {:induction false} HolderStays(w: World, work: seq<Stmt>, id: Id)
    requires KeepsClaims(work) && id in w.db.claims
    ensures id in Steps(w, work).db.claims && Steps(w, work).db.claims[id] == w.db.claims[id]
    decreases |work|
  {
    hide Exec;
    if work != [] {
      assert !work[0].ReleaseClaim?;
      ClaimsFrame(w.db, work[0]);
      HolderStays(Step(w, work[0]), work[1..], id);
    }
  }

  /** Only accepting releases a claim. */
  lemma OthersKeepClaims(cfg: Config, db: DB, e: Event)
    requires !e.Accept? && (e.Storage? ==> StorageOp(e.s))
    ensures KeepsClaims(Work(cfg, db, e))
  {
    if e.Reconcile? {
      ReconcileKeeps(cfg, db, e);
      assert forall s :: s in Work(cfg, db, e) ==> Mild(s) || s.DeleteOutbound?;
    } else if !e.Storage? {
      WorkKeeping(cfg, db, e);
    }
  }

  /** Would this act take the ask from its holder: an accept by another, the holder gone from the roster? */
  predicate TakesOver(e: Event, id: Id, holder: Address) {
    e.Accept? && e.id == id && e.alias != holder && !StillHeld(e.roster, holder)
  }

  lemma ClaimKept(db: DB, s: Stmt, id: Id)
    requires id in db.claims && (s.ReleaseClaim? ==> s.id != id)
    ensures id in Exec(db, s).claims && Exec(db, s).claims[id] == db.claims[id]
  {
  }

  lemma {:induction false} AcceptOther(w: World, work: seq<Stmt>, id: Id)
    requires (forall s :: s in work ==> s.ReleaseClaim? ==> s.id != id) && id in w.db.claims
    ensures id in Steps(w, work).db.claims && Steps(w, work).db.claims[id] == w.db.claims[id]
    decreases |work|
  {
    hide Exec;
    if work != [] {
      assert work[0] in work;
      ClaimKept(w.db, work[0], id);
      AcceptOther(Step(w, work[0]), work[1..], id);
    }
  }

  /** A claim changes hands only in a step where its holder is unregistered or offline. */
  lemma ClaimMovesOnlyFromGone(cfg: Config, w: World, a: Act, id: Id)
    requires Allowed(cfg, w, a) && id in w.db.claims && !TakesOver(a.event, id, w.db.claims[id])
    ensures var b := Perform(cfg, w, a).db; id in b.claims && b.claims[id] == w.db.claims[id]
  {
    hide Steps;
    var work := Work(cfg, w.db, a.event);
    if a.event.Accept? {
      AcceptReleases(w.db, a.event);
      AcceptOther(w, work[..a.cut], id);
    } else {
      OthersKeepClaims(cfg, w.db, a.event);
      HolderStays(w, work[..a.cut], id);
    }
  }

  lemma AcceptReleases(db: DB, e: Event)
    requires e.Accept?
    ensures var work := AcceptPlan(db, e.roster, e.alias, e.id).work;
      && (forall s :: s in work ==> s.ReleaseClaim? ==>
            s.id == e.id && e.id in db.claims && TakesOver(e, e.id, db.claims[e.id]))
  {
  }

  /** Over a run: as long as nobody takes over while the holder is gone, the holder holds. */
  lemma {:induction false} HolderHolds(cfg: Config, w: World, acts: seq<Act>, id: Id)
    requires Possible(cfg, w, acts) && id in w.db.claims
    requires forall i :: 0 <= i < |acts| ==> !TakesOver(acts[i].event, id, w.db.claims[id])
    ensures var b := Run(cfg, w, acts).db; id in b.claims && b.claims[id] == w.db.claims[id]
    decreases |acts|
  {
    if acts != [] {
      ClaimMovesOnlyFromGone(cfg, w, acts[0], id);
      forall i | 0 <= i < |acts[1..]| ensures !TakesOver(acts[1..][i].event, id, w.db.claims[id]) {
        assert acts[1..][i] == acts[i + 1];
      }
      HolderHolds(cfg, Perform(cfg, w, acts[0]), acts[1..], id);
    }
  }

  /**
   Accepting project mail, run to its end, answers with the holder of the new state; it is
   accepted exactly when nobody held it or its other holder was gone.
   */
  lemma AcceptNamesHolder(cfg: Config, w: World, a: Act)
    requires Allowed(cfg, w, a) && Whole(cfg, w, a) && a.event.Accept?
    requires AcceptPlan(w.db, a.event.roster, a.event.alias, a.event.id).answer.Claimed?
    ensures var e := a.event; var b := Perform(cfg, w, a).db;
      var answer := AcceptPlan(w.db, e.roster, e.alias, e.id).answer;
      && e.id in b.claims && answer.holder == Some(b.claims[e.id])
      && (answer.accepted <==> e.id !in w.db.claims || TakesOver(e, e.id, w.db.claims[e.id]))
      && (answer.accepted ==> b.claims[e.id] == e.alias)
  {
    var e := a.event;
    var work := AcceptPlan(w.db, e.roster, e.alias, e.id).work;
    assert work[..a.cut] == work;
    var claim := ClaimProject(e.id, e.alias);
    if |work| == 2 {
      assert work == [ReleaseClaim(e.id), claim];
      TwoSteps(w, ReleaseClaim(e.id), claim);
    } else {
      assert work == [claim];
      OneStep(w, claim);
    }
  }
}
