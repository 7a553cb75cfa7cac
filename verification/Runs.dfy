/** Whole interleaved runs: each one commits a valid history, row locks exclude each other,
    and the provider is never told about a touch whose dispatch is already committed. */
module Runs {
  import opened Options
  import opened Tables
  import opened Ledger
  import opened Budgets
  import opened Interleaving
  import opened Simulation

  ghost predicate TxnsOk(db0: Db, w: World) {
    forall t :: t in w.txns ==> TxnOk(db0, w.log, w.db, w.txns[t]) && w.txns[t].origin.began <= w.now
  }

  ghost predicate LocksExclude(w: World) {
    forall t, u :: t in w.txns && u in w.txns && t != u ==> Disjoint(Held(w.txns[t]), Held(w.txns[u]))
  }

  ghost predicate TouchesDated(db: Db, now: Time) {
    forall t :: t in db.touches ==> db.touches[t].created <= now
  }

  ghost predicate Inv(db0: Db, w: World) {
    && Valid(db0, w.log) && w.db == Replay(db0, w.log)
    && TxnsOk(db0, w) && LocksExclude(w) && TouchesDated(w.db, w.now)
  }

  lemma ValidExtends(db0: Db, log: seq<Event>, e: Event)
    requires Valid(db0, log) && Guard(Replay(db0, log), e)
    requires e.Dispatch? ==> GatesHeld(db0, log, e.send)
    requires e.Release? ==> BeganOnDraft(db0, log, e.touch, e.beginAt)
    ensures Valid(db0, log + [e]) && Replay(db0, log + [e]) == Apply(Replay(db0, log), e)
  {
    hide Guard, Apply, GatesHeld, BeganOnDraft;
    assert (log + [e])[..|log|] == log;
  }

  lemma EventDates(db: Db, e: Event, now: Time)
    requires Guard(db, e) && TouchesDated(db, now)
    requires e.Draft? || e.Park? ==> e.row.created == now
    ensures TouchesDated(Apply(db, e), now)
  {
    hide Charged, PlanAfter, AfterContact, Planned, Tried, Freed, HasRoom, FrequencyOk, ContinuationOk;
  }

  // ---- each step keeps the invariant -------------------------------------------------------

  lemma BeginKeeps(db0: Db, w: World, s: Step)
    requires Inv(db0, w) && Enabled(w, s) && s.Begin?
    ensures Inv(db0, Take(w, s))
  {
    hide Valid, Replay, TxnOk, Held, Disjoint, TouchesDated;
    assert w.db.touches[s.touch].created <= w.now by { BeginDated(w, s); }
    BeginOk(db0, w.log, w.db, s.touch, w.now, s.month, s.day, s.drip);
    forall u | u in w.txns ensures Disjoint(Held(Take(w, s).txns[s.t]), Held(w.txns[u])) && Disjoint(Held(w.txns[u]), Held(Take(w, s).txns[s.t])) {
      BeginHoldsNothing(s.touch, w.db.touches[s.touch], w.db.prospects[w.db.touches[s.touch].prospect], w.now, s.month, s.day, s.drip, |w.log|, Held(w.txns[u]));
    }
  }

  lemma BeginDated(w: World, s: Step)
    requires TouchesDated(w.db, w.now) && Enabled(w, s) && s.Begin?
    ensures w.db.touches[s.touch].created <= w.now
  {
  }

  lemma BeginHoldsNothing(touch: Id, row: Touch, who: Prospect, now: Time, month: int, day: int, drip: Option<Drip>, at: nat, l: Locks)
    ensures var x := Started(touch, row, who, now, month, day, drip, at); Disjoint(Held(x), l) && Disjoint(l, Held(x))
  {
  }

  lemma RunKeeps(db0: Db, w: World, s: Step)
    requires Inv(db0, w) && Enabled(w, s) && s.Run?
    ensures Inv(db0, Take(w, s))
  {
    hide Valid, Replay, TxnOk, Advance, LeastUsed, Held, Disjoint;
    var x := w.txns[s.t];
    var next := Advance(w.db, w.now, |w.log|, x, s.oracle);
    if next.Some? {
      StatementKeeps(db0, w.log, w.db, w.now, x, s.oracle, next.value);
      StatementFrame(w.db, w.now, |w.log|, x, s.oracle, next.value);
      forall u, v | u in Take(w, s).txns && v in Take(w, s).txns && u != v
        ensures Disjoint(Held(Take(w, s).txns[u]), Held(Take(w, s).txns[v]))
      {
        if v == s.t {
          DisjointSymmetric(Held(Take(w, s).txns[v]), Held(Take(w, s).txns[u]));
        }
      }
    }
  }

  lemma DisjointSymmetric(a: Locks, b: Locks)
    requires Disjoint(a, b)
    ensures Disjoint(b, a)
  {
  }

  /** One committed event, whoever's it is, with the transactions it leaves open. */
  lemma CommitKeeps(db0: Db, w: World, e: Event, open: map<nat, Txn>)
    requires Inv(db0, w) && Guard(w.db, e)
    requires e.Dispatch? ==> GatesHeld(db0, w.log, e.send)
    requires e.Release? ==> BeganOnDraft(db0, w.log, e.touch, e.beginAt)
    requires e.Draft? || e.Park? ==> e.row.created == w.now
    requires forall t :: t in open ==> t in w.txns && open[t] == w.txns[t]
    requires forall t :: t in open ==> RowsKept(w.db, Apply(w.db, e), Held(open[t])) && Spares(e, open[t])
    ensures Inv(db0, World(Apply(w.db, e), open, w.now, w.log + [e], w.sends, w.times + [w.now]))
  {
    hide Guard, Apply, GatesHeld, BeganOnDraft, TxnOk, Valid, Replay, Held, RowsKept, Disjoint, Continues, TouchesDated;
    ValidExtends(db0, w.log, e);
    EventDates(w.db, e, w.now);
    ApplyContinues(w.db, e);
    forall t | t in open ensures TxnOk(db0, w.log + [e], Apply(w.db, e), open[t]) {
      OthersKeep(db0, w.log, e, w.db, Apply(w.db, e), open[t]);
    }
  }

  /** A finishing transaction's merge is its event's effect, and its guards held. */
  lemma FinishIsEvent(db0: Db, w: World, t: nat)
    requires Inv(db0, w) && Enabled(w, Finish(t))
    ensures Guard(w.db, EventOf(w.txns[t])) && Merged(w.db, w.txns[t]) == Apply(w.db, EventOf(w.txns[t]))
    ensures w.txns[t].pc.Commit? ==> GatesHeld(db0, w.log, SendOf(w.txns[t]))
    ensures w.txns[t].pc.CommitRefusal? ==> BeganOnDraft(db0, w.log, w.txns[t].origin.touch, w.txns[t].origin.beginAt)
  {
    assert TxnsOk(db0, w);
    hide Inv, Enabled, Guard, Apply, TxnOk, Merged, GatesHeld, BeganOnDraft, SendOf, EventOf;
    FinishShape(w, t);
    var x := w.txns[t];
    EventKindOf(x);
    if x.pc.Commit? {
      CommitIsEvent(db0, w.log, w.db, x);
    } else {
      RefusalIsRelease(db0, w.log, w.db, x);
      RefusalBeganOnDraft(db0, w.log, w.db, x);
    }
  }

  /** A transaction ready to commit, in the ledger's terms. */
  lemma CommitIsEvent(db0: Db, log: seq<Event>, db: Db, x: Txn)
    requires TxnOk(db0, log, db, x) && x.pc.Commit?
    ensures Guard(db, Dispatch(SendOf(x))) && Merged(db, x) == Apply(db, Dispatch(SendOf(x)))
    ensures GatesHeld(db0, log, SendOf(x))
  {
    CommitAllowed(db0, log, db, x);
    CommitIsDispatch(db0, log, db, x);
    assert GatesOk(db0, log, x) && WaitedFor(log, x) && (Contacting(x) ==> x.entity.Some?);
    hide TxnOk, GatesOk, SendAllowed, Merged, AfterDispatch, GatesHeld;
    CommitPassedGates(db0, log, x);
  }

  lemma RefusalBeganOnDraft(db0: Db, log: seq<Event>, db: Db, x: Txn)
    requires TxnOk(db0, log, db, x)
    ensures BeganOnDraft(db0, log, x.origin.touch, x.origin.beginAt)
  {
    hide SnapshotOk, EntityOk, CountersOk, TouchOk, TrialOk, ProspectOk, JobOk, LateGates, BeganOnDraft;
  }

  lemma EventKindOf(x: Txn)
    ensures var e := EventOf(x);
      && (if x.pc.Commit? then e == Dispatch(SendOf(x)) else e.Release? && e.touch == x.origin.touch && e.beginAt == x.origin.beginAt)
  {
    hide SendOf;
  }

  lemma OpenRowsKept(w: World, t: nat, u: nat)
    requires LocksExclude(w) && t in w.txns && u in w.txns && u != t
    ensures RowsKept(w.db, Merged(w.db, w.txns[t]), Held(w.txns[u]))
  {
    hide Held, RowsKept, Merged, Disjoint;
    MergeTouchesOnlyHeldRows(w.db, w.txns[t], Held(w.txns[u]));
  }

  lemma FinishShape(w: World, t: nat)
    requires Enabled(w, Finish(t))
    ensures t in w.txns && (w.txns[t].pc.Commit? || w.txns[t].pc.CommitRefusal?)
    ensures Take(w, Finish(t)) == World(Merged(w.db, w.txns[t]), w.txns - {t}, w.now, w.log + [EventOf(w.txns[t])],
                                        w.sends, w.times + [w.now])
  {
    hide Merged, EventOf;
  }

  lemma FinishKeeps(db0: Db, w: World, t: nat)
    requires Inv(db0, w) && Enabled(w, Finish(t))
    ensures Inv(db0, Take(w, Finish(t)))
  {
    assert LocksExclude(w);
    hide Inv, LocksExclude, Guard, Apply, GatesHeld, BeganOnDraft, Held, RowsKept, Merged, SendOf, EventOf, Enabled, Take;
    FinishShape(w, t);
    var x, e := w.txns[t], EventOf(w.txns[t]);
    FinishIsEvent(db0, w, t);
    EventKindOf(x);
    var open := w.txns - {t};
    forall u | u in open ensures RowsKept(w.db, Apply(w.db, e), Held(open[u])) {
      OpenRowsKept(w, t, u);
    }
    forall u | u in open ensures Spares(e, open[u]) { OnlyDeletionsMatter(e, open[u]); }
    CommitKeeps(db0, w, e, open);
  }

  lemma OtherKeeps(db0: Db, w: World, e: Event)
    requires Inv(db0, w) && Enabled(w, Other(e))
    ensures Inv(db0, Take(w, Other(e)))
  {
    assert TxnsOk(db0, w);
    hide Inv, Guard, Apply, TxnOk, RowsKept, Held, Disjoint, DeletionRows, Spares, LocksExclude, TouchesDated, Enabled, Take;
    OtherShape(w, e);
    forall u | u in w.txns ensures Spares(e, w.txns[u]) {
      if e.Forget? { DeletionSpares(db0, w.log, w.db, e, w.txns[u]); } else { OnlyDeletionsMatter(e, w.txns[u]); }
    }
    CommitKeeps(db0, w, e, w.txns);
  }

  lemma OtherShape(w: World, e: Event)
    requires Enabled(w, Other(e))
    ensures !e.Dispatch? && !e.Release? && Guard(w.db, e) && (e.Draft? || e.Park? ==> e.row.created == w.now)
    ensures forall u :: u in w.txns ==> RowsKept(w.db, Apply(w.db, e), Held(w.txns[u]))
    ensures e.Forget? ==> forall u :: u in w.txns ==> Disjoint(DeletionRows(w.db, e.entities), Held(w.txns[u]))
    ensures Take(w, Other(e)) == World(Apply(w.db, e), w.txns, w.now, w.log + [e], w.sends, w.times + [w.now])
  {
    hide Guard, Apply, RowsKept, Held, Disjoint, DeletionRows;
  }

  lemma OnlyDeletionsMatter(e: Event, x: Txn)
    requires !e.Forget?
    ensures Spares(e, x)
  {
  }

  lemma StepKeeps(db0: Db, w: World, s: Step)
    requires Inv(db0, w) && Enabled(w, s)
    ensures Inv(db0, Take(w, s))
  {
    hide Inv;
    match s {
      case Begin(_, _, _, _, _) => BeginKeeps(db0, w, s);
      case Run(_, _) => RunKeeps(db0, w, s);
      case Finish(t) => FinishKeeps(db0, w, t);
      case Other(e) => OtherKeeps(db0, w, e);
      case _ => QuietKeeps(db0, w, s);
    }
  }

  lemma QuietKeeps(db0: Db, w: World, s: Step)
    requires Inv(db0, w) && Enabled(w, s) && (s.Rollback? || s.Tick?)
    ensures Inv(db0, Take(w, s))
  {
    hide TxnOk, Valid, Replay, Held, Disjoint;
  }

  // ---- runs -----------------------------------------------------------------------------------

  ghost predicate IsRun(db0: Db, now: Time, ws: seq<World>, steps: seq<Step>) {
    && |ws| == |steps| + 1 && ws[0] == World(db0, map[], now, [], [], [])
    && TouchesDated(db0, now)
    && forall i :: 0 <= i < |steps| ==> Enabled(ws[i], steps[i]) && ws[i + 1] == Take(ws[i], steps[i])
  }

  /** Main result: at every point of every interleaved run, what has been committed is a
      valid history of atomic events and the tables are exactly its outcome. */
  lemma {:induction false} EveryRunIsAHistory(db0: Db, now: Time, ws: seq<World>, steps: seq<Step>, n: nat)
    requires IsRun(db0, now, ws, steps) && n < |ws|
    ensures Valid(db0, ws[n].log) && ws[n].db == Replay(db0, ws[n].log)
    ensures Inv(db0, ws[n])
    decreases n
  {
    hide Enabled, Take;
    if n > 0 {
      EveryRunIsAHistory(db0, now, ws, steps, n - 1);
      hide Inv;
      StepKeeps(db0, ws[n - 1], steps[n - 1]);
    }
  }

  /** What the send path promises, of every run: budgets conserved and within fixed caps,
      each touch dispatched at most once, the annual ceiling kept. */
  lemma RunsAreSafe(db0: Db, now: Time, ws: seq<World>, steps: seq<Step>, n: nat, k: CounterKey, t: Id, entity: Id)
    requires IsRun(db0, now, ws, steps) && n < |ws|
    ensures Used(ws[n].db, k) == Used(db0, k) + Total(ws[n].log, e => Charge(e, k))
    ensures k in db0.counters && db0.counters[k].used <= db0.counters[k].cap
            && (forall i :: 0 <= i < |ws[n].log| && ws[n].log[i].Recap? ==> ws[n].log[i].key != k)
            ==> Used(ws[n].db, k) <= db0.counters[k].cap
    ensures Total(ws[n].log, e => if Dispatches(e, t) then 1 else 0) <= 1
    ensures Total(ws[n].log, e => if ClaimsOn(e, entity) then 1 else 0) <= ANNUAL_TOUCH_CAP
  {
    EveryRunIsAHistory(db0, now, ws, steps, n);
    hide Inv, Valid, Replay, IsRun;
    CountersAreConserved(db0, ws[n].log, k);
    if k in db0.counters && db0.counters[k].used <= db0.counters[k].cap
       && forall i :: 0 <= i < |ws[n].log| && ws[n].log[i].Recap? ==> ws[n].log[i].key != k {
      BudgetHolds(db0, ws[n].log, k);
    }
    DispatchedAtMostOnce(db0, ws[n].log, t);
    ClaimsNeverExceedAnnualCap(db0, ws[n].log, entity);
  }

  // ---- what the provider hears ------------------------------------------------------------------

  lemma ClaimedRowIsDraft(db0: Db, log: seq<Event>, db: Db, x: Txn)
    requires TxnOk(db0, log, db, x) && Past(x, Persist)
    ensures Stage(db, x.origin.touch) == 2 && x.origin.touch in Held(x).touches
  {
    hide SnapshotOk, GatesOk, EntityOk, CountersOk, TrialOk, ProspectOk, JobOk;
  }

  /** Telling the provider happens under the touch's row lock while its committed status is
      still drafted: no two transactions tell it about one touch at a time. */
  lemma SendingIsExclusive(db0: Db, w: World, t: nat, u: nat)
    requires Inv(db0, w) && t in w.txns && u in w.txns && t != u
    requires Past(w.txns[t], Persist)
    ensures Stage(w.db, w.txns[t].origin.touch) == 2
    ensures Past(w.txns[u], Persist) ==> w.txns[u].origin.touch != w.txns[t].origin.touch
  {
    hide Valid, Replay, TxnOk, Held, Stage;
    ClaimedRowIsDraft(db0, w.log, w.db, w.txns[t]);
    if Past(w.txns[u], Persist) {
      ClaimedRowIsDraft(db0, w.log, w.db, w.txns[u]);
      assert Disjoint(Held(w.txns[t]), Held(w.txns[u]));
    }
  }

  /** Once a touch's dispatch is committed the provider is never told about it again,
      although a rolled-back attempt may have told it before. */
  lemma NoSendAfterDispatch(db0: Db, w: World, t: nat, i: nat)
    requires Inv(db0, w) && t in w.txns && w.txns[t].pc.SendOut?
    requires i < |w.log|
    ensures !Dispatches(w.log[i], w.txns[t].origin.touch)
  {
    hide TxnOk, Valid, Replay, Stage, Held;
    var touch := w.txns[t].origin.touch;
    ClaimedRowIsDraft(db0, w.log, w.db, w.txns[t]);
    if Dispatches(w.log[i], touch) {
      CountedIfPresent(w.log, i, touch);
      DispatchedAtMostOnce(db0, w.log, touch);
    }
  }

  lemma {:induction false} CountedIfPresent(log: seq<Event>, i: nat, t: Id)
    requires i < |log| && Dispatches(log[i], t)
    ensures Total(log, e => if Dispatches(e, t) then 1 else 0) >= 1
  {
    if i < |log| - 1 {
      CountedIfPresent(log[..|log| - 1], i, t);
    }
    var w := e => if Dispatches(e, t) then 1 else 0;
    assert Total(log, w) == Total(log[..|log| - 1], w) + w(log[|log| - 1]);
  }
}
