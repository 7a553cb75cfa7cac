/** What a run records beside the tables: when each event committed, and what the provider was told. */
module Chronicle {
  import opened Options
  import opened Tables
  import opened Ledger
  import opened Budgets
  import opened Sequences
  import opened Interleaving
  import opened Simulation
  import opened Runs

  // ---- commit times -----------------------------------------------------------------------

  /** The instant an event writes: a dispatch stamps the beginning of its transaction. */
  predicate StampedBy(e: Event, at: Time) {
    match e
    case Dispatch(s) => s.began <= s.clock <= at
    case Resolve(_, _, stamp) => stamp <= at
    case _ => true
  }

  ghost predicate TimesOk(w: World) {
    && |w.times| == |w.log|
    && (forall i :: 0 <= i < |w.times| ==> w.times[i] <= w.now && StampedBy(w.log[i], w.times[i]))
    && (forall i, j :: 0 <= i < j < |w.times| ==> w.times[i] <= w.times[j])
    && (forall t :: t in w.txns ==> w.txns[t].origin.began <= w.txns[t].clock <= w.now)
  }

  lemma ClockStep(db: Db, now: Time, at: nat, x: Txn, o: Oracle, y: Txn)
    requires Moves(db, now, at, x, o, y) && x.origin.began <= x.clock <= now
    ensures y.origin.began <= y.clock <= now
  {
    StatementFrame(db, now, at, x, o, y);
    StatementFrameClaim(db, now, at, x, o, y);
    if !x.pc.Frequency? { hide Moves; } else { hide FrequencyOk, ContinuationOk; }
  }

  lemma StepTimes(w: World, s: Step)
    requires TimesOk(w) && Enabled(w, s)
    ensures TimesOk(Take(w, s))
  {
    hide Advance, LeastUsed, Merged, Guard, Apply, RowsKept, Held, Disjoint;
    if s.Run? {
      var next := Advance(w.db, w.now, |w.log|, w.txns[s.t], s.oracle);
      if next.Some? { ClockStep(w.db, w.now, |w.log|, w.txns[s.t], s.oracle, next.value); }
    }
  }

  lemma {:induction false} RunTimes(db0: Db, now: Time, ws: seq<World>, steps: seq<Step>, n: nat)
    requires IsRun(db0, now, ws, steps) && n < |ws|
    ensures TimesOk(ws[n])
  {
    if n > 0 {
      RunTimes(db0, now, ws, steps, n - 1);
      hide Enabled, Take, TimesOk;
      StepTimes(ws[n - 1], steps[n - 1]);
    }
  }

  /** No contact committed between these positions had been stamped longer than `overlap` before
      it committed: no transaction that writes a contact stayed open longer. */
  ghost predicate ShortContacts(w: World, db0: Db, i: nat, j: nat, entity: Id, overlap: Time)
    requires |w.times| == |w.log| && j <= |w.log|
  {
    forall k :: i < k < j && ContactStamp(Replay(db0, w.log[..k]), w.log[k], entity).Some? ==>
      w.times[k] - ContactStamp(Replay(db0, w.log[..k]), w.log[k], entity).value <= overlap
  }

  lemma StampIsPast(db: Db, e: Event, entity: Id, at: Time)
    requires StampedBy(e, at) && ContactStamp(db, e, entity).Some?
    ensures ContactStamp(db, e, entity).value <= at
  {
  }

  /** In every run: whatever contacts lie between, an opener reads a clock at least ninety days
      after every earlier contact with the entity, less the time a contacting transaction was open. */
  lemma OpenersInRuns(db0: Db, now: Time, ws: seq<World>, steps: seq<Step>, n: nat, i: nat, j: nat, entity: Id, overlap: Time)
    requires IsRun(db0, now, ws, steps) && n < |ws| && i < j < |ws[n].log| && overlap >= 0
    requires ClaimsOn(ws[n].log[j], entity) && ProfileOf(ws[n].log[j].send.row.kind) == COLD
    requires ContactStamp(Replay(db0, ws[n].log[..i]), ws[n].log[i], entity).Some?
    requires |ws[n].times| == |ws[n].log| ==> ShortContacts(ws[n], db0, i, j, entity, overlap)
    ensures |ws[n].times| == |ws[n].log|
    ensures ws[n].log[j].send.clock - ContactStamp(Replay(db0, ws[n].log[..i]), ws[n].log[i], entity).value
            >= MIN_CAMPAIGN_GAP_DAYS * SECONDS_PER_DAY - overlap
  {
    EveryRunIsAHistory(db0, now, ws, steps, n);
    RunTimes(db0, now, ws, steps, n);
    var w := ws[n];
    hide IsRun, Inv, Valid, Replay, ContactStamp;
    var stamp := ContactStamp(Replay(db0, w.log[..i]), w.log[i], entity).value;
    StampIsPast(Replay(db0, w.log[..i]), w.log[i], entity, w.times[i]);
    assert Valid(db0, w.log);
    forall k | i < k < j && ContactStamp(Replay(db0, w.log[..k]), w.log[k], entity).Some?
      ensures ContactStamp(Replay(db0, w.log[..k]), w.log[k], entity).value >= stamp - overlap
    {
      assert w.times[i] <= w.times[k];
    }
    OpenersKeepTheirDistanceToAll(db0, w.log, i, j, entity, overlap);
  }

  // ---- what the provider was told -----------------------------------------------------------------

  function TimesTold(sends: seq<Id>, t: Id): nat {
    if sends == [] then 0
    else TimesTold(sends[..|sends| - 1], t) + (if sends[|sends| - 1] == t then 1 else 0)
  }

  /** Whoever is past the provider call, and every committed dispatch, has told the provider. */
  ghost predicate Told(w: World) {
    && (forall t :: t in w.txns && Past(w.txns[t], SendOut) ==> w.txns[t].origin.touch in w.sends)
    && (forall i :: 0 <= i < |w.log| && w.log[i].Dispatch? ==> w.log[i].send.touch in w.sends)
  }

  lemma TellingStep(db: Db, now: Time, at: nat, x: Txn, o: Oracle, y: Txn)
    requires Moves(db, now, at, x, o, y)
    ensures y.origin == x.origin && (Past(y, SendOut) ==> Past(x, SendOut) || x.pc.SendOut?)
  {
    StatementFrame(db, now, at, x, o, y);
    StatementFollows(db, now, at, x, o, y);
    hide Moves;
  }

  lemma StepTold(w: World, s: Step)
    requires Told(w) && Enabled(w, s)
    ensures Told(Take(w, s)) && w.sends <= Take(w, s).sends
  {
    hide Advance, LeastUsed, Merged, Guard, Apply, RowsKept, Held, Disjoint;
    if s.Run? {
      var next := Advance(w.db, w.now, |w.log|, w.txns[s.t], s.oracle);
      if next.Some? { TellingStep(w.db, w.now, |w.log|, w.txns[s.t], s.oracle, next.value); }
    }
  }

  /** In every run, each touch whose dispatch committed had been told to the provider. */
  lemma {:induction false} DispatchedWasTold(db0: Db, now: Time, ws: seq<World>, steps: seq<Step>, n: nat)
    requires IsRun(db0, now, ws, steps) && n < |ws|
    ensures Told(ws[n])
  {
    if n > 0 {
      DispatchedWasTold(db0, now, ws, steps, n - 1);
      hide Enabled, Take, Told;
      StepTold(ws[n - 1], steps[n - 1]);
    }
  }

  /** One step tells the provider at most about a touch not dispatched yet. */
  lemma StepTellsNoDispatched(db0: Db, w: World, s: Step, t: Id, i: nat)
    requires Inv(db0, w) && Enabled(w, s) && i < |w.log| && Dispatches(w.log[i], t)
    ensures TimesTold(Take(w, s).sends, t) == TimesTold(w.sends, t)
    ensures i < |Take(w, s).log| && Take(w, s).log[i] == w.log[i]
  {
    hide Advance, LeastUsed, Merged, Guard, Apply, RowsKept, Held, Disjoint, Inv;
    if s.Run? && w.txns[s.t].pc.SendOut? {
      NoSendAfterDispatch(db0, w, s.t, i);
      var touch := w.txns[s.t].origin.touch;
      assert (w.sends + [touch])[..|w.sends|] == w.sends;
    }
  }

  /** In every run: once a touch's dispatch has committed, the provider hears of it no more. */
  lemma {:induction false} NothingToldAfterDispatch(db0: Db, now: Time, ws: seq<World>, steps: seq<Step>,
                                                    m: nat, n: nat, t: Id, i: nat)
    requires IsRun(db0, now, ws, steps) && m <= n < |ws| && i < |ws[m].log| && Dispatches(ws[m].log[i], t)
    ensures TimesTold(ws[n].sends, t) == TimesTold(ws[m].sends, t) > 0
    ensures i < |ws[n].log| && ws[n].log[i] == ws[m].log[i]
    decreases n
  {
    hide Enabled, Take;
    if m < n {
      NothingToldAfterDispatch(db0, now, ws, steps, m, n - 1, t, i);
      EveryRunIsAHistory(db0, now, ws, steps, n - 1);
      hide Inv;
      StepTellsNoDispatched(db0, ws[n - 1], steps[n - 1], t, i);
    } else {
      DispatchedWasTold(db0, now, ws, steps, m);
      ToldIsCounted(ws[m].sends, t);
    }
  }

  lemma {:induction false} ToldIsCounted(sends: seq<Id>, t: Id)
    requires t in sends
    ensures TimesTold(sends, t) > 0
  {
    if sends[|sends| - 1] != t { ToldIsCounted(sends[..|sends| - 1], t); }
  }
}
