/** The rebalance scan: from cohort outcomes to filed proposals. */
module Rebalance {
  import opened Options
  import opened Discovery
  import opened Proposals

  /** A configured cohort, with its floors and its outcome if it has them. */
  datatype Cohort = Cohort(id: string, floors: Option<Floors>, outcome: Option<Counts>)

  function RateOf(c: Cohort): real {
    match c.outcome case Some(o) => Rate(o.converted, o.contacted) case None => 0.0
  }

  /** `best` has the highest conversion rate of the cohorts with an outcome. */
  ghost predicate IsBest(cohorts: seq<Cohort>, best: Option<Cohort>) {
    && (best.None? ==> forall c | c in cohorts :: c.outcome.None?)
    && (best.Some? ==> best.value in cohorts && best.value.outcome.Some?)
    && (best.Some? ==> forall c | c in cohorts && c.outcome.Some? :: RateOf(c) <= RateOf(best.value))
  }

  /** The first cohort with the highest conversion rate. */
  method Best(cohorts: seq<Cohort>) returns (best: Option<Cohort>)
    ensures IsBest(cohorts, best)
  {
    best := None;
    for i := 0 to |cohorts|
      invariant IsBest(cohorts[..i], best)
    {
      var c := cohorts[i];
      assert cohorts[..i + 1] == cohorts[..i] + [c];
      if c.outcome.Some? && (best.None? || RateOf(best.value) < RateOf(c)) {
        best := Some(c);
      }
    }
    assert cohorts[..|cohorts|] == cohorts;
  }

  function CapOf(caps: Caps, cohort: string): nat { if cohort in caps && caps[cohort] >= 0 then caps[cohort] else 0 }

  /** What is proposed for a flagged cohort: half its cap for a strictly better one, else a pause. */
  function ActionFor(c: Cohort, best: Option<Cohort>, caps: Caps): Payload {
    if best.Some? && best.value.id != c.id && RateOf(best.value) > RateOf(c)
    then Shift(c.id, best.value.id, RebalanceAmount(CapOf(caps, c.id)))
    else Pause(c.id)
  }

  function KeyOf(c: Cohort): string { "rebalance:" + c.id }

  function VerdictOn(sqrt: real -> real, c: Cohort): Verdict {
    if c.floors.None? || c.outcome.None? then Quiet else Finding(sqrt, c.floors.value, c.outcome.value)
  }

  /** The row the scan files for a cohort, where nothing stands against it. */
  function RowFor(tenant: string, c: Cohort, best: Option<Cohort>, caps: Caps, now: Time): Row {
    Row(tenant, KeyOf(c), Kind.Rebalance, ActionFor(c, best, caps), now, Open)
  }

  ghost predicate FiledFor(sqrt: real -> real, tenant: string, cohorts: seq<Cohort>, best: Option<Cohort>,
                           caps: Caps, now: Time, row: Row)
  {
    exists c :: c in cohorts && VerdictOn(sqrt, c).Flagged? && row == RowFor(tenant, c, best, caps, now)
  }

  /** Every row filed behind the first `n` is a flagged cohort's. */
  ghost predicate FiledByScan(sqrt: real -> real, tenant: string, cohorts: seq<Cohort>, best: Option<Cohort>,
                              caps: Caps, now: Time, rows: seq<Row>, n: nat)
    requires n <= |rows|
  {
    forall i | n <= i < |rows| :: FiledFor(sqrt, tenant, cohorts, best, caps, now, rows[i])
  }

  /** Every flagged cohort has an open proposal or one declined lately. */
  ghost predicate Answered(rows: seq<Row>, tenant: string, c: Cohort, now: Time) {
    exists i :: 0 <= i < |rows| && Blocks(rows[i], tenant, KeyOf(c), now)
  }

  /** Files a proposal for each flagged cohort; `known` are all cohorts with an outcome.  A failing bound ends the scan and rolls it back. */
  method RebalanceScan(sqrt: real -> real, store: Store, tenant: string, known: seq<Cohort>, cohorts: seq<Cohort>, now: Time)
    returns (ok: bool, recorded: seq<nat>, ghost best: Option<Cohort>)
    requires Orderly(store.rows)
    modifies store`rows
    ensures Orderly(store.rows) && IsBest(known, best)
    ensures ok <==> forall c | c in cohorts :: !VerdictOn(sqrt, c).Failed?
    ensures !ok ==> store.rows == old(store.rows)
    ensures ok ==> old(store.rows) <= store.rows
    ensures ok ==> FiledByScan(sqrt, tenant, cohorts, best, store.caps, now, store.rows, |old(store.rows)|)
    ensures ok ==> forall c | c in cohorts && VerdictOn(sqrt, c).Flagged? :: Answered(store.rows, tenant, c, now)
    ensures ok ==> |recorded| == |store.rows| - |old(store.rows)|
    ensures ok ==> forall i | 0 <= i < |recorded| :: recorded[i] == |old(store.rows)| + i
  {
    hide Orderly, VerdictOn, ActionFor, IsBest;
    var strongest := Best(known);
    best := strongest;
    recorded := [];
    var saved := store.rows;
    for n := 0 to |cohorts|
      invariant Orderly(store.rows) && saved <= store.rows && saved == old(store.rows)
      invariant forall c | c in cohorts[..n] :: !VerdictOn(sqrt, c).Failed?
      invariant FiledByScan(sqrt, tenant, cohorts, best, store.caps, now, store.rows, |saved|)
      invariant forall c | c in cohorts[..n] && VerdictOn(sqrt, c).Flagged? :: Answered(store.rows, tenant, c, now)
      invariant |recorded| == |store.rows| - |saved|
      invariant forall i | 0 <= i < |recorded| :: recorded[i] == |saved| + i
    {
      var c := cohorts[n];
      assert cohorts[..n + 1] == cohorts[..n] + [c];
      var verdict := VerdictOn(sqrt, c);
      if verdict.Failed? {
        store.rows := saved;
        return false, [], best;
      }
      if verdict.Flagged? {
        ghost var before := store.rows;
        var action := ActionFor(c, strongest, store.caps);
        var id := store.Propose(tenant, KeyOf(c), Kind.Rebalance, action, now);
        if id.Some? {
          recorded := recorded + [id.value];
          assert store.rows[|before|] == RowFor(tenant, c, best, store.caps, now);
          assert Blocks(store.rows[|before|], tenant, KeyOf(c), now);
        }
        StayAnswered(before, store.rows, tenant, now);
      }
    }
    assert cohorts[..|cohorts|] == cohorts;
    ok := true;
  }

  lemma StayAnswered(before: seq<Row>, after: seq<Row>, tenant: string, now: Time)
    requires before <= after
    ensures forall c: Cohort | Answered(before, tenant, c, now) :: Answered(after, tenant, c, now)
  {
    forall c: Cohort | Answered(before, tenant, c, now) ensures Answered(after, tenant, c, now) {
      var i :| 0 <= i < |before| && Blocks(before[i], tenant, KeyOf(c), now);
      assert after[i] == before[i];
    }
  }

  /** No proposal is filed against a cohort whose rates meet its floors. */
  lemma OnlyWeakCohortsAreFiled(sqrt: real -> real, tenant: string, cohorts: seq<Cohort>, best: Option<Cohort>,
                                caps: Caps, now: Time, rows: seq<Row>, n: nat, i: nat) returns (c: Cohort)
    requires IsSquareRoot(sqrt) && n <= i < |rows| && FiledByScan(sqrt, tenant, cohorts, best, caps, now, rows, n)
    requires forall d | d in cohorts && d.outcome.Some? :: d.outcome.value.converted <= d.outcome.value.contacted
    ensures c in cohorts && rows[i] == RowFor(tenant, c, best, caps, now)
    ensures c.floors.Some? && c.outcome.Some?
    ensures !(MeetsFloor(c.floors.value.conversion, c.outcome.value.converted, c.outcome.value.contacted)
              && MeetsFloor(c.floors.value.reply, c.outcome.value.replies, c.outcome.value.contacted))
  {
    assert FiledFor(sqrt, tenant, cohorts, best, caps, now, rows[i]);
    c :| c in cohorts && VerdictOn(sqrt, c).Flagged? && rows[i] == RowFor(tenant, c, best, caps, now);
    hide Finding, MeetsFloor;
    GoodCohort(sqrt, c);
  }

  lemma GoodCohort(sqrt: real -> real, c: Cohort)
    requires IsSquareRoot(sqrt) && VerdictOn(sqrt, c).Flagged? && c.outcome.value.converted <= c.outcome.value.contacted
    ensures c.floors.Some? && c.outcome.Some?
    ensures !(MeetsFloor(c.floors.value.conversion, c.outcome.value.converted, c.outcome.value.contacted)
              && MeetsFloor(c.floors.value.reply, c.outcome.value.replies, c.outcome.value.contacted))
  {
    hide Finding, MeetsFloor;
    if MeetsFloor(c.floors.value.conversion, c.outcome.value.converted, c.outcome.value.contacted)
       && MeetsFloor(c.floors.value.reply, c.outcome.value.replies, c.outcome.value.contacted) {
      GoodCohortIsNotFlagged(sqrt, c.floors.value, c.outcome.value);
    }
  }

  /** A shift the scan files, approved while the caps are unchanged, keeps the cap total unless
      the flagged cohort's cap is zero; a pause never raises it. */
  lemma FiledShiftKeepsTotal(c: Cohort, best: Option<Cohort>, caps: Caps, cohorts: seq<string>)
    requires Rows(caps, cohorts) && c.id in caps && (best.Some? ==> best.value.id in caps)
    ensures var after := Applied(caps, Kind.Rebalance, ActionFor(c, best, caps));
      && after.Some?
      && (ActionFor(c, best, caps).Shift? ==>
            Total(after.value, cohorts) == Total(caps, cohorts) + (if caps[c.id] == 0 then 1 else 0))
      && (ActionFor(c, best, caps).Pause? ==> Total(after.value, cohorts) == Total(caps, cohorts) - caps[c.id])
  {
    if ActionFor(c, best, caps).Shift? {
      ProposedAmounts(caps, cohorts, c.id, best.value.id);
    } else {
      RecapMovesTotal(caps, cohorts, c.id, -caps[c.id]);
    }
  }

  // ---------------------------------------------------------------- what is filed

  /** Which cohorts the scan flags: those with floors and an outcome one of whose floors is out of reach. */
  lemma FlaggedCohorts(sqrt: real -> real, c: Cohort)
    requires IsSquareRoot(sqrt)
    requires c.outcome.Some? ==> c.outcome.value.converted <= c.outcome.value.contacted && c.outcome.value.replies <= c.outcome.value.contacted
    ensures VerdictOn(sqrt, c).Flagged? <==>
      && c.floors.Some? && c.outcome.Some? && c.outcome.value.contacted >= c.floors.value.minTrials
      && (OutOfReach(c.floors.value.conversion, c.outcome.value.converted, c.outcome.value.contacted)
          || OutOfReach(c.floors.value.reply, c.outcome.value.replies, c.outcome.value.contacted))
  {
    hide Finding, OutOfReach;
    if c.floors.Some? && c.outcome.Some? { FlaggedExactly(sqrt, c.floors.value, c.outcome.value); }
  }

  ghost predicate Better(a: Cohort, b: Cohort) {
    a.outcome.Some? && b.outcome.Some?
    && Rate(a.outcome.value.converted, a.outcome.value.contacted) > Rate(b.outcome.value.converted, b.outcome.value.contacted)
  }

  /** What is filed against a cohort: a shift of half its cap, if there is a cohort that converts
      better, to one that none converts better than; otherwise a pause. */
  lemma FiledExactly(tenant: string, c: Cohort, known: seq<Cohort>, best: Option<Cohort>, caps: Caps, now: Time)
    requires IsBest(known, best) && c in known && c.outcome.Some?
    requires forall a, b | a in known && b in known && a.id == b.id :: a == b
    ensures var row := RowFor(tenant, c, best, caps, now);
      && row.tenant == tenant && row.key == "rebalance:" + c.id && row.kind.Rebalance? && row.filed == now && row.status.Open?
      && (row.payload.Shift? <==> exists d :: d in known && Better(d, c))
      && (row.payload.Pause? <==> !row.payload.Shift?)
      && (row.payload.Pause? ==> row.payload.cohort == c.id)
      && (row.payload.Shift? ==>
            && row.payload.source == c.id
            && (exists d :: d in known && d.id == row.payload.target && Better(d, c) && forall e | e in known :: !Better(e, d))
            && row.payload.amount == if c.id in caps && caps[c.id] >= 2 then caps[c.id] / 2 else 1)
  {
    hide Rate;
    if best.Some? && Better(best.value, c) {
      assert best.value in known && forall e | e in known :: !Better(e, best.value);
    }
  }
}
