/** What every committed history keeps about the volume budgets, the annual touch ceiling,
    trials and dispatches: each is a counter that moved exactly once per event charged to it. */
module Budgets {
  import opened Options
  import opened Tables
  import opened Ledger

  function Total(log: seq<Event>, weight: Event -> nat): nat {
    if |log| == 0 then 0 else Total(log[..|log| - 1], weight) + weight(log[|log| - 1])
  }

  /** A quantity that every single event moves by its weight is, after any history, its
      first value plus the total weight. */
  lemma {:induction false} Accumulates(db0: Db, log: seq<Event>, value: Db -> nat, weight: Event -> nat)
    requires Valid(db0, log)
    requires forall db, e :: Guard(db, e) ==> value(Apply(db, e)) == value(db) + weight(e)
    ensures value(Replay(db0, log)) == value(db0) + Total(log, weight)
  {
    hide Guard, Apply;
    if |log| > 0 {
      Accumulates(db0, log[..|log| - 1], value, weight);
      assert Guard(Replay(db0, log[..|log| - 1]), log[|log| - 1]);
    }
  }

  // ---- volume budgets ----------------------------------------------------------

  function Used(db: Db, k: CounterKey): nat { if k in db.counters then db.counters[k].used else 0 }

  /** A cold or follow-up claim costs its tenant month and its cohort month one each; every
      claim, and every confidence refusal, costs its mailbox day one. */
  function Charge(e: Event, k: CounterKey): nat {
    match e
    case Dispatch(s) => if k == BoxKey(s) || (Contact(s) && (k == TenantKey(s) || k == CohortKey(s))) then 1 else 0
    case Release(_, _, spent, _) => if spent == Some(k) then 1 else 0
    case _ => 0
  }

  lemma DispatchCharges(db: Db, s: Send, k: CounterKey)
    requires SendAllowed(db, s)
    ensures Used(AfterDispatch(db, s), k) == Used(db, k) + Charge(Dispatch(s), k)
    ensures k in db.counters ==> k in AfterDispatch(db, s).counters && AfterDispatch(db, s).counters[k].cap == db.counters[k].cap
    ensures k in db.counters && Charge(Dispatch(s), k) > 0 ==> HasRoom(db.counters, k)
  {
    hide PlanAfter, AfterContact, Planned, Tried, FrequencyOk, ContinuationOk;
  }

  lemma OtherCharges(db: Db, e: Event, k: CounterKey)
    requires Guard(db, e) && !e.Dispatch?
    ensures Used(Apply(db, e), k) == Used(db, k) + Charge(e, k)
    ensures k in db.counters && (e.Recap? ==> e.key != k) ==>
              k in Apply(db, e).counters && Apply(db, e).counters[k].cap == db.counters[k].cap
    ensures k in db.counters && Charge(e, k) > 0 ==> HasRoom(db.counters, k)
  {
    hide AfterDispatch, Freed, SendAllowed;
  }

  lemma EventCharges(db: Db, e: Event, k: CounterKey)
    requires Guard(db, e)
    ensures Used(Apply(db, e), k) == Used(db, k) + Charge(e, k)
    ensures k in db.counters && (e.Recap? ==> e.key != k) ==>
              k in Apply(db, e).counters && Apply(db, e).counters[k].cap == db.counters[k].cap
    ensures k in db.counters && Charge(e, k) > 0 ==> HasRoom(db.counters, k)
  {
    hide AfterDispatch, SendAllowed, Charge, HasRoom;
    match e {
      case Dispatch(s) => assert SendAllowed(db, s); DispatchCharges(db, s, k);
      case _ => hide Guard, Apply; OtherCharges(db, e, k);
    }
  }

  /** Conservation: in every history, whatever was rolled back, retried or refused in
      between, a counter has moved by exactly the number of events charged to it. */
  lemma CountersAreConserved(db0: Db, log: seq<Event>, k: CounterKey)
    requires Valid(db0, log)
    ensures Used(Replay(db0, log), k) == Used(db0, k) + Total(log, e => Charge(e, k))
  {
    forall db, e | Guard(db, e) ensures Used(Apply(db, e), k) == Used(db, k) + Charge(e, k) {
      EventCharges(db, e, k);
    }
    Accumulates(db0, log, db => Used(db, k), e => Charge(e, k));
  }

  /** While nobody rewrites the cap, a budget is never exceeded: of any number of racing
      claims, only as many commit as the budget had room for. */
  lemma {:induction false} BudgetHolds(db0: Db, log: seq<Event>, k: CounterKey)
    requires Valid(db0, log) && k in db0.counters && db0.counters[k].used <= db0.counters[k].cap
    requires forall i :: 0 <= i < |log| && log[i].Recap? ==> log[i].key != k
    ensures k in Replay(db0, log).counters
    ensures Replay(db0, log).counters[k].cap == db0.counters[k].cap
    ensures Used(Replay(db0, log), k) <= db0.counters[k].cap
    ensures Total(log, e => Charge(e, k)) <= db0.counters[k].cap - db0.counters[k].used
  {
    hide Guard, Apply;
    if |log| > 0 {
      var past, last := log[..|log| - 1], log[|log| - 1];
      BudgetHolds(db0, past, k);
      EventCharges(Replay(db0, past), last, k);
    }
    CountersAreConserved(db0, log, k);
  }

  /** Even under cap changes, a counter that exists grows only from below its cap. */
  lemma GrowsOnlyBelowCap(db0: Db, log: seq<Event>, n: nat, k: CounterKey)
    requires Valid(db0, log) && n < |log| && k in Replay(db0, log[..n]).counters
    requires Used(Replay(db0, log[..n]), k) < Used(Replay(db0, log[..n + 1]), k)
    ensures HasRoom(Replay(db0, log[..n]).counters, k)
  {
    hide Guard, Apply, Valid;
    StepAt(db0, log, n);
    EventCharges(Replay(db0, log[..n]), log[n], k);
  }

  // ---- the tenant budget is the sum of its cohorts' ------------------------------

  function CohortTotal(db: Db, cohorts: seq<string>, month: int): nat {
    if |cohorts| == 0 then 0
    else CohortTotal(db, cohorts[..|cohorts| - 1], month) + Used(db, CohortMonth(cohorts[|cohorts| - 1], month))
  }

  /** The cohorts listed are exactly the ones this tenant's claims of the month use. */
  ghost predicate Covers(log: seq<Event>, tenant: string, cohorts: seq<string>, month: int) {
    && (forall i, j :: 0 <= i < j < |cohorts| ==> cohorts[i] != cohorts[j])
    && (forall i :: 0 <= i < |log| && log[i].Dispatch? && Contact(log[i].send) && log[i].send.month == month ==>
          (log[i].send.who.tenant == tenant <==> log[i].send.who.cohort in cohorts))
  }

  lemma {:induction false} CohortsMove(a: Db, e: Event, cohorts: seq<string>, month: int)
    requires Guard(a, e)
    requires forall i, j :: 0 <= i < j < |cohorts| ==> cohorts[i] != cohorts[j]
    ensures CohortTotal(Apply(a, e), cohorts, month) ==
            CohortTotal(a, cohorts, month) +
            (if e.Dispatch? && Contact(e.send) && e.send.month == month && e.send.who.cohort in cohorts then 1 else 0)
  {
    hide Guard, Apply;
    if |cohorts| > 0 {
      var front, c := cohorts[..|cohorts| - 1], cohorts[|cohorts| - 1];
      CohortsMove(a, e, front, month);
      EventCharges(a, e, CohortMonth(c, month));
      SpentIsMailbox(a, e);
      assert cohorts == front + [c];
    }
  }

  lemma SpentIsMailbox(db: Db, e: Event)
    requires Guard(db, e)
    ensures e.Release? && e.spent.Some? ==> e.spent.value.MailboxDay?
  {
  }

  /** The tenant's month grows with the sum over its cohorts' months, one for one, over any
      history in which those cohorts belong to that tenant. */
  lemma {:induction false} TenantIsSumOfCohorts(db0: Db, log: seq<Event>, tenant: string, cohorts: seq<string>, month: int)
    requires Valid(db0, log) && Covers(log, tenant, cohorts, month)
    ensures Used(Replay(db0, log), TenantMonth(tenant, month)) - Used(db0, TenantMonth(tenant, month))
         == CohortTotal(Replay(db0, log), cohorts, month) - CohortTotal(db0, cohorts, month)
  {
    hide Guard, Apply, Used, CohortTotal;
    if |log| > 0 {
      var past, last := log[..|log| - 1], log[|log| - 1];
      assert Covers(past, tenant, cohorts, month);
      TenantIsSumOfCohorts(db0, past, tenant, cohorts, month);
      CohortsMove(Replay(db0, past), last, cohorts, month);
      EventCharges(Replay(db0, past), last, TenantMonth(tenant, month));
      SpentIsMailbox(Replay(db0, past), last);
    }
  }

  // ---- the annual ceiling ----------------------------------------------------------

  function Touches(db: Db, e: Id): nat { if e in db.entities then db.entities[e].touches12mo else 0 }

  predicate ClaimsOn(e: Event, entity: Id) { e.Dispatch? && Contact(e.send) && e.send.who.entity == entity }

  /** Marks a human task on the entity as done. */
  predicate DoneOn(db: Db, e: Event, entity: Id) {
    && e.Resolve? && e.done && e.task in db.tasks && db.tasks[e.task].prospect in db.prospects
    && db.prospects[db.tasks[e.task].prospect].entity == entity
  }

  ghost function TasksDone(db0: Db, log: seq<Event>, entity: Id): nat {
    if |log| == 0 then 0
    else
      var past := log[..|log| - 1];
      TasksDone(db0, past, entity) + (if DoneOn(Replay(db0, past), log[|log| - 1], entity) then 1 else 0)
  }

  lemma EventTouches(db: Db, e: Event, entity: Id)
    requires Guard(db, e)
    ensures Touches(Apply(db, e), entity) == Touches(db, entity) +
            (if ClaimsOn(e, entity) then 1 else 0) + (if DoneOn(db, e, entity) then 1 else 0)
    ensures ClaimsOn(e, entity) ==> Touches(db, entity) < ANNUAL_TOUCH_CAP
  {
    hide Charged, PlanAfter, Planned, Tried, HasRoom, Suppressed;
  }

  /** An entity's touch count is its claims plus its done human tasks, and is never reset: over
      its whole life cold and follow-up claims number at most the annual cap. */
  lemma {:induction false} ClaimsNeverExceedAnnualCap(db0: Db, log: seq<Event>, entity: Id)
    requires Valid(db0, log)
    ensures Touches(Replay(db0, log), entity)
         == Touches(db0, entity) + Total(log, e => if ClaimsOn(e, entity) then 1 else 0) + TasksDone(db0, log, entity)
    ensures Total(log, e => if ClaimsOn(e, entity) then 1 else 0) == 0
         || Touches(db0, entity) + Total(log, e => if ClaimsOn(e, entity) then 1 else 0) <= ANNUAL_TOUCH_CAP
  {
    hide Guard, Apply;
    if |log| > 0 {
      var past, last := log[..|log| - 1], log[|log| - 1];
      ClaimsNeverExceedAnnualCap(db0, past, entity);
      EventTouches(Replay(db0, past), last, entity);
      var w := e => if ClaimsOn(e, entity) then 1 else 0;
      assert Total(log, w) == Total(past, w) + w(last);
    }
  }

  // ---- trials ------------------------------------------------------------------------

  function Trials(db: Db, tenant: string, variant: string): nat {
    if (tenant, variant) in db.trials then db.trials[(tenant, variant)] else 0
  }

  predicate Tries(e: Event, tenant: string, variant: string) {
    e.Dispatch? && e.send.who.tenant == tenant && e.send.row.variant == Some(variant)
  }

  lemma EventTrials(db: Db, e: Event, tenant: string, variant: string)
    requires Guard(db, e)
    ensures Trials(Apply(db, e), tenant, variant) ==
            Trials(db, tenant, variant) + (if Tries(e, tenant, variant) then 1 else 0)
  {
    hide Charged, PlanAfter, AfterContact, Planned, Freed, HasRoom, FrequencyOk, ContinuationOk;
  }

  /** A variant's trial count is the number of its committed dispatches. */
  lemma TrialsCountDispatches(db0: Db, log: seq<Event>, tenant: string, variant: string)
    requires Valid(db0, log)
    ensures Trials(Replay(db0, log), tenant, variant)
         == Trials(db0, tenant, variant) + Total(log, e => if Tries(e, tenant, variant) then 1 else 0)
  {
    forall db, e | Guard(db, e)
      ensures Trials(Apply(db, e), tenant, variant) == Trials(db, tenant, variant) + (if Tries(e, tenant, variant) then 1 else 0)
    {
      EventTrials(db, e, tenant, variant);
    }
    Accumulates(db0, log, db => Trials(db, tenant, variant), e => if Tries(e, tenant, variant) then 1 else 0);
  }

  // ---- at most once ---------------------------------------------------------------------

  /** How far a touch has come: held, drafted, or past any further claim. */
  function Stage(db: Db, t: Id): nat {
    if t !in db.touches then 0
    else match db.touches[t].status
      case PendingReview => 1
      case Drafted => 2
      case _ => 3
  }

  predicate Dispatches(e: Event, t: Id) { e.Dispatch? && e.send.touch == t }

  lemma EventStage(db: Db, e: Event, t: Id)
    requires Guard(db, e)
    ensures Stage(db, t) <= Stage(Apply(db, e), t)
    ensures Dispatches(e, t) ==> Stage(db, t) == 2 && Stage(Apply(db, e), t) == 3
  {
    hide Charged, PlanAfter, AfterContact, Planned, Tried, Freed, HasRoom, FrequencyOk, ContinuationOk;
  }

  /** Under any redelivery, crash or duplicate worker, a touch is dispatched at most once. */
  lemma {:induction false} DispatchedAtMostOnce(db0: Db, log: seq<Event>, t: Id)
    requires Valid(db0, log)
    ensures Total(log, e => if Dispatches(e, t) then 1 else 0) <= 1
    ensures Total(log, e => if Dispatches(e, t) then 1 else 0) == 1 ==> Stage(Replay(db0, log), t) == 3 && Stage(db0, t) < 3
    ensures Stage(db0, t) <= Stage(Replay(db0, log), t)
  {
    hide Guard, Apply, Stage;
    if |log| > 0 {
      var past, last := log[..|log| - 1], log[|log| - 1];
      DispatchedAtMostOnce(db0, past, t);
      EventStage(Replay(db0, past), last, t);
      StageBound(Apply(Replay(db0, past), last), t);
      var w := e => if Dispatches(e, t) then 1 else 0;
      assert Total(log, w) == Total(past, w) + w(last);
    }
  }

  lemma StageBound(db: Db, t: Id)
    ensures Stage(db, t) <= 3
  {
  }
}
