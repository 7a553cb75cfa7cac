/** Frequency governance over whole histories: one active sequence per entity, the gap
    between campaigns, and the pacing of follow-ups. */
module Sequences {
  import opened Options
  import opened Tables
  import opened Ledger
  import opened Budgets

  // ---- one active sequence per entity ---------------------------------------------

  /** This event ends prospect p's sequence: its own release, or the dispatch of its last step. */
  predicate Ends(e: Event, p: Id) {
    match e
    case EndSequence(q) => q == p
    case Dispatch(s) => s.row.prospect == p && PlanAfter(s.drip, s.row).DripDone?
    case _ => false
  }

  predicate Owned(db: Db, entity: Id, p: Id) {
    entity in db.entities && OwnsSequence(db.touches, db.entities[entity], p)
  }

  lemma OwnershipPersists(db: Db, e: Event, entity: Id, p: Id)
    requires Guard(db, e) && Owned(db, entity, p)
    requires !Ends(e, p)
    ensures Owned(Apply(db, e), entity, p)
    ensures ClaimsOn(e, entity) ==> ProfileOf(e.send.row.kind) == FOLLOWUP && e.send.row.prospect == p
  {
    hide Charged, PlanAfter, Planned, Tried, HasRoom;
  }

  lemma OpenerTakesOwnership(db: Db, s: Send)
    requires SendAllowed(db, s) && Contact(s) && !PlanAfter(s.drip, s.row).DripDone?
    ensures Owned(AfterDispatch(db, s), s.who.entity, s.row.prospect)
  {
    hide Charged, PlanAfter, Planned, Tried, HasRoom;
  }

  lemma {:induction false} OwnedSince(db0: Db, log: seq<Event>, i: nat, j: nat, entity: Id, p: Id)
    requires Valid(db0, log) && i < j <= |log|
    requires ClaimsOn(log[i], entity) && log[i].send.row.prospect == p
    requires forall k :: i <= k < j ==> !Ends(log[k], p)
    ensures Owned(Replay(db0, log[..j]), entity, p)
    decreases j
  {
    hide Guard, Apply, Valid, Owned, Ends;
    StepAt(db0, log, j - 1);
    HistoryContinues(db0, log, 0, j - 1);
    assert log[..0] == [];
    if j - 1 == i {
      Opens(Replay(db0, log[..i]), log[i], entity, p);
    } else {
      OwnedSince(db0, log, i, j - 1, entity, p);
      OwnershipPersists(Replay(db0, log[..j - 1]), log[j - 1], entity, p);
    }
  }

  lemma Opens(db: Db, e: Event, entity: Id, p: Id)
    requires Guard(db, e) && ClaimsOn(e, entity) && e.send.row.prospect == p && !Ends(e, p)
    ensures Owned(Apply(db, e), entity, p)
  {
    hide SendAllowed;
    assert SendAllowed(db, e.send);
    OpenerTakesOwnership(db, e.send);
  }

  /** From a claim for prospect p until p's own sequence ends, every further claim on that
      entity is a follow-up of p: never a second opener, never another prospect. */
  lemma OneActiveSequence(db0: Db, log: seq<Event>, i: nat, j: nat)
    requires Valid(db0, log) && i < j < |log|
    requires log[i].Dispatch? && Contact(log[i].send) && ClaimsOn(log[j], log[i].send.who.entity)
    requires forall k :: i <= k < j ==> !Ends(log[k], log[i].send.row.prospect)
    ensures log[j].send.row.prospect == log[i].send.row.prospect
    ensures ProfileOf(log[j].send.row.kind) == FOLLOWUP
  {
    hide Guard, Apply, Valid, Owned, Ends;
    var entity, p := log[i].send.who.entity, log[i].send.row.prospect;
    OwnedSince(db0, log, i, j, entity, p);
    StepAt(db0, log, j);
    FollowsOwner(Replay(db0, log[..j]), log[j], entity, p);
  }

  lemma FollowsOwner(db: Db, e: Event, entity: Id, p: Id)
    requires Guard(db, e) && Owned(db, entity, p) && ClaimsOn(e, entity)
    ensures e.send.row.prospect == p && ProfileOf(e.send.row.kind) == FOLLOWUP
  {
    hide HasRoom;
  }

  // ---- the gap between campaigns ------------------------------------------------------

  /** The stamp this event writes as the entity's last contact, if it is one. */
  function ContactStamp(db: Db, e: Event, entity: Id): Option<Time> {
    match e
    case Dispatch(s) => if Contact(s) && s.who.entity == entity then Some(s.began) else None
    case Resolve(k, done, stamp) =>
      if done && k in db.tasks && db.tasks[k].prospect in db.prospects
         && db.prospects[db.tasks[k].prospect].entity == entity then Some(stamp) else None
    case _ => None
  }

  function LastContact(db: Db, entity: Id): Option<Time> {
    if entity in db.entities then db.entities[entity].lastContact else None
  }

  lemma EventStamps(db: Db, e: Event, entity: Id)
    requires Guard(db, e)
    ensures LastContact(Apply(db, e), entity) ==
            if ContactStamp(db, e, entity).Some? then ContactStamp(db, e, entity) else LastContact(db, entity)
    ensures ClaimsOn(e, entity) && ProfileOf(e.send.row.kind) == COLD && LastContact(db, entity).Some? ==>
              e.send.clock - LastContact(db, entity).value >= MIN_CAMPAIGN_GAP_DAYS * SECONDS_PER_DAY
  {
    hide Charged, PlanAfter, Planned, Tried, HasRoom;
  }

  lemma {:induction false} StampStays(db0: Db, log: seq<Event>, i: nat, j: nat, entity: Id)
    requires Valid(db0, log) && i < j <= |log|
    requires ContactStamp(Replay(db0, log[..i]), log[i], entity).Some?
    requires forall k :: i < k < j ==> ContactStamp(Replay(db0, log[..k]), log[k], entity).None?
    ensures LastContact(Replay(db0, log[..j]), entity) == ContactStamp(Replay(db0, log[..i]), log[i], entity)
    decreases j
  {
    hide Guard, Apply, Valid;
    StepAt(db0, log, j - 1);
    EventStamps(Replay(db0, log[..j - 1]), log[j - 1], entity);
    if i < j - 1 {
      StampStays(db0, log, i, j - 1, entity);
    }
  }

  /** An opener goes out only ninety days after the contact before it on the same entity,
      whether that was an e-mail of any campaign or a completed human task. */
  lemma OpenersKeepTheirDistance(db0: Db, log: seq<Event>, i: nat, j: nat, entity: Id)
    requires Valid(db0, log) && i < j < |log|
    requires ClaimsOn(log[j], entity) && ProfileOf(log[j].send.row.kind) == COLD
    requires ContactStamp(Replay(db0, log[..i]), log[i], entity).Some?
    requires forall k :: i < k < j ==> ContactStamp(Replay(db0, log[..k]), log[k], entity).None?
    ensures log[j].send.clock - ContactStamp(Replay(db0, log[..i]), log[i], entity).value
            >= MIN_CAMPAIGN_GAP_DAYS * SECONDS_PER_DAY
  {
    hide Guard, Apply, Valid;
    StampStays(db0, log, i, j, entity);
    StepAt(db0, log, j);
    EventStamps(Replay(db0, log[..j]), log[j], entity);
  }

  lemma LastStampBefore(db0: Db, log: seq<Event>, i: nat, j: nat, entity: Id) returns (k: nat)
    requires i < j <= |log| && ContactStamp(Replay(db0, log[..i]), log[i], entity).Some?
    ensures i <= k < j && ContactStamp(Replay(db0, log[..k]), log[k], entity).Some?
    ensures forall n :: k < n < j ==> ContactStamp(Replay(db0, log[..n]), log[n], entity).None?
  {
    hide ContactStamp, Replay;
    if ContactStamp(Replay(db0, log[..j - 1]), log[j - 1], entity).Some? {
      k := j - 1;
    } else {
      k := LastStampBefore(db0, log, i, j - 1, entity);
    }
  }

  /** Whatever contacts lie between, an opener keeps the ninety days to every earlier contact,
      less the overlap: a transaction stamps its beginning, so one that waited may put the last
      contact back, by `overlap` at most. */
  lemma OpenersKeepTheirDistanceToAll(db0: Db, log: seq<Event>, i: nat, j: nat, entity: Id, overlap: Time)
    requires Valid(db0, log) && i < j < |log| && overlap >= 0
    requires ClaimsOn(log[j], entity) && ProfileOf(log[j].send.row.kind) == COLD
    requires ContactStamp(Replay(db0, log[..i]), log[i], entity).Some?
    requires forall k :: i < k < j && ContactStamp(Replay(db0, log[..k]), log[k], entity).Some? ==>
      ContactStamp(Replay(db0, log[..k]), log[k], entity).value
        >= ContactStamp(Replay(db0, log[..i]), log[i], entity).value - overlap
    ensures log[j].send.clock - ContactStamp(Replay(db0, log[..i]), log[i], entity).value
            >= MIN_CAMPAIGN_GAP_DAYS * SECONDS_PER_DAY - overlap
  {
    hide Valid, ContactStamp;
    var k := LastStampBefore(db0, log, i, j, entity);
    OpenersKeepTheirDistance(db0, log, k, j, entity);
  }

  // ---- pacing of follow-ups -------------------------------------------------------------

  /** Event i is a dispatch of that step of p whose plan is the next step. */
  predicate Plans(e: Event, p: Id, step: nat) {
    e.Dispatch? && e.send.row.prospect == p && PlanAfter(e.send.drip, e.send.row).NextStep?
    && PlanAfter(e.send.drip, e.send.row).step == step
  }

  function DueBy(e: Event): Time
    requires e.Dispatch?
    requires PlanAfter(e.send.drip, e.send.row).NextStep?
  {
    e.send.began + PlanAfter(e.send.drip, e.send.row).gapDays * SECONDS_PER_DAY
  }

  lemma EventPlans(db: Db, e: Event, p: Id, step: nat)
    requires Guard(db, e)
    ensures (p, step) in Apply(db, e).followups <==> (p, step) in db.followups || Plans(e, p, step)
    ensures (p, step) in db.followups ==> Apply(db, e).followups[(p, step)] == db.followups[(p, step)]
    ensures (p, step) !in db.followups && Plans(e, p, step) ==>
              Apply(db, e).followups[(p, step)] == DueBy(e)
  {
    hide Charged, PlanAfter, AfterContact, Tried, Freed, HasRoom, FrequencyOk, ContinuationOk;
  }

  /** A compose job was planned by the first dispatch of the step before it. */
  lemma {:induction false} JobHasPlanner(db0: Db, log: seq<Event>, p: Id, step: nat) returns (i: nat)
    requires Valid(db0, log) && (p, step) !in db0.followups && (p, step) in Replay(db0, log).followups
    ensures i < |log| && Plans(log[i], p, step)
    ensures forall k :: 0 <= k < i ==> !Plans(log[k], p, step)
    ensures Replay(db0, log).followups[(p, step)] == DueBy(log[i])
  {
    hide Guard, Apply, Plans;
    var past, last := log[..|log| - 1], log[|log| - 1];
    HistoryContinues(db0, log, 0, |log| - 1);
    assert log[..0] == [];
    EventPlans(Replay(db0, past), last, p, step);
    if (p, step) in Replay(db0, past).followups {
      i := JobHasPlanner(db0, past, p, step);
      assert forall k :: 0 <= k < |past| ==> past[k] == log[k];
    } else {
      i := |log| - 1;
      NoPlannerYet(db0, past, p, step);
      assert forall k :: 0 <= k < |past| ==> past[k] == log[k];
    }
  }

  lemma {:induction false} NoPlannerYet(db0: Db, log: seq<Event>, p: Id, step: nat)
    requires Valid(db0, log) && (p, step) !in Replay(db0, log).followups
    ensures forall k :: 0 <= k < |log| ==> !Plans(log[k], p, step)
  {
    hide Guard, Apply, Plans;
    if |log| > 0 {
      var past := log[..|log| - 1];
      HistoryContinues(db0, log, 0, |log| - 1);
      assert log[..0] == [];
      EventPlans(Replay(db0, past), log[|log| - 1], p, step);
      NoPlannerYet(db0, past, p, step);
      assert forall k :: 0 <= k < |past| ==> past[k] == log[k];
    }
  }

  /** Every follow-up touch was drafted from a planned job, no earlier than its due time. */
  predicate DraftedOnTime(touches: map<Id, Touch>, followups: map<(Id, nat), Time>, t: Id) {
    t in touches && touches[t].kind == Followup ==>
      (touches[t].prospect, touches[t].step) in followups
      && followups[(touches[t].prospect, touches[t].step)] <= touches[t].created
  }

  lemma EventDrafts(db: Db, e: Event, t: Id)
    requires Guard(db, e) && DraftedOnTime(db.touches, db.followups, t)
    ensures DraftedOnTime(Apply(db, e).touches, Apply(db, e).followups, t)
  {
    hide Charged, PlanAfter, AfterContact, Tried, Freed, HasRoom, FrequencyOk, ContinuationOk;
  }

  lemma {:induction false} DraftsAreOnTime(db0: Db, log: seq<Event>, t: Id)
    requires Valid(db0, log) && DraftedOnTime(db0.touches, db0.followups, t)
    ensures DraftedOnTime(Replay(db0, log).touches, Replay(db0, log).followups, t)
  {
    hide Guard, Apply, DraftedOnTime;
    if |log| > 0 {
      DraftsAreOnTime(db0, log[..|log| - 1], t);
      EventDrafts(Replay(db0, log[..|log| - 1]), log[|log| - 1], t);
    }
  }

  /** Each follow-up dispatch comes at least the configured gap, never under three days, after
      the first dispatch of the step before it, and is step three at most. The configuration is
      that of the worker which made that first dispatch; others may have had another. */
  lemma FollowupsKeepTheGap(db0: Db, log: seq<Event>, j: nat) returns (i: nat)
    requires Valid(db0, log) && db0.followups == map[] && db0.touches == map[]
    requires j < |log| && log[j].Dispatch? && log[j].send.row.kind == Followup
    ensures i < j && log[i].Dispatch? && Contact(log[i].send)
    ensures log[i].send.row.prospect == log[j].send.row.prospect && log[i].send.row.step + 1 == log[j].send.row.step
    ensures forall k :: 0 <= k < i ==> !Plans(log[k], log[j].send.row.prospect, log[j].send.row.step)
    ensures var drip := log[i].send.drip;
            && drip.Some? && log[i].send.row.step < |drip.value.gaps|
            && log[j].send.began >= log[i].send.began + drip.value.gaps[log[i].send.row.step] * SECONDS_PER_DAY
            && log[j].send.began >= log[i].send.began + MIN_FOLLOW_UP_GAP_DAYS * SECONDS_PER_DAY
    ensures 1 <= log[j].send.row.step <= MAX_FOLLOW_UPS
  {
    hide Guard, Apply, Valid, HasRoom;
    var row := log[j].send.row;
    StepAt(db0, log, j);
    DraftsAreOnTime(db0, log[..j], log[j].send.touch);
    SentAsDrafted(Replay(db0, log[..j]), log[j]);
    i := JobHasPlanner(db0, log[..j], row.prospect, row.step);
    assert forall k :: 0 <= k < j ==> log[..j][k] == log[k];
    SequencesStayValid(db0, log, i);
    var drip := log[i].send.drip;
    assert drip.value.gaps[log[i].send.row.step] >= MIN_FOLLOW_UP_GAP_DAYS;
  }

  // ---- one dispatch per drafted follow-up --------------------------------------------------

  /** A touch in the table was inserted by exactly one drafting or parking event. */
  lemma {:induction false} TouchHasDraft(db0: Db, log: seq<Event>, t: Id) returns (d: nat)
    requires Valid(db0, log) && t !in db0.touches && t in Replay(db0, log).touches
    ensures d < |log| && (log[d].Draft? || log[d].Park?) && log[d].touch == t
    ensures SameDraft(log[d].row, Replay(db0, log).touches[t])
  {
    hide Guard, Apply;
    var past, last := log[..|log| - 1], log[|log| - 1];
    EventInserts(Replay(db0, past), last, t);
    if t in Replay(db0, past).touches {
      d := TouchHasDraft(db0, past, t);
    } else {
      d := |log| - 1;
    }
  }

  lemma EventInserts(db: Db, e: Event, t: Id)
    requires Guard(db, e) && t in Apply(db, e).touches
    ensures t in db.touches ==> SameDraft(db.touches[t], Apply(db, e).touches[t])
    ensures t !in db.touches ==> (e.Draft? || e.Park?) && e.touch == t && Apply(db, e).touches[t] == e.row
  {
    hide Charged, PlanAfter, AfterContact, Planned, Tried, Freed, HasRoom, FrequencyOk, ContinuationOk;
  }

  /** A follow-up step reaches a prospect twice only if it was drafted twice: two dispatches
      of the same step go back to two different drafting events. */
  lemma RepeatedStepMeansRepeatedDraft(db0: Db, log: seq<Event>, i: nat, j: nat) returns (c: nat, d: nat)
    requires Valid(db0, log) && db0.touches == map[] && i < j < |log|
    requires log[i].Dispatch? && log[j].Dispatch?
    ensures c < i && d < j && c != d
    ensures (log[c].Draft? || log[c].Park?) && SameDraft(log[c].row, log[i].send.row)
    ensures (log[d].Draft? || log[d].Park?) && SameDraft(log[d].row, log[j].send.row)
  {
    hide Guard, Apply, Valid, HasRoom;
    StepAt(db0, log, i);
    StepAt(db0, log, j);
    SentAsDrafted(Replay(db0, log[..i]), log[i]);
    SentAsDrafted(Replay(db0, log[..j]), log[j]);
    c := TouchHasDraft(db0, log[..i], log[i].send.touch);
    d := TouchHasDraft(db0, log[..j], log[j].send.touch);
    NeverTwice(db0, log, i, j);
  }

  /** No compose job is carried out twice: each follow-up step of a prospect is drafted once. */
  ghost predicate DraftedOnce(log: seq<Event>) {
    forall c, d | 0 <= c < d < |log| && log[c].Draft? && log[d].Draft? ::
      !(log[c].row.kind == Followup && log[d].row.kind == Followup
        && log[c].row.prospect == log[d].row.prospect && log[c].row.step == log[d].row.step)
  }

  predicate FollowsUp(e: Event, p: Id, step: nat) {
    e.Dispatch? && e.send.row.kind == Followup && e.send.row.prospect == p && e.send.row.step == step
  }

  lemma ParkIsNoFollowup(db0: Db, log: seq<Event>, d: nat)
    requires Valid(db0, log) && d < |log| && log[d].Park?
    ensures log[d].row.kind == HumanTask
  {
    hide Valid, Replay, Apply;
    StepAt(db0, log, d);
  }

  /** When no compose job is carried out twice, each follow-up step reaches a prospect once. */
  lemma OncePerStep(db0: Db, log: seq<Event>, i: nat, j: nat, p: Id, step: nat)
    requires Valid(db0, log) && db0.touches == map[] && DraftedOnce(log) && i < j < |log|
    requires FollowsUp(log[i], p, step)
    ensures !FollowsUp(log[j], p, step)
  {
    hide Valid;
    if FollowsUp(log[j], p, step) {
      var c, d := RepeatedStepMeansRepeatedDraft(db0, log, i, j);
      if log[c].Park? { ParkIsNoFollowup(db0, log, c); }
      if log[d].Park? { ParkIsNoFollowup(db0, log, d); }
      assert false;
    }
  }

  /** The condition is needed: nothing in the tables keeps a compose job that runs again from
      drafting its step anew. */
  lemma RerunDraftsAgain(db: Db, t: Id, again: Id, row: Touch)
    requires Guard(db, Draft(t, row)) && again != t && again !in db.touches
    ensures Guard(Apply(db, Draft(t, row)), Draft(again, row))
    ensures var both := Apply(Apply(db, Draft(t, row)), Draft(again, row));
      t in both.touches && again in both.touches && both.touches[t] == both.touches[again] == row
  {
  }

  /** And behind the dispatch of one of the two drafts, unless it ended the sequence or reached
      the ceiling, the continuation gate lets the other one pass as well. */
  lemma SecondDraftMayPass(db: Db, s: Send, again: Id)
    requires SendAllowed(db, s) && s.row.kind == Followup && again != s.touch
    requires again in db.touches && db.touches[again] == s.row
    requires !PlanAfter(s.drip, s.row).DripDone? && db.entities[s.who.entity].touches12mo + 1 < ANNUAL_TOUCH_CAP
    ensures var after := AfterDispatch(db, s);
      && ContinuationOk(after.touches, after.entities[s.who.entity], s.row.prospect)
      && again in after.touches && after.touches[again] == s.row
  {
    hide Charged, PlanAfter, Planned, Tried, HasRoom, FrequencyOk;
  }

  lemma {:induction false} StepCountedOnce(db0: Db, log: seq<Event>, n: nat, p: Id, step: nat)
    requires Valid(db0, log) && db0.touches == map[] && DraftedOnce(log) && n <= |log|
    ensures Total(log[..n], e => if FollowsUp(e, p, step) then 1 else 0) <= 1
    ensures Total(log[..n], e => if FollowsUp(e, p, step) then 1 else 0) == 1 ==>
      exists i :: 0 <= i < n && FollowsUp(log[i], p, step)
  {
    hide Valid, DraftedOnce, FollowsUp;
    if n > 0 {
      StepCountedOnce(db0, log, n - 1, p, step);
      var w := e => if FollowsUp(e, p, step) then 1 else 0;
      assert log[..n][..n - 1] == log[..n - 1] && log[..n][n - 1] == log[n - 1];
      assert Total(log[..n], w) == Total(log[..n - 1], w) + w(log[n - 1]);
      if FollowsUp(log[n - 1], p, step) && Total(log[..n - 1], w) == 1 {
        var i :| 0 <= i < n - 1 && FollowsUp(log[i], p, step);
        OncePerStep(db0, log, i, n - 1, p, step);
        assert false;
      }
    }
  }

  function FollowupOf(p: Id): Event -> nat {
    (e: Event) => if e.Dispatch? && e.send.row.kind == Followup && e.send.row.prospect == p then 1 else 0
  }

  lemma {:induction false} StepsAddUp(log: seq<Event>, n: nat, p: Id)
    requires n <= |log|
    requires forall i | 0 <= i < n && FollowupOf(p)(log[i]) == 1 :: 1 <= log[i].send.row.step <= 3
    ensures Total(log[..n], FollowupOf(p))
         == Total(log[..n], e => if FollowsUp(e, p, 1) then 1 else 0)
          + Total(log[..n], e => if FollowsUp(e, p, 2) then 1 else 0)
          + Total(log[..n], e => if FollowsUp(e, p, 3) then 1 else 0)
  {
    if n > 0 {
      StepsAddUp(log, n - 1, p);
      assert log[..n][..n - 1] == log[..n - 1];
      LastCounts(log[..n], FollowupOf(p));
      LastCounts(log[..n], e => if FollowsUp(e, p, 1) then 1 else 0);
      LastCounts(log[..n], e => if FollowsUp(e, p, 2) then 1 else 0);
      LastCounts(log[..n], e => if FollowsUp(e, p, 3) then 1 else 0);
    }
  }

  lemma LastCounts(log: seq<Event>, w: Event -> nat)
    requires log != []
    ensures Total(log, w) == Total(log[..|log| - 1], w) + w(log[|log| - 1])
  {
  }

  /** And then a prospect receives at most three follow-ups in all. */
  lemma AtMostThreeFollowups(db0: Db, log: seq<Event>, p: Id)
    requires Valid(db0, log) && db0.followups == map[] && db0.touches == map[] && DraftedOnce(log)
    ensures Total(log, FollowupOf(p)) <= MAX_FOLLOW_UPS
  {
    hide Valid, DraftedOnce;
    assert log[..|log|] == log;
    forall i | 0 <= i < |log| && FollowupOf(p)(log[i]) == 1 ensures 1 <= log[i].send.row.step <= 3 {
      var _ := FollowupsKeepTheGap(db0, log, i);
    }
    StepsAddUp(log, |log|, p);
    StepCountedOnce(db0, log, |log|, p, 1);
    StepCountedOnce(db0, log, |log|, p, 2);
    StepCountedOnce(db0, log, |log|, p, 3);
  }

  lemma NeverTwice(db0: Db, log: seq<Event>, i: nat, j: nat)
    requires Valid(db0, log) && i < j < |log| && log[i].Dispatch? && log[j].Dispatch?
    ensures log[i].send.touch != log[j].send.touch
  {
    hide Guard, Apply, Valid, Stage;
    var t := log[i].send.touch;
    StepAt(db0, log, i);
    EventStage(Replay(db0, log[..i]), log[i], t);
    StageGrows(db0, log, i + 1, j, t);
    StepAt(db0, log, j);
    EventStage(Replay(db0, log[..j]), log[j], log[j].send.touch);
  }

  lemma {:induction false} StageGrows(db0: Db, log: seq<Event>, m: nat, n: nat, t: Id)
    requires Valid(db0, log) && m <= n <= |log|
    ensures Stage(Replay(db0, log[..m]), t) <= Stage(Replay(db0, log[..n]), t)
    decreases n
  {
    hide Guard, Apply, Valid, Stage;
    if m < n {
      StageGrows(db0, log, m, n - 1, t);
      StepAt(db0, log, n - 1);
      EventStage(Replay(db0, log[..n - 1]), log[n - 1], t);
    }
  }

  lemma SentAsDrafted(db: Db, e: Event)
    requires Guard(db, e) && e.Dispatch?
    ensures e.send.touch in db.touches && db.touches[e.send.touch] == e.send.row
    ensures e.send.row.created <= e.send.began
  {
    hide HasRoom;
  }
}
