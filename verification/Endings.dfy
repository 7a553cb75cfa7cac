/** The send path told by its rows alone: what each gate asks of them, and what each ending of a
    delivery and each event of the ledger leaves in them, row by row. */
module Endings {
  import opened Options
  import opened Tables
  import opened Ledger

  // ---- what the gates ask -----------------------------------------------------------------------

  predicate FlagSet(db: Db, tenant: string) { "global" in db.flags || tenant in db.flags }

  /** The suppression has run out. */
  predicate Over(expiry: Option<Time>, at: Time) { expiry.Some? && expiry.value <= at }

  /** Deleted, or suppressed for everyone or for this tenant, and that has not run out. */
  ghost predicate Struck(db: Db, email: string, tenant: string, at: Time) {
    || email in db.tombstones
    || exists scope :: (scope == "global" || scope == tenant) && (email, scope) in db.suppressions && !Over(db.suppressions[(email, scope)], at)
  }

  /** Suppressed in any scope, and that has not run out. */
  ghost predicate Barred(db: Db, email: Option<string>, at: Time) {
    email.Some? && exists scope :: (email.value, scope) in db.suppressions && !Over(db.suppressions[(email.value, scope)], at)
  }

  /** In no sequence, below the ceiling of eight, and left alone for ninety whole days. */
  predicate Rested(e: Entity, clock: Time) {
    e.active.None? && e.touches12mo < 8 && (e.lastContact.Some? ==> clock >= e.lastContact.value + 90 * 86_400)
  }

  /** In this prospect's sequence, and below the ceiling. */
  predicate Owned(touches: map<Id, Touch>, e: Entity, prospect: Id) {
    e.active.Some? && e.active.value in touches && touches[e.active.value].prospect == prospect && e.touches12mo < 8
  }

  /** A reply may always go out, a follow-up within its sequence, anything else to someone rested. */
  predicate MayContact(db: Db, row: Touch, who: Prospect, clock: Time) {
    row.kind == AgenticReply
    || (who.entity in db.entities
        && if row.kind == Followup then Owned(db.touches, db.entities[who.entity], row.prospect) else Rested(db.entities[who.entity], clock))
  }

  predicate Room(db: Db, k: CounterKey) { k in db.counters && db.counters[k].used < db.counters[k].cap }

  predicate MonthsHaveRoom(db: Db, row: Touch, who: Prospect, month: int) {
    row.kind == AgenticReply || (Room(db, TenantMonth(who.tenant, month)) && Room(db, CohortMonth(who.cohort, month)))
  }

  /** The day's row of a mailbox, which is opened empty when it is missing. */
  function DayRow(db: Db, m: string, day: int): Counter
    requires m in db.mailboxes
  {
    if MailboxDay(m, day) in db.counters then db.counters[MailboxDay(m, day)] else Counter(0, db.mailboxes[m].dailyCap)
  }

  predicate Free(db: Db, tenant: string, day: int, m: string) {
    && m in db.mailboxes && db.mailboxes[m].tenant == tenant && db.mailboxes[m].warm
    && DayRow(db, m, day).used < DayRow(db, m, day).cap
  }

  ghost predicate LeastUsedFree(db: Db, tenant: string, day: int, m: string) {
    Free(db, tenant, day, m) && forall n :: Free(db, tenant, day, n) ==> DayRow(db, m, day).used <= DayRow(db, n, day).used
  }

  ghost predicate HolderVerified(db: Db, email: string, tenant: string) {
    exists p :: p in db.prospects && db.prospects[p].email == Some(email) && db.prospects[p].tenant == tenant && db.prospects[p].verified
  }

  /** A draft still, whose prospect's address is barred in no scope. */
  ghost predicate StillOpen(db: Db, touch: Id, prospect: Id, at: Time) {
    && touch in db.touches && db.touches[touch].status == Drafted
    && prospect in db.prospects && !Barred(db, db.prospects[prospect].email, at)
  }

  /** A draft whose prospect has an address can be loaded; what is out already need not be. */
  predicate Waiting(db: Db, touch: Id) {
    && touch in db.touches && db.touches[touch].status == Drafted
    && db.touches[touch].prospect in db.prospects && db.prospects[db.touches[touch].prospect].email.Some?
  }

  predicate Gone(db: Db, touch: Id) {
    touch in db.touches && (db.touches[touch].status == Dispatched || db.touches[touch].status == Sent)
  }

  lemma FlagsMean(db: Db, tenant: string)
    ensures Halted(db, tenant) <==> FlagSet(db, tenant)
  {
  }

  /** The screening question, in rows. */
  lemma SuppressedMeans(db: Db, email: string, tenant: string, at: Time)
    ensures Suppressed(db, email, tenant, at) <==> Struck(db, email, tenant, at)
  {
  }

  /** The trigger's question, in rows. */
  lemma BarredMeans(db: Db, email: Option<string>, at: Time)
    ensures BarredInAnyScope(db, email, at) <==> Barred(db, email, at)
  {
    if BarredInAnyScope(db, email, at) {
      var k :| k in db.suppressions && k.0 == email.value && Live(db.suppressions[k], at);
      assert (email.value, k.1) in db.suppressions;
    }
  }

  /** The frequency gate, in rows: it passes exactly when nothing stands against it. */
  lemma FrequencyMeans(e: Entity, clock: Time)
    ensures FrequencyOk(e, clock) <==> Rested(e, clock)
  {
  }

  lemma ContinuationMeans(touches: map<Id, Touch>, e: Entity, prospect: Id)
    ensures ContinuationOk(touches, e, prospect) <==> Owned(touches, e, prospect)
  {
  }

  lemma SendableMeans(db: Db, email: string, tenant: string)
    ensures Sendable(db, email, tenant) <==> HolderVerified(db, email, tenant)
  {
  }

  lemma PickableMeans(db: Db, tenant: string, day: int, m: string)
    ensures var counters := db.counters + MissingDayRows(db, tenant, day);
      && (Pickable(db, counters, tenant, day, m) <==> Free(db, tenant, day, m))
      && (Free(db, tenant, day, m) ==> MailboxDay(m, day) in counters && counters[MailboxDay(m, day)] == DayRow(db, m, day))
  {
  }

  // ---- what the endings leave -----------------------------------------------------------------------

  /** The counters after the day's rows of the tenant's mailboxes were opened and each key in
      `charged` was charged once. */
  ghost predicate ChargedOnce(db: Db, tenant: string, day: int, charged: set<CounterKey>, after: map<CounterKey, Counter>) {
    forall k :: ChargedAt(db, tenant, day, charged, after, k)
  }

  ghost predicate ChargedAt(db: Db, tenant: string, day: int, charged: set<CounterKey>, after: map<CounterKey, Counter>, k: CounterKey) {
    && (k in after <==> k in db.counters || NewDayRow(db, tenant, day, k))
    && (k in after ==> after[k] == RowCharged(db, k, if k in charged then 1 else 0))
  }

  predicate NewDayRow(db: Db, tenant: string, day: int, k: CounterKey) {
    k.MailboxDay? && k.day == day && k.mailbox in db.mailboxes && db.mailboxes[k.mailbox].tenant == tenant
  }

  function RowCharged(db: Db, k: CounterKey, n: nat): Counter {
    if k in db.counters then Counter(db.counters[k].used + n, db.counters[k].cap)
    else Counter(n, if k.MailboxDay? && k.mailbox in db.mailboxes then db.mailboxes[k.mailbox].dailyCap else 0)
  }

  /** The last step of the configured sequence. */
  predicate IsLast(drip: Option<Drip>, row: Touch) { drip.Some? && row.step + 1 >= drip.value.steps }

  /** The entity once a contact has gone out to it. */
  function EntityAfter(e: Entity, touch: Id, stamp: Time, last: bool): Entity {
    Entity(if last then None else Some(touch), Some(stamp), e.touches12mo + 1)
  }

  /** The compose job of the next step, which is planned once: due its gap after this dispatch. */
  ghost predicate NextPlanned(before: map<(Id, nat), Time>, after: map<(Id, nat), Time>, drip: Option<Drip>, row: Touch, stamp: Time) {
    if row.kind == AgenticReply || drip.None? || IsLast(drip, row) || (row.prospect, row.step + 1) in before then after == before
    else row.step < |drip.value.gaps| && after == before[(row.prospect, row.step + 1) := stamp + drip.value.gaps[row.step] * 86_400]
  }

  ghost predicate TrialCounted(before: map<(string, string), nat>, after: map<(string, string), nat>, tenant: string, variant: Option<string>) {
    if variant.None? then after == before
    else var k := (tenant, variant.value); after == before[k := 1 + if k in before then before[k] else 0]
  }

  /** A mailbox slot, and for all but replies the months of tenant and cohort. */
  function BudgetsOf(row: Touch, who: Prospect, box: string, month: int, day: int): set<CounterKey> {
    {MailboxDay(box, day)} + if row.kind == AgenticReply then {} else {TenantMonth(who.tenant, month), CohortMonth(who.cohort, month)}
  }

  /** Everything a dispatch leaves behind. */
  ghost predicate WentOut(before: Db, touch: Id, box: string, month: int, day: int, began: Time, drip: Option<Drip>, after: Db)
    requires touch in before.touches && before.touches[touch].prospect in before.prospects
  {
    var row := before.touches[touch];
    var who := before.prospects[row.prospect];
    var charged := BudgetsOf(row, who, box, month, day);
    && after == before.(counters := after.counters, entities := after.entities, touches := after.touches,
                        prospects := after.prospects, trials := after.trials, followups := after.followups)
    && ChargedOnce(before, who.tenant, day, charged, after.counters)
    && after.touches == before.touches[touch := row.(status := Dispatched, mailbox := Some(box))]
    && (row.kind == AgenticReply ==> after.entities == before.entities)
    && (row.kind != AgenticReply ==>
          && who.entity in before.entities
          && after.entities == before.entities[who.entity := EntityAfter(before.entities[who.entity], touch, began, IsLast(drip, row))])
    && after.prospects == before.prospects[row.prospect := if who.state == Queued then who.(state := ProspectState.Contacted) else who]
    && TrialCounted(before.trials, after.trials, who.tenant, row.variant)
    && NextPlanned(before.followups, after.followups, drip, row, began)
  }

  /** The dispatch event leaves exactly that. */
  lemma DispatchLeaves(db: Db, s: Send)
    requires SendAllowed(db, s) && s.who == db.prospects[s.row.prospect] && s.days == MissingDayRows(db, s.who.tenant, s.day)
    requires s.moved <==> s.who.state == Queued
    ensures WentOut(db, s.touch, s.box, s.month, s.day, s.began, s.drip, AfterDispatch(db, s))
  {
    forall k ensures ChargedAt(db, s.who.tenant, s.day, BudgetsOf(s.row, s.who, s.box, s.month, s.day), AfterDispatch(db, s).counters, k) {
      ChargeLeaves(db, s, k);
    }
    PlanLeaves(db, s);
    EntityLeaves(db, s);
    OtherTablesLeft(db, s);
    assert SendAllowed(db, s) ==> s.touch in db.touches && db.touches[s.touch] == s.row;
    hide AfterDispatch, SendAllowed, EntityAfter, ChargedAt, BudgetsOf, NextPlanned, IsLast, MissingDayRows;
  }

  lemma OtherTablesLeft(db: Db, s: Send)
    requires SendAllowed(db, s) && s.who == db.prospects[s.row.prospect] && (s.moved <==> s.who.state == Queued)
    ensures var after := AfterDispatch(db, s);
      && after == db.(counters := after.counters, entities := after.entities, touches := after.touches,
                      prospects := after.prospects, trials := after.trials, followups := after.followups)
      && after.touches == db.touches[s.touch := s.row.(status := Dispatched, mailbox := Some(s.box))]
      && after.prospects == db.prospects[s.row.prospect := if s.who.state == Queued then s.who.(state := ProspectState.Contacted) else s.who]
      && TrialCounted(db.trials, after.trials, s.who.tenant, s.row.variant)
  {
    hide Charged, PlanAfter, Planned, AfterContact, FrequencyOk, ContinuationOk, HasRoom;
    assert !s.moved ==> db.prospects[s.row.prospect := s.who] == db.prospects;
  }

  lemma ChargeLeaves(db: Db, s: Send, k: CounterKey)
    requires SendAllowed(db, s) && s.days == MissingDayRows(db, s.who.tenant, s.day)
    ensures ChargedAt(db, s.who.tenant, s.day, BudgetsOf(s.row, s.who, s.box, s.month, s.day), AfterDispatch(db, s).counters, k)
  {
    ChargeAt(db, s, k);
    DayRowAt(db, s.who.tenant, s.day, k);
    hide AfterDispatch, Charged, PlanAfter, Planned, AfterContact, FrequencyOk, ContinuationOk, MissingDayRows, NewDayRow, FreshDayRows;
  }

  lemma DayRowAt(db: Db, tenant: string, day: int, k: CounterKey)
    ensures k in MissingDayRows(db, tenant, day) <==> k !in db.counters && NewDayRow(db, tenant, day, k)
    ensures k in MissingDayRows(db, tenant, day) ==> MissingDayRows(db, tenant, day)[k] == RowCharged(db, k, 0)
  {
  }

  lemma ChargeAt(db: Db, s: Send, k: CounterKey)
    requires SendAllowed(db, s)
    ensures var (after, rows) := (AfterDispatch(db, s).counters, db.counters + s.days);
      && (k in after <==> k in rows)
      && (k in after ==> after[k] == if k in BudgetsOf(s.row, s.who, s.box, s.month, s.day) then rows[k].(used := rows[k].used + 1) else rows[k])
  {
    hide PlanAfter, Planned, AfterContact, FrequencyOk, ContinuationOk;
  }

  lemma PlanLeaves(db: Db, s: Send)
    requires SendAllowed(db, s)
    ensures NextPlanned(db.followups, AfterDispatch(db, s).followups, s.drip, s.row, s.began)
  {
    hide Charged, AfterContact, FrequencyOk, ContinuationOk, HasRoom;
  }

  lemma EntityLeaves(db: Db, s: Send)
    requires SendAllowed(db, s)
    ensures s.row.kind == AgenticReply ==> AfterDispatch(db, s).entities == db.entities
    ensures s.row.kind != AgenticReply ==> s.who.entity in db.entities
    ensures s.row.kind != AgenticReply ==>
      AfterDispatch(db, s).entities == db.entities[s.who.entity := EntityAfter(db.entities[s.who.entity], s.touch, s.began, IsLast(s.drip, s.row))]
  {
    hide Charged, FrequencyOk, ContinuationOk, HasRoom, Planned;
  }

  // ---- what a deletion leaves -------------------------------------------------------------------

  /** A deletion, row by row: the addresses it names become tombstones and lose their suppressions,
      the deleted people lose address and state, and nothing else changes in any table. */
  lemma DeletionLeaves(db: Db, e: Event)
    requires Guard(db, e) && e.Forget?
    ensures var after := Apply(db, e);
      && after == db.(tombstones := after.tombstones, suppressions := after.suppressions, prospects := after.prospects)
      && (forall a :: a in after.tombstones <==> a in db.tombstones || a in e.addresses)
      && (forall k :: k in after.suppressions <==> k in db.suppressions && k.0 !in e.addresses)
      && (forall k | k in after.suppressions :: after.suppressions[k] == db.suppressions[k])
      && (forall p :: p in after.prospects <==> p in db.prospects)
      && (forall p | p in db.prospects && db.prospects[p].entity !in e.entities :: after.prospects[p] == db.prospects[p])
      && (forall p | p in db.prospects && db.prospects[p].entity in e.entities ::
            after.prospects[p] == db.prospects[p].(email := None, state := Forgotten))
  {
  }

  /** So whoever was screened out before it still is. */
  lemma DeletionLiftsNothing(db: Db, e: Event, email: string, tenant: string, at: Time)
    requires Guard(db, e) && e.Forget? && Struck(db, email, tenant, at)
    ensures Struck(Apply(db, e), email, tenant, at)
  {
    hide Guard, Apply;
    DeletionLeaves(db, e);
    if email !in db.tombstones {
      var scope :| (scope == "global" || scope == tenant) && (email, scope) in db.suppressions && !Over(db.suppressions[(email, scope)], at);
      if email !in e.addresses { assert (email, scope) in Apply(db, e).suppressions; }
    }
  }

  // ---- what every other event leaves --------------------------------------------------------------

  /** Which tables an event may write. */
  lemma OtherTablesStay(db: Db, e: Event)
    requires Guard(db, e) && !e.Elsewhere?
    ensures var after := Apply(db, e);
      && after.mailboxes == db.mailboxes
      && (!e.Forget? ==> after.suppressions == db.suppressions && after.tombstones == db.tombstones)
      && (!e.Halt? && !e.Resume? ==> after.flags == db.flags)
      && (!e.Park? && !e.Resolve? ==> after.tasks == db.tasks)
      && (!e.Dispatch? ==> after.trials == db.trials && after.followups == db.followups)
      && (!e.Dispatch? && !e.Forget? ==> after.prospects == db.prospects)
      && (!e.Dispatch? && !e.EndSequence? && !e.Resolve? ==> after.entities == db.entities)
      && (!e.Dispatch? && !e.Release? && !e.OpenCounter? && !e.Recap? ==> after.counters == db.counters)
      && (e.EndSequence? || e.OpenCounter? || e.Recap? || e.Halt? || e.Resume? || e.Forget? ==> after.touches == db.touches)
  {
    hide PlanAfter, Charged, AfterContact, Tried, Planned, FrequencyOk, ContinuationOk, Freed, HasRoom;
  }

  ghost predicate OneTouch(before: map<Id, Touch>, after: map<Id, Touch>, touch: Id, status: Status) {
    touch in before && after == before[touch := before[touch].(status := status)]
  }

  /** What the others write: one touch's status, one task, one entity, one counter, one flag. */
  lemma RowsLeft(db: Db, e: Event)
    requires Guard(db, e)
    ensures var after := Apply(db, e);
      match e
      case Release(t, _, _, _) => OneTouch(db.touches, after.touches, t, Released)
      case Review(t, approved) => OneTouch(db.touches, after.touches, t, if approved then Drafted else Released)
      case Delivered(t) => OneTouch(db.touches, after.touches, t, Sent)
      case Draft(t, row) => after.touches == db.touches[t := row]
      case Park(k, t, row) => after.touches == db.touches[t := row] && after.tasks == db.tasks[k := Task(t, row.prospect, true)]
      case OpenCounter(k, cap) => after.counters == db.counters[k := Counter(0, cap)]
      case Recap(k, cap) => k in db.counters && after.counters == db.counters[k := Counter(db.counters[k].used, cap)]
      case Halt(scope) => forall x :: x in after.flags <==> x in db.flags || x == scope
      case Resume(scope, _) => forall x :: x in after.flags <==> x in db.flags && x != scope
      case _ => true
  {
    hide AfterDispatch, Freed, SendAllowed, HasRoom;
  }

  /** Ending a sequence frees the entity, if it is this prospect's sequence that runs. */
  lemma EndingLeaves(db: Db, e: Event)
    requires Guard(db, e) && e.EndSequence?
    ensures var k := db.prospects[e.prospect].entity;
      && k in db.entities
      && Apply(db, e).entities == db.entities[k := if db.entities[k].active.Some? && db.entities[k].active.value in db.touches
                                                       && db.touches[db.entities[k].active.value].prospect == e.prospect
                                                  then db.entities[k].(active := None) else db.entities[k]]
  {
  }

  /** A resolved task is closed; a done one counts as a contact on its entity. */
  lemma ResolutionLeaves(db: Db, e: Event)
    requires Guard(db, e) && e.Resolve?
    ensures var (task, after) := (db.tasks[e.task], Apply(db, e));
      var k := db.prospects[task.prospect].entity;
      && after.tasks == db.tasks[e.task := Task(task.touch, task.prospect, false)]
      && OneTouch(db.touches, after.touches, task.touch, if e.done then Sent else Released)
      && k in db.entities
      && after.entities == (if e.done then db.entities[k := Entity(db.entities[k].active, Some(e.stamp), db.entities[k].touches12mo + 1)]
                            else db.entities)
  {
  }

  /** A release keeps what it spent: the day's rows, and the mailbox slot it had taken. */
  lemma ReleaseLeaves(db: Db, e: Event, k: CounterKey)
    requires Guard(db, e) && e.Release?
    ensures var (after, rows) := (Apply(db, e).counters, db.counters + e.days);
      && (k in after <==> k in rows)
      && (k in after ==> after[k] == if e.spent == Some(k) then rows[k].(used := rows[k].used + 1) else rows[k])
  {
  }

  // ---- who is suppressed stays so -------------------------------------------------------------------

  /** The transaction elsewhere lifts no suppression that holds at that instant. */
  ghost predicate LiftsNone(db: Db, e: Event, at: Time) {
    e.Elsewhere? ==> forall k :: k in db.suppressions && !Over(db.suppressions[k], at) ==>
      k in e.next.suppressions && !Over(e.next.suppressions[k], at)
  }

  lemma EventLiftsNone(db: Db, e: Event, email: string, tenant: string, at: Time)
    requires Guard(db, e) && Struck(db, email, tenant, at) && LiftsNone(db, e, at)
    ensures Struck(Apply(db, e), email, tenant, at)
  {
    hide Apply;
    if e.Forget? {
      DeletionLiftsNothing(db, e, email, tenant, at);
    } else if e.Elsewhere? {
      ElsewhereIsNext(db, e);
      if email !in db.tombstones {
        var scope :| (scope == "global" || scope == tenant) && (email, scope) in db.suppressions && !Over(db.suppressions[(email, scope)], at);
        assert (email, scope) in e.next.suppressions;
      }
    } else {
      OtherTablesStay(db, e);
    }
  }

  lemma ElsewhereIsNext(db: Db, e: Event)
    requires Guard(db, e) && e.Elsewhere?
    ensures Apply(db, e) == e.next && e.next.tombstones == db.tombstones
  {
  }

  /** No dispatch, deletion, halt, review or any other event of the ledger lifts a suppression: whoever is
      screened out at one point of a history is screened out from then on, until a transaction
      elsewhere takes the row away or the suppression runs out. */
  lemma {:induction false} StaysSuppressed(db0: Db, log: seq<Event>, i: nat, n: nat, email: string, tenant: string, at: Time)
    requires Valid(db0, log) && i <= n <= |log| && Suppressed(Replay(db0, log[..i]), email, tenant, at)
    requires forall k :: i <= k < n ==> LiftsNone(Replay(db0, log[..k]), log[k], at)
    ensures Suppressed(Replay(db0, log[..n]), email, tenant, at)
    decreases n
  {
    hide Guard, Apply, Valid, Replay, Suppressed, Struck, LiftsNone;
    if i < n {
      StaysSuppressed(db0, log, i, n - 1, email, tenant, at);
      StepAt(db0, log, n - 1);
      SuppressedMeans(Replay(db0, log[..n - 1]), email, tenant, at);
      EventLiftsNone(Replay(db0, log[..n - 1]), log[n - 1], email, tenant, at);
      SuppressedMeans(Replay(db0, log[..n]), email, tenant, at);
    }
  }
}
