/** The rows the send path reads and writes, and the questions the gates ask of them.
    Row identifiers are natural numbers; instants are whole seconds. */
module Tables {
  import opened Options

  type Id = nat
  type Time = int

  const ANNUAL_TOUCH_CAP := 8
  const MIN_CAMPAIGN_GAP_DAYS := 90
  const MAX_FOLLOW_UPS := 3
  const MIN_FOLLOW_UP_GAP_DAYS := 3
  const SECONDS_PER_DAY := 86_400
  const GLOBAL_SCOPE := "global"
  const HUMAN_ACTOR_PREFIX := "operator:"

  // ---- budgets -------------------------------------------------------------
  datatype CounterKey =
    | TenantMonth(tenant: string, month: int)
    | CohortMonth(cohort: string, month: int)
    | MailboxDay(mailbox: string, day: int)

  datatype Counter = Counter(used: nat, cap: int)

  predicate HasRoom(counters: map<CounterKey, Counter>, k: CounterKey) {
    k in counters && counters[k].used < counters[k].cap
  }

  function Bump(c: Counter): Counter { c.(used := c.used + 1) }

  // ---- touches -------------------------------------------------------------
  datatype Kind = Cold | Followup | AgenticReply | HumanTask

  datatype Profile = COLD | FOLLOWUP | REPLY

  function ProfileOf(kind: Kind): Profile {
    match kind
    case AgenticReply => REPLY
    case Followup => FOLLOWUP
    case _ => COLD
  }

  datatype Status = PendingReview | Drafted | Claimed | Dispatched | Sent | Released | PendingHuman

  datatype Touch = Touch(prospect: Id, variant: Option<string>, step: nat, kind: Kind,
                         created: Time, status: Status, mailbox: Option<string>)

  /** Everything about a touch that no statement ever rewrites. */
  predicate SameDraft(a: Touch, b: Touch) {
    && a.prospect == b.prospect && a.variant == b.variant && a.step == b.step
    && a.kind == b.kind && a.created == b.created
  }

  // ---- people --------------------------------------------------------------
  datatype ProspectState =
    | Discovered | Enriched | Qualified | Queued | Contacted | Engaged | Converted
    | Disqualified | Unenrichable | Bounced | Declined | Unsubscribed | NoResponse | Forgotten

  datatype Prospect = Prospect(entity: Id, tenant: string, cohort: string, persona: string,
                               email: Option<string>, verified: bool, state: ProspectState)

  predicate SameIdentity(a: Prospect, b: Prospect) {
    a.entity == b.entity && a.tenant == b.tenant && a.cohort == b.cohort && a.persona == b.persona
  }

  datatype Entity = Entity(active: Option<Id>, lastContact: Option<Time>, touches12mo: nat)

  const NEW_ENTITY := Entity(None, None, 0)

  datatype Task = Task(touch: Id, prospect: Id, pending: bool)

  datatype Mailbox = Mailbox(tenant: string, warm: bool, dailyCap: int)

  /** A persona's sequence: an opener plus follow-ups with the gaps between them in days. */
  datatype Drip = Drip(steps: nat, gaps: seq<int>)

  predicate ValidDrip(d: Drip) {
    && 1 <= d.steps <= 1 + MAX_FOLLOW_UPS
    && |d.gaps| == d.steps - 1
    && forall i :: 0 <= i < |d.gaps| ==> d.gaps[i] >= MIN_FOLLOW_UP_GAP_DAYS
  }

  // ---- the database --------------------------------------------------------
  /** `followups` holds the compose jobs keyed by prospect and step with their earliest run
      time; `suppressions` maps address and scope to an expiry; `trials` is keyed by tenant
      and variant. */
  datatype Db = Db(
    counters: map<CounterKey, Counter>,
    entities: map<Id, Entity>,
    touches: map<Id, Touch>,
    prospects: map<Id, Prospect>,
    tasks: map<Id, Task>,
    trials: map<(string, string), nat>,
    followups: map<(Id, nat), Time>,
    flags: set<string>,
    suppressions: map<(string, string), Option<Time>>,
    tombstones: set<string>,
    mailboxes: map<string, Mailbox>)

  // ---- what the gates ask ----------------------------------------------------
  predicate Halted(db: Db, tenant: string) {
    GLOBAL_SCOPE in db.flags || tenant in db.flags
  }

  predicate Live(expiry: Option<Time>, at: Time) {
    expiry.None? || expiry.value > at
  }

  predicate Suppressed(db: Db, email: string, tenant: string, at: Time) {
    || ((email, GLOBAL_SCOPE) in db.suppressions && Live(db.suppressions[(email, GLOBAL_SCOPE)], at))
    || ((email, tenant) in db.suppressions && Live(db.suppressions[(email, tenant)], at))
    || email in db.tombstones
  }

  /** The trigger on touches: a live suppression of the address in any scope at all. */
  predicate BarredInAnyScope(db: Db, email: Option<string>, at: Time) {
    email.Some? && exists k :: k in db.suppressions && k.0 == email.value && Live(db.suppressions[k], at)
  }

  predicate Sendable(db: Db, email: string, tenant: string) {
    exists p :: p in db.prospects && db.prospects[p].email == Some(email)
                && db.prospects[p].tenant == tenant && db.prospects[p].verified
  }

  function WholeDays(elapsed: Time): int { elapsed / SECONDS_PER_DAY }

  predicate FrequencyOk(e: Entity, clock: Time) {
    && e.active.None?
    && e.touches12mo < ANNUAL_TOUCH_CAP
    && (e.lastContact.Some? ==> !(WholeDays(clock - e.lastContact.value) < MIN_CAMPAIGN_GAP_DAYS))
  }

  /** The active sequence of the entity is this prospect's. */
  predicate OwnsSequence(touches: map<Id, Touch>, e: Entity, prospect: Id) {
    e.active.Some? && e.active.value in touches && touches[e.active.value].prospect == prospect
  }

  predicate ContinuationOk(touches: map<Id, Touch>, e: Entity, prospect: Id) {
    OwnsSequence(touches, e, prospect) && e.touches12mo < ANNUAL_TOUCH_CAP
  }

  /** The mailbox-day rows that picking a mailbox first inserts, each at zero. */
  function MissingDayRows(db: Db, tenant: string, day: int): map<CounterKey, Counter> {
    map m | m in db.mailboxes && db.mailboxes[m].tenant == tenant && MailboxDay(m, day) !in db.counters
      :: MailboxDay(m, day) := Counter(0, db.mailboxes[m].dailyCap)
  }

  predicate Pickable(db: Db, counters: map<CounterKey, Counter>, tenant: string, day: int, m: string) {
    && m in db.mailboxes && db.mailboxes[m].tenant == tenant && db.mailboxes[m].warm
    && HasRoom(counters, MailboxDay(m, day))
  }

  /** What a dispatch plans next: nothing, the end of the sequence, or a compose job. */
  datatype Plan = NoPlan | DripDone | NextStep(step: nat, gapDays: int)

  /** The sequence a delivery's worker is configured with for the prospect's persona, if any. */
  predicate ValidConfig(drip: Option<Drip>) { drip.Some? ==> ValidDrip(drip.value) }

  function PlanAfter(drip: Option<Drip>, row: Touch): Plan {
    if ProfileOf(row.kind) == REPLY || drip.None? then NoPlan
    else if row.step + 1 >= drip.value.steps then DripDone
    else if row.step < |drip.value.gaps| then NextStep(row.step + 1, drip.value.gaps[row.step])
    else NoPlan
  }

  /** With a validated sequence the gap list is never indexed out of range, and every
      planned step is a follow-up number at most three after a gap of at least three days. */
  lemma PlanIsInRange(drip: Option<Drip>, row: Touch)
    requires ValidConfig(drip)
    ensures var plan := PlanAfter(drip, row);
            && (plan.NoPlan? <==> ProfileOf(row.kind) == REPLY || drip.None?)
            && (plan.NextStep? ==> 1 <= plan.step <= MAX_FOLLOW_UPS && plan.gapDays >= MIN_FOLLOW_UP_GAP_DAYS)
  {
  }
}
