/** The committed history of the send path: one event per committed transaction, each with
    the condition its rows met at commit and its whole effect on the tables. */
module Ledger {
  import opened Options
  import opened Tables

  /** A committed claim-and-dispatch. `began` is the transaction's own clock, `clock` the
      wall clock the frequency gate read. The six positions say how much history had been
      committed when the transaction began, when each gate was evaluated, and when the touch was
      claimed; from the frequency gate on it holds its entity's row, from the claim on its touch's. */
  datatype Send = Send(touch: Id, row: Touch, who: Prospect, box: string, days: map<CounterKey, Counter>,
                       month: int, day: int, began: Time, clock: Time, moved: bool, drip: Option<Drip>,
                       beginAt: nat, haltAt: nat, screenAt: nat, frequencyAt: nat, confidenceAt: nat, persistAt: nat)

  datatype Event =
    | Dispatch(send: Send)
    | Release(touch: Id, days: map<CounterKey, Counter>, spent: Option<CounterKey>, beginAt: nat)
    | Draft(touch: Id, row: Touch)
    | Review(touch: Id, approved: bool)
    | EndSequence(prospect: Id)
    | Park(task: Id, touch: Id, row: Touch)
    | Resolve(task: Id, done: bool, stamp: Time)
    | Delivered(touch: Id)
    | OpenCounter(key: CounterKey, cap: int)
    | Recap(key: CounterKey, cap: int)
    | Halt(scope: string)
    | Resume(scope: string, actor: string)
    | Forget(entities: set<Id>, addresses: set<string>)
    | Elsewhere(next: Db)

  function Contact(s: Send): bool { ProfileOf(s.row.kind) != REPLY }

  function BoxKey(s: Send): CounterKey { MailboxDay(s.box, s.day) }
  function TenantKey(s: Send): CounterKey { TenantMonth(s.who.tenant, s.month) }
  function CohortKey(s: Send): CounterKey { CohortMonth(s.who.cohort, s.month) }

  predicate FreshDayRows(db: Db, days: map<CounterKey, Counter>) {
    forall k :: k in days ==> k.MailboxDay? && k !in db.counters && days[k].used == 0
  }

  predicate ActorIsHuman(actor: string) {
    HUMAN_ACTOR_PREFIX <= actor
  }

  /** Every table a drafting, clicking or enriching transaction leaves alone, and what it may
      add: addresses, states and suppressions move freely; identities do not. */
  ghost predicate Unrelated(a: Db, b: Db) {
    && b.counters == a.counters && b.touches == a.touches && b.tasks == a.tasks && b.trials == a.trials
    && b.followups == a.followups && b.flags == a.flags && b.tombstones == a.tombstones
    && (forall e :: e in a.entities ==> e in b.entities && b.entities[e] == a.entities[e])
    && (forall e :: e in b.entities && e !in a.entities ==> b.entities[e] == NEW_ENTITY)
    && (forall p :: p in a.prospects ==> p in b.prospects && SameIdentity(a.prospects[p], b.prospects[p]))
    && (forall p :: p in b.prospects ==> b.prospects[p].entity in b.entities)
  }

  ghost predicate SendAllowed(db: Db, s: Send) {
    && s.touch in db.touches && db.touches[s.touch] == s.row && s.row.status.Drafted?
    && s.row.prospect in db.prospects && SameIdentity(db.prospects[s.row.prospect], s.who)
    && s.who.email.Some? && (Contact(s) ==> s.who.entity in db.entities)
    && s.row.created <= s.began <= s.clock && ValidConfig(s.drip)
    && FreshDayRows(db, s.days) && HasRoom(db.counters + s.days, BoxKey(s))
    && (Contact(s) ==> HasRoom(db.counters, TenantKey(s)) && HasRoom(db.counters, CohortKey(s)))
    && (ProfileOf(s.row.kind) == COLD ==> FrequencyOk(db.entities[s.who.entity], s.clock))
    && (ProfileOf(s.row.kind) == FOLLOWUP ==>
          ContinuationOk(db.touches, db.entities[s.who.entity], s.row.prospect))
    && (s.moved ==> db.prospects[s.row.prospect].state == Queued)
  }

  /** What the touched rows looked like at the moment the transaction committed. */
  ghost predicate Guard(db: Db, e: Event) {
    match e
    case Dispatch(s) => SendAllowed(db, s)
    case Release(t, days, spent, _) =>
      && t in db.touches && FreshDayRows(db, days)
      && (spent.Some? ==> spent.value.MailboxDay? && HasRoom(db.counters + days, spent.value))
    case Draft(t, row) =>
      && t !in db.touches && row.prospect in db.prospects
      && (row.status.PendingReview? || row.status.Drafted?) && row.kind != HumanTask
      && (row.kind == Followup ==>
            (row.prospect, row.step) in db.followups && db.followups[(row.prospect, row.step)] <= row.created)
    case Review(t, _) => t in db.touches && db.touches[t].status.PendingReview?
    case EndSequence(p) => p in db.prospects && db.prospects[p].entity in db.entities
    case Park(k, t, row) =>
      && k !in db.tasks && t !in db.touches && row.prospect in db.prospects
      && row.kind == HumanTask && row.status.PendingHuman?
    case Resolve(k, _, _) =>
      && k in db.tasks && db.tasks[k].pending && db.tasks[k].touch in db.touches
      && db.tasks[k].prospect in db.prospects && db.prospects[db.tasks[k].prospect].entity in db.entities
    case Delivered(t) => t in db.touches && db.touches[t].status.Dispatched?
    case OpenCounter(k, _) => k !in db.counters
    case Recap(k, _) => k in db.counters
    case Halt(_) => true
    case Resume(_, actor) => ActorIsHuman(actor)
    case Forget(es, addresses) =>
      forall p :: p in db.prospects && db.prospects[p].entity in es && db.prospects[p].email.Some?
        ==> db.prospects[p].email.value in addresses
    case Elsewhere(next) => Unrelated(db, next)
  }

  function Charged(counters: map<CounterKey, Counter>, s: Send): map<CounterKey, Counter>
    requires BoxKey(s) in counters + s.days
    requires Contact(s) ==> TenantKey(s) in counters && CohortKey(s) in counters
  {
    var boxed := (counters + s.days)[BoxKey(s) := Bump((counters + s.days)[BoxKey(s)])];
    if Contact(s) then
      boxed[TenantKey(s) := Bump(counters[TenantKey(s)])][CohortKey(s) := Bump(counters[CohortKey(s)])]
    else boxed
  }

  /** A cold or follow-up claim moves the entity; the last step then frees it again. */
  function AfterContact(e: Entity, touch: Id, stamp: Time, plan: Plan): Entity {
    Entity(if plan.DripDone? then None else Some(touch), Some(stamp), e.touches12mo + 1)
  }

  function Tried(trials: map<(string, string), nat>, tenant: string, variant: Option<string>): map<(string, string), nat> {
    if variant.None? then trials
    else trials[(tenant, variant.value) := NextTrial(trials, (tenant, variant.value))]
  }

  function NextTrial(trials: map<(string, string), nat>, k: (string, string)): nat {
    if k in trials then trials[k] + 1 else 1
  }

  /** The compose job is inserted only when its idempotency key is new. */
  function Planned(followups: map<(Id, nat), Time>, prospect: Id, plan: Plan, stamp: Time): map<(Id, nat), Time> {
    if plan.NextStep? && (prospect, plan.step) !in followups
    then followups[(prospect, plan.step) := stamp + plan.gapDays * SECONDS_PER_DAY]
    else followups
  }

  function AfterDispatch(db: Db, s: Send): Db
    requires BoxKey(s) in db.counters + s.days
    requires Contact(s) ==> TenantKey(s) in db.counters && CohortKey(s) in db.counters
    requires (Contact(s) ==> s.who.entity in db.entities) && s.row.prospect in db.prospects
  {
    var plan := PlanAfter(s.drip, s.row);
    db.(counters := Charged(db.counters, s),
        entities := if Contact(s)
                    then db.entities[s.who.entity := AfterContact(db.entities[s.who.entity], s.touch, s.began, plan)]
                    else db.entities,
        touches := db.touches[s.touch := s.row.(status := Status.Dispatched, mailbox := Some(s.box))],
        prospects := if s.moved
                     then db.prospects[s.row.prospect := db.prospects[s.row.prospect].(state := ProspectState.Contacted)]
                     else db.prospects,
        trials := Tried(db.trials, s.who.tenant, s.row.variant),
        followups := Planned(db.followups, s.row.prospect, plan, s.began))
  }

  function Freed(touches: map<Id, Touch>, e: Entity, prospect: Id): Entity {
    if OwnsSequence(touches, e, prospect) then e.(active := None) else e
  }

  function WithStatus(touches: map<Id, Touch>, t: Id, st: Status): map<Id, Touch>
    requires t in touches
  {
    touches[t := touches[t].(status := st)]
  }

  function Scrubbed(p: Prospect, es: set<Id>): Prospect {
    if p.entity in es then p.(email := None, state := Forgotten) else p
  }

  function Apply(db: Db, e: Event): Db
    requires Guard(db, e)
  {
    match e
    case Dispatch(s) => AfterDispatch(db, s)
    case Release(t, days, spent, _) =>
      var widened := db.counters + days;
      db.(touches := WithStatus(db.touches, t, Released),
          counters := if spent.Some? then widened[spent.value := Bump(widened[spent.value])] else widened)
    case Draft(t, row) => db.(touches := db.touches[t := row])
    case Review(t, approved) => db.(touches := WithStatus(db.touches, t, if approved then Drafted else Released))
    case EndSequence(p) =>
      var k := db.prospects[p].entity;
      db.(entities := db.entities[k := Freed(db.touches, db.entities[k], p)])
    case Park(k, t, row) =>
      db.(touches := db.touches[t := row], tasks := db.tasks[k := Task(t, row.prospect, true)])
    case Resolve(k, done, stamp) =>
      var task := db.tasks[k];
      var ent := db.prospects[task.prospect].entity;
      var e := db.entities[ent];
      db.(tasks := db.tasks[k := task.(pending := false)],
          touches := WithStatus(db.touches, task.touch, if done then Sent else Released),
          entities := if done
                      then db.entities[ent := e.(lastContact := Some(stamp), touches12mo := e.touches12mo + 1)]
                      else db.entities)
    case Delivered(t) => db.(touches := WithStatus(db.touches, t, Sent))
    case OpenCounter(k, cap) => db.(counters := db.counters[k := Counter(0, cap)])
    case Recap(k, cap) => db.(counters := db.counters[k := db.counters[k].(cap := cap)])
    case Halt(scope) => db.(flags := db.flags + {scope})
    case Resume(scope, _) => db.(flags := db.flags - {scope})
    case Forget(es, addresses) =>
      db.(tombstones := db.tombstones + addresses,
          prospects := map p | p in db.prospects :: Scrubbed(db.prospects[p], es),
          suppressions := map k | k in db.suppressions && k.0 !in addresses :: db.suppressions[k])
    case Elsewhere(next) => next
  }

  /** The tables after a history. An event whose guard fails leaves them as they were;
      `Valid` histories have none. */
  ghost function Replay(db0: Db, log: seq<Event>): Db {
    if |log| == 0 then db0
    else
      var db := Replay(db0, log[..|log| - 1]);
      if Guard(db, log[|log| - 1]) then Apply(db, log[|log| - 1]) else db
  }

  /** The touch was a draft when the deliver transaction began. */
  ghost predicate BeganOnDraft(db0: Db, log: seq<Event>, touch: Id, beginAt: nat) {
    beginAt <= |log| && touch in Replay(db0, log[..beginAt]).touches
    && Replay(db0, log[..beginAt]).touches[touch].status.Drafted?
  }

  /** The trigger's view of the claim: its prospect is there and its address barred in no scope. */
  ghost predicate Claimable(db: Db, prospect: Id, began: Time) {
    prospect in db.prospects && !BarredInAnyScope(db, db.prospects[prospect].email, began)
  }

  /** No deletion of the entity has committed from that position on. */
  ghost predicate NotDeletedSince(log: seq<Event>, entity: Id, from: nat) {
    forall k :: from <= k < |log| && log[k].Forget? ==> entity !in log[k].entities
  }

  /** A deletion waits for the entity row a contact holds from its frequency gate on, and for the
      touch row that every delivery holds from its claim on. */
  ghost predicate DeletionsWaited(log: seq<Event>, s: Send) {
    && (Contact(s) ==> s.screenAt <= s.frequencyAt <= s.confidenceAt && NotDeletedSince(log, s.who.entity, s.frequencyAt))
    && NotDeletedSince(log, s.who.entity, s.persistAt)
  }

  /** The unlocked gates held on some committed state the transaction could see, in order. */
  ghost predicate GatesHeld(db0: Db, log: seq<Event>, s: Send) {
    && BeganOnDraft(db0, log, s.touch, s.beginAt)
    && s.beginAt <= s.haltAt <= s.screenAt <= s.confidenceAt <= s.persistAt <= |log|
    && Claimable(Replay(db0, log[..s.persistAt]), s.row.prospect, s.began) && DeletionsWaited(log, s)
    && s.who.email.Some?
    && !Halted(Replay(db0, log[..s.haltAt]), s.who.tenant)
    && !Suppressed(Replay(db0, log[..s.screenAt]), s.who.email.value, s.who.tenant, s.began)
    && Sendable(Replay(db0, log[..s.confidenceAt]), s.who.email.value, s.who.tenant)
  }

  ghost predicate Valid(db0: Db, log: seq<Event>) {
    if |log| == 0 then true
    else
      var past, e := log[..|log| - 1], log[|log| - 1];
      && Valid(db0, past) && Guard(Replay(db0, past), e)
      && (e.Dispatch? ==> GatesHeld(db0, past, e.send))
      && (e.Release? ==> BeganOnDraft(db0, past, e.touch, e.beginAt))
  }

  lemma {:induction false} ValidPrefix(db0: Db, log: seq<Event>, n: nat)
    requires Valid(db0, log) && n <= |log|
    ensures Valid(db0, log[..n])
    decreases |log|
  {
    if n < |log| {
      assert log[..|log| - 1][..n] == log[..n];
      ValidPrefix(db0, log[..|log| - 1], n);
    } else {
      assert log[..n] == log;
    }
  }

  /** One more event of a valid history: its guard held, and it moved the tables. */
  lemma StepAt(db0: Db, log: seq<Event>, n: nat)
    requires Valid(db0, log) && n < |log|
    ensures Valid(db0, log[..n]) && Valid(db0, log[..n + 1])
    ensures Guard(Replay(db0, log[..n]), log[n])
    ensures Replay(db0, log[..n + 1]) == Apply(Replay(db0, log[..n]), log[n])
    ensures log[n].Dispatch? ==> GatesHeld(db0, log[..n], log[n].send)
    ensures log[n].Release? ==> BeganOnDraft(db0, log[..n], log[n].touch, log[n].beginAt)
  {
    ValidPrefix(db0, log, n + 1);
    assert log[..n + 1][..n] == log[..n] && log[..n + 1][n] == log[n];
  }

  ghost predicate TouchesKept(a: map<Id, Touch>, b: map<Id, Touch>) {
    forall t :: t in a ==> t in b && SameDraft(a[t], b[t])
  }

  ghost predicate ProspectsKept(a: map<Id, Prospect>, b: map<Id, Prospect>) {
    forall p :: p in a ==> p in b && SameIdentity(a[p], b[p])
  }

  /** Rows are never deleted, identities never rewritten, tombstones never removed. */
  ghost predicate Continues(a: Db, b: Db) {
    && TouchesKept(a.touches, b.touches)
    && ProspectsKept(a.prospects, b.prospects)
    && a.entities.Keys <= b.entities.Keys && a.followups.Keys <= b.followups.Keys
    && a.tombstones <= b.tombstones
  }

  lemma DispatchContinues(db: Db, s: Send)
    requires SendAllowed(db, s)
    ensures Continues(db, AfterDispatch(db, s))
  {
    hide PlanAfter, Charged, AfterContact, Tried, FrequencyOk, ContinuationOk;
  }

  lemma RowEventContinues(db: Db, e: Event)
    requires Guard(db, e) && (e.Review? || e.Resolve? || e.Delivered? || e.Release? || e.Draft? || e.Park?)
    ensures Continues(db, Apply(db, e))
  {
    hide HasRoom;
  }

  lemma ApplyContinues(db: Db, e: Event)
    requires Guard(db, e)
    ensures Continues(db, Apply(db, e))
  {
    hide AfterDispatch, Freed, SendAllowed;
    match e {
      case Dispatch(s) => DispatchContinues(db, s);
      case EndSequence(_) | OpenCounter(_, _) | Recap(_, _) | Halt(_) | Resume(_, _) | Forget(_, _) | Elsewhere(_) =>
      case _ => RowEventContinues(db, e);
    }
  }

  lemma ContinuesTransitive(a: Db, b: Db, c: Db)
    requires Continues(a, b) && Continues(b, c)
    ensures Continues(a, c)
  {
  }

  lemma {:induction false} HistoryContinues(db0: Db, log: seq<Event>, m: nat, n: nat)
    requires Valid(db0, log) && m <= n <= |log|
    ensures Continues(Replay(db0, log[..m]), Replay(db0, log[..n]))
    decreases n
  {
    hide Guard, Apply, Valid;
    if m < n {
      HistoryContinues(db0, log, m, n - 1);
      StepContinues(db0, log, n - 1);
      ContinuesTransitive(Replay(db0, log[..m]), Replay(db0, log[..n - 1]), Replay(db0, log[..n]));
    }
  }

  lemma StepContinues(db0: Db, log: seq<Event>, n: nat)
    requires Valid(db0, log) && n < |log|
    ensures Continues(Replay(db0, log[..n]), Replay(db0, log[..n + 1]))
  {
    StepAt(db0, log, n);
    ApplyContinues(Replay(db0, log[..n]), log[n]);
  }

  /** Whatever each worker was configured with, every dispatch of a history was planned by a
      validated sequence: its next step, if it has one, is a follow-up within range. */
  lemma SequencesStayValid(db0: Db, log: seq<Event>, n: nat)
    requires Valid(db0, log) && n < |log| && log[n].Dispatch?
    ensures ValidConfig(log[n].send.drip)
    ensures var plan := PlanAfter(log[n].send.drip, log[n].send.row);
      plan.NextStep? ==> 1 <= plan.step <= MAX_FOLLOW_UPS && plan.gapDays >= MIN_FOLLOW_UP_GAP_DAYS
  {
    hide Valid, Replay, Apply, HasRoom;
    StepAt(db0, log, n);
    PlanIsInRange(log[n].send.drip, log[n].send.row);
  }
}
