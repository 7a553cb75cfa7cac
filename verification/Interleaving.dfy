/** Deliver transactions of any number of workers, interleaved statement by statement under
    READ COMMITTED: a statement sees committed rows and its own writes, a row written or
    selected FOR UPDATE stays locked to its transaction, and a statement that would need a
    row locked by another waits. Any transaction may roll back at any point (a crash, a
    retryable refusal, a provider failure). The main result is that every such run commits
    a valid history of the Ledger, so all that is proved of histories holds of runs. */
module Interleaving {
  import opened Options
  import opened Tables
  import opened Ledger

  datatype Pc =
    | Load | HaltGate | Screen | Frequency | TenantBudget | CohortBudget | PickMailbox | Confidence
    | Persist | SendOut | Trial | ReadState | Transit | Mark | Commit
    | Refuse | CommitRefusal

  datatype Budget = Untouched | TenantTaken | BothTaken | Returned

  /** The touch to deliver, the transaction's clock and periods, and how much history had
      been committed when it began. */
  datatype Origin = Origin(touch: Id, began: Time, month: int, day: int, drip: Option<Drip>, beginAt: nat)

  /** The uncommitted counter rows, with the day rows inserted and the mailbox picked. */
  datatype Spend = Spend(budget: Budget, days: map<CounterKey, Counter>, box: Option<string>,
                         counters: map<CounterKey, Counter>)

  /** One open transaction: where it stands, what it has read, and its uncommitted writes
      (`spend.counters`, `entity`, `written`, `prospect`, `trial`, `job`). */
  datatype Txn = Txn(
    origin: Origin, pc: Pc, row: Touch, who: Prospect, clock: Time, moved: bool,
    haltAt: nat, screenAt: nat, frequencyAt: nat, confidenceAt: nat, persistAt: nat,
    spend: Spend, entity: Option<Entity>, written: Option<Touch>,
    prospect: Option<Prospect>, trial: Option<nat>, job: Option<Time>)

  predicate Contacting(x: Txn) { ProfileOf(x.row.kind) != REPLY }
  function TenantMonthOf(x: Txn): CounterKey { TenantMonth(x.who.tenant, x.origin.month) }
  function CohortMonthOf(x: Txn): CounterKey { CohortMonth(x.who.cohort, x.origin.month) }
  function JobKey(x: Txn): (Id, nat) { (x.row.prospect, x.row.step + 1) }

  function Started(touch: Id, row: Touch, who: Prospect, now: Time, month: int, day: int, drip: Option<Drip>, at: nat): Txn {
    Txn(Origin(touch, now, month, day, drip, at), Load, row, who, now, false, at, at, at, at, at,
        Spend(Untouched, map[], None, map[]), None, None, None, None, None)
  }

  // ---- the statements of the deliver handler ----------------------------------------
  // Each takes the committed tables and yields the transaction after the statement, or
  // None when the handler raises and the transaction rolls back.

  function DoLoad(db: Db, x: Txn): Option<Txn> {
    if x.origin.touch !in db.touches || !db.touches[x.origin.touch].status.Drafted? then None
    else
      var row := db.touches[x.origin.touch];
      if row.prospect !in db.prospects || db.prospects[row.prospect].email.None? then None
      else Some(x.(row := row, who := db.prospects[row.prospect], pc := HaltGate))
  }

  function DoHalt(db: Db, x: Txn, at: nat): Option<Txn> {
    if Halted(db, x.who.tenant) then None else Some(x.(haltAt := at, pc := Screen))
  }

  /** Content binding and validators first, then suppression. */
  function DoScreen(db: Db, x: Txn, at: nat, findings: bool): Option<Txn> {
    if x.who.email.None? then None
    else if findings || Suppressed(db, x.who.email.value, x.who.tenant, x.origin.began) then Some(x.(pc := Refuse))
    else Some(x.(screenAt := at, pc := if Contacting(x) then Frequency else PickMailbox))
  }

  function DoFrequency(db: Db, x: Txn, now: Time, at: nat): Option<Txn> {
    if x.who.entity !in db.entities then Some(x.(pc := Refuse))
    else
      var e := db.entities[x.who.entity];
      var ok := if ProfileOf(x.row.kind) == COLD then FrequencyOk(e, now)
                else ContinuationOk(db.touches, e, x.row.prospect);
      Some(x.(entity := Some(e), frequencyAt := at, clock := now, pc := if ok then TenantBudget else Refuse))
  }

  function DoTenantBudget(db: Db, x: Txn): Option<Txn> {
    var k := TenantMonthOf(x);
    if !HasRoom(db.counters, k) then None
    else Some(x.(spend := x.spend.(counters := map[k := Bump(db.counters[k])], budget := TenantTaken), pc := CohortBudget))
  }

  /** A full cohort month is a retryable refusal: compensated, raised, rolled back. */
  function DoCohortBudget(db: Db, x: Txn): Option<Txn> {
    var k := CohortMonthOf(x);
    if !HasRoom(db.counters, k) then None
    else Some(x.(spend := x.spend.(counters := x.spend.counters[k := Bump(db.counters[k])], budget := BothTaken), pc := PickMailbox))
  }

  function DoPickMailbox(db: Db, x: Txn, m: string): Option<Txn> {
    var days := MissingDayRows(db, x.who.tenant, x.origin.day);
    var k := MailboxDay(m, x.origin.day);
    if !Pickable(db, db.counters + days, x.who.tenant, x.origin.day, m) then None
    else Some(x.(pc := Confidence,
                 spend := x.spend.(days := days, box := Some(m),
                                   counters := x.spend.counters + days[k := Bump((db.counters + days)[k])])))
  }

  function Lowered(c: Counter): Counter { c.(used := if c.used == 0 then 0 else c.used - 1) }

  /** A confidence refusal is terminal: the months are compensated, the mailbox slot is not. */
  function DoConfidence(db: Db, x: Txn, at: nat): Option<Txn> {
    if x.who.email.Some? && Sendable(db, x.who.email.value, x.who.tenant) then
      Some(x.(confidenceAt := at, pc := Persist))
    else if Contacting(x) && TenantMonthOf(x) in x.spend.counters && CohortMonthOf(x) in x.spend.counters then
      Some(x.(pc := Refuse,
              spend := x.spend.(budget := Returned,
                                counters := x.spend.counters[TenantMonthOf(x) := Lowered(x.spend.counters[TenantMonthOf(x)])]
                                                            [CohortMonthOf(x) := Lowered(x.spend.counters[CohortMonthOf(x)])])))
    else Some(x.(pc := Refuse))
  }

  /** The guarded update of the touch with its suppression trigger, then the entity. */
  function DoPersist(db: Db, x: Txn, at: nat): Option<Txn> {
    if x.origin.touch !in db.touches || !db.touches[x.origin.touch].status.Drafted? || x.spend.box.None? then None
    else if x.row.prospect !in db.prospects || BarredInAnyScope(db, db.prospects[x.row.prospect].email, x.origin.began) then None
    else
      var row := db.touches[x.origin.touch];
      Some(x.(row := row, written := Some(row.(status := Claimed, mailbox := x.spend.box)), pc := SendOut, persistAt := at,
              entity := if x.entity.Some? then Some(AfterContact(x.entity.value, x.origin.touch, x.origin.began, NoPlan)) else None))
  }

  function DoTrial(db: Db, x: Txn): Option<Txn> {
    if x.row.variant.None? then Some(x.(pc := ReadState))
    else Some(x.(trial := Some(NextTrial(db.trials, (x.who.tenant, x.row.variant.value))), pc := ReadState))
  }

  function DoReadState(db: Db, x: Txn): Option<Txn> {
    if x.row.prospect !in db.prospects then None
    else Some(x.(pc := if db.prospects[x.row.prospect].state == Queued then Transit else Mark))
  }

  /** The transition re-reads the row under lock; only a queued prospect may be contacted. */
  function DoTransit(db: Db, x: Txn): Option<Txn> {
    if x.row.prospect !in db.prospects || db.prospects[x.row.prospect].state != Queued then None
    else Some(x.(prospect := Some(db.prospects[x.row.prospect].(state := Contacted)), moved := true, pc := Mark))
  }

  function DoMark(db: Db, x: Txn): Option<Txn> {
    if x.written.None? then None
    else
      var plan := PlanAfter(x.origin.drip, x.row);
      Some(x.(written := Some(x.written.value.(status := Dispatched)), pc := Commit,
              entity := if plan.DripDone? && x.entity.Some? then Some(x.entity.value.(active := None)) else x.entity,
              job := if plan.NextStep? && JobKey(x) !in db.followups
                     then Some(x.origin.began + plan.gapDays * SECONDS_PER_DAY) else None))
  }

  function DoRefuse(db: Db, x: Txn): Option<Txn> {
    if x.origin.touch !in db.touches then None
    else Some(x.(written := Some(db.touches[x.origin.touch].(status := Released)), pc := CommitRefusal))
  }

  /** What lies outside the tables: validator findings and the mailbox the query returned. */
  datatype Oracle = Oracle(findings: bool, mailbox: string)

  function Advance(db: Db, now: Time, at: nat, x: Txn, o: Oracle): Option<Txn>
    requires !x.pc.Commit? && !x.pc.CommitRefusal?
  {
    match x.pc
    case Load => DoLoad(db, x)
    case HaltGate => DoHalt(db, x, at)
    case Screen => DoScreen(db, x, at, o.findings)
    case Frequency => DoFrequency(db, x, now, at)
    case TenantBudget => DoTenantBudget(db, x)
    case CohortBudget => DoCohortBudget(db, x)
    case PickMailbox => DoPickMailbox(db, x, o.mailbox)
    case Confidence => DoConfidence(db, x, at)
    case Persist => DoPersist(db, x, at)
    case SendOut => Some(x.(pc := Trial))
    case Trial => DoTrial(db, x)
    case ReadState => DoReadState(db, x)
    case Transit => DoTransit(db, x)
    case Mark => DoMark(db, x)
    case Refuse => DoRefuse(db, x)
  }

  // ---- locks ----------------------------------------------------------------------------

  datatype Locks = Locks(counters: set<CounterKey>, entities: set<Id>, touches: set<Id>,
                         prospects: set<Id>, trials: set<(string, string)>, jobs: set<(Id, nat)>)

  function Held(x: Txn): Locks {
    Locks(x.spend.counters.Keys,
          if x.entity.Some? then {x.who.entity} else {},
          if x.written.Some? then {x.origin.touch} else {},
          if x.prospect.Some? then {x.row.prospect} else {},
          if x.trial.Some? && x.row.variant.Some? then {(x.who.tenant, x.row.variant.value)} else {},
          if x.job.Some? then {JobKey(x)} else {})
  }

  /** The rows a deletion updates: those of the entities, their prospects and their touches. */
  function DeletionRows(db: Db, entities: set<Id>): Locks {
    var people := set p | p in db.prospects && db.prospects[p].entity in entities;
    var touches := set t | t in db.touches && db.touches[t].prospect in people;
    Locks({}, entities, touches, people, {}, {})
  }

  predicate Disjoint(a: Locks, b: Locks) {
    && a.counters !! b.counters && a.entities !! b.entities && a.touches !! b.touches
    && a.prospects !! b.prospects && a.trials !! b.trials && a.jobs !! b.jobs
  }

  ghost predicate SameOn<K, V>(a: map<K, V>, b: map<K, V>, ks: set<K>) {
    forall k :: k in ks ==> (k in a <==> k in b) && (k in a && k in b ==> a[k] == b[k])
  }

  /** No row in `l` is changed, removed or newly inserted. */
  ghost predicate RowsKept(a: Db, b: Db, l: Locks) {
    && SameOn(a.counters, b.counters, l.counters) && SameOn(a.entities, b.entities, l.entities)
    && SameOn(a.touches, b.touches, l.touches) && SameOn(a.prospects, b.prospects, l.prospects)
    && SameOn(a.trials, b.trials, l.trials) && SameOn(a.followups, b.followups, l.jobs)
  }

  // ---- commit ---------------------------------------------------------------------------

  function Merged(db: Db, x: Txn): Db {
    db.(counters := db.counters + x.spend.counters,
        entities := if x.entity.Some? then db.entities[x.who.entity := x.entity.value] else db.entities,
        touches := if x.written.Some? then db.touches[x.origin.touch := x.written.value] else db.touches,
        prospects := if x.prospect.Some? then db.prospects[x.row.prospect := x.prospect.value] else db.prospects,
        trials := if x.trial.Some? && x.row.variant.Some?
                  then db.trials[(x.who.tenant, x.row.variant.value) := x.trial.value] else db.trials,
        followups := if x.job.Some? then db.followups[JobKey(x) := x.job.value] else db.followups)
  }

  lemma MergeTouchesOnlyHeldRows(db: Db, x: Txn, l: Locks)
    requires Disjoint(Held(x), l)
    ensures RowsKept(db, Merged(db, x), l)
  {
  }

  function BoxOf(x: Txn): string { match x.spend.box case Some(m) => m case None => "" }

  function SendOf(x: Txn): Send {
    Send(x.origin.touch, x.row, x.who, BoxOf(x), x.spend.days, x.origin.month, x.origin.day, x.origin.began, x.clock, x.moved, x.origin.drip,
         x.origin.beginAt, x.haltAt, x.screenAt, x.frequencyAt, x.confidenceAt, x.persistAt)
  }

  function EventOf(x: Txn): Event {
    if x.pc.Commit? then Dispatch(SendOf(x))
    else Release(x.origin.touch, x.spend.days, if x.spend.box.Some? then Some(MailboxDay(x.spend.box.value, x.origin.day)) else None,
                 x.origin.beginAt)
  }

  // ---- the world ------------------------------------------------------------------------

  /** `sends` is what the provider was told, which no rollback takes back; `times` says when
      each event of the log committed. */
  datatype World = World(db: Db, txns: map<nat, Txn>, now: Time, log: seq<Event>, sends: seq<Id>, times: seq<Time>)

  datatype Step =
    | Begin(t: nat, touch: Id, month: int, day: int, drip: Option<Drip>)
    | Run(t: nat, oracle: Oracle)
    | Rollback(t: nat)
    | Finish(t: nat)
    | Other(event: Event)
    | Tick(seconds: nat)

  /** The picked mailbox is the least used of those pickable and not locked by another. */
  ghost predicate LeastUsed(w: World, t: nat, x: Txn, m: string) {
    var counters := w.db.counters + MissingDayRows(w.db, x.who.tenant, x.origin.day);
    forall n | Pickable(w.db, counters, x.who.tenant, x.origin.day, n) && Pickable(w.db, counters, x.who.tenant, x.origin.day, m)
             && forall u :: u in w.txns && u != t ==> MailboxDay(n, x.origin.day) !in w.txns[u].spend.counters
      :: counters[MailboxDay(m, x.origin.day)].used <= counters[MailboxDay(n, x.origin.day)].used
  }

  /** The step can be taken: no row it needs is locked by another open transaction. */
  ghost predicate Enabled(w: World, s: Step) {
    match s
    case Begin(t, touch, _, _, drip) =>
      && ValidConfig(drip) && t !in w.txns && touch in w.db.touches && w.db.touches[touch].status.Drafted?
      && w.db.touches[touch].prospect in w.db.prospects
    case Run(t, o) =>
      && t in w.txns && !w.txns[t].pc.Commit? && !w.txns[t].pc.CommitRefusal?
      && (w.txns[t].pc.PickMailbox? ==> LeastUsed(w, t, w.txns[t], o.mailbox))
      && var next := Advance(w.db, w.now, |w.log|, w.txns[t], o);
         next.Some? ==> forall u :: u in w.txns && u != t ==> Disjoint(Held(next.value), Held(w.txns[u]))
    case Rollback(t) => t in w.txns
    case Finish(t) => t in w.txns && (w.txns[t].pc.CommitRefusal? || (w.txns[t].pc.Commit? && w.txns[t].spend.box.Some?))
    case Other(e) =>
      && !e.Dispatch? && !e.Release? && Guard(w.db, e)
      && (e.Draft? || e.Park? ==> e.row.created == w.now)
      && (e.Resolve? ==> e.stamp <= w.now)
      && (e.Forget? ==> forall u :: u in w.txns ==> Disjoint(DeletionRows(w.db, e.entities), Held(w.txns[u])))
      && forall u :: u in w.txns ==> RowsKept(w.db, Apply(w.db, e), Held(w.txns[u]))
    case Tick(_) => true
  }

  function Take(w: World, s: Step): World
    requires Enabled(w, s)
  {
    match s
    case Begin(t, touch, month, day, drip) =>
      var row := w.db.touches[touch];
      w.(txns := w.txns[t := Started(touch, row, w.db.prospects[row.prospect], w.now, month, day, drip, |w.log|)])
    case Run(t, o) =>
      var next := Advance(w.db, w.now, |w.log|, w.txns[t], o);
      var told := if w.txns[t].pc.SendOut? then w.sends + [w.txns[t].origin.touch] else w.sends;
      if next.None? then w.(txns := w.txns - {t})
      else w.(txns := w.txns[t := next.value], sends := told)
    case Rollback(t) => w.(txns := w.txns - {t})
    case Finish(t) =>
      w.(db := Merged(w.db, w.txns[t]), txns := w.txns - {t}, log := w.log + [EventOf(w.txns[t])], times := w.times + [w.now])
    case Other(e) => w.(db := Apply(w.db, e), log := w.log + [e], times := w.times + [w.now])
    case Tick(d) => w.(now := w.now + d)
  }
}
