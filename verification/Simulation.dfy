/** Every interleaved run of deliver transactions commits a valid history: each transaction
    that commits had, at that moment, rows meeting the Ledger's guard, and changes the
    committed tables exactly as the Ledger's one atomic event does. */
module Simulation {
  import opened Options
  import opened Tables
  import opened Ledger
  import opened Budgets
  import opened Interleaving

  /** Position on the accepting path; refusing transactions have left it. */
  function Rank(pc: Pc): nat {
    match pc
    case Load => 0 case HaltGate => 1 case Screen => 2 case Frequency => 3 case TenantBudget => 4
    case CohortBudget => 5 case PickMailbox => 6 case Confidence => 7 case Persist => 8 case SendOut => 9
    case Trial => 10 case ReadState => 11 case Transit => 12 case Mark => 13 case Commit => 14
    case Refuse => 20 case CommitRefusal => 21
  }

  predicate Refusing(x: Txn) { x.pc.Refuse? || x.pc.CommitRefusal? }
  predicate Past(x: Txn, pc: Pc) { !Refusing(x) && Rank(x.pc) > Rank(pc) }

  // ---- what an open transaction knows, table by table -----------------------------------

  ghost predicate SnapshotOk(db: Db, x: Txn) {
    && x.origin.touch in db.touches && SameDraft(db.touches[x.origin.touch], x.row)
    && x.row.prospect in db.prospects && SameIdentity(db.prospects[x.row.prospect], x.who)
    && x.row.created <= x.origin.began <= x.clock && ValidConfig(x.origin.drip)
    && (!x.pc.Load? ==> x.who.email.Some?)
  }

  ghost predicate GatesOk(db0: Db, log: seq<Event>, x: Txn) {
    EarlyGates(db0, log, x) && LateGates(db0, log, x)
  }

  ghost predicate EarlyGates(db0: Db, log: seq<Event>, x: Txn) {
    && BeganOnDraft(db0, log, x.origin.touch, x.origin.beginAt)
    && x.origin.beginAt <= x.haltAt <= |log| && x.screenAt <= |log|
    && (Past(x, HaltGate) ==> !Halted(Replay(db0, log[..x.haltAt]), x.who.tenant))
    && (Past(x, Screen) ==> ScreenHeld(db0, log, x))
  }

  ghost predicate LateGates(db0: Db, log: seq<Event>, x: Txn) {
    && x.confidenceAt <= |log| && x.persistAt <= |log|
    && (Past(x, Confidence) ==> ConfidenceHeld(db0, log, x))
    && (Past(x, Persist) ==> PersistHeld(db0, log, x))
  }

  ghost predicate PersistHeld(db0: Db, log: seq<Event>, x: Txn)
    requires x.persistAt <= |log|
  {
    x.confidenceAt <= x.persistAt && Claimable(Replay(db0, log[..x.persistAt]), x.row.prospect, x.origin.began)
  }

  ghost predicate ScreenHeld(db0: Db, log: seq<Event>, x: Txn)
    requires x.screenAt <= |log|
  {
    && x.haltAt <= x.screenAt && x.who.email.Some?
    && !Suppressed(Replay(db0, log[..x.screenAt]), x.who.email.value, x.who.tenant, x.origin.began)
  }

  ghost predicate ConfidenceHeld(db0: Db, log: seq<Event>, x: Txn)
    requires x.confidenceAt <= |log|
  {
    && x.screenAt <= x.confidenceAt && x.who.email.Some?
    && Sendable(Replay(db0, log[..x.confidenceAt]), x.who.email.value, x.who.tenant)
  }

  predicate GovernedBy(db: Db, x: Txn) {
    && x.who.entity in db.entities
    && (ProfileOf(x.row.kind) == COLD ==> FrequencyOk(db.entities[x.who.entity], x.clock))
    && (ProfileOf(x.row.kind) == FOLLOWUP ==> ContinuationOk(db.touches, db.entities[x.who.entity], x.row.prospect))
  }

  predicate EntityOk(db: Db, x: Txn) {
    && (x.pc.Frequency? || x.pc.TenantBudget? || x.pc.CohortBudget? ==> Contacting(x))
    && (Past(x, Frequency) ==> x.entity.Some? == Contacting(x))
    && (Past(x, Frequency) && Contacting(x) ==> GovernedBy(db, x))
    && (!Refusing(x) && !Past(x, Frequency) ==> x.entity.None?)
    && (x.entity.Some? ==> x.who.entity in db.entities && x.entity.value == EntityWrite(db, x))
  }

  function EntityWrite(db: Db, x: Txn): Entity
    requires x.who.entity in db.entities
  {
    var e := db.entities[x.who.entity];
    if Past(x, Mark) then AfterContact(e, x.origin.touch, x.origin.began, PlanAfter(x.origin.drip, x.row))
    else if Past(x, Persist) then AfterContact(e, x.origin.touch, x.origin.began, NoPlan)
    else e
  }

  predicate BudgetStage(x: Txn) {
    if Refusing(x) then x.spend.budget == Untouched || (x.spend.budget == Returned && Contacting(x))
    else if !Contacting(x) || Rank(x.pc) <= Rank(TenantBudget) then x.spend.budget == Untouched
    else if x.pc.CohortBudget? then x.spend.budget == TenantTaken
    else x.spend.budget == BothTaken
  }

  function MonthWrites(counters: map<CounterKey, Counter>, x: Txn): map<CounterKey, Counter> {
    var t, c := TenantMonthOf(x), CohortMonthOf(x);
    match x.spend.budget
    case Untouched => map[]
    case TenantTaken => if t in counters then map[t := Bump(counters[t])] else map[]
    case BothTaken => if t in counters && c in counters then map[t := Bump(counters[t]), c := Bump(counters[c])] else map[]
    case Returned => if t in counters && c in counters then map[t := counters[t], c := counters[c]] else map[]
  }

  function BoxWrites(counters: map<CounterKey, Counter>, x: Txn): map<CounterKey, Counter> {
    if x.spend.box.Some? && MailboxDay(x.spend.box.value, x.origin.day) in counters + x.spend.days then
      x.spend.days[MailboxDay(x.spend.box.value, x.origin.day) := Bump((counters + x.spend.days)[MailboxDay(x.spend.box.value, x.origin.day)])]
    else map[]
  }

  predicate CountersOk(counters: map<CounterKey, Counter>, x: Txn) {
    && BudgetStage(x)
    && (Past(x, PickMailbox) ==> x.spend.box.Some?)
    && (!Refusing(x) && !Past(x, PickMailbox) ==> x.spend.box.None?)
    && (x.spend.box.None? ==> x.spend.days == map[])
    && (forall k :: k in x.spend.days ==> k.MailboxDay? && k !in counters && x.spend.days[k].used == 0)
    && (x.spend.box.Some? ==> HasRoom(counters + x.spend.days, MailboxDay(x.spend.box.value, x.origin.day)))
    && (x.spend.budget != Untouched ==> HasRoom(counters, TenantMonthOf(x)))
    && (x.spend.budget == BothTaken || x.spend.budget == Returned ==> HasRoom(counters, CohortMonthOf(x)))
    && x.spend.counters == MonthWrites(counters, x) + BoxWrites(counters, x)
  }

  predicate TouchOk(db: Db, x: Txn) {
    && (!Past(x, Persist) && !x.pc.CommitRefusal? ==> x.written.None?)
    && (Past(x, Persist) ==> x.spend.box.Some? && x.origin.touch in db.touches && db.touches[x.origin.touch] == x.row && x.row.status.Drafted?)
    && (Past(x, Persist) ==>
          x.written == Some(x.row.(status := if x.pc.Commit? then Dispatched else Claimed, mailbox := x.spend.box)))
    && (x.pc.CommitRefusal? ==> x.origin.touch in db.touches && x.written == Some(db.touches[x.origin.touch].(status := Released)))
  }

  predicate TrialOk(db: Db, x: Txn) {
    && (!Past(x, Trial) ==> x.trial.None?)
    && (Past(x, Trial) ==> x.trial.Some? == x.row.variant.Some?)
    && (x.trial.Some? ==> x.row.variant.Some?)
    && (x.trial.Some? ==> x.trial.value == NextTrial(db.trials, (x.who.tenant, x.row.variant.value)))
  }

  predicate ProspectOk(db: Db, x: Txn) {
    && x.prospect.Some? == x.moved && (x.moved ==> Past(x, Transit))
    && (x.moved ==> x.row.prospect in db.prospects && db.prospects[x.row.prospect].state == Queued)
    && (x.moved ==> x.prospect.value == db.prospects[x.row.prospect].(state := Contacted))
  }

  predicate JobOk(db: Db, x: Txn) {
    && (!x.pc.Commit? ==> x.job.None?)
    && (x.pc.Commit? && PlanAfter(x.origin.drip, x.row).NextStep? ==>
          if x.job.Some? then x.job.value == x.origin.began + PlanAfter(x.origin.drip, x.row).gapDays * SECONDS_PER_DAY
          else JobKey(x) in db.followups)
    && (x.job.Some? ==> JobKey(x) !in db.followups && PlanAfter(x.origin.drip, x.row).NextStep?)
  }

  /** The rows it has locked have kept deletions of its entity waiting. */
  ghost predicate WaitedFor(log: seq<Event>, x: Txn) {
    && (x.entity.Some? ==> x.frequencyAt <= |log| && NotDeletedSince(log, x.who.entity, x.frequencyAt))
    && (Past(x, Frequency) && Contacting(x) ==> x.screenAt <= x.frequencyAt)
    && (Past(x, Confidence) && Contacting(x) ==> x.frequencyAt <= x.confidenceAt)
    && (Past(x, Persist) ==> x.persistAt <= |log| && NotDeletedSince(log, x.who.entity, x.persistAt))
  }

  ghost predicate TxnOk(db0: Db, log: seq<Event>, db: Db, x: Txn) {
    && SnapshotOk(db, x) && GatesOk(db0, log, x) && EntityOk(db, x) && CountersOk(db.counters, x)
    && TouchOk(db, x) && TrialOk(db, x) && ProspectOk(db, x) && JobOk(db, x) && WaitedFor(log, x)
  }

  // ---- one statement keeps it -----------------------------------------------------------

  lemma BeginOk(db0: Db, log: seq<Event>, db: Db, touch: Id, now: Time, month: int, day: int, drip: Option<Drip>)
    requires ValidConfig(drip) && touch in db.touches && db.touches[touch].status.Drafted? && db.touches[touch].prospect in db.prospects
    requires db.touches[touch].created <= now && db == Replay(db0, log)
    ensures TxnOk(db0, log, db, Started(touch, db.touches[touch], db.prospects[db.touches[touch].prospect], now, month, day, drip, |log|))
  {
    assert log[..|log|] == log;
  }

  predicate Follows(x: Txn, next: Pc) {
    match x.pc
    case Load => next == HaltGate
    case HaltGate => next == Screen
    case Screen => next == Refuse || next == (if Contacting(x) then Frequency else PickMailbox)
    case Frequency => next == Refuse || next == TenantBudget
    case TenantBudget => next == CohortBudget
    case CohortBudget => next == PickMailbox
    case PickMailbox => next == Confidence
    case Confidence => next == Refuse || next == Persist
    case Persist => next == SendOut
    case SendOut => next == Trial
    case Trial => next == ReadState
    case ReadState => next == Transit || next == Mark
    case Transit => next == Mark
    case Mark => next == Commit
    case Refuse => next == CommitRefusal
    case _ => false
  }

  /** One statement of the open transaction x leads to y. */
  predicate Moves(db: Db, now: Time, at: nat, x: Txn, o: Oracle, y: Txn) {
    !x.pc.Commit? && !x.pc.CommitRefusal? && Advance(db, now, at, x, o) == Some(y)
  }

  predicate SpendsBudget(pc: Pc) { pc.TenantBudget? || pc.CohortBudget? || pc.PickMailbox? || pc.Confidence? }

  lemma StatementFollows(db: Db, now: Time, at: nat, x: Txn, o: Oracle, y: Txn)
    requires Moves(db, now, at, x, o, y)
    ensures Follows(x, y.pc)
  {
    hide Suppressed, FrequencyOk, ContinuationOk, BarredInAnyScope, Halted, Sendable, PlanAfter, AfterContact, HasRoom, MissingDayRows, Pickable, Bump, Lowered;
  }

  /** Which statement moves which part of the transaction. */
  lemma StatementFrame(db: Db, now: Time, at: nat, x: Txn, o: Oracle, y: Txn)
    requires Moves(db, now, at, x, o, y)
    ensures y.origin == x.origin
    ensures !x.pc.Load? ==> y.who == x.who
    ensures !x.pc.Load? && !x.pc.Persist? ==> y.row == x.row
  {
    hide Suppressed, FrequencyOk, ContinuationOk, BarredInAnyScope, Halted, Sendable, PlanAfter, AfterContact, HasRoom, MissingDayRows, Pickable, Bump, Lowered;
  }

  lemma StatementFrameSpending(db: Db, now: Time, at: nat, x: Txn, o: Oracle, y: Txn)
    requires Moves(db, now, at, x, o, y)
    ensures !SpendsBudget(x.pc) ==> y.spend == x.spend
  {
    hide Suppressed, FrequencyOk, ContinuationOk, BarredInAnyScope, Halted, PlanAfter, AfterContact;
  }

  lemma StatementFrameClaim(db: Db, now: Time, at: nat, x: Txn, o: Oracle, y: Txn)
    requires Moves(db, now, at, x, o, y)
    ensures !x.pc.Frequency? && !x.pc.Persist? && !x.pc.Mark? ==> y.entity == x.entity
    ensures !x.pc.Frequency? ==> y.clock == x.clock
    ensures !x.pc.Persist? && !x.pc.Mark? && !x.pc.Refuse? ==> y.written == x.written
  {
    hide Suppressed, FrequencyOk, ContinuationOk, BarredInAnyScope, Halted, Sendable, PlanAfter, AfterContact, HasRoom, MissingDayRows, Pickable, Bump, Lowered;
  }

  lemma StatementFrameDispatch(db: Db, now: Time, at: nat, x: Txn, o: Oracle, y: Txn)
    requires Moves(db, now, at, x, o, y)
    ensures !x.pc.Trial? ==> y.trial == x.trial
    ensures !x.pc.Transit? ==> y.prospect == x.prospect && y.moved == x.moved
    ensures !x.pc.Mark? ==> y.job == x.job
  {
    hide Suppressed, FrequencyOk, ContinuationOk, BarredInAnyScope, Halted, Sendable, PlanAfter, AfterContact, HasRoom, MissingDayRows, Pickable, Bump, Lowered;
  }

  lemma StatementFrameGates(db: Db, now: Time, at: nat, x: Txn, o: Oracle, y: Txn)
    requires Moves(db, now, at, x, o, y)
    ensures
      && (if x.pc.HaltGate? then y.haltAt == at && !Halted(db, x.who.tenant) else y.haltAt == x.haltAt)
      && (if x.pc.Screen? && !y.pc.Refuse?
          then y.screenAt == at && x.who.email.Some? && !Suppressed(db, x.who.email.value, x.who.tenant, x.origin.began)
          else y.screenAt == x.screenAt)
      && (if x.pc.Confidence? && !y.pc.Refuse?
          then y.confidenceAt == at && x.who.email.Some? && Sendable(db, x.who.email.value, x.who.tenant)
          else y.confidenceAt == x.confidenceAt)
      && (if x.pc.Frequency? then y.entity == x.entity || y.frequencyAt == at else y.frequencyAt == x.frequencyAt)
      && (if x.pc.Persist? then y.persistAt == at && Claimable(db, x.row.prospect, x.origin.began)
          else y.persistAt == x.persistAt)
  {
    hide Suppressed, FrequencyOk, ContinuationOk, BarredInAnyScope, Halted, Sendable, PlanAfter, AfterContact, HasRoom, MissingDayRows, Pickable, Bump, Lowered;
  }

  lemma SnapshotStep(db: Db, now: Time, at: nat, x: Txn, o: Oracle, y: Txn)
    requires Moves(db, now, at, x, o, y) && SnapshotOk(db, x) && x.origin.began <= now
    ensures SnapshotOk(db, y)
  {
    hide HasRoom, Suppressed, FrequencyOk, ContinuationOk, MissingDayRows, Pickable, PlanAfter, BarredInAnyScope;
  }

  lemma EarlyGatesStep(db0: Db, log: seq<Event>, db: Db, now: Time, x: Txn, o: Oracle, y: Txn)
    requires Moves(db, now, |log|, x, o, y) && EarlyGates(db0, log, x)
    requires db == Replay(db0, log)
    ensures EarlyGates(db0, log, y)
  {
    hide Moves, Suppressed, Halted, Sendable, Replay, Claimable;
    StatementFollows(db, now, |log|, x, o, y);
    StatementFrame(db, now, |log|, x, o, y);
    StatementFrameGates(db, now, |log|, x, o, y);
    assert log[..|log|] == log;
  }

  lemma ConfidenceGateStep(db0: Db, log: seq<Event>, x: Txn, y: Txn)
    requires Follows(x, y.pc) && y.origin == x.origin && (!x.pc.Load? ==> y.who == x.who)
    requires x.screenAt <= |log| && LateGates(db0, log, x)
    requires y.screenAt == x.screenAt || x.pc.Screen?
    requires if x.pc.Confidence? && !y.pc.Refuse?
      then y.confidenceAt == |log| && x.who.email.Some? && Sendable(Replay(db0, log[..|log|]), x.who.email.value, x.who.tenant)
      else y.confidenceAt == x.confidenceAt
    ensures y.confidenceAt <= |log| && (Past(y, Confidence) ==> ConfidenceHeld(db0, log, y))
  {
    hide Sendable, Replay, PersistHeld;
  }

  lemma PersistGateStep(db0: Db, log: seq<Event>, x: Txn, y: Txn)
    requires Follows(x, y.pc) && y.origin == x.origin && (!x.pc.Load? ==> y.row.prospect == x.row.prospect)
    requires LateGates(db0, log, x)
    requires y.confidenceAt == x.confidenceAt || x.pc.Confidence?
    requires if x.pc.Persist? then y.persistAt == |log| && Claimable(Replay(db0, log[..|log|]), x.row.prospect, x.origin.began)
      else y.persistAt == x.persistAt
    ensures y.persistAt <= |log| && (Past(y, Persist) ==> PersistHeld(db0, log, y))
  {
    hide Claimable, Replay, ConfidenceHeld;
  }

  lemma LateGatesStep(db0: Db, log: seq<Event>, db: Db, now: Time, x: Txn, o: Oracle, y: Txn)
    requires Moves(db, now, |log|, x, o, y) && SnapshotOk(db, x)
    requires EarlyGates(db0, log, x) && LateGates(db0, log, x)
    requires db == Replay(db0, log)
    ensures LateGates(db0, log, y)
  {
    assert x.screenAt <= |log|;
    hide EarlyGates, Moves, Suppressed, Halted, Sendable, Replay, Claimable, ConfidenceHeld, PersistHeld;
    RowKeepsIdentity(db, now, |log|, x, o, y);
    hide SnapshotOk;
    StatementFollows(db, now, |log|, x, o, y);
    StatementFrame(db, now, |log|, x, o, y);
    StatementFrameGates(db, now, |log|, x, o, y);
    hide Follows;
    assert log[..|log|] == log;
    ConfidenceGateStep(db0, log, x, y);
    PersistGateStep(db0, log, x, y);
  }

  lemma GatesStep(db0: Db, log: seq<Event>, db: Db, now: Time, x: Txn, o: Oracle, y: Txn)
    requires Moves(db, now, |log|, x, o, y) && SnapshotOk(db, x) && GatesOk(db0, log, x)
    requires db == Replay(db0, log)
    ensures GatesOk(db0, log, y)
  {
    hide Moves, SnapshotOk, EarlyGates, LateGates, Replay;
    EarlyGatesStep(db0, log, db, now, x, o, y);
    LateGatesStep(db0, log, db, now, x, o, y);
  }

  /** The row is re-read once, when the claim locks it: what never changes has not changed. */
  lemma RowKeepsIdentity(db: Db, now: Time, at: nat, x: Txn, o: Oracle, y: Txn)
    requires Moves(db, now, at, x, o, y) && SnapshotOk(db, x)
    ensures
      !x.pc.Load? ==> SameDraft(y.row, x.row) && JobKey(y) == JobKey(x) && PlanAfter(y.origin.drip, y.row) == PlanAfter(x.origin.drip, x.row)
  {
    StatementFrame(db, now, at, x, o, y);
    if !x.pc.Persist? {
      hide Moves;
    }
  }

  lemma FrequencyEntity(db: Db, x: Txn, now: Time, at: nat)
    requires x.pc.Frequency? && EntityOk(db, x)
    ensures var y := DoFrequency(db, x, now, at); y.Some? ==> EntityOk(db, y.value)
  {
    hide FrequencyOk, ContinuationOk, PlanAfter, AfterContact;
  }

  lemma PersistEntity(db: Db, x: Txn, at: nat)
    requires x.pc.Persist? && SnapshotOk(db, x) && EntityOk(db, x)
    ensures var y := DoPersist(db, x, at); y.Some? ==> EntityOk(db, y.value)
  {
    hide FrequencyOk, ContinuationOk, PlanAfter, BarredInAnyScope;
  }

  lemma MarkEntity(db: Db, x: Txn)
    requires x.pc.Mark? && EntityOk(db, x)
    ensures var y := DoMark(db, x); y.Some? ==> EntityOk(db, y.value)
  {
    hide FrequencyOk, ContinuationOk, PlanAfter;
  }

  /** Statements that do not write the entity. */
  lemma OtherEntityStep(db: Db, x: Txn, y: Txn)
    requires EntityOk(db, x) && Follows(x, y.pc) && !x.pc.Frequency? && !x.pc.Persist? && !x.pc.Mark?
    requires y.origin == x.origin && y.entity == x.entity && y.clock == x.clock
    requires !x.pc.Load? ==> y.who == x.who && y.row == x.row
    ensures EntityOk(db, y)
  {
    hide FrequencyOk, ContinuationOk, PlanAfter, AfterContact;
  }

  lemma EntityStep(db: Db, now: Time, at: nat, x: Txn, o: Oracle, y: Txn)
    requires Moves(db, now, at, x, o, y) && SnapshotOk(db, x) && EntityOk(db, x)
    ensures EntityOk(db, y)
  {
    hide EntityOk, SnapshotOk, DoFrequency, DoPersist, DoMark;
    if x.pc.Frequency? || x.pc.Persist? || x.pc.Mark? {
      match x.pc {
        case Frequency => FrequencyEntity(db, x, now, at);
        case Persist => PersistEntity(db, x, at);
        case Mark => MarkEntity(db, x);
      }
    } else {
      hide Moves;
      StatementFollows(db, now, at, x, o, y);
      StatementFrame(db, now, at, x, o, y);
      StatementFrameClaim(db, now, at, x, o, y);
      OtherEntityStep(db, x, y);
    }
  }

  lemma TenantBudgetStep(db: Db, x: Txn)
    requires x.pc.TenantBudget? && CountersOk(db.counters, x) && Contacting(x)
    ensures var y := DoTenantBudget(db, x); y.Some? ==> CountersOk(db.counters, y.value)
  {
  }

  lemma CohortBudgetStep(db: Db, x: Txn)
    requires x.pc.CohortBudget? && CountersOk(db.counters, x) && Contacting(x)
    ensures var y := DoCohortBudget(db, x); y.Some? ==> CountersOk(db.counters, y.value)
  {
  }

  lemma OpenedRowsAreFresh(db: Db, x: Txn)
    ensures forall k :: k in MissingDayRows(db, x.who.tenant, x.origin.day) ==>
      k.MailboxDay? && k !in db.counters && MissingDayRows(db, x.who.tenant, x.origin.day)[k].used == 0
  {
  }

  lemma SameMonths(counters: map<CounterKey, Counter>, x: Txn, y: Txn)
    requires y.spend.budget == x.spend.budget && y.who == x.who && y.origin == x.origin
    ensures MonthWrites(counters, y) == MonthWrites(counters, x)
  {
  }

  lemma PickedStage(x: Txn, y: Txn)
    requires x.pc.PickMailbox? && y.pc.Confidence? && BudgetStage(x) && y.spend.budget == x.spend.budget
    requires y.row.kind == x.row.kind
    ensures BudgetStage(y)
  {
  }

  lemma Picked(counters: map<CounterKey, Counter>, x: Txn, y: Txn, m: string, days: map<CounterKey, Counter>)
    requires x.pc.PickMailbox? && CountersOk(counters, x)
    requires forall k :: k in days ==> k.MailboxDay? && k !in counters && days[k].used == 0
    requires var k := MailboxDay(m, x.origin.day);
      && HasRoom(counters + days, k)
      && y == x.(pc := Confidence, spend := Spend(x.spend.budget, days, Some(m),
                   x.spend.counters + days[k := Bump((counters + days)[k])]))
    ensures CountersOk(counters, y)
  {
    SameMonths(counters, x, y);
    PickedStage(x, y);
    hide MonthWrites, BudgetStage, Bump;
    assert x.spend.counters == MonthWrites(counters, x);
  }

  lemma PickMailboxStep(db: Db, x: Txn, m: string)
    requires x.pc.PickMailbox? && CountersOk(db.counters, x)
    ensures var y := DoPickMailbox(db, x, m); y.Some? ==> CountersOk(db.counters, y.value)
  {
    hide MissingDayRows, CountersOk, Bump;
    var y := DoPickMailbox(db, x, m);
    if y.Some? {
      OpenedRowsAreFresh(db, x);
      Picked(db.counters, x, y.value, m, MissingDayRows(db, x.who.tenant, x.origin.day));
    }
  }

  /** Compensation returns the month counters to exactly their committed rows. */
  lemma Compensated(counters: map<CounterKey, Counter>, x: Txn)
    requires x.pc.Confidence? && CountersOk(counters, x) && Contacting(x)
    ensures TenantMonthOf(x) in x.spend.counters && CohortMonthOf(x) in x.spend.counters
    ensures x.spend.counters[TenantMonthOf(x) := Lowered(x.spend.counters[TenantMonthOf(x)])]
                      [CohortMonthOf(x) := Lowered(x.spend.counters[CohortMonthOf(x)])]
         == map[TenantMonthOf(x) := counters[TenantMonthOf(x)], CohortMonthOf(x) := counters[CohortMonthOf(x)]]
            + BoxWrites(counters, x)
  {
    var t, c := TenantMonthOf(x), CohortMonthOf(x);
    assert t !in BoxWrites(counters, x) && c !in BoxWrites(counters, x);
  }

  lemma ConfidencePasses(db: Db, x: Txn, y: Txn)
    requires x.pc.Confidence? && CountersOk(db.counters, x) && y == x.(confidenceAt := y.confidenceAt, pc := Persist)
    ensures CountersOk(db.counters, y)
  {
    SameMonths(db.counters, x, y);
    hide MonthWrites, HasRoom;
  }

  lemma ConfidenceRefusesReply(db: Db, x: Txn)
    requires x.pc.Confidence? && CountersOk(db.counters, x) && !Contacting(x)
    ensures CountersOk(db.counters, x.(pc := Refuse))
  {
    SameMonths(db.counters, x, x.(pc := Refuse));
    hide MonthWrites, HasRoom;
  }

  lemma ConfidenceCompensates(db: Db, x: Txn, at: nat)
    requires x.pc.Confidence? && CountersOk(db.counters, x) && Contacting(x)
    requires !(x.who.email.Some? && Sendable(db, x.who.email.value, x.who.tenant))
    ensures var y := DoConfidence(db, x, at); y.Some? ==> CountersOk(db.counters, y.value)
  {
    hide Sendable;
    Compensated(db.counters, x);
    hide Lowered;
  }

  lemma ConfidenceStep(db: Db, x: Txn, at: nat)
    requires x.pc.Confidence? && CountersOk(db.counters, x)
    ensures var y := DoConfidence(db, x, at); y.Some? ==> CountersOk(db.counters, y.value)
  {
    hide Sendable, CountersOk, Lowered;
    if x.who.email.Some? && Sendable(db, x.who.email.value, x.who.tenant) {
      ConfidencePasses(db, x, x.(confidenceAt := at, pc := Persist));
    } else if Contacting(x) {
      ConfidenceCompensates(db, x, at);
    } else {
      ConfidenceRefusesReply(db, x);
    }
  }

  /** Statements that write no counter. */
  lemma OtherCountersStep(counters: map<CounterKey, Counter>, x: Txn, y: Txn)
    requires CountersOk(counters, x) && !SpendsBudget(x.pc) && Follows(x, y.pc)
    requires y.spend == x.spend
    requires y.origin == x.origin
    requires x.pc.Load? || (y.who == x.who && y.row.kind == x.row.kind)
    ensures CountersOk(counters, y)
  {
    hide HasRoom;
  }

  lemma CountersStep(db: Db, now: Time, at: nat, x: Txn, o: Oracle, y: Txn)
    requires Moves(db, now, at, x, o, y) && SnapshotOk(db, x) && EntityOk(db, x) && CountersOk(db.counters, x)
    ensures CountersOk(db.counters, y)
  {
    if SpendsBudget(x.pc) {
      hide MonthWrites, BoxWrites, HasRoom, DoTenantBudget, DoCohortBudget, DoPickMailbox, DoConfidence, CountersOk;
      match x.pc {
        case TenantBudget => TenantBudgetStep(db, x);
        case CohortBudget => CohortBudgetStep(db, x);
        case PickMailbox => PickMailboxStep(db, x, o.mailbox);
        case Confidence => ConfidenceStep(db, x, at);
      }
    } else {
      StatementFollows(db, now, at, x, o, y);
      StatementFrame(db, now, at, x, o, y);
      StatementFrameSpending(db, now, at, x, o, y);
      RowKeepsIdentity(db, now, at, x, o, y);
      hide Moves, CountersOk;
      OtherCountersStep(db.counters, x, y);
    }
  }

  lemma PersistTouch(db: Db, x: Txn, at: nat)
    requires x.pc.Persist? && TouchOk(db, x)
    ensures var y := DoPersist(db, x, at); y.Some? ==> TouchOk(db, y.value)
  {
    hide BarredInAnyScope, AfterContact;
  }

  lemma MarkTouch(db: Db, x: Txn)
    requires x.pc.Mark? && TouchOk(db, x)
    ensures var y := DoMark(db, x); y.Some? ==> TouchOk(db, y.value)
  {
    hide PlanAfter;
  }

  lemma TouchStep(db: Db, now: Time, at: nat, x: Txn, o: Oracle, y: Txn)
    requires Moves(db, now, at, x, o, y) && TouchOk(db, x)
    requires Past(x, PickMailbox) ==> x.spend.box.Some?
    ensures TouchOk(db, y)
  {
    if x.pc.Persist? || x.pc.Mark? {
      hide TouchOk, DoPersist, DoMark;
      match x.pc {
        case Persist => PersistTouch(db, x, at);
        case Mark => MarkTouch(db, x);
      }
    } else if !x.pc.Refuse? {
      hide Moves;
      StatementFollows(db, now, at, x, o, y);
      StatementFrame(db, now, at, x, o, y);
      StatementFrameClaim(db, now, at, x, o, y);
      BoxStays(db, now, at, x, o, y);
    }
  }

  lemma BoxStays(db: Db, now: Time, at: nat, x: Txn, o: Oracle, y: Txn)
    requires Moves(db, now, at, x, o, y)
    ensures Past(x, PickMailbox) ==> y.spend.box == x.spend.box
  {
    hide Sendable;
    if !SpendsBudget(x.pc) {
      StatementFrameSpending(db, now, at, x, o, y);
      hide Moves;
    }
  }

  lemma TrialStep(db: Db, now: Time, at: nat, x: Txn, o: Oracle, y: Txn)
    requires Moves(db, now, at, x, o, y) && SnapshotOk(db, x) && TrialOk(db, x)
    ensures TrialOk(db, y)
  {
    StatementFollows(db, now, at, x, o, y);
    StatementFrame(db, now, at, x, o, y);
    StatementFrameDispatch(db, now, at, x, o, y);
    RowKeepsIdentity(db, now, at, x, o, y);
    if !x.pc.Trial? {
      hide Moves;
    }
  }

  lemma ProspectStep(db: Db, now: Time, at: nat, x: Txn, o: Oracle, y: Txn)
    requires Moves(db, now, at, x, o, y) && SnapshotOk(db, x) && ProspectOk(db, x)
    ensures ProspectOk(db, y)
  {
    StatementFollows(db, now, at, x, o, y);
    StatementFrame(db, now, at, x, o, y);
    StatementFrameDispatch(db, now, at, x, o, y);
    RowKeepsIdentity(db, now, at, x, o, y);
    if !x.pc.Transit? {
      hide Moves;
    }
  }

  lemma JobStep(db: Db, now: Time, at: nat, x: Txn, o: Oracle, y: Txn)
    requires Moves(db, now, at, x, o, y) && JobOk(db, x)
    ensures JobOk(db, y)
  {
    StatementFollows(db, now, at, x, o, y);
    StatementFrame(db, now, at, x, o, y);
    StatementFrameDispatch(db, now, at, x, o, y);
    if !x.pc.Mark? {
      hide Moves;
    }
  }

  /** What a statement does to the positions, given what it does to the rest. */
  lemma WaitedMoves(log: seq<Event>, x: Txn, y: Txn)
    requires WaitedFor(log, x) && Follows(x, y.pc) && x.screenAt <= |log| && x.confidenceAt <= |log|
    requires !x.pc.Load? ==> y.who == x.who && y.row.kind == x.row.kind
    requires x.pc.Load? ==> x.entity.None? && y.entity.None?
    requires x.pc.Screen? || y.screenAt == x.screenAt
    requires if x.pc.Frequency? then y.entity.Some? ==> y.frequencyAt == |log| else y.frequencyAt == x.frequencyAt
    requires if x.pc.Confidence? && !y.pc.Refuse? then y.confidenceAt == |log| else y.confidenceAt == x.confidenceAt
    requires if x.pc.Persist? then y.persistAt == |log| else y.persistAt == x.persistAt
    requires !x.pc.Frequency? && !x.pc.Persist? && !x.pc.Mark? ==> y.entity == x.entity
    requires y.entity.Some? ==> x.entity.Some? || x.pc.Frequency?
    requires Past(y, Frequency) && Contacting(y) ==> y.entity.Some?
    ensures WaitedFor(log, y)
  {
  }

  lemma WaitedStep(db: Db, log: seq<Event>, now: Time, x: Txn, o: Oracle, y: Txn)
    requires Moves(db, now, |log|, x, o, y) && SnapshotOk(db, x) && EntityOk(db, x) && EntityOk(db, y) && WaitedFor(log, x)
    requires x.screenAt <= |log| && x.confidenceAt <= |log|
    ensures WaitedFor(log, y)
  {
    RowKeepsIdentity(db, now, |log|, x, o, y);
    EntityAppears(db, now, |log|, x, o, y);
    hide Moves, SnapshotOk, WaitedFor, PlanAfter;
    StatementFollows(db, now, |log|, x, o, y);
    StatementFrame(db, now, |log|, x, o, y);
    StatementFrameClaim(db, now, |log|, x, o, y);
    StatementFrameGates(db, now, |log|, x, o, y);
    WaitedMoves(log, x, y);
  }

  lemma EntityAppears(db: Db, now: Time, at: nat, x: Txn, o: Oracle, y: Txn)
    requires Moves(db, now, at, x, o, y)
    ensures y.entity.Some? ==> x.entity.Some? || x.pc.Frequency?
  {
    hide Suppressed, FrequencyOk, ContinuationOk, BarredInAnyScope, Halted, Sendable, PlanAfter, AfterContact, HasRoom, MissingDayRows, Pickable, Bump, Lowered;
  }

  lemma StatementKeeps(db0: Db, log: seq<Event>, db: Db, now: Time, x: Txn, o: Oracle, y: Txn)
    requires Moves(db, now, |log|, x, o, y) && TxnOk(db0, log, db, x) && x.origin.began <= now
    requires db == Replay(db0, log)
    ensures TxnOk(db0, log, db, y)
  {
    assert x.screenAt <= |log| && x.confidenceAt <= |log|;
    hide Moves, SnapshotOk, GatesOk, EntityOk, TouchOk, TrialOk, ProspectOk, JobOk, WaitedFor;
    SnapshotStep(db, now, |log|, x, o, y);
    GatesStep(db0, log, db, now, x, o, y);
    EntityStep(db, now, |log|, x, o, y);
    CountersStep(db, now, |log|, x, o, y);
    TouchStep(db, now, |log|, x, o, y);
    TrialStep(db, now, |log|, x, o, y);
    ProspectStep(db, now, |log|, x, o, y);
    JobStep(db, now, |log|, x, o, y);
    WaitedStep(db, log, now, x, o, y);
  }

  // ---- other transactions' commits do not disturb it ---------------------------------------

  ghost predicate Undisturbed(db: Db, next: Db, x: Txn) {
    RowsKept(db, next, Held(x)) && Continues(db, next)
  }

  /** A deletion that commits elsewhere has not touched what the transaction has locked. */
  ghost predicate Spares(e: Event, x: Txn) {
    e.Forget? && (x.entity.Some? || x.written.Some?) ==> x.who.entity !in e.entities
  }

  lemma WaitedFrame(log: seq<Event>, e: Event, x: Txn)
    requires WaitedFor(log, x) && Spares(e, x) && (Past(x, Persist) ==> x.written.Some?)
    ensures WaitedFor(log + [e], x)
  {
  }

  lemma DeletionSpares(db0: Db, log: seq<Event>, db: Db, e: Event, x: Txn)
    requires TxnOk(db0, log, db, x) && e.Forget? && Disjoint(DeletionRows(db, e.entities), Held(x))
    ensures Spares(e, x)
  {
    assert SnapshotOk(db, x);
    hide TxnOk;
    if x.written.Some? { assert x.origin.touch in Held(x).touches; }
    if x.entity.Some? { assert x.who.entity in Held(x).entities; }
  }

  lemma SnapshotFrame(db: Db, next: Db, x: Txn)
    requires SnapshotOk(db, x) && Continues(db, next)
    ensures SnapshotOk(next, x)
  {
  }

  lemma GatesFrame(db0: Db, log: seq<Event>, e: Event, x: Txn)
    requires GatesOk(db0, log, x)
    ensures GatesOk(db0, log + [e], x)
  {
    hide Replay, Suppressed, Halted, Sendable, Claimable;
    assert (log + [e])[..x.origin.beginAt] == log[..x.origin.beginAt];
    assert (log + [e])[..x.haltAt] == log[..x.haltAt];
    assert (log + [e])[..x.screenAt] == log[..x.screenAt];
    assert (log + [e])[..x.confidenceAt] == log[..x.confidenceAt];
    assert (log + [e])[..x.persistAt] == log[..x.persistAt];
  }

  lemma EntityFrame(db: Db, next: Db, x: Txn)
    requires EntityOk(db, x) && Undisturbed(db, next, x)
    ensures EntityOk(next, x)
  {
    hide FrequencyOk, AfterContact, PlanAfter;
    if x.entity.Some? {
      assert x.who.entity in Held(x).entities;
      assert next.entities[x.who.entity] == db.entities[x.who.entity];
    }
  }

  lemma CountersFrame(a: map<CounterKey, Counter>, b: map<CounterKey, Counter>, x: Txn)
    requires CountersOk(a, x) && SameOn(a, b, x.spend.counters.Keys)
    ensures CountersOk(b, x)
  {
    if x.spend.box.Some? {
      assert MailboxDay(x.spend.box.value, x.origin.day) in x.spend.counters;
      assert forall k :: k in x.spend.days ==> k in x.spend.counters;
    }
    if x.spend.budget != Untouched {
      assert TenantMonthOf(x) in x.spend.counters;
    }
    if x.spend.budget == BothTaken || x.spend.budget == Returned {
      assert CohortMonthOf(x) in x.spend.counters;
    }
    assert MonthWrites(a, x) == MonthWrites(b, x);
    assert BoxWrites(a, x) == BoxWrites(b, x);
  }

  lemma TouchFrame(db: Db, next: Db, x: Txn)
    requires TouchOk(db, x) && SnapshotOk(db, x) && Undisturbed(db, next, x)
    ensures TouchOk(next, x)
  {
    if x.written.Some? {
      assert x.origin.touch in Held(x).touches;
    }
  }

  lemma TrialFrame(db: Db, next: Db, x: Txn)
    requires TrialOk(db, x) && Undisturbed(db, next, x)
    ensures TrialOk(next, x)
  {
    if x.trial.Some? {
      assert (x.who.tenant, x.row.variant.value) in Held(x).trials;
    }
  }

  lemma ProspectFrame(db: Db, next: Db, x: Txn)
    requires ProspectOk(db, x) && Undisturbed(db, next, x)
    ensures ProspectOk(next, x)
  {
    if x.prospect.Some? {
      assert x.row.prospect in Held(x).prospects;
    }
  }

  lemma JobFrame(db: Db, next: Db, x: Txn)
    requires JobOk(db, x) && Undisturbed(db, next, x)
    ensures JobOk(next, x)
  {
    hide PlanAfter;
    if x.job.Some? {
      assert JobKey(x) in Held(x).jobs;
    }
  }

  /** A commit elsewhere that leaves x's rows alone leaves everything x knows true. */
  lemma OthersKeep(db0: Db, log: seq<Event>, e: Event, db: Db, next: Db, x: Txn)
    requires TxnOk(db0, log, db, x) && Undisturbed(db, next, x) && Spares(e, x)
    ensures TxnOk(db0, log + [e], next, x)
  {
    WaitedFrame(log, e, x);
    SnapshotFrame(db, next, x);
    GatesFrame(db0, log, e, x);
    EntityFrame(db, next, x);
    assert SameOn(db.counters, next.counters, Held(x).counters);
    CountersFrame(db.counters, next.counters, x);
    TouchFrame(db, next, x);
    TrialFrame(db, next, x);
    ProspectFrame(db, next, x);
    JobFrame(db, next, x);
    hide SnapshotOk, GatesOk, EntityOk, CountersOk, TouchOk, TrialOk, ProspectOk, JobOk, WaitedFor;
  }

  // ---- what a commit does --------------------------------------------------------------------

  lemma CommittedCounters(counters: map<CounterKey, Counter>, x: Txn)
    requires x.pc.Commit? && CountersOk(counters, x)
    ensures BoxKey(SendOf(x)) in counters + x.spend.days && HasRoom(counters + x.spend.days, BoxKey(SendOf(x)))
    ensures Contacting(x) ==> HasRoom(counters, TenantKey(SendOf(x))) && HasRoom(counters, CohortKey(SendOf(x)))
    ensures counters + x.spend.counters == Charged(counters, SendOf(x))
  {
    var s := SendOf(x);
    assert counters + x.spend.counters == counters + (MonthWrites(counters, x) + BoxWrites(counters, x));
    if Contacting(x) {
      assert x.spend.budget == BothTaken;
    }
  }

  lemma CommitPassedGates(db0: Db, log: seq<Event>, x: Txn)
    requires GatesOk(db0, log, x) && WaitedFor(log, x) && (Contacting(x) ==> x.entity.Some?) && x.pc.Commit?
    ensures GatesHeld(db0, log, SendOf(x))
  {
    hide NotDeletedSince, Suppressed, Sendable, Halted, Replay, Claimable;
  }

  lemma CommitAllowed(db0: Db, log: seq<Event>, db: Db, x: Txn)
    requires TxnOk(db0, log, db, x) && x.pc.Commit?
    ensures SendAllowed(db, SendOf(x))
  {
    hide FrequencyOk, ContinuationOk, HasRoom, MonthWrites, BoxWrites, PlanAfter, AfterContact, Tried, Planned, GatesOk, TrialOk, JobOk, EntityWrite;
    CommittedCounters(db.counters, x);
  }

  lemma CommitsJob(db: Db, x: Txn)
    requires JobOk(db, x) && x.pc.Commit?
    ensures (if x.job.Some? then db.followups[JobKey(x) := x.job.value] else db.followups)
         == Planned(db.followups, x.row.prospect, PlanAfter(x.origin.drip, x.row), x.origin.began)
  {
  }

  lemma CommitsRows(db: Db, x: Txn)
    requires EntityOk(db, x) && TrialOk(db, x) && x.pc.Commit? && SendAllowed(db, SendOf(x))
    requires CountersOk(db.counters, x)
    ensures Merged(db, x).entities == AfterDispatch(db, SendOf(x)).entities
    ensures Merged(db, x).trials == AfterDispatch(db, SendOf(x)).trials
  {
    hide FrequencyOk, ContinuationOk, MonthWrites, BoxWrites, PlanAfter, AfterContact, Planned, Charged, CountersOk, GovernedBy, NextTrial, HasRoom;
  }

  lemma CommitsTouch(db: Db, x: Txn)
    requires TouchOk(db, x) && ProspectOk(db, x) && x.pc.Commit? && SendAllowed(db, SendOf(x))
    ensures Merged(db, x).touches == AfterDispatch(db, SendOf(x)).touches
    ensures Merged(db, x).prospects == AfterDispatch(db, SendOf(x)).prospects
  {
    hide FrequencyOk, ContinuationOk, PlanAfter, AfterContact, Planned, Charged, Tried, HasRoom;
  }

  /** A merge touches six tables. */
  lemma MergedTables(db: Db, x: Txn, next: Db)
    requires next == db.(counters := next.counters, entities := next.entities, touches := next.touches,
                         prospects := next.prospects, trials := next.trials, followups := next.followups)
    requires Merged(db, x).counters == next.counters && Merged(db, x).entities == next.entities
    requires Merged(db, x).touches == next.touches && Merged(db, x).prospects == next.prospects
    requires Merged(db, x).trials == next.trials && Merged(db, x).followups == next.followups
    ensures Merged(db, x) == next
  {
  }

  /** So does a dispatch. */
  lemma DispatchedTables(db: Db, s: Send)
    requires SendAllowed(db, s)
    ensures var next := AfterDispatch(db, s);
      && next == db.(counters := next.counters, entities := next.entities, touches := next.touches,
                     prospects := next.prospects, trials := next.trials, followups := next.followups)
      && next.counters == Charged(db.counters, s)
      && next.followups == Planned(db.followups, s.row.prospect, PlanAfter(s.drip, s.row), s.began)
  {
    hide Charged, AfterContact, PlanAfter, Planned, Tried, FrequencyOk, ContinuationOk, HasRoom;
  }

  lemma CommitsCounters(db: Db, x: Txn)
    requires CountersOk(db.counters, x) && JobOk(db, x) && x.pc.Commit? && SendAllowed(db, SendOf(x))
    ensures Merged(db, x).counters == AfterDispatch(db, SendOf(x)).counters
    ensures Merged(db, x).followups == AfterDispatch(db, SendOf(x)).followups
  {
    CommittedCounters(db.counters, x);
    CommitsJob(db, x);
    DispatchedTables(db, SendOf(x));
    hide CountersOk, JobOk, AfterDispatch, Charged, Planned, PlanAfter, HasRoom, FrequencyOk, ContinuationOk;
  }

  /** The committed tables after a dispatching transaction are those of the one atomic event. */
  lemma CommitIsDispatch(db0: Db, log: seq<Event>, db: Db, x: Txn)
    requires TxnOk(db0, log, db, x) && x.pc.Commit? && SendAllowed(db, SendOf(x))
    ensures Merged(db, x) == AfterDispatch(db, SendOf(x))
  {
    hide GatesOk, JobOk, CountersOk, EntityOk, TrialOk, ProspectOk, SnapshotOk, TouchOk, AfterDispatch, Merged, FrequencyOk, ContinuationOk,
      SendOf, SameIdentity, ProfileOf;
    CommitsCounters(db, x);
    CommitsRows(db, x);
    CommitsTouch(db, x);
    DispatchedTables(db, SendOf(x));
    MergedTables(db, x, AfterDispatch(db, SendOf(x)));
  }

  lemma RefusalCounters(counters: map<CounterKey, Counter>, x: Txn)
    requires x.pc.CommitRefusal? && CountersOk(counters, x)
    ensures var widened := counters + x.spend.days;
      counters + x.spend.counters ==
      if x.spend.box.Some?
      then widened[MailboxDay(x.spend.box.value, x.origin.day) := Bump(widened[MailboxDay(x.spend.box.value, x.origin.day)])]
      else widened
  {
  }

  lemma RefusalWritesOnlyTouch(db: Db, x: Txn)
    requires x.pc.CommitRefusal? && TouchOk(db, x) && TrialOk(db, x) && ProspectOk(db, x) && JobOk(db, x)
    ensures x.trial.None? && x.prospect.None? && x.job.None?
    ensures x.origin.touch in db.touches && x.written == Some(db.touches[x.origin.touch].(status := Released))
  {
    hide PlanAfter, NextTrial;
  }

  lemma RefusalKeepsEntity(db: Db, x: Txn)
    requires x.pc.CommitRefusal? && EntityOk(db, x)
    ensures (if x.entity.Some? then db.entities[x.who.entity := x.entity.value] else db.entities) == db.entities
  {
    hide FrequencyOk, ContinuationOk, AfterContact, PlanAfter;
  }

  lemma RefusalIsAllowed(db: Db, x: Txn)
    requires x.pc.CommitRefusal? && CountersOk(db.counters, x) && x.origin.touch in db.touches
    ensures Guard(db, EventOf(x))
  {
    hide MonthWrites, BoxWrites, BudgetStage;
  }

  /** A refusing transaction that commits releases its touch, keeps its mailbox slot if it had
      one, and has given back whatever it took from the months. */
  lemma RefusalIsRelease(db0: Db, log: seq<Event>, db: Db, x: Txn)
    requires TxnOk(db0, log, db, x) && x.pc.CommitRefusal?
    ensures Guard(db, EventOf(x)) && Merged(db, x) == Apply(db, EventOf(x))
  {
    RefusalWritesOnlyTouch(db, x);
    RefusalKeepsEntity(db, x);
    RefusalCounters(db.counters, x);
    RefusalIsAllowed(db, x);
    hide SnapshotOk, GatesOk, EntityOk, CountersOk, TouchOk, TrialOk, ProspectOk, JobOk, Guard;
  }
}
