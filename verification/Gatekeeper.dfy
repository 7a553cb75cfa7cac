/** The claim and the deliver handler as they run, statement by statement, in one session:
    `GateStore` holds the tables as the open transaction sees them. Every outcome is tied to
    the Ledger: what a delivery commits is one of its events, and a raise commits nothing. */
module Gatekeeper {
  import opened Options
  import opened Tables
  import opened Ledger
  import opened Endings

  datatype Reason = HALTED | VALIDATION | SUPPRESSED | FREQUENCY | BUDGET | NO_CAPACITY | CONFIDENCE | INTERNAL

  /** The pinned order of the gates. */
  function Order(r: Reason): nat {
    match r
    case HALTED => 0 case VALIDATION => 1 case SUPPRESSED => 2 case FREQUENCY => 3
    case BUDGET => 4 case NO_CAPACITY => 5 case CONFIDENCE => 6 case INTERNAL => 7
  }

  /** A terminal refusal releases the draft; the others are retried. */
  predicate Terminal(r: Reason) {
    r == VALIDATION || r == SUPPRESSED || r == FREQUENCY || r == CONFIDENCE
  }

  /** A draft as loaded for the gates; `findings` says whether its content binding or a
      validator objects. */
  datatype GateDraft = GateDraft(touch: Id, row: Touch, who: Prospect, email: string, findings: bool,
                                 month: int, day: int, began: Time, clock: Time, drip: Option<Drip>)

  datatype Claim = ClaimedTouch(box: string) | Refusal(reason: Reason)

  datatype Outcome = Skipped | Raised | ReleasedFor(reason: Reason) | SentOut(send: Send)

  datatype Adjustment = Adjustment(key: CounterKey, delta: int)

  function CountersWithDays(db: Db, d: GateDraft): map<CounterKey, Counter> {
    db.counters + MissingDayRows(db, d.who.tenant, d.day)
  }

  function MonthOfTenant(d: GateDraft): CounterKey { TenantMonth(d.who.tenant, d.month) }
  function MonthOfCohort(d: GateDraft): CounterKey { CohortMonth(d.who.cohort, d.month) }

  /** The counters once both months are charged; a reply charges none. */
  function MonthsCharged(counters: map<CounterKey, Counter>, d: GateDraft): map<CounterKey, Counter> {
    if ProfileOf(d.row.kind) == REPLY || MonthOfTenant(d) !in counters || MonthOfCohort(d) !in counters then counters
    else counters[MonthOfTenant(d) := Bump(counters[MonthOfTenant(d)])][MonthOfCohort(d) := Bump(counters[MonthOfCohort(d)])]
  }

  function SlotTaken(counters: map<CounterKey, Counter>, k: CounterKey): map<CounterKey, Counter> {
    if k in counters then counters[k := Bump(counters[k])] else counters
  }

  function Adjusted(c: Counter, delta: int): Counter {
    c.(used := if c.used + delta > 0 then c.used + delta else 0)
  }

  /** What each gate demands of the tables as they were when the claim began. */
  ghost predicate Passes(db: Db, d: GateDraft, r: Reason) {
    match r
    case HALTED => !Halted(db, d.who.tenant)
    case VALIDATION => !d.findings
    case SUPPRESSED => !Suppressed(db, d.email, d.who.tenant, d.began)
    case FREQUENCY =>
      && (ProfileOf(d.row.kind) == COLD ==> d.who.entity in db.entities && FrequencyOk(db.entities[d.who.entity], d.clock))
      && (ProfileOf(d.row.kind) == FOLLOWUP ==>
            d.who.entity in db.entities && ContinuationOk(db.touches, db.entities[d.who.entity], d.row.prospect))
    case BUDGET =>
      ProfileOf(d.row.kind) != REPLY ==> HasRoom(db.counters, MonthOfTenant(d)) && HasRoom(db.counters, MonthOfCohort(d))
    case NO_CAPACITY => exists m :: Pickable(db, CountersWithDays(db, d), d.who.tenant, d.day, m)
    case CONFIDENCE => Sendable(db, d.email, d.who.tenant)
    case INTERNAL =>
      && d.touch in db.touches && db.touches[d.touch].status.Drafted?
      && d.row.prospect in db.prospects && !BarredInAnyScope(db, db.prospects[d.row.prospect].email, d.began)
  }

  /** The first n gates of the pinned order pass. */
  ghost predicate PassesFirst(db: Db, d: GateDraft, n: nat) {
    && (n > 0 ==> Passes(db, d, HALTED)) && (n > 1 ==> Passes(db, d, VALIDATION))
    && (n > 2 ==> Passes(db, d, SUPPRESSED)) && (n > 3 ==> Passes(db, d, FREQUENCY))
    && (n > 4 ==> Passes(db, d, BUDGET)) && (n > 5 ==> Passes(db, d, NO_CAPACITY))
    && (n > 6 ==> Passes(db, d, CONFIDENCE)) && (n > 7 ==> Passes(db, d, INTERNAL))
  }

  /** The refusal is at the first gate, in the pinned order, that does not pass. */
  ghost predicate FirstFailing(db: Db, d: GateDraft, r: Reason) {
    PassesFirst(db, d, Order(r)) && !Passes(db, d, r)
  }

  /** There is only one such gate: the refusal reason is determined by the tables. */
  lemma RefusalIsDetermined(db: Db, d: GateDraft, q: Reason, r: Reason)
    requires FirstFailing(db, d, q) && FirstFailing(db, d, r)
    ensures q == r
  {
    hide Passes;
  }

  ghost predicate LeastUsedBox(db: Db, d: GateDraft, m: string) {
    && Pickable(db, CountersWithDays(db, d), d.who.tenant, d.day, m)
    && forall n :: Pickable(db, CountersWithDays(db, d), d.who.tenant, d.day, n) ==>
         CountersWithDays(db, d)[MailboxDay(m, d.day)].used <= CountersWithDays(db, d)[MailboxDay(n, d.day)].used
  }

  /** All that differs is today's rows and one slot of the least used mailbox. */
  ghost predicate OneSlotSpent(before: Db, d: GateDraft, box: string, after: Db) {
    LeastUsedBox(before, d, box)
    && after == before.(counters := SlotTaken(CountersWithDays(before, d), MailboxDay(box, d.day)))
  }

  function SendFor(db: Db, d: GateDraft, box: string, moved: bool): Send {
    Send(d.touch, d.row, d.who, box, MissingDayRows(db, d.who.tenant, d.day), d.month, d.day,
         d.began, d.clock, moved, d.drip, 0, 0, 0, 0, 0, 0)
  }

  /** The tables right after a successful claim: budgets charged, touch claimed, entity moved. */
  ghost predicate ClaimedState(before: Db, d: GateDraft, box: string, after: Db) {
    var s := SendFor(before, d, box, false);
    && BoxKey(s) in before.counters + s.days
    && (Contact(s) ==> TenantKey(s) in before.counters && CohortKey(s) in before.counters && d.who.entity in before.entities)
    && d.touch in before.touches
    && after == before.(
         counters := Charged(before.counters, s),
         touches := before.touches[d.touch := before.touches[d.touch].(status := Claimed, mailbox := Some(box))],
         entities := if Contact(s)
                     then before.entities[d.who.entity := AfterContact(before.entities[d.who.entity], d.touch, d.began, NoPlan)]
                     else before.entities)
  }

  /** What an INTERNAL refusal leaves behind: the budgets charged as by the claim, nothing else. */
  ghost predicate BudgetsLeftCharged(before: Db, d: GateDraft, box: string, after: Db) {
    var s := SendFor(before, d, box, false);
    && LeastUsedBox(before, d, box) && BoxKey(s) in before.counters + s.days
    && (Contact(s) ==> TenantKey(s) in before.counters && CohortKey(s) in before.counters)
    && after == before.(counters := Charged(before.counters, s))
  }

  predicate AlreadyOut(db: Db, touch: Id) {
    touch in db.touches && (db.touches[touch].status.Dispatched? || db.touches[touch].status.Sent?)
  }

  predicate Loadable(db: Db, touch: Id) {
    && touch in db.touches && db.touches[touch].status.Drafted?
    && db.touches[touch].prospect in db.prospects && db.prospects[db.touches[touch].prospect].email.Some?
  }

  /** The sequence this worker is configured with for the prospect's tenant and persona. */
  function SequenceFor(sequences: map<(string, string), Drip>, db: Db, touch: Id): Option<Drip>
    requires Loadable(db, touch)
  {
    var who := db.prospects[db.touches[touch].prospect];
    if (who.tenant, who.persona) in sequences then Some(sequences[(who.tenant, who.persona)]) else None
  }

  function Loaded(db: Db, touch: Id, findings: bool, month: int, day: int, began: Time, clock: Time, drip: Option<Drip>): GateDraft
    requires Loadable(db, touch)
  {
    var row := db.touches[touch];
    var who := db.prospects[row.prospect];
    GateDraft(touch, row, who, who.email.value, findings, month, day, began, clock, drip)
  }

  predicate Moves(db: Db, d: GateDraft)
    requires d.row.prospect in db.prospects
  {
    db.prospects[d.row.prospect].state == Queued
  }

  lemma BoxHasRow(db: Db, tenant: string, day: int, m: string)
    requires Pickable(db, db.counters, tenant, day, m)
    ensures m in db.mailboxes && MailboxDay(m, day) in db.counters
  {
  }

  /** Among the mailboxes looked at so far, `box` is a least used one that can be picked. */
  ghost predicate LeastSoFar(db: Db, tenant: string, day: int, todo: set<string>, box: Option<string>) {
    && (box.Some? ==> Pickable(db, db.counters, tenant, day, box.value) && MailboxDay(box.value, day) in db.counters)
    && (forall m :: m !in todo && Pickable(db, db.counters, tenant, day, m) ==>
         box.Some? && MailboxDay(m, day) in db.counters
         && db.counters[MailboxDay(box.value, day)].used <= db.counters[MailboxDay(m, day)].used)
  }

  lemma OnlyMailboxes(db: Db, tenant: string, day: int)
    ensures forall m :: Pickable(db, db.counters, tenant, day, m) ==> m in db.mailboxes
  {
  }

  /** Which boxes can be picked depends on the counters given, not on those stored. */
  lemma OpenedKeepsBoxes(before: Db, after: Db, tenant: string, day: int)
    requires after == before.(counters := after.counters)
    ensures forall m :: Pickable(before, after.counters, tenant, day, m) <==> Pickable(after, after.counters, tenant, day, m)
  {
  }

  class GateStore {
    var db: Db
    var audit: seq<Adjustment>

    constructor (db: Db)
      ensures this.db == db && audit == []
    {
      this.db := db;
      audit := [];
    }

    method FrequencyGate(entity: Id, clock: Time) returns (ok: bool)
      ensures ok <==> entity in db.entities && FrequencyOk(db.entities[entity], clock)
    {
      if entity !in db.entities { return false; }
      var e := db.entities[entity];
      if e.active.Some? { return false; }
      if e.touches12mo >= ANNUAL_TOUCH_CAP { return false; }
      if e.lastContact.Some? {
        var gap := clock - e.lastContact.value;
        if WholeDays(gap) < MIN_CAMPAIGN_GAP_DAYS { return false; }
      }
      return true;
    }

    method ContinuationGate(entity: Id, prospect: Id) returns (ok: bool)
      ensures ok <==> entity in db.entities && ContinuationOk(db.touches, db.entities[entity], prospect)
    {
      if entity !in db.entities { return false; }
      var e := db.entities[entity];
      var owner: Option<Id> := None;
      if e.active.Some? && e.active.value in db.touches { owner := Some(db.touches[e.active.value].prospect); }
      if owner.None? || owner.value != prospect { return false; }
      return e.touches12mo < ANNUAL_TOUCH_CAP;
    }

    /** A compensation: never below zero, and never silent. */
    method Adjust(k: CounterKey, delta: int)
      modifies this
      ensures db == old(db).(counters := if k in old(db.counters)
                                         then old(db.counters)[k := Adjusted(old(db.counters)[k], delta)]
                                         else old(db.counters))
      ensures audit == old(audit) + [Adjustment(k, delta)]
    {
      if k in db.counters {
        var used := db.counters[k].used + delta;
        if used < 0 { used := 0; }
        db := db.(counters := db.counters[k := db.counters[k].(used := used)]);
      }
      audit := audit + [Adjustment(k, delta)];
    }

    /** Both months or neither: a full cohort gives the tenant's slot back, with a trace. */
    method TryConsumeBudget(d: GateDraft) returns (ok: bool)
      requires ProfileOf(d.row.kind) != REPLY
      modifies this
      ensures ok <==> HasRoom(old(db.counters), MonthOfTenant(d)) && HasRoom(old(db.counters), MonthOfCohort(d))
      ensures ok ==> db == old(db).(counters := MonthsCharged(old(db.counters), d))
      ensures ok ==> audit == old(audit)
      ensures !ok ==> db == old(db)
      ensures !ok && HasRoom(old(db.counters), MonthOfTenant(d)) ==> audit == old(audit) + [Adjustment(MonthOfTenant(d), -1)]
      ensures !ok && !HasRoom(old(db.counters), MonthOfTenant(d)) ==> audit == old(audit)
    {
      var scopes := [MonthOfTenant(d), MonthOfCohort(d)];
      var i := 0;
      while i < |scopes|
        invariant 0 <= i <= 2
        invariant audit == old(audit)
        invariant i >= 1 ==> HasRoom(old(db.counters), scopes[0])
        invariant i == 2 ==> HasRoom(old(db.counters), scopes[1])
        invariant db == old(db).(counters :=
          if i == 0 then old(db.counters)
          else if i == 1 then old(db.counters)[scopes[0] := Bump(old(db.counters)[scopes[0]])]
          else old(db.counters)[scopes[0] := Bump(old(db.counters)[scopes[0]])][scopes[1] := Bump(old(db.counters)[scopes[1]])])
      {
        var k := scopes[i];
        if k in db.counters && db.counters[k].used < db.counters[k].cap {
          db := db.(counters := db.counters[k := Bump(db.counters[k])]);
        } else {
          if i == 1 {
            Adjust(MonthOfTenant(d), -1);
            assert db.counters == old(db.counters);
          }
          return false;
        }
        i := i + 1;
      }
      return true;
    }

    method ReleaseBudget(d: GateDraft)
      modifies this
      ensures MonthOfTenant(d) in old(db.counters) && MonthOfCohort(d) in old(db.counters) ==>
        db == old(db).(counters := old(db.counters)
          [MonthOfTenant(d) := Adjusted(old(db.counters)[MonthOfTenant(d)], -1)]
          [MonthOfCohort(d) := Adjusted(old(db.counters)[MonthOfCohort(d)], -1)])
      ensures audit == old(audit) + [Adjustment(MonthOfTenant(d), -1), Adjustment(MonthOfCohort(d), -1)]
    {
      Adjust(MonthOfTenant(d), -1);
      Adjust(MonthOfCohort(d), -1);
    }

    /** Opens today's rows, then takes a slot of the least used warm mailbox under its cap. */
    method PickMailbox(tenant: string, day: int) returns (box: Option<string>)
      modifies this
      ensures audit == old(audit)
      ensures var counters := old(db.counters) + MissingDayRows(old(db), tenant, day);
        && (box.None? ==> (forall m :: !Pickable(old(db), counters, tenant, day, m)) && db == old(db).(counters := counters))
        && (box.Some? ==>
              && Pickable(old(db), counters, tenant, day, box.value)
              && (forall m :: Pickable(old(db), counters, tenant, day, m) ==>
                    counters[MailboxDay(box.value, day)].used <= counters[MailboxDay(m, day)].used)
              && db == old(db).(counters := SlotTaken(counters, MailboxDay(box.value, day))))
    {
      hide MissingDayRows, Pickable;
      ghost var before := db;
      db := db.(counters := db.counters + MissingDayRows(db, tenant, day));
      box := LeastUsed(tenant, day);
      OpenedKeepsBoxes(before, db, tenant, day);
      if box.Some? {
        var k := MailboxDay(box.value, day);
        db := db.(counters := db.counters[k := Bump(db.counters[k])]);
      }
    }

    /** A least used mailbox among those that can be picked. */
    method LeastUsed(tenant: string, day: int) returns (box: Option<string>)
      ensures LeastSoFar(db, tenant, day, {}, box)
    {
      hide Pickable;
      var todo := db.mailboxes.Keys;
      box := None;
      OnlyMailboxes(db, tenant, day);
      while todo != {}
        invariant todo <= db.mailboxes.Keys
        invariant LeastSoFar(db, tenant, day, todo, box)
        decreases |todo|
      {
        var m :| m in todo;
        todo := todo - {m};
        if Pickable(db, db.counters, tenant, day, m) {
          BoxHasRow(db, tenant, day, m);
          if box.None? || db.counters[MailboxDay(m, day)].used < db.counters[MailboxDay(box.value, day)].used {
            box := Some(m);
          }
        }
      }
    }

    /** False stands for the exception: not drafted any more, or the trigger's refusal. */
    method PersistClaim(d: GateDraft, box: string) returns (ok: bool)
      requires ProfileOf(d.row.kind) != REPLY ==> d.who.entity in db.entities
      modifies this
      ensures ok <==> Passes(old(db), d, INTERNAL)
      ensures ok <==> StillOpen(old(db), d.touch, d.row.prospect, d.began)
      ensures !ok ==> db == old(db)
      ensures ok ==> db == old(db).(
        touches := old(db.touches)[d.touch := old(db.touches)[d.touch].(status := Claimed, mailbox := Some(box))],
        entities := if ProfileOf(d.row.kind) == REPLY then old(db.entities)
                    else old(db.entities)[d.who.entity := AfterContact(old(db.entities)[d.who.entity], d.touch, d.began, NoPlan)])
      ensures audit == old(audit)
    {
      if d.row.prospect in db.prospects { BarredMeans(db, db.prospects[d.row.prospect].email, d.began); }
      if d.touch !in db.touches || !db.touches[d.touch].status.Drafted? { return false; }
      if d.row.prospect !in db.prospects || BarredInAnyScope(db, db.prospects[d.row.prospect].email, d.began) { return false; }
      db := db.(touches := db.touches[d.touch := db.touches[d.touch].(status := Claimed, mailbox := Some(box))]);
      if ProfileOf(d.row.kind) != REPLY {
        var e := db.entities[d.who.entity];
        e := e.(active := Some(d.touch), lastContact := Some(d.began), touches12mo := e.touches12mo + 1);
        db := db.(entities := db.entities[d.who.entity := e]);
      }
      return true;
    }

    /** All gates in the pinned order. A refusal names the first gate that fails; up to and
        including BUDGET it has changed nothing, NO_CAPACITY leaves only empty day rows, and a
        CONFIDENCE refusal keeps exactly the mailbox slot. An INTERNAL one leaves all the
        budgets charged: only the caller's rollback undoes that. */
    method Claim(d: GateDraft) returns (c: Claim)
      modifies this
      ensures c.Refusal? ==> FirstFailing(old(db), d, c.reason)
      ensures c.Refusal? && Order(c.reason) <= Order(BUDGET) ==> db == old(db)
      ensures c == Refusal(NO_CAPACITY) ==> db == old(db).(counters := CountersWithDays(old(db), d))
      ensures c == Refusal(CONFIDENCE) ==> exists box :: OneSlotSpent(old(db), d, box, db)
      ensures c == Refusal(INTERNAL) ==> exists box :: BudgetsLeftCharged(old(db), d, box, db)
      ensures c.ClaimedTouch? ==> PassesFirst(old(db), d, 8) && LeastUsedBox(old(db), d, c.box)
      ensures c.ClaimedTouch? ==> ClaimedState(old(db), d, c.box, db)
    {
      if Halted(db, d.who.tenant) { return Refusal(HALTED); }
      if d.findings { return Refusal(VALIDATION); }
      if Suppressed(db, d.email, d.who.tenant, d.began) { return Refusal(SUPPRESSED); }
      var profile := ProfileOf(d.row.kind);
      if profile == COLD {
        var ok := FrequencyGate(d.who.entity, d.clock);
        if !ok { return Refusal(FREQUENCY); }
      } else if profile == FOLLOWUP {
        var ok := ContinuationGate(d.who.entity, d.row.prospect);
        if !ok { return Refusal(FREQUENCY); }
      }
      assert Passes(old(db), d, FREQUENCY);
      if profile != REPLY {
        var ok := TryConsumeBudget(d);
        if !ok { return Refusal(BUDGET); }
      }
      c := ClaimBeyondBudget(d, old(db));
    }

    /** The gates after the budget: everything that fails here must give the months back. */
    method ClaimBeyondBudget(d: GateDraft, ghost before: Db) returns (c: Claim)
      requires PassesFirst(before, d, 5)
      requires db == before.(counters := MonthsCharged(before.counters, d))
      modifies this
      ensures c.Refusal? ==> FirstFailing(before, d, c.reason) && Order(c.reason) > Order(BUDGET)
      ensures c == Refusal(NO_CAPACITY) ==> db == before.(counters := CountersWithDays(before, d))
      ensures c == Refusal(CONFIDENCE) ==> exists box :: OneSlotSpent(before, d, box, db)
      ensures c == Refusal(INTERNAL) ==> exists box :: BudgetsLeftCharged(before, d, box, db)
      ensures c.ClaimedTouch? ==> PassesFirst(before, d, 8) && LeastUsedBox(before, d, c.box)
      ensures c.ClaimedTouch? ==> ClaimedState(before, d, c.box, db)
    {
      hide FrequencyOk, ContinuationOk, Suppressed, Sendable, BarredInAnyScope, Halted, AfterContact;
      assert Passes(before, d, BUDGET) && Passes(before, d, FREQUENCY);
      ghost var charged := db;
      SameBoxes(before, charged, d);
      var box := PickMailbox(d.who.tenant, d.day);
      if box.None? {
        if ProfileOf(d.row.kind) != REPLY { ReleaseBudget(d); }
        GivenBack(before, charged, d, None);
        return Refusal(NO_CAPACITY);
      }
      c := ClaimOnBox(d, before, charged, box.value);
    }

    method ClaimOnBox(d: GateDraft, ghost before: Db, ghost charged: Db, box: string) returns (c: Claim)
      requires PassesFirst(before, d, 6)
      requires charged == before.(counters := MonthsCharged(before.counters, d))
      requires LeastUsedBox(before, d, box)
      requires db == charged.(counters := SlotTaken(CountersWithDays(charged, d), MailboxDay(box, d.day)))
      modifies this
      ensures c.Refusal? ==> FirstFailing(before, d, c.reason) && Order(c.reason) > Order(NO_CAPACITY)
      ensures c == Refusal(CONFIDENCE) ==> OneSlotSpent(before, d, box, db)
      ensures c == Refusal(INTERNAL) ==> BudgetsLeftCharged(before, d, box, db)
      ensures c.ClaimedTouch? ==> c.box == box && PassesFirst(before, d, 8)
      ensures c.ClaimedTouch? ==> ClaimedState(before, d, c.box, db)
    {
      hide Sendable, BarredInAnyScope, AfterContact, LeastUsedBox, Adjusted, SlotTaken, MonthsCharged, MissingDayRows;
      GovernedAndFunded(before, d);
      SendableIgnoresCounters(before, db, d);
      PersistIgnoresCounters(before, db, d);
      ChargedOnBox(before, charged, d, box);
      LastGates(before, d);
      hide ClaimedState, BudgetsLeftCharged, OneSlotSpent, Passes, PassesFirst, FirstFailing;
      if !Sendable(db, d.email, d.who.tenant) {
        if ProfileOf(d.row.kind) != REPLY { ReleaseBudget(d); }
        GivenBack(before, charged, d, Some(box));
        return Refusal(CONFIDENCE);
      }
      var ok := PersistClaim(d, box);
      if !ok { return Refusal(INTERNAL); }
      PersistedIsClaimed(before, charged, d, box, db);
      return ClaimedTouch(box);
    }

    lemma LastGates(before: Db, d: GateDraft)
      requires PassesFirst(before, d, 6)
      ensures !Sendable(before, d.email, d.who.tenant) ==> FirstFailing(before, d, CONFIDENCE)
      ensures Sendable(before, d.email, d.who.tenant) && !Passes(before, d, INTERNAL) ==> FirstFailing(before, d, INTERNAL)
      ensures Sendable(before, d.email, d.who.tenant) && Passes(before, d, INTERNAL) ==> PassesFirst(before, d, 8)
      ensures Passes(before, d, INTERNAL) ==> d.touch in before.touches
    {
      hide Sendable, BarredInAnyScope, Suppressed, FrequencyOk, ContinuationOk;
    }

    lemma GovernedAndFunded(before: Db, d: GateDraft)
      requires PassesFirst(before, d, 5)
      ensures ProfileOf(d.row.kind) != REPLY ==>
        d.who.entity in before.entities && MonthOfTenant(d) in before.counters && MonthOfCohort(d) in before.counters
    {
    }

    lemma ChargedOnBox(before: Db, charged: Db, d: GateDraft, box: string)
      requires PassesFirst(before, d, 6) && LeastUsedBox(before, d, box)
      requires charged == before.(counters := MonthsCharged(before.counters, d))
      ensures BudgetsLeftCharged(before, d, box,
        charged.(counters := SlotTaken(CountersWithDays(charged, d), MailboxDay(box, d.day))))
    {
      hide Sendable, BarredInAnyScope, Suppressed, FrequencyOk, ContinuationOk;
      GovernedAndFunded(before, d);
      BoxIsThere(before, d, box);
      ChargedInTwoSteps(before, charged, d, box);
      hide LeastUsedBox, SlotTaken, MonthsCharged, MissingDayRows, Passes, Charged;
    }

    lemma PersistedIsClaimed(before: Db, charged: Db, d: GateDraft, box: string, after: Db)
      requires PassesFirst(before, d, 8) && LeastUsedBox(before, d, box)
      requires charged == before.(counters := MonthsCharged(before.counters, d))
      requires d.touch in charged.touches && (ProfileOf(d.row.kind) != REPLY ==> d.who.entity in charged.entities)
      requires after == charged.(
        counters := SlotTaken(CountersWithDays(charged, d), MailboxDay(box, d.day)),
        touches := charged.touches[d.touch := charged.touches[d.touch].(status := Claimed, mailbox := Some(box))],
        entities := if ProfileOf(d.row.kind) == REPLY then charged.entities
                    else charged.entities[d.who.entity := AfterContact(charged.entities[d.who.entity], d.touch, d.began, NoPlan)])
      ensures ClaimedState(before, d, box, after)
    {
      hide Adjusted, AfterContact, Sendable, BarredInAnyScope, Suppressed, FrequencyOk, ContinuationOk;
      GovernedAndFunded(before, d);
      BoxIsThere(before, d, box);
      ChargedInTwoSteps(before, charged, d, box);
      hide LeastUsedBox, SlotTaken, MonthsCharged, MissingDayRows, Passes, Charged;
    }

    lemma BoxIsThere(before: Db, d: GateDraft, box: string)
      requires LeastUsedBox(before, d, box)
      ensures MailboxDay(box, d.day) in CountersWithDays(before, d)
      ensures BoxKey(SendFor(before, d, box, false)) in before.counters + SendFor(before, d, box, false).days
    {
    }

    lemma SendableIgnoresCounters(before: Db, now: Db, d: GateDraft)
      requires now == before.(counters := now.counters)
      ensures Sendable(now, d.email, d.who.tenant) == Sendable(before, d.email, d.who.tenant)
    {
    }

    lemma PersistIgnoresCounters(before: Db, now: Db, d: GateDraft)
      requires now == before.(counters := now.counters)
      ensures Passes(now, d, INTERNAL) == Passes(before, d, INTERNAL)
    {
    }

    /** Charging the months neither opens nor fills a mailbox. */
    lemma SameBoxes(before: Db, charged: Db, d: GateDraft)
      requires charged == before.(counters := MonthsCharged(before.counters, d))
      ensures MissingDayRows(charged, d.who.tenant, d.day) == MissingDayRows(before, d.who.tenant, d.day)
      ensures forall m :: Pickable(charged, CountersWithDays(charged, d), d.who.tenant, d.day, m)
                     <==> Pickable(before, CountersWithDays(before, d), d.who.tenant, d.day, m)
      ensures forall m :: MailboxDay(m, d.day) in CountersWithDays(before, d) ==>
                MailboxDay(m, d.day) in CountersWithDays(charged, d)
                && CountersWithDays(charged, d)[MailboxDay(m, d.day)] == CountersWithDays(before, d)[MailboxDay(m, d.day)]
    {
    }

    /** Releasing the months after the mailbox step leaves only what the mailbox step did. */
    lemma GivenBack(before: Db, charged: Db, d: GateDraft, box: Option<string>)
      requires charged == before.(counters := MonthsCharged(before.counters, d))
      requires ProfileOf(d.row.kind) != REPLY ==> MonthOfTenant(d) in before.counters && MonthOfCohort(d) in before.counters
      ensures var c := AfterPick(charged, d, box);
              if ProfileOf(d.row.kind) == REPLY then c == AfterPick(before, d, box)
              else MonthOfTenant(d) in c && MonthOfCohort(d) in c
                   && c[MonthOfTenant(d) := Adjusted(c[MonthOfTenant(d)], -1)]
                       [MonthOfCohort(d) := Adjusted(c[MonthOfCohort(d)], -1)] == AfterPick(before, d, box)
    {
      SameBoxes(before, charged, d);
      var days := MissingDayRows(before, d.who.tenant, d.day);
      assert forall k :: k in days ==> k.MailboxDay?;
      hide MissingDayRows, Pickable;
      if ProfileOf(d.row.kind) != REPLY {
        Undone(before.counters, days, d);
        hide MonthsCharged, Adjusted;
        if box.Some? {
          UndoneBesideBox(MonthsCharged(before.counters, d) + days, before.counters + days, d, MailboxDay(box.value, d.day));
        }
      }
    }

    lemma Undone(counters: map<CounterKey, Counter>, days: map<CounterKey, Counter>, d: GateDraft)
      requires MonthOfTenant(d) in counters && MonthOfCohort(d) in counters && ProfileOf(d.row.kind) != REPLY
      requires forall k :: k in days ==> k.MailboxDay?
      ensures var c := MonthsCharged(counters, d) + days;
        && MonthOfTenant(d) in c && MonthOfCohort(d) in c
        && c[MonthOfTenant(d) := Adjusted(c[MonthOfTenant(d)], -1)]
            [MonthOfCohort(d) := Adjusted(c[MonthOfCohort(d)], -1)] == counters + days
    {
    }

    lemma UndoneBesideBox(c: map<CounterKey, Counter>, wanted: map<CounterKey, Counter>, d: GateDraft, box: CounterKey)
      requires MonthOfTenant(d) in c && MonthOfCohort(d) in c && box.MailboxDay?
      requires c[MonthOfTenant(d) := Adjusted(c[MonthOfTenant(d)], -1)]
                [MonthOfCohort(d) := Adjusted(c[MonthOfCohort(d)], -1)] == wanted
      ensures var taken := SlotTaken(c, box);
        && MonthOfTenant(d) in taken && MonthOfCohort(d) in taken
        && taken[MonthOfTenant(d) := Adjusted(taken[MonthOfTenant(d)], -1)]
                [MonthOfCohort(d) := Adjusted(taken[MonthOfCohort(d)], -1)] == SlotTaken(wanted, box)
    {
      hide Adjusted;
      assert box in c ==> wanted[box] == c[box];
    }

    function AfterPick(db: Db, d: GateDraft, box: Option<string>): map<CounterKey, Counter> {
      if box.None? then CountersWithDays(db, d) else SlotTaken(CountersWithDays(db, d), MailboxDay(box.value, d.day))
    }

    lemma ChargedInTwoSteps(before: Db, charged: Db, d: GateDraft, box: string)
      requires charged == before.(counters := MonthsCharged(before.counters, d))
      requires ProfileOf(d.row.kind) != REPLY ==> MonthOfTenant(d) in before.counters && MonthOfCohort(d) in before.counters
      requires MailboxDay(box, d.day) in CountersWithDays(before, d)
      ensures SlotTaken(CountersWithDays(charged, d), MailboxDay(box, d.day))
           == Charged(before.counters, SendFor(before, d, box, false))
    {
      SameBoxes(before, charged, d);
      var days := MissingDayRows(before, d.who.tenant, d.day);
      OnlyDayRows(before, d);
      hide MissingDayRows, Bump;
      if ProfileOf(d.row.kind) != REPLY {
        ChargesCommute(before.counters, days, MailboxDay(box, d.day), MonthOfTenant(d), MonthOfCohort(d));
      }
    }

    lemma OnlyDayRows(db: Db, d: GateDraft)
      ensures forall k :: k in MissingDayRows(db, d.who.tenant, d.day) ==> k.MailboxDay?
    {
    }

    lemma ChargesCommute(c: map<CounterKey, Counter>, days: map<CounterKey, Counter>,
                         box: CounterKey, t: CounterKey, h: CounterKey)
      requires box.MailboxDay? && t.TenantMonth? && h.CohortMonth? && t in c && h in c && box in c + days
      requires forall k :: k in days ==> k.MailboxDay?
      ensures var charged := c[t := Bump(c[t])][h := Bump(c[h])] + days;
        charged[box := Bump(charged[box])] == (c + days)[box := Bump((c + days)[box])][t := Bump(c[t])][h := Bump(c[h])]
    {
      hide Bump;
    }

    /** One deliver transaction. What it raises it rolls back; a terminal refusal commits the
        release; a claim the provider accepts commits the whole dispatch, exactly as the
        Ledger's event says. Given the tables, the outcome is determined. */
    method Deliver(touch: Id, findings: bool, accepted: bool, month: int, day: int, began: Time, clock: Time,
                   sequences: map<(string, string), Drip>) returns (out: Outcome)
      requires forall k :: k in sequences ==> ValidDrip(sequences[k])
      requires touch in db.touches ==> db.touches[touch].created <= began <= clock
      modifies this
      ensures out == Raised || out == Skipped ==> db == old(db) && audit == old(audit)
      ensures out == Skipped <==> Gone(old(db), touch)
      ensures !Gone(old(db), touch) && !Waiting(old(db), touch) ==> out == Raised
      ensures Waiting(old(db), touch) ==>
        EndsAs(old(db), touch, findings, accepted, month, day, began, clock, sequences, out, db)
      ensures Loadable(old(db), touch) ==>
        Concluded(old(db), Loaded(old(db), touch, findings, month, day, began, clock, SequenceFor(sequences, old(db), touch)),
                  accepted, out, db)
    {
      if AlreadyOut(db, touch) {
        return Skipped;
      }
      if !Loadable(db, touch) {
        return Raised;
      }
      var d := Loaded(db, touch, findings, month, day, began, clock, SequenceFor(sequences, db, touch));
      ghost var before := db;
      hide Loadable, Loaded, SequenceFor, Concluded, EndsAs;
      out := ClaimAndSend(d, accepted);
      EndsByTheRows(before, d, accepted, sequences, out, db);
    }

    /** The claim, the provider's answer and what follows it, or the rollback. */
    method ClaimAndSend(d: GateDraft, accepted: bool) returns (out: Outcome)
      requires Loadable(db, d.touch) && d == Loaded(db, d.touch, d.findings, d.month, d.day, d.began, d.clock, d.drip)
      requires ValidConfig(d.drip) && d.row.created <= d.began <= d.clock
      modifies this
      ensures out.Raised? ==> db == old(db) && audit == old(audit)
      ensures Concluded(old(db), d, accepted, out, db)
    {
      hide FirstFailing, PassesFirst, ClaimedState, BudgetsLeftCharged, OneSlotSpent, LeastUsedBox, SendAllowed, Halted, Suppressed, Sendable;
      hide Finished, AfterDispatch, ConfidenceRelease, Guard, Apply, Moves;
      ghost var before := db;
      var saved, savedAudit := db, audit;
      var c := Claim(d);
      if c.Refusal? {
        if !Terminal(c.reason) {
          db, audit := saved, savedAudit;
          return Raised;
        }
        ReleaseCommits(before, d, c.reason, db);
        db := db.(touches := db.touches[d.touch := db.touches[d.touch].(status := Released)]);
        return ReleasedFor(c.reason);
      }
      if !accepted {
        db, audit := saved, savedAudit;
        return Raised;
      }
      MovesAlike(before, d, c.box, db);
      var s := SendFor(saved, d, c.box, Moves(db, d));
      DispatchIsAllowed(before, d, c.box, db);
      Dispatch(d);
      return SentOut(s);
    }

    /** What follows the provider's receipt: trial, transition, mark, plan. */
    method Dispatch(d: GateDraft)
      requires d.touch in db.touches && d.row.prospect in db.prospects
      requires ProfileOf(d.row.kind) != REPLY ==> d.who.entity in db.entities
      requires db.touches[d.touch].status.Claimed?
      modifies this`db
      ensures db == Finished(old(db), d)
    {
      hide PlanAfter, Planned, Freed;
      RecordTrial(d.who.tenant, d.row.variant);
      MarkContacted(d.row.prospect);
      db := db.(touches := db.touches[d.touch := db.touches[d.touch].(status := Dispatched)]);
      PlanNextStep(d);
    }

    method MarkContacted(prospect: Id)
      requires prospect in db.prospects
      modifies this`db
      ensures db == old(db).(prospects :=
        if old(db).prospects[prospect].state == Queued
        then old(db).prospects[prospect := old(db).prospects[prospect].(state := Contacted)] else old(db).prospects)
    {
      if db.prospects[prospect].state == Queued {
        db := db.(prospects := db.prospects[prospect := db.prospects[prospect].(state := Contacted)]);
      }
    }

    method RecordTrial(tenant: string, variant: Option<string>)
      modifies this`db
      ensures db == old(db).(trials := Tried(old(db).trials, tenant, variant))
    {
      if variant.Some? {
        var k := (tenant, variant.value);
        db := db.(trials := db.trials[k := if k in db.trials then db.trials[k] + 1 else 1]);
      }
    }

    method PlanNextStep(d: GateDraft)
      requires ProfileOf(d.row.kind) != REPLY ==> d.who.entity in db.entities
      modifies this`db
      ensures db == old(db).(
        followups := Planned(old(db).followups, d.row.prospect, PlanAfter(d.drip, d.row), d.began),
        entities := if PlanAfter(d.drip, d.row).DripDone?
                    then old(db).entities[d.who.entity :=
                           Freed(old(db).touches, old(db).entities[d.who.entity], d.row.prospect)]
                    else old(db).entities)
    {
      if ProfileOf(d.row.kind) == REPLY { return; }
      var plan := PlanAfter(d.drip, d.row);
      match plan {
        case NoPlan =>
        case DripDone =>
          var e := db.entities[d.who.entity];
          if e.active.Some? && e.active.value in db.touches && db.touches[e.active.value].prospect == d.row.prospect {
            e := e.(active := None);
          }
          db := db.(entities := db.entities[d.who.entity := e]);
        case NextStep(step, gapDays) =>
          var k := (d.row.prospect, step);
          if k !in db.followups {
            db := db.(followups := db.followups[k := d.began + gapDays * SECONDS_PER_DAY]);
          }
      }
    }
  }

  ghost predicate ConfidenceRelease(before: Db, d: GateDraft, after: Db) {
    exists box :: LeastUsedBox(before, d, box)
      && Guard(before, Release(d.touch, MissingDayRows(before, d.who.tenant, d.day), Some(MailboxDay(box, d.day)), 0))
      && after == Apply(before, Release(d.touch, MissingDayRows(before, d.who.tenant, d.day), Some(MailboxDay(box, d.day)), 0))
  }

  /** How a delivery of a loadable draft may end: which ending it is depends only on the gates
      and on the provider, and each ending fixes the committed tables. */
  ghost predicate Concluded(before: Db, d: GateDraft, accepted: bool, out: Outcome, after: Db) {
    match out
    case Skipped => false
    case Raised =>
      && after == before
      && ((exists r :: FirstFailing(before, d, r) && !Terminal(r)) || (PassesFirst(before, d, 8) && !accepted))
    case ReleasedFor(r) =>
      && Terminal(r) && FirstFailing(before, d, r)
      && (if r == CONFIDENCE then ConfidenceRelease(before, d, after)
          else Guard(before, Release(d.touch, map[], None, 0)) && after == Apply(before, Release(d.touch, map[], None, 0)))
    case SentOut(s) =>
      && accepted && PassesFirst(before, d, 8) && LeastUsedBox(before, d, s.box)
      && d.row.prospect in before.prospects && s == SendFor(before, d, s.box, Moves(before, d))
      && SendAllowed(before, s) && after == AfterDispatch(before, s)
  }

  /** The same told by the rows: a set flag, a month without room, or no free mailbox ends in a retry
      that leaves everything as it was; findings, a struck address, a contact too soon, or no verified
      holder release the touch; and what goes out leaves exactly one dispatch behind. */
  ghost predicate EndsAs(before: Db, touch: Id, findings: bool, accepted: bool, month: int, day: int, began: Time, clock: Time,
                         sequences: map<(string, string), Drip>, out: Outcome, after: Db)
    requires Waiting(before, touch)
  {
    var row := before.touches[touch];
    var who := before.prospects[row.prospect];
    var released := before.touches[touch := row.(status := Released)];
    if FlagSet(before, who.tenant) then
      out == Raised && after == before
    else if findings || Struck(before, who.email.value, who.tenant, began) || !MayContact(before, row, who, clock) then
      out.ReleasedFor? && after == before.(touches := released)
    else if !MonthsHaveRoom(before, row, who, month) || forall m :: !Free(before, who.tenant, day, m) then
      out == Raised && after == before
    else if !HolderVerified(before, who.email.value, who.tenant) then
      out.ReleasedFor? && exists m :: SlotKept(before, who.tenant, day, m, released, after)
    else if Barred(before, who.email, began) || !accepted then
      out == Raised && after == before
    else
      && out.SentOut? && LeastUsedFree(before, who.tenant, day, out.send.box)
      && WentOut(before, touch, out.send.box, month, day, began,
                 if (who.tenant, who.persona) in sequences then Some(sequences[(who.tenant, who.persona)]) else None, after)
  }

  ghost predicate SlotKept(before: Db, tenant: string, day: int, m: string, touches: map<Id, Touch>, after: Db) {
    && LeastUsedFree(before, tenant, day, m) && after == before.(touches := touches, counters := after.counters)
    && ChargedOnce(before, tenant, day, {MailboxDay(m, day)}, after.counters)
  }

  lemma MovesAlike(before: Db, d: GateDraft, box: string, claimed: Db)
    requires ClaimedState(before, d, box, claimed) && d.row.prospect in before.prospects
    ensures d.row.prospect in claimed.prospects && Moves(claimed, d) == Moves(before, d)
  {
  }

  /** What each gate asks of the rows. */
  lemma GatesMean(db: Db, d: GateDraft)
    requires Loadable(db, d.touch) && d == Loaded(db, d.touch, d.findings, d.month, d.day, d.began, d.clock, d.drip)
    ensures Passes(db, d, HALTED) <==> !FlagSet(db, d.who.tenant)
    ensures Passes(db, d, VALIDATION) <==> !d.findings
    ensures Passes(db, d, SUPPRESSED) <==> !Struck(db, d.who.email.value, d.who.tenant, d.began)
    ensures Passes(db, d, FREQUENCY) <==> MayContact(db, d.row, d.who, d.clock)
    ensures Passes(db, d, BUDGET) <==> MonthsHaveRoom(db, d.row, d.who, d.month)
    ensures Passes(db, d, CONFIDENCE) <==> HolderVerified(db, d.who.email.value, d.who.tenant)
    ensures Passes(db, d, INTERNAL) <==> !Barred(db, d.who.email, d.began)
  {
    FlagsMean(db, d.who.tenant);
    SuppressedMeans(db, d.email, d.who.tenant, d.began);
    BarredMeans(db, d.who.email, d.began);
    SendableMeans(db, d.email, d.who.tenant);
    FrequencyGateMeans(db, d);
    hide Struck, Suppressed, Barred, BarredInAnyScope, Sendable, HolderVerified, Halted, FlagSet, FrequencyOk, ContinuationOk, MayContact;
  }

  lemma MailboxGateMeans(db: Db, d: GateDraft)
    ensures Passes(db, d, NO_CAPACITY) <==> exists m :: Free(db, d.who.tenant, d.day, m)
    ensures forall m :: LeastUsedBox(db, d, m) <==> LeastUsedFree(db, d.who.tenant, d.day, m)
  {
    forall m ensures PickableAsFree(db, d, m) { PickableMeans(db, d.who.tenant, d.day, m); }
    hide Pickable, Free, MissingDayRows, DayRow, CountersWithDays;
    if m :| Pickable(db, CountersWithDays(db, d), d.who.tenant, d.day, m) { assert PickableAsFree(db, d, m); }
    if m :| Free(db, d.who.tenant, d.day, m) { assert PickableAsFree(db, d, m); }
    forall m ensures LeastUsedBox(db, d, m) <==> LeastUsedFree(db, d.who.tenant, d.day, m) {
      assert PickableAsFree(db, d, m);
      assert forall n :: PickableAsFree(db, d, n);
      if LeastUsedBox(db, d, m) {
        forall n | Free(db, d.who.tenant, d.day, n) ensures DayRow(db, m, d.day).used <= DayRow(db, n, d.day).used {
          assert PickableAsFree(db, d, n);
        }
      }
      if LeastUsedFree(db, d.who.tenant, d.day, m) {
        forall n | Pickable(db, CountersWithDays(db, d), d.who.tenant, d.day, n)
          ensures CountersWithDays(db, d)[MailboxDay(m, d.day)].used <= CountersWithDays(db, d)[MailboxDay(n, d.day)].used
        {
          assert PickableAsFree(db, d, n);
        }
      }
    }
  }

  ghost predicate PickableAsFree(db: Db, d: GateDraft, m: string) {
    && (Pickable(db, CountersWithDays(db, d), d.who.tenant, d.day, m) <==> Free(db, d.who.tenant, d.day, m))
    && (Free(db, d.who.tenant, d.day, m) ==>
          && MailboxDay(m, d.day) in CountersWithDays(db, d)
          && CountersWithDays(db, d)[MailboxDay(m, d.day)] == DayRow(db, m, d.day))
  }

  lemma FrequencyGateMeans(db: Db, d: GateDraft)
    ensures Passes(db, d, FREQUENCY) <==> MayContact(db, d.row, d.who, d.clock)
  {
    if d.who.entity in db.entities {
      FrequencyMeans(db.entities[d.who.entity], d.clock);
      ContinuationMeans(db.touches, db.entities[d.who.entity], d.row.prospect);
    }
    hide FrequencyOk, ContinuationOk, Rested, Owned;
  }

  lemma EndsByTheRows(before: Db, d: GateDraft, accepted: bool, sequences: map<(string, string), Drip>, out: Outcome, after: Db)
    requires Loadable(before, d.touch) && d == Loaded(before, d.touch, d.findings, d.month, d.day, d.began, d.clock, d.drip)
    requires d.drip == SequenceFor(sequences, before, d.touch) && Concluded(before, d, accepted, out, after)
    ensures EndsAs(before, d.touch, d.findings, accepted, d.month, d.day, d.began, d.clock, sequences, out, after)
  {
    hide Concluded, EndsAs, Loaded, SequenceFor;
    match out
    case Raised => RaisedByTheRows(before, d, accepted, sequences, out, after);
    case ReleasedFor(_) => ReleasedByTheRows(before, d, accepted, sequences, out, after);
    case SentOut(_) => SentByTheRows(before, d, accepted, sequences, out, after);
    case Skipped => NeverSkipped(before, d, accepted, after);
  }

  lemma NeverSkipped(before: Db, d: GateDraft, accepted: bool, after: Db)
    ensures !Concluded(before, d, accepted, Skipped, after)
  {
  }

  lemma RaisedByTheRows(before: Db, d: GateDraft, accepted: bool, sequences: map<(string, string), Drip>, out: Outcome, after: Db)
    requires Loadable(before, d.touch) && d == Loaded(before, d.touch, d.findings, d.month, d.day, d.began, d.clock, d.drip)
    requires d.drip == SequenceFor(sequences, before, d.touch) && Concluded(before, d, accepted, out, after) && out.Raised?
    ensures EndsAs(before, d.touch, d.findings, accepted, d.month, d.day, d.began, d.clock, sequences, out, after)
  {
    GatesMean(before, d);
    MailboxGateMeans(before, d);
    hide Passes, Struck, Barred, HolderVerified, FlagSet, MayContact, MonthsHaveRoom, Free, LeastUsedFree, LeastUsedBox, WentOut, SlotKept;
    hide Guard, Apply, ConfidenceRelease, AfterDispatch, SendAllowed;
  }

  lemma ReleasedByTheRows(before: Db, d: GateDraft, accepted: bool, sequences: map<(string, string), Drip>, out: Outcome, after: Db)
    requires Loadable(before, d.touch) && d == Loaded(before, d.touch, d.findings, d.month, d.day, d.began, d.clock, d.drip)
    requires d.drip == SequenceFor(sequences, before, d.touch) && Concluded(before, d, accepted, out, after) && out.ReleasedFor?
    ensures EndsAs(before, d.touch, d.findings, accepted, d.month, d.day, d.began, d.clock, sequences, out, after)
  {
    GatesMean(before, d);
    MailboxGateMeans(before, d);
    hide Passes, Struck, Barred, HolderVerified, FlagSet, MayContact, MonthsHaveRoom, Free, LeastUsedFree, LeastUsedBox, WentOut, SlotKept;
    hide Guard, Apply, ConfidenceRelease, AfterDispatch, SendAllowed;
    hide Concluded;
    ReleasedRows(before, d, accepted, out.reason, after);
  }

  lemma SentByTheRows(before: Db, d: GateDraft, accepted: bool, sequences: map<(string, string), Drip>, out: Outcome, after: Db)
    requires Loadable(before, d.touch) && d == Loaded(before, d.touch, d.findings, d.month, d.day, d.began, d.clock, d.drip)
    requires d.drip == SequenceFor(sequences, before, d.touch) && Concluded(before, d, accepted, out, after) && out.SentOut?
    ensures EndsAs(before, d.touch, d.findings, accepted, d.month, d.day, d.began, d.clock, sequences, out, after)
  {
    GatesMean(before, d);
    MailboxGateMeans(before, d);
    hide Passes, Struck, Barred, HolderVerified, FlagSet, MayContact, MonthsHaveRoom, Free, LeastUsedFree, LeastUsedBox, WentOut, SlotKept;
    hide Guard, Apply, ConfidenceRelease, AfterDispatch, SendAllowed;
    SentAsLoaded(before, d, accepted, out.send, after);
  }

  lemma ReleasedRows(before: Db, d: GateDraft, accepted: bool, r: Reason, after: Db)
    requires Loadable(before, d.touch) && d == Loaded(before, d.touch, d.findings, d.month, d.day, d.began, d.clock, d.drip)
    requires Concluded(before, d, accepted, ReleasedFor(r), after)
    ensures Terminal(r) && FirstFailing(before, d, r)
    ensures var released := before.touches[d.touch := d.row.(status := Released)];
      if r == CONFIDENCE then exists m :: SlotKept(before, d.who.tenant, d.day, m, released, after)
      else after == before.(touches := released)
  {
    hide Passes, PassesFirst, LeastUsedBox, SlotKept, Guard, Apply, ConfidenceRelease;
    if r == CONFIDENCE { SlotIsKept(before, d, after); } else { PlainRelease(before, d.touch); }
  }

  lemma SentAsLoaded(before: Db, d: GateDraft, accepted: bool, s: Send, after: Db)
    requires Loadable(before, d.touch) && d == Loaded(before, d.touch, d.findings, d.month, d.day, d.began, d.clock, d.drip)
    requires Concluded(before, d, accepted, SentOut(s), after)
    ensures WentOut(before, d.touch, s.box, d.month, d.day, d.began, d.drip, after)
  {
    assert s == SendFor(before, d, s.box, Moves(before, d)) && SendAllowed(before, s) && after == AfterDispatch(before, s) by {
      hide SendAllowed, Passes, PassesFirst, LeastUsedBox, AfterDispatch;
    }
    hide SendAllowed, AfterDispatch, WentOut, MissingDayRows, Concluded;
    DispatchLeaves(before, s);
  }

  lemma SlotIsKept(before: Db, d: GateDraft, after: Db)
    requires Loadable(before, d.touch) && d == Loaded(before, d.touch, d.findings, d.month, d.day, d.began, d.clock, d.drip)
    requires ConfidenceRelease(before, d, after)
    ensures var released := before.touches[d.touch := d.row.(status := Released)];
      exists m :: SlotKept(before, d.who.tenant, d.day, m, released, after)
  {
    MailboxGateMeans(before, d);
    hide Guard, Apply, MissingDayRows, LeastUsedFree, LeastUsedBox, Passes, Free, ChargedAt;
    var days := MissingDayRows(before, d.who.tenant, d.day);
    var m :| LeastUsedBox(before, d, m) && Guard(before, Release(d.touch, days, Some(MailboxDay(m, d.day)), 0))
         && after == Apply(before, Release(d.touch, days, Some(MailboxDay(m, d.day)), 0));
    var e := Release(d.touch, days, Some(MailboxDay(m, d.day)), 0);
    OtherTablesStay(before, e);
    RowsLeft(before, e);
    forall k ensures ChargedAt(before, d.who.tenant, d.day, {MailboxDay(m, d.day)}, after.counters, k) {
      SlotAt(before, d, m, after, k);
    }
    assert SlotKept(before, d.who.tenant, d.day, m, before.touches[d.touch := d.row.(status := Released)], after);
  }

  lemma SlotAt(before: Db, d: GateDraft, m: string, after: Db, k: CounterKey)
    requires var e := Release(d.touch, MissingDayRows(before, d.who.tenant, d.day), Some(MailboxDay(m, d.day)), 0);
      Guard(before, e) && after == Apply(before, e)
    ensures ChargedAt(before, d.who.tenant, d.day, {MailboxDay(m, d.day)}, after.counters, k)
  {
    hide Guard, Apply, MissingDayRows, NewDayRow;
    ReleaseLeaves(before, Release(d.touch, MissingDayRows(before, d.who.tenant, d.day), Some(MailboxDay(m, d.day)), 0), k);
    DayRowAt(before, d.who.tenant, d.day, k);
  }

  /** No two endings are possible from the same tables and the same provider answer. */
  lemma OutcomeIsDetermined(before: Db, d: GateDraft, accepted: bool, a: Outcome, b: Outcome, after: Db, other: Db)
    requires Concluded(before, d, accepted, a, after) && Concluded(before, d, accepted, b, other)
    ensures a.Raised? <==> b.Raised?
    ensures a.ReleasedFor? <==> b.ReleasedFor?
    ensures a.ReleasedFor? ==> a == b
    ensures a.SentOut? <==> b.SentOut?
  {
    hide Passes, ConfidenceRelease, SendAllowed, Guard, Apply;
    forall q: Reason, r: Reason | FirstFailing(before, d, q) && FirstFailing(before, d, r) ensures q == r {
      RefusalIsDetermined(before, d, q, r);
    }
  }

  /** The tables once a claimed touch has been dispatched. */
  function Finished(db: Db, d: GateDraft): Db
    requires d.touch in db.touches && d.row.prospect in db.prospects
    requires ProfileOf(d.row.kind) != REPLY ==> d.who.entity in db.entities
  {
    var touches := db.touches[d.touch := db.touches[d.touch].(status := Dispatched)];
    var plan := PlanAfter(d.drip, d.row);
    db.(trials := Tried(db.trials, d.who.tenant, d.row.variant),
        prospects := if db.prospects[d.row.prospect].state == Queued
                     then db.prospects[d.row.prospect := db.prospects[d.row.prospect].(state := Contacted)] else db.prospects,
        touches := touches,
        followups := Planned(db.followups, d.row.prospect, plan, d.began),
        entities := if plan.DripDone?
                    then db.entities[d.who.entity := Freed(touches, db.entities[d.who.entity], d.row.prospect)]
                    else db.entities)
  }

  lemma ReleaseCommits(before: Db, d: GateDraft, r: Reason, claimed: Db)
    requires d.touch in before.touches && Terminal(r) && FirstFailing(before, d, r)
    requires r == CONFIDENCE ==> exists box :: OneSlotSpent(before, d, box, claimed)
    requires r != CONFIDENCE ==> claimed == before
    ensures d.touch in claimed.touches
    ensures var after := claimed.(touches := claimed.touches[d.touch := claimed.touches[d.touch].(status := Released)]);
      && (r != CONFIDENCE ==> Guard(before, Release(d.touch, map[], None, 0)) && after == Apply(before, Release(d.touch, map[], None, 0)))
      && (r == CONFIDENCE ==> ConfidenceRelease(before, d, after))
  {
    hide Passes, PassesFirst, FirstFailing, OneSlotSpent, ConfidenceRelease, Guard, Apply;
    if r == CONFIDENCE {
      var box :| OneSlotSpent(before, d, box, claimed);
      SlotIsRelease(before, d, box, claimed);
    } else {
      PlainRelease(before, d.touch);
    }
  }

  lemma PlainRelease(before: Db, touch: Id)
    requires touch in before.touches
    ensures Guard(before, Release(touch, map[], None, 0))
    ensures Apply(before, Release(touch, map[], None, 0))
         == before.(touches := before.touches[touch := before.touches[touch].(status := Released)])
  {
    assert before.counters + map[] == before.counters;
  }

  lemma SlotIsRelease(before: Db, d: GateDraft, box: string, claimed: Db)
    requires d.touch in before.touches && OneSlotSpent(before, d, box, claimed)
    ensures d.touch in claimed.touches
    ensures ConfidenceRelease(before, d, claimed.(touches := claimed.touches[d.touch := claimed.touches[d.touch].(status := Released)]))
  {
    var days := MissingDayRows(before, d.who.tenant, d.day);
    var k := MailboxDay(box, d.day);
    assert FreshDayRows(before, days);
    assert k in before.counters + days && HasRoom(before.counters + days, k) by { hide MissingDayRows; }
    hide MissingDayRows, LeastUsedBox, FreshDayRows, HasRoom, Bump;
    assert Guard(before, Release(d.touch, days, Some(k), 0));
  }

  lemma DispatchIsAllowed(before: Db, d: GateDraft, box: string, claimed: Db)
    requires ValidConfig(d.drip)
    requires Loadable(before, d.touch) && d == Loaded(before, d.touch, d.findings, d.month, d.day, d.began, d.clock, d.drip)
    requires d.row.created <= d.began <= d.clock
    requires PassesFirst(before, d, 8) && LeastUsedBox(before, d, box) && ClaimedState(before, d, box, claimed)
    ensures d.touch in claimed.touches && d.row.prospect in claimed.prospects && claimed.touches[d.touch].status.Claimed?
    ensures ProfileOf(d.row.kind) != REPLY ==> d.who.entity in claimed.entities
    ensures SendAllowed(before, SendFor(before, d, box, Moves(claimed, d)))
    ensures Finished(claimed, d) == AfterDispatch(before, SendFor(before, d, box, Moves(claimed, d)))
  {
    hide FrequencyOk, ContinuationOk, Suppressed, Sendable, BarredInAnyScope, Charged, PlanAfter, Halted;
    SendIsAllowed(before, d, box, Moves(claimed, d));
    FinishedIsDispatched(before, d, box, claimed);
  }

  lemma SendIsAllowed(before: Db, d: GateDraft, box: string, moved: bool)
    requires ValidConfig(d.drip)
    requires Loadable(before, d.touch) && d == Loaded(before, d.touch, d.findings, d.month, d.day, d.began, d.clock, d.drip)
    requires d.row.created <= d.began <= d.clock
    requires PassesFirst(before, d, 8) && LeastUsedBox(before, d, box)
    requires moved ==> before.prospects[d.row.prospect].state == Queued
    ensures SendAllowed(before, SendFor(before, d, box, moved))
  {
    hide FrequencyOk, ContinuationOk, Suppressed, Sendable, BarredInAnyScope, Halted;
  }

  lemma ChargedAlike(counters: map<CounterKey, Counter>, a: Send, b: Send)
    requires a == b.(moved := a.moved)
    requires BoxKey(a) in counters + a.days
    requires Contact(a) ==> TenantKey(a) in counters && CohortKey(a) in counters
    ensures Charged(counters, a) == Charged(counters, b)
  {
  }

  lemma FinishedIsDispatched(before: Db, d: GateDraft, box: string, claimed: Db)
    requires Loadable(before, d.touch) && d == Loaded(before, d.touch, d.findings, d.month, d.day, d.began, d.clock, d.drip)
    requires ClaimedState(before, d, box, claimed)
    ensures var s := SendFor(before, d, box, Moves(claimed, d));
      && BoxKey(s) in before.counters + s.days
      && (Contact(s) ==> TenantKey(s) in before.counters && CohortKey(s) in before.counters && d.who.entity in before.entities)
      && Finished(claimed, d) == AfterDispatch(before, s)
  {
    var s := SendFor(before, d, box, Moves(claimed, d));
    ChargedAlike(before.counters, s, SendFor(before, d, box, false));
    FinishedEntities(before, d, box, claimed);
    FinishedTouches(before, d, box, claimed);
    hide Charged, MissingDayRows, Planned, Tried, HasRoom, PlanAfter, Freed, AfterContact;
  }

  lemma FinishedTouches(before: Db, d: GateDraft, box: string, claimed: Db)
    requires Loadable(before, d.touch) && d == Loaded(before, d.touch, d.findings, d.month, d.day, d.began, d.clock, d.drip)
    requires ClaimedState(before, d, box, claimed)
    ensures Finished(claimed, d).touches == before.touches[d.touch := d.row.(status := Dispatched, mailbox := Some(box))]
  {
    hide PlanAfter, Charged, MissingDayRows, HasRoom, Planned, Tried, Freed, AfterContact;
  }

  /** Freeing the entity that the claim has just taken leaves it without a sequence. */
  lemma FreedAfterContact(touches: map<Id, Touch>, e: Entity, touch: Id, stamp: Time, prospect: Id)
    requires touch in touches && touches[touch].prospect == prospect
    ensures Freed(touches, AfterContact(e, touch, stamp, NoPlan), prospect) == AfterContact(e, touch, stamp, DripDone)
  {
  }

  lemma UnfinishedContact(e: Entity, touch: Id, stamp: Time, plan: Plan)
    requires !plan.DripDone?
    ensures AfterContact(e, touch, stamp, NoPlan) == AfterContact(e, touch, stamp, plan)
  {
  }

  /** What the claim did to the entities, and where its touch is. */
  lemma ClaimedEntities(before: Db, d: GateDraft, box: string, claimed: Db)
    requires Loadable(before, d.touch) && d == Loaded(before, d.touch, d.findings, d.month, d.day, d.began, d.clock, d.drip)
    requires ClaimedState(before, d, box, claimed)
    ensures d.touch in claimed.touches && claimed.touches[d.touch].prospect == d.row.prospect
    ensures d.row.prospect in claimed.prospects
    ensures ProfileOf(d.row.kind) != REPLY ==> d.who.entity in before.entities
    ensures claimed.entities ==
      if ProfileOf(d.row.kind) == REPLY then before.entities
      else before.entities[d.who.entity := AfterContact(before.entities[d.who.entity], d.touch, d.began, NoPlan)]
  {
    hide Charged, MissingDayRows, HasRoom, AfterContact;
  }

  lemma FinishedEntities(before: Db, d: GateDraft, box: string, claimed: Db)
    requires Loadable(before, d.touch) && d == Loaded(before, d.touch, d.findings, d.month, d.day, d.began, d.clock, d.drip)
    requires ClaimedState(before, d, box, claimed)
    ensures var plan := PlanAfter(d.drip, d.row);
      Finished(claimed, d).entities ==
      if ProfileOf(d.row.kind) == REPLY then before.entities
      else before.entities[d.who.entity := AfterContact(before.entities[d.who.entity], d.touch, d.began, plan)]
  {
    ClaimedEntities(before, d, box, claimed);
    var plan := PlanAfter(d.drip, d.row);
    assert plan.DripDone? ==> ProfileOf(d.row.kind) != REPLY;
    hide PlanAfter, Planned, Tried, Freed, AfterContact, ClaimedState, Loadable, Loaded;
    if plan.DripDone? {
      var marked := claimed.touches[d.touch := claimed.touches[d.touch].(status := Dispatched)];
      FreedAfterContact(marked, before.entities[d.who.entity], d.touch, d.began, d.row.prospect);
    } else if ProfileOf(d.row.kind) != REPLY {
      UnfinishedContact(before.entities[d.who.entity], d.touch, d.began, plan);
    }
  }
}
