/** Runs that exist: a cold draft whose gates pass is delivered by a worker that meets no lock, and
    from it three concrete runs, in which a claim commits after a halt, a claim commits after a
    deletion, and a duplicate delivery overwrites a dispatch. */
module Scenarios {
  import opened Options
  import opened Tables
  import opened Ledger
  import opened Budgets
  import opened Interleaving
  import opened Simulation
  import opened Runs

  // ---- reaching a world -------------------------------------------------------------------

  ghost predicate Reached(db0: Db, start: Time, w: World) {
    exists ws, steps :: IsRun(db0, start, ws, steps) && ws[|ws| - 1] == w
  }

  lemma StartIsReached(db0: Db, start: Time)
    requires TouchesDated(db0, start)
    ensures Reached(db0, start, World(db0, map[], start, [], [], []))
  {
    var ws, steps: seq<Step> := [World(db0, map[], start, [], [], [])], [];
    assert IsRun(db0, start, ws, steps);
  }

  lemma StepReaches(db0: Db, start: Time, w: World, s: Step)
    requires Reached(db0, start, w) && Enabled(w, s)
    ensures Reached(db0, start, Take(w, s))
  {
    hide Enabled, Take;
    var ws, steps :| IsRun(db0, start, ws, steps) && ws[|ws| - 1] == w;
    var more, moves := ws + [Take(w, s)], steps + [s];
    assert forall i :: 0 <= i < |steps| ==> Enabled(ws[i], steps[i]) && ws[i + 1] == Take(ws[i], steps[i]);
    assert IsRun(db0, start, more, moves);
  }

  /** No other open transaction holds a lock. */
  ghost predicate Alone(w: World, t: nat) {
    t in w.txns && forall u :: u in w.txns && u != t ==> Held(w.txns[u]) == Locks({}, {}, {}, {}, {}, {})
  }

  function With(w: World, t: nat, y: Txn): World { w.(txns := w.txns[t := y]) }

  /** One statement of a transaction that meets no lock. */
  lemma Statement(db0: Db, start: Time, w: World, t: nat, o: Oracle, y: Txn)
    requires Reached(db0, start, w) && Alone(w, t) && Moves(w.db, w.now, |w.log|, w.txns[t], o, y)
    requires w.txns[t].pc.PickMailbox? ==> LeastUsed(w, t, w.txns[t], o.mailbox)
    requires !w.txns[t].pc.SendOut?
    ensures Reached(db0, start, With(w, t, y)) && Alone(With(w, t, y), t)
  {
    hide Reached, Advance, LeastUsed, Held;
    assert Enabled(w, Run(t, o)) by {
      forall u | u in w.txns && u != t ensures Disjoint(Held(y), Held(w.txns[u])) {}
    }
    StepReaches(db0, start, w, Run(t, o));
    assert Take(w, Run(t, o)) == With(w, t, y);
  }

  lemma Telling(db0: Db, start: Time, w: World, t: nat, o: Oracle)
    requires Reached(db0, start, w) && Alone(w, t) && w.txns[t].pc.SendOut?
    ensures var next := With(w, t, w.txns[t].(pc := Trial)).(sends := w.sends + [w.txns[t].origin.touch]);
      Reached(db0, start, next) && Alone(next, t)
  {
    hide Reached, LeastUsed, Held;
    assert Held(w.txns[t].(pc := Trial)) == Held(w.txns[t]) by { SameLocks(w.txns[t], Trial); }
    assert Enabled(w, Run(t, o)) by {
      forall u | u in w.txns && u != t ensures Disjoint(Held(w.txns[t].(pc := Trial)), Held(w.txns[u])) {}
    }
    StepReaches(db0, start, w, Run(t, o));
  }

  lemma SameLocks(x: Txn, pc: Pc)
    ensures Held(x.(pc := pc)) == Held(x)
  {
  }

  // ---- a delivery that meets no lock -----------------------------------------------------------

  /** A world with the transaction `t` open on a drafted touch, at the statement `pc`. */
  ghost predicate At(w: World, t: nat, touch: Id, pc: Pc) {
    && t in w.txns && w.txns[t].pc == pc && w.txns[t].origin.touch == touch && touch in w.db.touches
    && w.txns[t].row == w.db.touches[touch]
    && w.txns[t].row.prospect in w.db.prospects && w.txns[t].who == w.db.prospects[w.txns[t].row.prospect]
  }

  /** Begin, load, and the halt gate. */
  lemma ToScreen(db0: Db, start: Time, w: World, t: nat, touch: Id, o: Oracle) returns (next: World)
    requires Reached(db0, start, w) && Alone(w, t) && At(w, t, touch, HaltGate)
    requires !Halted(w.db, w.txns[t].who.tenant)
    ensures Reached(db0, start, next) && Alone(next, t) && At(next, t, touch, Screen)
    ensures next == With(w, t, w.txns[t].(haltAt := |w.log|, pc := Screen))
  {
    hide Reached, Held, Halted;
    var y := w.txns[t].(haltAt := |w.log|, pc := Screen);
    Statement(db0, start, w, t, o, y);
    next := With(w, t, y);
  }

  /** Begin and load: the transaction holds no lock yet. */
  lemma Opened(db0: Db, start: Time, w: World, t: nat, touch: Id, month: int, day: int, drip: Option<Drip>, o: Oracle) returns (next: World)
    requires Reached(db0, start, w) && t !in w.txns
    requires forall u :: u in w.txns ==> Held(w.txns[u]) == Locks({}, {}, {}, {}, {}, {})
    requires ValidConfig(drip) && touch in w.db.touches && w.db.touches[touch].status.Drafted?
    requires w.db.touches[touch].prospect in w.db.prospects && w.db.prospects[w.db.touches[touch].prospect].email.Some?
    ensures Reached(db0, start, next) && Alone(next, t) && At(next, t, touch, HaltGate)
    ensures var row := w.db.touches[touch];
      next == With(w, t, Started(touch, row, w.db.prospects[row.prospect], w.now, month, day, drip, |w.log|).(pc := HaltGate))
    ensures Held(next.txns[t]) == Locks({}, {}, {}, {}, {}, {})
  {
    hide Reached;
    var row := w.db.touches[touch];
    StepReaches(db0, start, w, Begin(t, touch, month, day, drip));
    var begun := Take(w, Begin(t, touch, month, day, drip));
    var y := Started(touch, row, w.db.prospects[row.prospect], w.now, month, day, drip, |w.log|).(pc := HaltGate);
    Statement(db0, start, begun, t, o, y);
    next := With(begun, t, y);
  }

  /** The counters that picking a mailbox looks at. */
  function BoxCounters(db: Db, x: Txn): map<CounterKey, Counter> {
    db.counters + MissingDayRows(db, x.who.tenant, x.origin.day)
  }

  predicate MayPick(db: Db, x: Txn, m: string) {
    Pickable(db, BoxCounters(db, x), x.who.tenant, x.origin.day, m)
  }

  /** A least used mailbox among those that can be picked. */
  ghost predicate BestBox(db: Db, x: Txn, m: string) {
    && MayPick(db, x, m)
    && forall n :: MayPick(db, x, n) ==>
         BoxCounters(db, x)[MailboxDay(m, x.origin.day)].used <= BoxCounters(db, x)[MailboxDay(n, x.origin.day)].used
  }

  /** The gates that only a contact has to pass. */
  ghost predicate ContactPasses(db: Db, now: Time, x: Txn) {
    && x.who.entity in db.entities
    && (if ProfileOf(x.row.kind) == COLD then FrequencyOk(db.entities[x.who.entity], now)
        else ContinuationOk(db.touches, db.entities[x.who.entity], x.row.prospect))
    && HasRoom(db.counters, TenantMonthOf(x)) && HasRoom(db.counters, CohortMonthOf(x))
  }

  /** Every gate behind the halt gate would pass on the committed tables, with `m` the mailbox picked. */
  ghost predicate GatesPass(db: Db, now: Time, x: Txn, m: string) {
    && x.who.email.Some?
    && !Suppressed(db, x.who.email.value, x.who.tenant, x.origin.began)
    && (Contacting(x) ==> ContactPasses(db, now, x))
    && BestBox(db, x, m)
    && Sendable(db, x.who.email.value, x.who.tenant)
  }

  /** What the statements up to the claim leave alone. */
  predicate SameTask(x: Txn, y: Txn) {
    y.origin == x.origin && y.row == x.row && y.who == x.who && y.haltAt == x.haltAt && y.moved == x.moved
    && y.prospect == x.prospect && y.written == x.written && y.trial == x.trial && y.job == x.job
  }

  /** All that the gates ask of a transaction. */
  predicate SameAsked(x: Txn, y: Txn) {
    y.row == x.row && y.who == x.who && y.origin.began == x.origin.began
    && y.origin.month == x.origin.month && y.origin.day == x.origin.day
  }

  lemma StillPass(db: Db, now: Time, x: Txn, y: Txn, m: string)
    requires GatesPass(db, now, x, m) && SameAsked(x, y)
    ensures GatesPass(db, now, y, m)
  {
    hide Suppressed, FrequencyOk, ContinuationOk, HasRoom, Pickable, MissingDayRows, Sendable;
  }

  /** One statement towards the claim. */
  lemma Onward(db0: Db, start: Time, w: World, t: nat, touch: Id, m: string, y: Txn) returns (next: World)
    requires Reached(db0, start, w) && Alone(w, t) && At(w, t, touch, w.txns[t].pc) && GatesPass(w.db, w.now, w.txns[t], m)
    requires Moves(w.db, w.now, |w.log|, w.txns[t], Oracle(false, m), y) && SameTask(w.txns[t], y)
    requires !w.txns[t].pc.SendOut?
    ensures next == With(w, t, y) && Reached(db0, start, next) && Alone(next, t) && At(next, t, touch, y.pc)
    ensures GatesPass(next.db, next.now, y, m)
  {
    hide Reached, Held, Alone, Moves, LeastUsed;
    OnlyBox(w, t, m);
    StillPass(w.db, w.now, w.txns[t], y, m);
    hide GatesPass;
    Statement(db0, start, w, t, Oracle(false, m), y);
    next := With(w, t, y);
  }

  /** Screening and frequency. */
  lemma ToBudget(db0: Db, start: Time, w: World, t: nat, touch: Id, m: string) returns (next: World)
    requires t in w.txns && Contacting(w.txns[t])
    requires Reached(db0, start, w) && Alone(w, t) && At(w, t, touch, Screen) && GatesPass(w.db, w.now, w.txns[t], m)
    ensures Reached(db0, start, next) && Alone(next, t) && At(next, t, touch, TenantBudget)
    ensures next == With(w, t, next.txns[t]) && SameTask(w.txns[t], next.txns[t]) && next.txns[t].screenAt == |w.log|
    ensures GatesPass(next.db, next.now, next.txns[t], m)
  {
    hide Reached, Held, Suppressed, FrequencyOk, ContinuationOk, HasRoom, BestBox, Sendable, Alone, LeastUsed;
    var x := w.txns[t];
    var y := x.(screenAt := |w.log|, pc := Frequency);
    next := Onward(db0, start, w, t, touch, m, y);
    var z := y.(entity := Some(w.db.entities[x.who.entity]), frequencyAt := |w.log|, clock := w.now, pc := TenantBudget);
    next := Onward(db0, start, next, t, touch, m, z);
  }

  /** Both months. */
  lemma ToMailbox(db0: Db, start: Time, w: World, t: nat, touch: Id, m: string) returns (next: World)
    requires t in w.txns && Contacting(w.txns[t])
    requires Reached(db0, start, w) && Alone(w, t) && At(w, t, touch, TenantBudget) && GatesPass(w.db, w.now, w.txns[t], m)
    ensures Reached(db0, start, next) && Alone(next, t) && At(next, t, touch, PickMailbox)
    ensures next == With(w, t, next.txns[t]) && SameTask(w.txns[t], next.txns[t]) && next.txns[t].screenAt == w.txns[t].screenAt
    ensures GatesPass(next.db, next.now, next.txns[t], m)
  {
    hide Reached, Held, Suppressed, FrequencyOk, ContinuationOk, HasRoom, BestBox, Sendable, Alone, LeastUsed;
    var y := DoTenantBudget(w.db, w.txns[t]).value;
    next := Onward(db0, start, w, t, touch, m, y);
    var z := DoCohortBudget(w.db, y).value;
    next := Onward(db0, start, next, t, touch, m, z);
  }

  /** Mailbox and confidence. */
  lemma FromMailbox(db0: Db, start: Time, w: World, t: nat, touch: Id, m: string) returns (next: World)
    requires Reached(db0, start, w) && Alone(w, t) && At(w, t, touch, PickMailbox) && GatesPass(w.db, w.now, w.txns[t], m)
    ensures Reached(db0, start, next) && Alone(next, t) && At(next, t, touch, Persist)
    ensures next == With(w, t, next.txns[t]) && SameTask(w.txns[t], next.txns[t])
    ensures next.txns[t].screenAt == w.txns[t].screenAt && next.txns[t].confidenceAt == |w.log| && next.txns[t].spend.box.Some?
    ensures next.txns[t].entity == w.txns[t].entity
  {
    hide Reached, Alone, Suppressed, ContactPasses, MayPick, BoxCounters, Sendable, DoPickMailbox, With;
    PickKeepsTask(w.db, w.txns[t], m);
    var picked := PickedMailbox(db0, start, w, t, touch, m);
    hide GatesPass;
    WithReads(w, t, DoPickMailbox(w.db, w.txns[t], m).value);
    next := PassConfidence(db0, start, picked, t, touch, m);
    Onwards(w, picked, next, t);
  }

  lemma WithReads(w: World, t: nat, y: Txn)
    ensures var next := With(w, t, y); t in next.txns && next.txns[t] == y && next.log == w.log && next.db == w.db && next.now == w.now
  {
  }

  lemma PassConfidence(db0: Db, start: Time, w: World, t: nat, touch: Id, m: string) returns (next: World)
    requires Reached(db0, start, w) && Alone(w, t) && At(w, t, touch, Confidence) && GatesPass(w.db, w.now, w.txns[t], m)
    ensures t in next.txns && next.txns[t] == w.txns[t].(confidenceAt := |w.log|, pc := Persist)
    ensures next == With(w, t, next.txns[t]) && SameTask(w.txns[t], next.txns[t])
    ensures Reached(db0, start, next) && Alone(next, t) && At(next, t, touch, Persist)
  {
    hide Reached, Alone, Suppressed, ContactPasses, BestBox, Sendable, LeastUsed;
    next := Onward(db0, start, w, t, touch, m, w.txns[t].(confidenceAt := |w.log|, pc := Persist));
  }

  lemma PickedMailbox(db0: Db, start: Time, w: World, t: nat, touch: Id, m: string) returns (next: World)
    requires Reached(db0, start, w) && Alone(w, t) && At(w, t, touch, PickMailbox) && GatesPass(w.db, w.now, w.txns[t], m)
    requires DoPickMailbox(w.db, w.txns[t], m).Some?
    requires SameTask(w.txns[t], DoPickMailbox(w.db, w.txns[t], m).value) && DoPickMailbox(w.db, w.txns[t], m).value.pc.Confidence?
    ensures next == With(w, t, DoPickMailbox(w.db, w.txns[t], m).value)
    ensures Reached(db0, start, next) && Alone(next, t) && At(next, t, touch, Confidence)
    ensures GatesPass(next.db, next.now, next.txns[t], m)
  {
    hide Reached, Alone, GatesPass, DoPickMailbox, LeastUsed;
    next := Onward(db0, start, w, t, touch, m, DoPickMailbox(w.db, w.txns[t], m).value);
  }

  lemma PickKeepsTask(db: Db, x: Txn, m: string)
    requires MayPick(db, x, m)
    ensures DoPickMailbox(db, x, m).Some?
    ensures var y := DoPickMailbox(db, x, m).value;
      SameTask(x, y) && y.pc.Confidence? && y.spend.box.Some? && y.screenAt == x.screenAt && y.entity == x.entity
  {
    BoxRow(db, x, m);
    hide Pickable, MissingDayRows;
  }

  lemma BoxRow(db: Db, x: Txn, m: string)
    requires MayPick(db, x, m)
    ensures MailboxDay(m, x.origin.day) in BoxCounters(db, x)
  {
    hide MissingDayRows;
  }

  /** A reply goes from screening straight to its mailbox. */
  lemma ReplyToMailbox(db0: Db, start: Time, w: World, t: nat, touch: Id, m: string) returns (next: World)
    requires t in w.txns && !Contacting(w.txns[t])
    requires Reached(db0, start, w) && Alone(w, t) && At(w, t, touch, Screen) && GatesPass(w.db, w.now, w.txns[t], m)
    ensures Reached(db0, start, next) && Alone(next, t) && At(next, t, touch, PickMailbox)
    ensures next == With(w, t, w.txns[t].(screenAt := |w.log|, pc := PickMailbox))
    ensures GatesPass(next.db, next.now, next.txns[t], m)
  {
    hide Reached, Held, Suppressed, BestBox, Sendable, Alone, LeastUsed;
    var y := w.txns[t].(screenAt := |w.log|, pc := PickMailbox);
    next := Onward(db0, start, w, t, touch, m, y);
  }

  /** Screening, frequency, budgets, mailbox and confidence; a reply takes no entity row. */
  lemma ToPersist(db0: Db, start: Time, w: World, t: nat, touch: Id, m: string) returns (next: World)
    requires Reached(db0, start, w) && Alone(w, t) && At(w, t, touch, Screen) && GatesPass(w.db, w.now, w.txns[t], m)
    ensures Reached(db0, start, next) && Alone(next, t) && At(next, t, touch, Persist)
    ensures next == With(w, t, next.txns[t]) && SameTask(w.txns[t], next.txns[t])
    ensures next.txns[t].screenAt == next.txns[t].confidenceAt == |w.log| && next.txns[t].spend.box.Some?
    ensures !Contacting(w.txns[t]) ==> next.txns[t].entity == w.txns[t].entity
  {
    hide Reached, Alone, GatesPass, SameTask, With;
    var picking := AnyToMailbox(db0, start, w, t, touch, m);
    next := FromMailbox(db0, start, picking, t, touch, m);
    Onwards(w, picking, next, t);
  }

  /** Two stretches of one transaction's way, one behind the other. */
  lemma Onwards(w: World, mid: World, next: World, t: nat)
    requires t in w.txns && t in mid.txns && t in next.txns
    requires mid == With(w, t, mid.txns[t]) && next == With(mid, t, next.txns[t])
    requires SameTask(w.txns[t], mid.txns[t]) && SameTask(mid.txns[t], next.txns[t])
    ensures next == With(w, t, next.txns[t]) && SameTask(w.txns[t], next.txns[t])
    ensures next.log == mid.log == w.log && next.db == mid.db == w.db && next.now == mid.now == w.now
  {
  }

  lemma ContactToMailbox(db0: Db, start: Time, w: World, t: nat, touch: Id, m: string) returns (next: World)
    requires t in w.txns && Contacting(w.txns[t])
    requires Reached(db0, start, w) && Alone(w, t) && At(w, t, touch, Screen) && GatesPass(w.db, w.now, w.txns[t], m)
    ensures Reached(db0, start, next) && Alone(next, t) && At(next, t, touch, PickMailbox)
    ensures next == With(w, t, next.txns[t]) && SameTask(w.txns[t], next.txns[t]) && next.txns[t].screenAt == |w.log|
    ensures GatesPass(next.db, next.now, next.txns[t], m)
  {
    hide Reached, Alone, GatesPass, With;
    var governed := ToBudget(db0, start, w, t, touch, m);
    next := ToMailbox(db0, start, governed, t, touch, m);
    Onwards(w, governed, next, t);
  }

  lemma AnyToMailbox(db0: Db, start: Time, w: World, t: nat, touch: Id, m: string) returns (next: World)
    requires Reached(db0, start, w) && Alone(w, t) && At(w, t, touch, Screen) && GatesPass(w.db, w.now, w.txns[t], m)
    ensures Reached(db0, start, next) && Alone(next, t) && At(next, t, touch, PickMailbox)
    ensures next == With(w, t, next.txns[t]) && SameTask(w.txns[t], next.txns[t]) && next.txns[t].screenAt == |w.log|
    ensures GatesPass(next.db, next.now, next.txns[t], m)
    ensures !Contacting(w.txns[t]) ==> next.txns[t].entity == w.txns[t].entity
  {
    hide Reached, Alone, GatesPass;
    if Contacting(w.txns[t]) {
      next := ContactToMailbox(db0, start, w, t, touch, m);
    } else {
      next := ReplyToMailbox(db0, start, w, t, touch, m);
    }
  }

  lemma OnlyBox(w: World, t: nat, m: string)
    requires t in w.txns && GatesPass(w.db, w.now, w.txns[t], m)
    ensures LeastUsed(w, t, w.txns[t], m)
  {
    hide MissingDayRows, Suppressed, ContactPasses, HasRoom, Sendable, Pickable;
    forall n | MayPick(w.db, w.txns[t], n) ensures MailboxDay(n, w.txns[t].origin.day) in BoxCounters(w.db, w.txns[t]) {
      BoxRow(w.db, w.txns[t], n);
    }
  }

  /** The transaction at a statement behind its claim, with all that the rest of its way needs. */
  ghost predicate Standing(w: World, t: nat, touch: Id, pc: Pc) {
    && t in w.txns && w.txns[t].pc == pc && w.txns[t].origin.touch == touch
    && w.txns[t].row.prospect in w.db.prospects && w.txns[t].spend.box.Some?
    && (Past(w.txns[t], Persist) ==> w.txns[t].written.Some?)
  }

  /** What the statements behind the claim leave alone. */
  predicate SameGates(x: Txn, y: Txn) {
    y.origin == x.origin && y.who == x.who && y.row.kind == x.row.kind
    && y.haltAt == x.haltAt && y.screenAt == x.screenAt && y.confidenceAt == x.confidenceAt
  }

  /** One statement towards the commit. */
  lemma Further(db0: Db, start: Time, w: World, t: nat, touch: Id, y: Txn) returns (next: World)
    requires Reached(db0, start, w) && Alone(w, t) && Standing(w, t, touch, w.txns[t].pc)
    requires Moves(w.db, w.now, |w.log|, w.txns[t], Oracle(false, ""), y) && SameGates(w.txns[t], y)
    requires !w.txns[t].pc.SendOut? && !w.txns[t].pc.PickMailbox?
    requires y.row == w.txns[t].row && y.spend == w.txns[t].spend && (Past(y, Persist) ==> y.written.Some?)
    ensures next == With(w, t, y) && Reached(db0, start, next) && Alone(next, t) && Standing(next, t, touch, y.pc)
  {
    hide Reached, Held, Alone, Moves, LeastUsed;
    Statement(db0, start, w, t, Oracle(false, ""), y);
    next := With(w, t, y);
  }

  /** The claim itself and the provider call. */
  lemma ToTrial(db0: Db, start: Time, w: World, t: nat, touch: Id) returns (next: World)
    requires Reached(db0, start, w) && Alone(w, t) && Standing(w, t, touch, Persist)
    requires touch in w.db.touches && w.db.touches[touch].status.Drafted? && w.txns[t].row == w.db.touches[touch]
    requires Claimable(w.db, w.txns[t].row.prospect, w.txns[t].origin.began)
    ensures Reached(db0, start, next) && Alone(next, t) && Standing(next, t, touch, Trial)
    ensures next == With(w, t, next.txns[t]).(sends := w.sends + [touch])
    ensures SameGates(w.txns[t], next.txns[t]) && next.txns[t].persistAt == |w.log|
  {
    hide Reached, Held, Alone, LeastUsed, BarredInAnyScope, AfterContact;
    var y := DoPersist(w.db, w.txns[t], |w.log|).value;
    var claimed := Further(db0, start, w, t, touch, y);
    Telling(db0, start, claimed, t, Oracle(false, ""));
    next := With(claimed, t, y.(pc := Trial)).(sends := claimed.sends + [touch]);
  }

  /** Trial and transition. */
  lemma ToMark(db0: Db, start: Time, w: World, t: nat, touch: Id) returns (next: World)
    requires Reached(db0, start, w) && Alone(w, t) && Standing(w, t, touch, Trial)
    ensures Reached(db0, start, next) && Alone(next, t) && Standing(next, t, touch, Mark)
    ensures next == With(w, t, next.txns[t]) && SameGates(w.txns[t], next.txns[t]) && next.txns[t].persistAt == w.txns[t].persistAt
  {
    hide Reached, Held, Alone, LeastUsed;
    var y := DoTrial(w.db, w.txns[t]).value;
    next := Further(db0, start, w, t, touch, y);
    next := FromReadState(db0, start, next, t, touch);
  }

  lemma FromReadState(db0: Db, start: Time, w: World, t: nat, touch: Id) returns (next: World)
    requires Reached(db0, start, w) && Alone(w, t) && Standing(w, t, touch, ReadState)
    ensures Reached(db0, start, next) && Alone(next, t) && Standing(next, t, touch, Mark)
    ensures next == With(w, t, next.txns[t]) && SameGates(w.txns[t], next.txns[t]) && next.txns[t].persistAt == w.txns[t].persistAt
  {
    hide Reached, Held, Alone, LeastUsed;
    var z := DoReadState(w.db, w.txns[t]).value;
    next := Further(db0, start, w, t, touch, z);
    if z.pc.Transit? {
      next := Further(db0, start, next, t, touch, DoTransit(w.db, z).value);
    }
  }

  /** Mark, plan and commit. */
  lemma ToCommitted(db0: Db, start: Time, w: World, t: nat, touch: Id) returns (next: World, s: Send)
    requires Reached(db0, start, w) && Alone(w, t) && Standing(w, t, touch, Mark)
    ensures Reached(db0, start, next) && next.log == w.log + [Dispatch(s)] && s.touch == touch
    ensures next.txns == w.txns - {t} && next.now == w.now && next.sends == w.sends && next.db.flags == w.db.flags
    ensures var x := w.txns[t];
      s.began == x.origin.began && s.drip == x.origin.drip && s.who == x.who && s.row.kind == x.row.kind && s.haltAt == x.haltAt && s.screenAt == x.screenAt && s.confidenceAt == x.confidenceAt
      && s.persistAt == x.persistAt
  {
    hide Reached, Held, Alone, LeastUsed, PlanAfter;
    var y := DoMark(w.db, w.txns[t]).value;
    MarkKeepsGates(w.db, w.txns[t]);
    var marked := Further(db0, start, w, t, touch, y);
    StepReaches(db0, start, marked, Finish(t));
    next := Take(marked, Finish(t));
    s := SendOf(y);
  }

  lemma MarkKeepsGates(db: Db, x: Txn)
    requires x.written.Some?
    ensures var y := DoMark(db, x).value;
      SameGates(x, y) && y.row == x.row && y.spend == x.spend && y.written.Some? && y.pc.Commit? && y.persistAt == x.persistAt
  {
    hide PlanAfter;
  }

  /** From the claim to the commit nothing can stop a transaction that meets no lock. */
  lemma ToDispatch(db0: Db, start: Time, w: World, t: nat, touch: Id) returns (next: World, s: Send)
    requires Reached(db0, start, w) && Alone(w, t) && Standing(w, t, touch, Persist)
    requires touch in w.db.touches && w.db.touches[touch].status.Drafted? && w.txns[t].row == w.db.touches[touch]
    requires Claimable(w.db, w.txns[t].row.prospect, w.txns[t].origin.began)
    ensures Reached(db0, start, next) && next.log == w.log + [Dispatch(s)] && s.touch == touch
    ensures next.txns == w.txns - {t} && next.now == w.now && next.sends == w.sends + [touch]
    ensures next.db.flags == w.db.flags
    ensures var x := w.txns[t];
      s.began == x.origin.began && s.drip == x.origin.drip && s.who == x.who && s.row.kind == x.row.kind && s.haltAt == x.haltAt && s.screenAt == x.screenAt && s.confidenceAt == x.confidenceAt
      && s.persistAt == |w.log|
  {
    hide Reached, Alone, Standing, Claimable;
    next := ToTrial(db0, start, w, t, touch);
    next := ToMark(db0, start, next, t, touch);
    next, s := ToCommitted(db0, start, next, t, touch);
  }

  /** Progress: from any reached world in which no open transaction holds a lock, a draft of any
      kind whose gates pass on the committed tables can be delivered, with one provider call. */
  lemma DraftCanBeDelivered(db0: Db, start: Time, w: World, t: nat, touch: Id, month: int, day: int, drip: Option<Drip>, m: string)
    returns (next: World, s: Send)
    requires Reached(db0, start, w) && t !in w.txns
    requires forall u :: u in w.txns ==> Held(w.txns[u]) == Locks({}, {}, {}, {}, {}, {})
    requires ValidConfig(drip) && Deliverable(w.db, w.now, touch, month, day, m)
    ensures Reached(db0, start, next) && next.log == w.log + [Dispatch(s)] && s.touch == touch
    ensures next.txns == w.txns && next.now == w.now && next.sends == w.sends + [touch] && s.drip == drip
  {
    hide Reached, Alone, GatesPass, Held, Halted, Claimable;
    next := Opened(db0, start, w, t, touch, month, day, drip, Oracle(false, m));
    next := ToScreen(db0, start, next, t, touch, Oracle(false, m));
    StillPass(w.db, w.now, Asking(w.db, touch, w.now, month, day), next.txns[t], m);
    next := ToPersist(db0, start, next, t, touch, m);
    next, s := ToDispatch(db0, start, next, t, touch);
    assert next.txns == w.txns;
  }

  /** The transaction as `Opened` starts it, for asking whether its gates would pass. */
  function Asking(db: Db, touch: Id, now: Time, month: int, day: int): Txn
    requires touch in db.touches && db.touches[touch].prospect in db.prospects
  {
    var row := db.touches[touch];
    Started(touch, row, db.prospects[row.prospect], now, month, day, None, 0)
  }

  ghost predicate Deliverable(db: Db, now: Time, touch: Id, month: int, day: int, m: string) {
    && touch in db.touches && db.touches[touch].status.Drafted?
    && db.touches[touch].prospect in db.prospects
    && db.prospects[db.touches[touch].prospect].email.Some?
    && !Halted(db, db.prospects[db.touches[touch].prospect].tenant)
    && GatesPass(db, now, Asking(db, touch, now, month, day), m)
    && Claimable(db, db.touches[touch].prospect, now)
  }

  // ---- three concrete runs ---------------------------------------------------------------------

  const ADDRESS := "a@b.c"

  const OPENER := Touch(1, Some("v"), 0, Cold, 0, Drafted, None)
  const ANSWER := Touch(1, None, 0, AgenticReply, 0, Drafted, None)
  const PERSON := Prospect(1, "t", "c", "p", Some(ADDRESS), true, Queued)

  const BUDGETED := map[TenantMonth("t", 0) := Counter(0, 9), CohortMonth("c", 0) := Counter(0, 9), MailboxDay("m", 0) := Counter(0, 9)]

  /** One verified prospect with one draft, one warm mailbox, and room in every budget. */
  function Sample(draft: Touch): Db {
    Db(BUDGETED, map[1 := NEW_ENTITY], map[1 := draft], map[1 := PERSON], map[], map[], map[],
       {}, map[], {}, map["m" := Mailbox("t", true, 9)])
  }

  function Begun(draft: Touch): World { World(Sample(draft), map[], 0, [], [], []) }

  predicate IsSample(draft: Touch) { draft == OPENER || draft == ANSWER }

  lemma SampleBegins(draft: Touch)
    requires IsSample(draft)
    ensures Reached(Sample(draft), 0, Begun(draft))
  {
    hide Reached;
    StartIsReached(Sample(draft), 0);
  }

  lemma NothingMissing(db: Db, tenant: string, day: int)
    requires forall m :: m in db.mailboxes ==> MailboxDay(m, day) in db.counters
    ensures MissingDayRows(db, tenant, day) == map[]
  {
  }

  lemma SampleHasOneBox(draft: Touch)
    ensures forall m :: m in Sample(draft).mailboxes ==> m == "m"
    ensures MailboxDay("m", 0) in BUDGETED
  {
  }

  lemma NoRowIsMissing(db: Db, draft: Touch)
    requires db.counters == BUDGETED && db.mailboxes == Sample(draft).mailboxes
    ensures db.counters + MissingDayRows(db, "t", 0) == BUDGETED
  {
    SampleHasOneBox(draft);
    NothingMissing(db, "t", 0);
    hide MissingDayRows;
    assert BUDGETED + map[] == BUDGETED;
  }

  lemma BoxHasRoom()
    ensures HasRoom(BUDGETED, MailboxDay("m", 0))
  {
  }

  lemma SampleBox(db: Db, draft: Touch, x: Txn, m: string)
    requires db.counters == BUDGETED && db.mailboxes == Sample(draft).mailboxes && x.who.tenant == "t" && x.origin.day == 0
    ensures MayPick(db, x, m) <==> m == "m"
  {
    NoRowIsMissing(db, draft);
    BoxHasRoom();
    hide MissingDayRows, HasRoom;
  }

  lemma SampleBestBox(db: Db, draft: Touch, x: Txn)
    requires db.counters == BUDGETED && db.mailboxes == Sample(draft).mailboxes && x.who.tenant == "t" && x.origin.day == 0
    ensures BestBox(db, x, "m")
  {
    forall m: string ensures MayPick(db, x, m) <==> m == "m" { SampleBox(db, draft, x, m); }
    BoxRow(db, x, "m");
    hide MayPick, BoxCounters;
  }

  lemma SampleCounters()
    ensures HasRoom(BUDGETED, TenantMonth("t", 0)) && HasRoom(BUDGETED, CohortMonth("c", 0))
  {
  }

  /** Its gates pass whatever the flags are. */
  lemma SampleGatesPass(db: Db, draft: Touch, x: Txn)
    requires IsSample(draft) && db == Sample(draft).(flags := db.flags)
    requires x.row == draft && x.who == PERSON && x.origin.began == 0 && x.origin.month == 0 && x.origin.day == 0
    ensures GatesPass(db, 0, x, "m") && Claimable(db, 1, 0)
  {
    SampleCounters();
    SampleBestBox(db, draft, x);
    assert Sendable(db, ADDRESS, "t") by { assert 1 in db.prospects && db.prospects[1] == PERSON; }
    hide BestBox, HasRoom, Sendable;
  }

  lemma SampleIsDeliverable()
    ensures Deliverable(Sample(OPENER), 0, 1, 0, 0, "m")
  {
    SampleGatesPass(Sample(OPENER), OPENER, Asking(Sample(OPENER), 1, 0, 0, 0));
    hide GatesPass, Claimable;
  }

  /** Opens the draft's delivery and takes it to the halt gate. */
  lemma SampleOpened(draft: Touch, w: World, t: nat) returns (next: World)
    requires IsSample(draft) && Reached(Sample(draft), 0, w) && w.db == Sample(draft) && w.now == 0 && w.log == [] && t !in w.txns
    requires forall u :: u in w.txns ==> Held(w.txns[u]) == Locks({}, {}, {}, {}, {}, {})
    ensures Reached(Sample(draft), 0, next) && Alone(next, t) && At(next, t, 1, HaltGate)
    ensures next == With(w, t, Started(1, draft, PERSON, 0, 0, 0, None, 0).(pc := HaltGate))
    ensures Held(next.txns[t]) == Locks({}, {}, {}, {}, {}, {})
  {
    hide Reached, Alone, At, Held;
    next := Opened(Sample(draft), 0, w, t, 1, 0, 0, None, Oracle(false, "m"));
  }

  /** A halt commits whatever transactions are open. */
  lemma HaltCommits(db0: Db, start: Time, w: World, t: nat, scope: string) returns (next: World)
    requires Reached(db0, start, w) && Alone(w, t)
    ensures next == w.(db := w.db.(flags := w.db.flags + {scope}), log := w.log + [Event.Halt(scope)], times := w.times + [w.now])
    ensures Reached(db0, start, next) && Alone(next, t)
  {
    hide Reached, Held;
    forall u | u in w.txns ensures RowsKept(w.db, Apply(w.db, Event.Halt(scope)), Held(w.txns[u])) {}
    StepReaches(db0, start, w, Other(Event.Halt(scope)));
    next := Take(w, Other(Event.Halt(scope)));
  }

  lemma PersistStands(w: World, t: nat, touch: Id)
    requires At(w, t, touch, Persist) && w.txns[t].spend.box.Some?
    ensures Standing(w, t, touch, Persist)
  {
  }

  /** A run in which a claim commits after a halt: the halt comes between the halt gate and the rest. */
  lemma ClaimCommitsAfterHalt() returns (w: World, s: Send)
    ensures Reached(Sample(OPENER), 0, w) && w.log == [Event.Halt(GLOBAL_SCOPE), Dispatch(s)]
    ensures Halted(w.db, "t") && s.haltAt == 0 && w.sends == [1]
  {
    hide Reached, Alone, GatesPass, Claimable, Standing, Held;
    w := HaltedBehindGate();
    w := ToPersist(Sample(OPENER), 0, w, 0, 1, "m");
    PersistStands(w, 0, 1);
    w, s := ToDispatch(Sample(OPENER), 0, w, 0, 1);
  }

  lemma HaltedBehindGate() returns (w: World)
    ensures Reached(Sample(OPENER), 0, w) && Alone(w, 0) && At(w, 0, 1, Screen) && w.log == [Event.Halt(GLOBAL_SCOPE)]
    ensures w.txns[0].haltAt == 0 && w.sends == [] && w.txns[0].origin.began == 0 && Halted(w.db, "t") && w.now == 0
    ensures GatesPass(w.db, 0, w.txns[0], "m") && Claimable(w.db, 1, 0) && w.txns[0].row == OPENER
  {
    hide Reached, Alone, GatesPass, Claimable, Standing, Held;
    SampleBegins(OPENER);
    w := SampleOpened(OPENER, Begun(OPENER), 0);
    w := ToScreen(Sample(OPENER), 0, w, 0, 1, Oracle(false, "m"));
    w := HaltCommits(Sample(OPENER), 0, w, 0, GLOBAL_SCOPE);
    SampleGatesPass(w.db, OPENER, w.txns[0]);
  }

  /** The deletion that the sample's person asks for. */
  function Deletion(): Event { Event.Forget({1}, {ADDRESS}) }

  /** It commits while a delivery stands before its claim that holds no row of the person. */
  lemma DeletionCommits(w: World) returns (next: World)
    requires Reached(Sample(ANSWER), 0, w) && Alone(w, 0) && w.txns.Keys == {0} && w.db == Sample(ANSWER)
    requires w.txns[0].prospect.None? && w.txns[0].entity.None? && w.txns[0].written.None?
    requires w.txns[0].trial.None? && w.txns[0].job.None?
    ensures Guard(Sample(ANSWER), Deletion())
    ensures next == w.(db := Apply(Sample(ANSWER), Deletion()), log := w.log + [Deletion()], times := w.times + [w.now])
    ensures Reached(Sample(ANSWER), 0, next) && Alone(next, 0)
  {
    hide Reached, LeastUsed;
    DeletionKeepsOthers(w.txns[0]);
    hide RowsKept, Held, DeletionRows, Disjoint;
    StepReaches(Sample(ANSWER), 0, w, Other(Deletion()));
    next := Take(w, Other(Deletion()));
  }

  lemma DeletionKeepsOthers(x: Txn)
    requires x.prospect.None? && x.entity.None? && x.written.None? && x.trial.None? && x.job.None?
    ensures Guard(Sample(ANSWER), Deletion())
    ensures RowsKept(Sample(ANSWER), Apply(Sample(ANSWER), Deletion()), Held(x))
    ensures Disjoint(DeletionRows(Sample(ANSWER), Deletion().entities), Held(x))
  {
  }

  lemma DeletedStillClaimable()
    ensures Guard(Sample(ANSWER), Deletion())
    ensures var db := Apply(Sample(ANSWER), Deletion());
      && db.touches == Sample(ANSWER).touches && 1 in db.prospects && db.prospects[1].email.None?
      && Claimable(db, 1, 0) && ADDRESS in db.tombstones
  {
  }

  /** A run in which a claim commits after a deletion of its address: a reply takes no entity row,
      so the deletion can come between its confidence gate and its claim. */
  lemma ReplyCommitsAfterDeletion() returns (w: World, s: Send)
    ensures Reached(Sample(ANSWER), 0, w) && w.log == [Deletion(), Dispatch(s)] && !Contact(s)
    ensures s.who.email == Some(ADDRESS) && s.screenAt == s.confidenceAt == 0 && s.persistAt == 1 && w.sends == [1]
  {
    hide Reached, Alone, GatesPass, Claimable, Held;
    SampleBegins(ANSWER);
    w := SampleOpened(ANSWER, Begun(ANSWER), 0);
    w := ToScreen(Sample(ANSWER), 0, w, 0, 1, Oracle(false, "m"));
    SampleGatesPass(w.db, ANSWER, w.txns[0]);
    w := ToPersist(Sample(ANSWER), 0, w, 0, 1, "m");
    w := DeletionCommits(w);
    DeletedStillClaimable();
    w, s := ToDispatch(Sample(ANSWER), 0, w, 0, 1);
  }

  /** A cold transaction at its halt gate, whose touch has become its entity's active sequence. */
  ghost predicate Duplicate(w: World, t: nat) {
    && t in w.txns && w.txns[t].pc.HaltGate? && w.txns[t].row.kind == Cold && w.txns[t].who.email.Some?
    && !Halted(w.db, w.txns[t].who.tenant)
    && !Suppressed(w.db, w.txns[t].who.email.value, w.txns[t].who.tenant, w.txns[t].origin.began)
    && w.txns[t].who.entity in w.db.entities && w.db.entities[w.txns[t].who.entity].active.Some?
    && w.txns[t].origin.touch in w.db.touches
  }

  /** The duplicate is refused at its frequency gate, and commits the release. */
  lemma DuplicateReleases(db0: Db, start: Time, w: World, t: nat) returns (next: World)
    requires Reached(db0, start, w) && Alone(w, t) && Duplicate(w, t)
    ensures Reached(db0, start, next) && next.sends == w.sends
    ensures |next.log| == |w.log| + 1 && next.log[..|w.log|] == w.log && next.log[|w.log|].Release?
    ensures next.log[|w.log|].touch == w.txns[t].origin.touch
    ensures var touch := w.txns[t].origin.touch;
      touch in next.db.touches && next.db.touches[touch] == w.db.touches[touch].(status := Released)
  {
    hide Reached, Held, Alone, LeastUsed, Halted, Suppressed;
    var x, o := w.txns[t], Oracle(false, "");
    var y := x.(haltAt := |w.log|, pc := Screen);
    Statement(db0, start, w, t, o, y);
    next := With(w, t, y);
    var z := y.(screenAt := |w.log|, pc := Frequency);
    Statement(db0, start, next, t, o, z);
    next := With(next, t, z);
    next := ToRelease(db0, start, next, t);
  }

  lemma ToRelease(db0: Db, start: Time, w: World, t: nat) returns (next: World)
    requires Reached(db0, start, w) && Alone(w, t) && t in w.txns
    requires w.txns[t].pc.Frequency? && w.txns[t].row.kind == Cold && w.txns[t].origin.touch in w.db.touches
    requires w.txns[t].who.entity in w.db.entities && w.db.entities[w.txns[t].who.entity].active.Some?
    ensures Reached(db0, start, next) && next.sends == w.sends
    ensures |next.log| == |w.log| + 1 && next.log[..|w.log|] == w.log && next.log[|w.log|].Release?
    ensures next.log[|w.log|].touch == w.txns[t].origin.touch
    ensures var touch := w.txns[t].origin.touch;
      touch in next.db.touches && next.db.touches[touch] == w.db.touches[touch].(status := Released)
  {
    hide Reached, Held, Alone, LeastUsed;
    var x, o := w.txns[t], Oracle(false, "");
    var y := x.(entity := Some(w.db.entities[x.who.entity]), frequencyAt := |w.log|, clock := w.now, pc := Refuse);
    Statement(db0, start, w, t, o, y);
    next := With(w, t, y);
    var z := y.(written := Some(w.db.touches[x.origin.touch].(status := Released)), pc := CommitRefusal);
    Statement(db0, start, next, t, o, z);
    next := With(next, t, z);
    StepReaches(db0, start, next, Finish(t));
    next := Take(next, Finish(t));
  }

  /** After the sample's dispatch the touch is out and is its entity's active sequence. */
  lemma SampleDispatched(w: World, s: Send)
    requires Reached(Sample(OPENER), 0, w) && w.log == [Dispatch(s)] && s.touch == 1 && s.drip.None?
    ensures w.db.flags == {} && w.db.suppressions == map[] && w.db.tombstones == {}
    ensures 1 in w.db.touches && w.db.touches[1].status == Dispatched
    ensures 1 in w.db.entities && w.db.entities[1].active == Some(1)
  {
    hide Reached, Guard, Apply;
    OneEventHistory(Sample(OPENER), 0, w, Dispatch(s));
    DispatchOfSample(s);
  }

  /** After one committed event the tables are what it made of the first ones. */
  lemma OneEventHistory(db0: Db, start: Time, w: World, e: Event)
    requires Reached(db0, start, w) && w.log == [e]
    ensures Guard(db0, e) && w.db == Apply(db0, e)
  {
    var ws, steps :| IsRun(db0, start, ws, steps) && ws[|ws| - 1] == w;
    hide IsRun, Inv, Valid, Guard, Apply;
    EveryRunIsAHistory(db0, start, ws, steps, |ws| - 1);
    StepAt(db0, w.log, 0);
    assert w.log[..0] == [] && w.log[..1] == w.log;
  }

  lemma DispatchOfSample(s: Send)
    requires Guard(Sample(OPENER), Dispatch(s)) && s.touch == 1 && s.drip.None?
    ensures var db := Apply(Sample(OPENER), Dispatch(s));
      && db.flags == {} && db.suppressions == map[] && db.tombstones == {}
      && 1 in db.touches && db.touches[1].status == Dispatched && 1 in db.entities && db.entities[1].active == Some(1)
  {
    hide Charged, Planned, Tried, HasRoom, FrequencyOk;
    assert s.row == OPENER && s.who.entity == 1 && PlanAfter(s.drip, s.row).NoPlan?;
  }

  /** A run in which an overlapping duplicate overwrites a dispatch: the mail went out once, and
      the touch ends as released. */
  lemma DuplicateOverwritesSample() returns (w: World, s: Send)
    ensures Reached(Sample(OPENER), 0, w) && |w.log| == 2 && w.log[0] == Dispatch(s) && s.touch == 1
    ensures w.log[1].Release? && w.log[1].touch == 1
    ensures w.sends == [1] && 1 in w.db.touches && w.db.touches[1].status == Released
  {
    hide Reached, Alone, GatesPass, Claimable, At, Held;
    SampleBegins(OPENER);
    w := SampleOpened(OPENER, Begun(OPENER), 1);
    w, s := FirstOfTwo(w);
    var before := w;
    w := SecondOfTwo(w, s);
    assert w.log[..1] == before.log;
  }

  /** While one delivery waits at its halt gate, another one goes through. */
  lemma FirstOfTwo(w: World) returns (next: World, s: Send)
    requires Reached(Sample(OPENER), 0, w) && w.db == Sample(OPENER) && w.now == 0 && w.log == [] && w.sends == [] && w.txns.Keys == {1}
    requires Held(w.txns[1]) == Locks({}, {}, {}, {}, {}, {})
    ensures Reached(Sample(OPENER), 0, next) && next.log == [Dispatch(s)] && s.touch == 1 && s.drip.None?
    ensures next.txns == w.txns && next.sends == [1]
  {
    hide Reached, GatesPass, Claimable, Held, Deliverable;
    SampleIsDeliverable();
    next, s := DraftCanBeDelivered(Sample(OPENER), 0, w, 0, 1, 0, 0, None, "m");
  }

  lemma SecondOfTwo(w: World, s: Send) returns (next: World)
    requires Reached(Sample(OPENER), 0, w) && w.log == [Dispatch(s)] && s.touch == 1 && s.drip.None?
    requires w.txns == map[1 := Started(1, OPENER, PERSON, 0, 0, 0, None, 0).(pc := HaltGate)]
    ensures Reached(Sample(OPENER), 0, next) && next.sends == w.sends
    ensures |next.log| == 2 && next.log[..1] == w.log && next.log[1].Release? && next.log[1].touch == 1
    ensures 1 in next.db.touches && next.db.touches[1].status == Released
  {
    hide Reached, Held;
    SampleDispatched(w, s);
    assert Duplicate(w, 1);
    next := DuplicateReleases(Sample(OPENER), 0, w, 1);
  }
}
