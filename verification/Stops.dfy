/** What a halt and a deletion do to claims, and what they cannot do. The gates that read flags,
    suppressions and verified addresses take no lock, so a halt binds exactly the claims that
    evaluate their gate after its commit. A deletion, besides, updates rows that deliveries lock:
    it waits for every contact with its person that is past the frequency gate, and for every
    delivery that is past its claim. */
module Stops {
  import opened Options
  import opened Tables
  import opened Ledger
  import opened Budgets
  import opened Sequences
  import opened Interleaving
  import opened Simulation
  import opened Runs

  // ---- halt -----------------------------------------------------------------------------------

  lemma EventFlags(db: Db, e: Event, scope: string)
    requires Guard(db, e) && scope in db.flags && !(e.Resume? && e.scope == scope)
    ensures scope in Apply(db, e).flags
  {
    hide Charged, PlanAfter, AfterContact, Planned, Tried, Freed, HasRoom, FrequencyOk, ContinuationOk;
  }

  lemma {:induction false} StaysHalted(db0: Db, log: seq<Event>, i: nat, n: nat, scope: string)
    requires Valid(db0, log) && i < n <= |log| && log[i] == Halt(scope)
    requires forall k :: i < k < n ==> !(log[k].Resume? && log[k].scope == scope)
    ensures scope in Replay(db0, log[..n]).flags
    decreases n
  {
    hide Guard, Apply, Valid;
    StepAt(db0, log, n - 1);
    if n - 1 == i {
      HaltSets(Replay(db0, log[..i]), scope);
    } else {
      StaysHalted(db0, log, i, n - 1, scope);
      EventFlags(Replay(db0, log[..n - 1]), log[n - 1], scope);
    }
  }

  lemma HaltSets(db: Db, scope: string)
    ensures Guard(db, Halt(scope)) && scope in Apply(db, Halt(scope)).flags
  {
  }

  /** From a halt of its tenant or of everything, until someone resumes that scope, the only
      claims that still commit had passed their halt gate before the halt did. */
  lemma HaltBinds(db0: Db, log: seq<Event>, i: nat, j: nat, scope: string)
    requires Valid(db0, log) && i < j < |log| && log[i] == Halt(scope) && log[j].Dispatch?
    requires scope == GLOBAL_SCOPE || scope == log[j].send.who.tenant
    requires forall k :: i < k < j ==> !(log[k].Resume? && log[k].scope == scope)
    ensures log[j].send.beginAt <= log[j].send.haltAt <= i
  {
    hide Guard, Apply, Valid, Replay;
    StepAt(db0, log, j);
    var n := log[j].send.haltAt;
    assert log[..j][..n] == log[..n];
    if n > i {
      StaysHalted(db0, log, i, n, scope);
    }
  }

  /** Only a human operator ends a halt. */
  lemma ResumeIsHuman(db0: Db, log: seq<Event>, i: nat, n: nat, scope: string) returns (k: nat)
    requires Valid(db0, log) && i < n <= |log| && log[i] == Halt(scope)
    requires scope !in Replay(db0, log[..n]).flags
    ensures i < k < n && log[k].Resume? && log[k].scope == scope && ActorIsHuman(log[k].actor)
  {
    hide Apply, Valid, Replay;
    if forall c :: i < c < n ==> !(log[c].Resume? && log[c].scope == scope) {
      hide Guard;
      StaysHalted(db0, log, i, n, scope);
    }
    k :| i < k < n && log[k].Resume? && log[k].scope == scope;
    StepAt(db0, log, k);
  }

  /** The other half: past its halt gate a transaction no longer reads the flags, so every
      statement it still runs goes exactly as if no halt had been set or cleared. */
  lemma PastTheGateNothingStops(db: Db, flags: set<string>, now: Time, at: nat, x: Txn, o: Oracle)
    requires !x.pc.Commit? && !x.pc.CommitRefusal? && (Past(x, HaltGate) || x.pc.Refuse?)
    ensures Advance(db.(flags := flags), now, at, x, o) == Advance(db, now, at, x, o)
  {
    SameQuestions(db, flags, x);
    hide Suppressed, FrequencyOk, ContinuationOk, BarredInAnyScope, Halted, Sendable, PlanAfter, AfterContact, HasRoom, MissingDayRows, Pickable, Bump, Lowered;
    if x.pc.PickMailbox? {
      SamePick(db, flags, x, o.mailbox);
    }
  }

  lemma SameQuestions(db: Db, flags: set<string>, x: Txn)
    ensures forall a, t, at :: Suppressed(db.(flags := flags), a, t, at) == Suppressed(db, a, t, at)
    ensures forall a, t :: Sendable(db.(flags := flags), a, t) == Sendable(db, a, t)
    ensures forall e :: BarredInAnyScope(db.(flags := flags), e, x.origin.began) == BarredInAnyScope(db, e, x.origin.began)
  {
  }

  lemma SamePick(db: Db, flags: set<string>, x: Txn, m: string)
    ensures DoPickMailbox(db.(flags := flags), x, m) == DoPickMailbox(db, x, m)
  {
    assert MissingDayRows(db.(flags := flags), x.who.tenant, x.origin.day) == MissingDayRows(db, x.who.tenant, x.origin.day);
  }

  // ---- deletion -------------------------------------------------------------------------------

  lemma ForgetSets(db: Db, e: Event)
    requires Guard(db, e) && e.Forget?
    ensures e.addresses <= Apply(db, e).tombstones
    ensures forall p :: p in db.prospects && db.prospects[p].entity in e.entities ==>
              p in Apply(db, e).prospects && Apply(db, e).prospects[p].email.None?
  {
  }

  /** A deletion has waited for the rows of its people: what commits after it on one of them was
      claimed after it, and a contact passed its frequency gate after it, too. */
  lemma DeletionWaits(db0: Db, log: seq<Event>, i: nat, j: nat)
    requires Valid(db0, log) && i < j < |log| && log[i].Forget? && log[j].Dispatch?
    requires log[j].send.who.entity in log[i].entities
    ensures log[j].send.persistAt > i
    ensures Contact(log[j].send) ==> i < log[j].send.frequencyAt <= log[j].send.confidenceAt
  {
    hide Guard, Apply, Valid, Replay;
    StepAt(db0, log, j);
    assert log[..j][i] == log[i];
  }

  lemma ForgetScreens(db0: Db, log: seq<Event>, i: nat, j: nat)
    requires Valid(db0, log) && i < j < |log| && log[i].Forget? && log[j].Dispatch?
    requires log[j].send.who.email.Some? && log[j].send.who.email.value in log[i].addresses
    ensures log[j].send.beginAt <= log[j].send.screenAt <= i
  {
    hide Guard, Apply, Valid, Replay, NotDeletedSince;
    StepAt(db0, log, i);
    StepAt(db0, log, j);
    var n := log[j].send.screenAt;
    assert log[..j][..n] == log[..n];
    if n > i {
      ForgetSets(Replay(db0, log[..i]), log[i]);
      HistoryContinues(db0, log, i + 1, n);
    }
  }

  /** After a deletion that named an address, the only claims to it that still commit had been
      screened before, and had waited, if on one of its people; there is no event that takes a
      tombstone away. */
  lemma ForgetBinds(db0: Db, log: seq<Event>, i: nat, j: nat)
    requires Valid(db0, log) && i < j < |log| && log[i].Forget? && log[j].Dispatch?
    requires log[j].send.who.email.Some? && log[j].send.who.email.value in log[i].addresses
    ensures log[j].send.beginAt <= log[j].send.screenAt <= i
    ensures log[j].send.who.entity in log[i].entities ==>
      log[j].send.persistAt > i && (Contact(log[j].send) ==> log[j].send.frequencyAt > i)
  {
    hide Valid;
    ForgetScreens(db0, log, i, j);
    if log[j].send.who.entity in log[i].entities { DeletionWaits(db0, log, i, j); }
  }

  /** This prospect of the tenant holds the address, verified. */
  predicate Holds(db: Db, p: Id, email: string, tenant: string) {
    p in db.prospects && db.prospects[p].email == Some(email) && db.prospects[p].tenant == tenant && db.prospects[p].verified
  }

  /** Only an enriching transaction gives an address to someone. */
  lemma EventHolder(db: Db, e: Event, p: Id, email: string, tenant: string)
    requires Guard(db, e) && !Holds(db, p, email, tenant) && Holds(Apply(db, e), p, email, tenant)
    ensures e.Elsewhere?
  {
    hide Charged, PlanAfter, AfterContact, Planned, Tried, Freed, HasRoom, FrequencyOk, ContinuationOk;
  }

  lemma {:induction false} HolderReturns(db0: Db, log: seq<Event>, m: nat, n: nat, p: Id, email: string, tenant: string)
    returns (k: nat)
    requires Valid(db0, log) && m <= n <= |log|
    requires !Holds(Replay(db0, log[..m]), p, email, tenant) && Holds(Replay(db0, log[..n]), p, email, tenant)
    ensures m <= k < n && log[k].Elsewhere?
    ensures !Holds(Replay(db0, log[..k]), p, email, tenant) && Holds(Replay(db0, log[..k + 1]), p, email, tenant)
    decreases n
  {
    hide Guard, Apply, Valid, Replay, Holds;
    if Holds(Replay(db0, log[..n - 1]), p, email, tenant) {
      k := HolderReturns(db0, log, m, n - 1, p, email, tenant);
    } else {
      k := n - 1;
      StepAt(db0, log, k);
      EventHolder(Replay(db0, log[..k]), log[k], p, email, tenant);
    }
  }

  lemma HolderIsDeleted(db: Db, e: Event, p: Id, email: string, tenant: string)
    requires Guard(db, e) && e.Forget? && Holds(Apply(db, e), p, email, tenant)
    ensures Holds(db, p, email, tenant) && db.prospects[p].entity !in e.entities
  {
  }

  /** At position `n` behind the deletion `i`, `p` holds the address verified: it held it before
      and the deletion left it out, or the enrichment `k` in between gave it the address. */
  ghost predicate HeldAgain(db0: Db, log: seq<Event>, i: nat, n: nat, p: Id, k: nat, email: string, tenant: string)
    requires i < n <= |log| && log[i].Forget?
  {
    && Holds(Replay(db0, log[..n]), p, email, tenant)
    && (|| (Holds(Replay(db0, log[..i]), p, email, tenant) && Replay(db0, log[..i]).prospects[p].entity !in log[i].entities)
        || (i < k < n && log[k].Elsewhere? && !Holds(Replay(db0, log[..k]), p, email, tenant)
            && Holds(Replay(db0, log[..k + 1]), p, email, tenant)))
  }

  lemma HeldAfterDeletion(db0: Db, log: seq<Event>, i: nat, n: nat, p: Id, email: string, tenant: string) returns (k: nat)
    requires Valid(db0, log) && i < n <= |log| && log[i].Forget? && Holds(Replay(db0, log[..n]), p, email, tenant)
    ensures HeldAgain(db0, log, i, n, p, k, email, tenant)
  {
    hide Guard, Apply, Valid, Replay, Holds;
    k := 0;
    StepAt(db0, log, i);
    if Holds(Replay(db0, log[..i + 1]), p, email, tenant) {
      HolderIsDeleted(Replay(db0, log[..i]), log[i], p, email, tenant);
    } else {
      k := HolderReturns(db0, log, i + 1, n, p, email, tenant);
    }
  }

  /** The exact bound. A claim on a deleted address that still commits was screened before the
      deletion. A contact with a deleted person passed every later gate behind the deletion, so
      some verified prospect of the tenant must hold the address again by then; any other claim
      passed its confidence gate before the deletion or met such a holder, too. */
  lemma ForgetBindsExactly(db0: Db, log: seq<Event>, i: nat, j: nat) returns (p: Id, k: nat)
    requires Valid(db0, log) && i < j < |log| && log[i].Forget? && log[j].Dispatch?
    requires log[j].send.who.email.Some? && log[j].send.who.email.value in log[i].addresses
    ensures log[j].send.screenAt <= i && log[j].send.confidenceAt <= j
    ensures log[j].send.who.entity in log[i].entities ==>
      log[j].send.persistAt > i && (Contact(log[j].send) ==> i < log[j].send.frequencyAt <= log[j].send.confidenceAt)
    ensures log[j].send.confidenceAt > i ==>
      HeldAgain(db0, log, i, log[j].send.confidenceAt, p, k, log[j].send.who.email.value, log[j].send.who.tenant)
  {
    if log[j].send.who.entity in log[i].entities { DeletionWaits(db0, log, i, j); }
    hide Valid, Replay, Holds, HeldAgain;
    k := 0;
    ForgetBinds(db0, log, i, j);
    p := ConfidenceHolder(db0, log, j);
    if log[j].send.confidenceAt > i {
      k := HeldAfterDeletion(db0, log, i, log[j].send.confidenceAt, p, log[j].send.who.email.value, log[j].send.who.tenant);
    }
  }

  /** The gate itself: right after a deletion that covers every holder of the address, a
      transaction at its confidence gate is refused. */
  lemma ConfidenceRefusesDeleted(db: Db, e: Event, x: Txn, at: nat)
    requires Guard(db, e) && e.Forget? && x.who.email.Some?
    requires forall p :: p in db.prospects && db.prospects[p].email == x.who.email ==> db.prospects[p].entity in e.entities
    ensures DoConfidence(Apply(db, e), x, at).Some? && DoConfidence(Apply(db, e), x, at).value.pc.Refuse?
  {
    assert !Sendable(Apply(db, e), x.who.email.value, x.who.tenant);
  }

  lemma ConfidenceHolder(db0: Db, log: seq<Event>, j: nat) returns (p: Id)
    requires Valid(db0, log) && j < |log| && log[j].Dispatch?
    ensures var s := log[j].send;
      && s.confidenceAt <= j && s.who.email.Some?
      && Holds(Replay(db0, log[..s.confidenceAt]), p, s.who.email.value, s.who.tenant)
  {
    hide Guard, Apply, Valid, Replay;
    StepAt(db0, log, j);
    var s := log[j].send;
    assert log[..j][..s.confidenceAt] == log[..s.confidenceAt];
    var db := Replay(db0, log[..s.confidenceAt]);
    p :| p in db.prospects && db.prospects[p].email == Some(s.who.email.value)
         && db.prospects[p].tenant == s.who.tenant && db.prospects[p].verified;
  }

  /** The other half: a deletion that can commit at all while a transaction is past its confidence
      gate, every row it updates being free, stops nothing there: every statement still goes
      exactly as without it. */
  lemma PastConfidenceDeletionStopsNothing(db0: Db, log: seq<Event>, db: Db, e: Event, now: Time, x: Txn, o: Oracle)
    requires TxnOk(db0, log, db, x) && Past(x, Confidence) && !x.pc.Commit?
    requires Guard(db, e) && e.Forget? && Disjoint(DeletionRows(db, e.entities), Held(x))
    requires Advance(db, now, |log|, x, o).Some?
    ensures Advance(Apply(db, e), now, |log|, x, o) == Advance(db, now, |log|, x, o)
  {
    hide TxnOk, SnapshotOk, TouchOk, Held, Disjoint, DeletionRows, Guard, Apply, Advance, Spares;
    DeletionSpares(db0, log, db, e, x);
    KnowsItsRows(db0, log, db, x);
    if x.pc.Persist? {
      ClaimUnderDeletion(db, e, now, |log|, x, o);
    } else {
      LaterUnderDeletion(db, e, now, |log|, x, o);
    }
  }

  lemma LaterUnderDeletion(db: Db, e: Event, now: Time, at: nat, x: Txn, o: Oracle)
    requires SnapshotOk(db, x) && TouchOk(db, x) && Past(x, Persist) && !x.pc.Commit?
    requires Guard(db, e) && e.Forget? && Spares(e, x)
    ensures Advance(Apply(db, e), now, at, x, o) == Advance(db, now, at, x, o)
  {
    hide SnapshotOk, TouchOk, Guard, Apply, Advance;
    PersonIsKnown(db, x);
    ClaimedIsWritten(db, x);
    DeletionKeepsPerson(db, e, x.row.prospect);
    SameStatement(db, Apply(db, e), now, at, x, o);
  }

  lemma ClaimUnderDeletion(db: Db, e: Event, now: Time, at: nat, x: Txn, o: Oracle)
    requires Guard(db, e) && e.Forget? && x.pc.Persist? && Advance(db, now, at, x, o).Some?
    ensures Advance(Apply(db, e), now, at, x, o) == Advance(db, now, at, x, o)
  {
    DeletionBarsNobody(db, e, x.row.prospect, x.origin.began);
    assert Apply(db, e).touches == db.touches;
    hide BarredInAnyScope, Guard, Apply, AfterContact;
  }

  lemma KnowsItsRows(db0: Db, log: seq<Event>, db: Db, x: Txn)
    requires TxnOk(db0, log, db, x)
    ensures SnapshotOk(db, x) && TouchOk(db, x)
  {
    hide SnapshotOk, GatesOk, EntityOk, CountersOk, TouchOk, TrialOk, ProspectOk, JobOk, WaitedFor;
  }

  lemma PersonIsKnown(db: Db, x: Txn)
    requires SnapshotOk(db, x)
    ensures x.row.prospect in db.prospects && db.prospects[x.row.prospect].entity == x.who.entity
  {
  }

  lemma ClaimedIsWritten(db: Db, x: Txn)
    requires TouchOk(db, x) && Past(x, Persist)
    ensures x.written.Some?
  {
  }

  lemma DeletionKeepsPerson(db: Db, e: Event, p: Id)
    requires Guard(db, e) && e.Forget? && p in db.prospects && db.prospects[p].entity !in e.entities
    ensures var after := Apply(db, e);
      p in after.prospects && after.prospects[p] == db.prospects[p] && after.trials == db.trials && after.followups == db.followups
  {
  }

  /** Behind the claim, statements read these rows only. */
  lemma SameStatement(a: Db, b: Db, now: Time, at: nat, x: Txn, o: Oracle)
    requires Past(x, Persist) && !x.pc.Commit? && x.row.prospect in a.prospects && x.row.prospect in b.prospects
    requires b.prospects[x.row.prospect] == a.prospects[x.row.prospect] && b.trials == a.trials && b.followups == a.followups
    ensures Advance(b, now, at, x, o) == Advance(a, now, at, x, o)
  {
    hide PlanAfter;
  }

  lemma DeletionBarsNobody(db: Db, e: Event, p: Id, at: Time)
    requires Guard(db, e) && e.Forget? && p in db.prospects && !BarredInAnyScope(db, db.prospects[p].email, at)
    ensures p in Apply(db, e).prospects && !BarredInAnyScope(Apply(db, e), Apply(db, e).prospects[p].email, at)
  {
  }

  // ---- suppression ----------------------------------------------------------------------------

  /** The trigger at the claim binds whichever gates were passed before: at the moment a claim
      that commits was made, every suppression of its prospect's address, in any scope, had run out. */
  lemma SuppressionStopsClaim(db0: Db, log: seq<Event>, j: nat, scope: string)
    requires Valid(db0, log) && j < |log| && log[j].Dispatch?
    ensures var s := log[j].send;
      && s.haltAt <= s.screenAt <= s.confidenceAt <= s.persistAt <= j
      && var db := Replay(db0, log[..s.persistAt]);
         && s.row.prospect in db.prospects
         && forall email :: db.prospects[s.row.prospect].email == Some(email) && (email, scope) in db.suppressions ==>
              db.suppressions[(email, scope)].Some? && db.suppressions[(email, scope)].value <= s.began
  {
    hide Guard, Apply, Valid, Replay, Suppressed, Halted, Sendable;
    StepAt(db0, log, j);
    var s := log[j].send;
    assert log[..j][..s.persistAt] == log[..s.persistAt];
    var db := Replay(db0, log[..s.persistAt]);
    if db.prospects[s.row.prospect].email.Some? {
      var key := (db.prospects[s.row.prospect].email.value, scope);
      assert key in db.suppressions ==> !Live(db.suppressions[key], s.began);
    }
  }

  /** The prospect's address carries a suppression that lasts beyond that instant. */
  predicate SuppressedBeyond(db: Db, p: Id, scope: string, at: Time) {
    && p in db.prospects && db.prospects[p].email.Some?
    && (db.prospects[p].email.value, scope) in db.suppressions
    && var expiry := db.suppressions[(db.prospects[p].email.value, scope)];
       expiry.None? || expiry.value > at
  }

  /** So a suppression that stands from position `i` on and outlasts the transaction's clock lets
      only claims commit that were made before it, however many gates were passed by then. */
  lemma SuppressedBeforeClaimStops(db0: Db, log: seq<Event>, i: nat, j: nat, scope: string)
    requires Valid(db0, log) && i <= j < |log| && log[j].Dispatch?
    requires forall n :: i <= n <= j ==> SuppressedBeyond(Replay(db0, log[..n]), log[j].send.row.prospect, scope, log[j].send.began)
    ensures log[j].send.persistAt < i
  {
    hide Valid, Replay;
    SuppressionStopsClaim(db0, log, j, scope);
  }

  // ---- deletion, table by table ------------------------------------------------------------------

  /** Every address a deleted person's prospects held is among those it names. */
  lemma ForgetNamesEveryAddress(db0: Db, log: seq<Event>, i: nat, p: Id)
    requires Valid(db0, log) && i < |log| && log[i].Forget?
    requires p in Replay(db0, log[..i]).prospects && Replay(db0, log[..i]).prospects[p].entity in log[i].entities
    requires Replay(db0, log[..i]).prospects[p].email.Some?
    ensures Replay(db0, log[..i]).prospects[p].email.value in Replay(db0, log[..i + 1]).tombstones
    ensures p in Replay(db0, log[..i + 1]).prospects && Replay(db0, log[..i + 1]).prospects[p].email.None?
  {
    hide Apply, Valid, Replay;
    StepAt(db0, log, i);
    ForgetSets(Replay(db0, log[..i]), log[i]);
  }

  // ---- a refusal can overwrite a dispatch --------------------------------------------------------

  /** No other refusing transaction holds the touch. */
  ghost predicate OnlyRefusal(w: World, t: nat) {
    t in w.txns && forall u :: u in w.txns && u != t && w.txns[u].pc.CommitRefusal? ==> w.txns[u].origin.touch != w.txns[t].origin.touch
  }

  lemma TouchIsFree(db0: Db, w: World, t: nat, u: nat)
    requires Inv(db0, w) && OnlyRefusal(w, t) && u in w.txns && u != t
    requires w.txns[t].origin.touch in w.db.touches && w.db.touches[w.txns[t].origin.touch].status.Dispatched?
    ensures w.txns[t].origin.touch !in Held(w.txns[u]).touches
  {
    assert TxnOk(db0, w.log, w.db, w.txns[u]);
    hide Inv, SnapshotOk, GatesOk, EntityOk, CountersOk, TrialOk, ProspectOk, JobOk;
    assert TouchOk(w.db, w.txns[u]);
  }

  /** The release is not guarded on the status. In any world of any run a transaction that stands
      refused on a touch already dispatched can release it, unless another refusal of the same
      touch is just being committed: its two last statements turn dispatched into released,
      whatever the refusal was for, and touch nothing else. */
  lemma RefusalOverwritesDispatch(db0: Db, w: World, t: nat, o: Oracle) returns (w1: World, w2: World)
    requires Inv(db0, w) && OnlyRefusal(w, t) && w.txns[t].pc.Refuse?
    requires w.txns[t].origin.touch in w.db.touches && w.db.touches[w.txns[t].origin.touch].status.Dispatched?
    ensures Enabled(w, Run(t, o)) && w1 == Take(w, Run(t, o))
    ensures Enabled(w1, Finish(t)) && w2 == Take(w1, Finish(t))
    ensures var touch := w.txns[t].origin.touch;
      w2.log == w.log + [EventOf(w1.txns[t])] && w2.log[|w.log|].Release? && w2.log[|w.log|].touch == touch
      && w2.db.touches == w.db.touches[touch := w.db.touches[touch].(status := Released)]
      && w2.sends == w.sends
  {
    hide Inv, Enabled, Take;
    w1 := RefusalRuns(db0, w, t, o);
    w2 := RefusalCommits(w1, t);
  }

  lemma ReleaseLocks(x: Txn, y: Txn, other: Locks)
    requires y == x.(written := y.written, pc := CommitRefusal) && Disjoint(Held(x), other) && x.origin.touch !in other.touches
    ensures Disjoint(Held(y), other)
  {
  }

  lemma RefusalRuns(db0: Db, w: World, t: nat, o: Oracle) returns (w1: World)
    requires Inv(db0, w) && OnlyRefusal(w, t) && w.txns[t].pc.Refuse?
    requires w.txns[t].origin.touch in w.db.touches && w.db.touches[w.txns[t].origin.touch].status.Dispatched?
    ensures Enabled(w, Run(t, o)) && w1 == Take(w, Run(t, o))
    ensures var touch := w.txns[t].origin.touch;
      w1 == w.(txns := w.txns[t := w.txns[t].(written := Some(w.db.touches[touch].(status := Released)), pc := CommitRefusal)])
  {
    hide Inv, Held, Disjoint, LeastUsed, Advance;
    var x := w.txns[t];
    var y := x.(written := Some(w.db.touches[x.origin.touch].(status := Released)), pc := CommitRefusal);
    RefusalAdvances(w.db, w.now, |w.log|, x, o);
    forall u | u in w.txns && u != t ensures Disjoint(Held(y), Held(w.txns[u])) {
      TouchIsFree(db0, w, t, u);
      LocksAreDisjoint(db0, w, t, u);
      ReleaseLocks(x, y, Held(w.txns[u]));
    }
    w1 := Take(w, Run(t, o));
  }

  lemma RefusalAdvances(db: Db, now: Time, at: nat, x: Txn, o: Oracle)
    requires x.pc.Refuse? && x.origin.touch in db.touches
    ensures Advance(db, now, at, x, o)
         == Some(x.(written := Some(db.touches[x.origin.touch].(status := Released)), pc := CommitRefusal))
  {
  }

  lemma LocksAreDisjoint(db0: Db, w: World, t: nat, u: nat)
    requires Inv(db0, w) && t in w.txns && u in w.txns && t != u
    ensures Disjoint(Held(w.txns[t]), Held(w.txns[u]))
  {
    hide Valid, Replay, TxnOk, Held, Disjoint;
  }

  lemma RefusalCommits(w: World, t: nat) returns (next: World)
    requires t in w.txns && w.txns[t].pc.CommitRefusal? && w.txns[t].written.Some?
    ensures Enabled(w, Finish(t)) && next == Take(w, Finish(t))
    ensures next.db.touches == w.db.touches[w.txns[t].origin.touch := w.txns[t].written.value]
    ensures next.log == w.log + [EventOf(w.txns[t])] && EventOf(w.txns[t]).Release?
    ensures EventOf(w.txns[t]).touch == w.txns[t].origin.touch && next.sends == w.sends
  {
    hide Held, Disjoint, LeastUsed;
    next := Take(w, Finish(t));
  }

  /** It takes an overlap: a release that follows the dispatch of its touch comes from a
      transaction that had begun before that dispatch committed. */
  lemma OverwriteNeedsOverlap(db0: Db, log: seq<Event>, i: nat, j: nat)
    requires Valid(db0, log) && i < j < |log| && log[i].Dispatch? && log[j].Release?
    requires log[j].touch == log[i].send.touch
    ensures log[j].beginAt <= i
  {
    hide Guard, Apply, Valid, Replay;
    StepAt(db0, log, i);
    StepAt(db0, log, j);
    var n := log[j].beginAt;
    assert log[..j][..n] == log[..n];
    if n > i {
      EventStage(Replay(db0, log[..i]), log[i], log[j].touch);
      StageGrows(db0, log, i + 1, n, log[j].touch);
    }
  }
}
