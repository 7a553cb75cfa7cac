/** The two models of the send path agree: a transaction whose statements run while nobody else
    commits ends exactly as the handler does. */
module Undisturbed {
  import opened Options
  import opened Tables
  import opened Ledger
  import opened Endings
  import opened Interleaving
  import opened Simulation
  import G = Gatekeeper

  function Left(pc: Pc): nat {
    match pc
    case Load => 15 case HaltGate => 14 case Screen => 13 case Frequency => 12 case TenantBudget => 11 case CohortBudget => 10
    case PickMailbox => 9 case Confidence => 8 case Persist => 7 case SendOut => 6 case Trial => 5 case ReadState => 4
    case Transit => 3 case Mark => 2 case Refuse => 1 case _ => 0
  }

  lemma Advances(db: Db, now: Time, x: Txn, o: Oracle)
    requires !x.pc.Commit? && !x.pc.CommitRefusal?
    ensures var y := Advance(db, now, 0, x, o); y.Some? ==> Left(y.value.pc) < Left(x.pc)
  {
    hide Suppressed, FrequencyOk, ContinuationOk, HasRoom, MissingDayRows, Pickable, Sendable, BarredInAnyScope, PlanAfter, AfterContact;
  }

  /** Statement after statement on the same committed tables; None when one of them raises. */
  function RunAlone(db: Db, now: Time, x: Txn, o: Oracle): Option<Txn>
    decreases Left(x.pc)
  {
    if x.pc.Commit? || x.pc.CommitRefusal? then Some(x)
    else
      Advances(db, now, x, o);
      match Advance(db, now, 0, x, o)
      case None => None
      case Some(y) => RunAlone(db, now, y, o)
  }

  // ---- how it must end, gate by gate --------------------------------------------------------------

  datatype Fate = Raises | Releases(slot: bool) | Commits

  /** What is asked of the rows: the draft, its prospect, findings, month, day, clock and mailbox. */
  datatype Case = Case(touch: Id, row: Touch, who: Prospect, findings: bool, month: int, day: int, now: Time, drip: Option<Drip>, box: string)

  ghost function AtPersist(db: Db, c: Case): Fate { if Barred(db, c.who.email, c.now) then Raises else Commits }

  ghost function AtConfidence(db: Db, c: Case): Fate {
    if c.who.email.Some? && HolderVerified(db, c.who.email.value, c.who.tenant) then AtPersist(db, c) else Releases(true)
  }

  ghost function AtMailbox(db: Db, c: Case): Fate { if Free(db, c.who.tenant, c.day, c.box) then AtConfidence(db, c) else Raises }

  ghost function AtCohort(db: Db, c: Case): Fate { if Room(db, CohortMonth(c.who.cohort, c.month)) then AtMailbox(db, c) else Raises }

  ghost function AtTenant(db: Db, c: Case): Fate { if Room(db, TenantMonth(c.who.tenant, c.month)) then AtCohort(db, c) else Raises }

  ghost function AtFrequency(db: Db, c: Case): Fate { if MayContact(db, c.row, c.who, c.now) then AtTenant(db, c) else Releases(false) }

  ghost function AtScreen(db: Db, c: Case): Fate {
    if c.findings || (c.who.email.Some? && Struck(db, c.who.email.value, c.who.tenant, c.now)) then Releases(false)
    else if c.row.kind == AgenticReply then AtMailbox(db, c) else AtFrequency(db, c)
  }

  ghost function AtHalt(db: Db, c: Case): Fate { if FlagSet(db, c.who.tenant) then Raises else AtScreen(db, c) }

  ghost function FateAt(db: Db, c: Case, x: Txn): Fate {
    match x.pc
    case Load => AtHalt(db, c) case HaltGate => AtHalt(db, c) case Screen => AtScreen(db, c) case Frequency => AtFrequency(db, c)
    case TenantBudget => AtTenant(db, c) case CohortBudget => AtCohort(db, c) case PickMailbox => AtMailbox(db, c)
    case Confidence => AtConfidence(db, c) case Persist => AtPersist(db, c)
    case Refuse => Releases(x.spend.box.Some?) case CommitRefusal => Releases(x.spend.box.Some?)
    case _ => Commits
  }

  ghost function FateOf(r: Option<Txn>): Fate {
    if r.None? then Raises else if r.value.pc.Commit? then Commits else Releases(r.value.spend.box.Some?)
  }

  // ---- what the transaction carries along ----------------------------------------------------------

  predicate IsCase(db: Db, c: Case) {
    && c.touch in db.touches && db.touches[c.touch] == c.row && c.row.status.Drafted?
    && c.row.prospect in db.prospects && db.prospects[c.row.prospect] == c.who && c.who.email.Some?
  }

  /** Its draft as loaded, its mailbox once picked, and whether the prospect moves. */
  predicate Carries(db: Db, c: Case, x: Txn) {
    && x.origin == Origin(c.touch, c.now, c.month, c.day, c.drip, 0) && x.row == c.row && x.who == c.who && x.clock == c.now
    && (x.pc.Frequency? || x.pc.TenantBudget? || x.pc.CohortBudget? ==> c.row.kind != AgenticReply)
    && (Past(x, PickMailbox) ==> x.spend.box.Some?)
    && (!Past(x, PickMailbox) && !Refusing(x) ==> x.spend.box.None?)
    && (x.spend.box.None? ==> x.spend.days == map[])
    && (x.spend.box.Some? ==>
          x.spend.box == Some(c.box) && x.spend.days == MissingDayRows(db, c.who.tenant, c.day) && Free(db, c.who.tenant, c.day, c.box))
    && (Past(x, Persist) ==> x.written.Some?)
    && (x.pc.Transit? ==> c.who.state == Queued)
    && (!x.pc.Mark? && !x.pc.Commit? ==> !x.moved)
    && (x.pc.Mark? || x.pc.Commit? ==> (x.moved <==> c.who.state == Queued))
  }

  /** The statement either raises, where raising is its fate, or goes on towards the same fate. */
  ghost predicate Onward(db: Db, c: Case, x: Txn, next: Option<Txn>) {
    && (next.None? ==> FateAt(db, c, x) == Raises)
    && (next.Some? ==> Carries(db, c, next.value) && FateAt(db, c, next.value) == FateAt(db, c, x))
  }

  lemma LoadCarries(db: Db, c: Case, x: Txn)
    requires IsCase(db, c) && Carries(db, c, x) && (x.pc.Load?)
    ensures Onward(db, c, x, DoLoad(db, x))
  {
    hide AtPersist, AtConfidence, AtMailbox, AtCohort, AtTenant, AtFrequency, AtScreen, AtHalt, MissingDayRows, Free;
  }

  lemma HaltCarries(db: Db, c: Case, x: Txn)
    requires IsCase(db, c) && Carries(db, c, x) && (x.pc.HaltGate?)
    ensures Onward(db, c, x, DoHalt(db, x, 0))
  {
    FlagsMean(db, c.who.tenant);
    hide AtPersist, AtConfidence, AtMailbox, AtCohort, AtTenant, AtFrequency, AtScreen, MissingDayRows, Free, Halted, FlagSet;
  }

  lemma ScreenCarries(db: Db, c: Case, x: Txn)
    requires IsCase(db, c) && Carries(db, c, x) && (x.pc.Screen?)
    ensures Onward(db, c, x, DoScreen(db, x, 0, c.findings))
  {
    SuppressedMeans(db, c.who.email.value, c.who.tenant, c.now);
    hide AtPersist, AtConfidence, AtMailbox, AtCohort, AtTenant, AtFrequency, AtHalt, MissingDayRows, Free, Suppressed, Struck;
  }

  lemma FrequencyCarries(db: Db, c: Case, x: Txn)
    requires IsCase(db, c) && Carries(db, c, x) && (x.pc.Frequency?)
    ensures Onward(db, c, x, DoFrequency(db, x, c.now, 0))
  {
    if c.who.entity in db.entities {
      FrequencyMeans(db.entities[c.who.entity], c.now);
      ContinuationMeans(db.touches, db.entities[c.who.entity], c.row.prospect);
    }
    hide AtPersist, AtConfidence, AtMailbox, AtCohort, AtTenant, AtScreen, AtHalt, MissingDayRows, Free, FrequencyOk, ContinuationOk, Rested, Owned;
  }

  lemma TenantCarries(db: Db, c: Case, x: Txn)
    requires IsCase(db, c) && Carries(db, c, x) && (x.pc.TenantBudget?)
    ensures Onward(db, c, x, DoTenantBudget(db, x))
  {
    hide AtPersist, AtConfidence, AtMailbox, AtCohort, AtFrequency, AtScreen, AtHalt, MissingDayRows, Free;
  }

  lemma CohortCarries(db: Db, c: Case, x: Txn)
    requires IsCase(db, c) && Carries(db, c, x) && (x.pc.CohortBudget?)
    ensures Onward(db, c, x, DoCohortBudget(db, x))
  {
    hide AtPersist, AtConfidence, AtMailbox, AtTenant, AtFrequency, AtScreen, AtHalt, MissingDayRows, Free;
  }

  lemma MailboxCarries(db: Db, c: Case, x: Txn)
    requires IsCase(db, c) && Carries(db, c, x) && (x.pc.PickMailbox?)
    ensures Onward(db, c, x, DoPickMailbox(db, x, c.box))
  {
    PickableMeans(db, c.who.tenant, c.day, c.box);
    hide AtPersist, AtConfidence, AtCohort, AtTenant, AtFrequency, AtScreen, AtHalt, MissingDayRows, Free, Pickable;
  }

  lemma ConfidenceCarries(db: Db, c: Case, x: Txn)
    requires IsCase(db, c) && Carries(db, c, x) && (x.pc.Confidence?)
    ensures Onward(db, c, x, DoConfidence(db, x, 0))
  {
    SendableMeans(db, c.who.email.value, c.who.tenant);
    hide AtPersist, AtMailbox, AtCohort, AtTenant, AtFrequency, AtScreen, AtHalt, MissingDayRows, Free, Sendable, HolderVerified;
  }

  lemma PersistCarries(db: Db, c: Case, x: Txn)
    requires IsCase(db, c) && Carries(db, c, x) && (x.pc.Persist?)
    ensures Onward(db, c, x, DoPersist(db, x, 0))
  {
    BarredMeans(db, c.who.email, c.now);
    hide AtConfidence, AtMailbox, AtCohort, AtTenant, AtFrequency, AtScreen, AtHalt, MissingDayRows, Free, Barred, BarredInAnyScope, AfterContact;
  }

  lemma LateCarries(db: Db, c: Case, x: Txn)
    requires IsCase(db, c) && Carries(db, c, x) && (x.pc.Trial? || x.pc.ReadState? || x.pc.Transit?)
    ensures Onward(db, c, x, match x.pc { case Trial => DoTrial(db, x) case ReadState => DoReadState(db, x) case _ => DoTransit(db, x) })
  {
    hide AtPersist, AtConfidence, AtMailbox, AtCohort, AtTenant, AtFrequency, AtScreen, AtHalt, MissingDayRows, Free;
  }

  lemma MarkCarries(db: Db, c: Case, x: Txn)
    requires IsCase(db, c) && Carries(db, c, x) && (x.pc.Mark?)
    ensures Onward(db, c, x, DoMark(db, x))
  {
    hide AtPersist, AtConfidence, AtMailbox, AtCohort, AtTenant, AtFrequency, AtScreen, AtHalt, MissingDayRows, Free, PlanAfter;
  }

  lemma RefuseCarries(db: Db, c: Case, x: Txn)
    requires IsCase(db, c) && Carries(db, c, x) && (x.pc.Refuse?)
    ensures Onward(db, c, x, DoRefuse(db, x))
  {
    hide AtPersist, AtConfidence, AtMailbox, AtCohort, AtTenant, AtFrequency, AtScreen, AtHalt, MissingDayRows, Free;
  }

  lemma StepsCarry(db: Db, c: Case, x: Txn)
    requires IsCase(db, c) && Carries(db, c, x) && !x.pc.Commit? && !x.pc.CommitRefusal?
    ensures Onward(db, c, x, Advance(db, c.now, 0, x, Oracle(c.findings, c.box)))
  {
    if x.pc.SendOut? { SendCarries(db, c, x); }
    hide IsCase, Carries, Onward, DoLoad, DoHalt, DoScreen, DoFrequency, DoTenantBudget, DoCohortBudget, DoPickMailbox, DoConfidence, DoPersist;
    hide DoTrial, DoReadState, DoTransit, DoMark, DoRefuse;
    match x.pc
    case Load => LoadCarries(db, c, x);
    case HaltGate => HaltCarries(db, c, x);
    case Screen => ScreenCarries(db, c, x);
    case Frequency => FrequencyCarries(db, c, x);
    case TenantBudget => TenantCarries(db, c, x);
    case CohortBudget => CohortCarries(db, c, x);
    case PickMailbox => MailboxCarries(db, c, x);
    case Confidence => ConfidenceCarries(db, c, x);
    case Persist => PersistCarries(db, c, x);
    case SendOut =>
    case Mark => MarkCarries(db, c, x);
    case Refuse => RefuseCarries(db, c, x);
    case _ => LateCarries(db, c, x);
  }

  lemma SendCarries(db: Db, c: Case, x: Txn)
    requires Carries(db, c, x) && x.pc.SendOut?
    ensures Onward(db, c, x, Some(x.(pc := Trial)))
  {
    hide MissingDayRows, Free;
  }

  lemma {:induction false} RunMeetsFate(db: Db, c: Case, x: Txn)
    requires IsCase(db, c) && Carries(db, c, x) && c.row.created <= c.now && TxnOk(db, [], db, x)
    ensures var r := RunAlone(db, c.now, x, Oracle(c.findings, c.box));
      && FateOf(r) == FateAt(db, c, x)
      && (r.Some? ==> Carries(db, c, r.value) && TxnOk(db, [], db, r.value) && (r.value.pc.Commit? || r.value.pc.CommitRefusal?))
    decreases Left(x.pc)
  {
    hide IsCase, Carries, TxnOk, Advance;
    if x.pc.Commit? || x.pc.CommitRefusal? {
    } else {
      var o := Oracle(c.findings, c.box);
      Advances(db, c.now, x, o);
      StepsCarry(db, c, x);
      var next := Advance(db, c.now, 0, x, o);
      if next.Some? {
        assert Moves(db, c.now, 0, x, o, next.value);
        CarriesClock(db, c, x);
        StatementKeeps(db, [], db, c.now, x, o, next.value);
        RunMeetsFate(db, c, next.value);
      }
    }
  }

  lemma CarriesClock(db: Db, c: Case, x: Txn)
    requires Carries(db, c, x)
    ensures x.origin.began <= c.now
  {
  }

  // ---- what it leaves behind -------------------------------------------------------------------------

  lemma DispatchLeft(db: Db, c: Case, x: Txn)
    requires IsCase(db, c) && Carries(db, c, x) && TxnOk(db, [], db, x) && x.pc.Commit?
    ensures WentOut(db, c.touch, c.box, c.month, c.day, c.now, c.drip, Merged(db, x))
  {
    CommitAllowed(db, [], db, x);
    CommitIsDispatch(db, [], db, x);
    SendIsCase(db, c, x);
    hide TxnOk, SendAllowed, AfterDispatch, Merged, WentOut, MissingDayRows, SendOf, Carries;
    DispatchLeaves(db, SendOf(x));
  }

  lemma SendIsCase(db: Db, c: Case, x: Txn)
    requires IsCase(db, c) && Carries(db, c, x) && x.pc.Commit?
    ensures var s := SendOf(x);
      && s.touch == c.touch && s.row == c.row && s.who == c.who == db.prospects[c.row.prospect] && s.box == c.box
      && s.month == c.month && s.day == c.day && s.began == c.now && s.drip == c.drip
      && s.days == MissingDayRows(db, c.who.tenant, c.day) && (s.moved <==> c.who.state == Queued)
  {
    hide MissingDayRows, Free;
  }

  /** The same draft as the handler sees it. */
  function DraftOf(c: Case): G.GateDraft
    requires c.who.email.Some?
  {
    G.GateDraft(c.touch, c.row, c.who, c.who.email.value, c.findings, c.month, c.day, c.now, c.now, c.drip)
  }

  lemma RefusalEvent(db: Db, c: Case, x: Txn)
    requires IsCase(db, c) && Carries(db, c, x) && x.pc.CommitRefusal?
    ensures x.spend.box.None? ==> EventOf(x) == Release(c.touch, map[], None, 0)
    ensures x.spend.box.Some? ==>
      EventOf(x) == Release(c.touch, MissingDayRows(db, c.who.tenant, c.day), Some(MailboxDay(c.box, c.day)), 0)
  {
    hide MissingDayRows, Free;
  }

  lemma ReleaseLeft(db: Db, c: Case, x: Txn)
    requires IsCase(db, c) && Carries(db, c, x) && TxnOk(db, [], db, x) && x.pc.CommitRefusal?
    requires LeastUsedFree(db, c.who.tenant, c.day, c.box) || x.spend.box.None?
    ensures var released := db.touches[c.touch := c.row.(status := Released)];
      if x.spend.box.None? then Merged(db, x) == db.(touches := released)
      else exists m :: G.SlotKept(db, c.who.tenant, c.day, m, released, Merged(db, x))
  {
    RefusalIsRelease(db, [], db, x);
    RefusalEvent(db, c, x);
    hide TxnOk, Carries, Merged, Guard, Apply, MissingDayRows, LeastUsedFree, G.SlotKept;
    if x.spend.box.None? {
      G.PlainRelease(db, c.touch);
    } else {
      G.MailboxGateMeans(db, DraftOf(c));
      SlotLeft(db, c, Merged(db, x));
    }
  }

  lemma SlotLeft(db: Db, c: Case, after: Db)
    requires IsCase(db, c) && G.LeastUsedBox(db, DraftOf(c), c.box)
    requires var e := Release(c.touch, MissingDayRows(db, c.who.tenant, c.day), Some(MailboxDay(c.box, c.day)), 0);
      Guard(db, e) && after == Apply(db, e)
    ensures var released := db.touches[c.touch := c.row.(status := Released)];
      exists m :: G.SlotKept(db, c.who.tenant, c.day, m, released, after)
  {
    hide Guard, Apply, MissingDayRows, G.LeastUsedBox, G.SlotKept;
    assert G.ConfidenceRelease(db, DraftOf(c), after);
    G.SlotIsKept(db, DraftOf(c), after);
  }

  /** What the run is to the handler: it raised, released the touch, or sent it out. */
  function EndingOf(r: Option<Txn>, reason: G.Reason): G.Outcome {
    if r.None? then G.Raised else if r.value.pc.Commit? then G.SentOut(SendOf(r.value)) else G.ReleasedFor(reason)
  }

  function Configured(sequences: map<(string, string), Drip>, who: Prospect): Option<Drip> {
    if (who.tenant, who.persona) in sequences then Some(sequences[(who.tenant, who.persona)]) else None
  }

  lemma Starts(db: Db, c: Case)
    requires IsCase(db, c) && c.row.created <= c.now && ValidConfig(c.drip)
    ensures var x := Started(c.touch, c.row, c.who, c.now, c.month, c.day, c.drip, 0);
      Carries(db, c, x) && TxnOk(db, [], db, x) && FateAt(db, c, x) == AtHalt(db, c)
  {
    BeginOk(db, [], db, c.touch, c.now, c.month, c.day, c.drip);
    hide AtHalt, TxnOk, MissingDayRows, Free;
  }

  /** What the run has left in the tables. */
  ghost predicate HasLeft(db: Db, c: Case, r: Option<Txn>) {
    var released := db.touches[c.touch := c.row.(status := Released)];
    match FateOf(r)
    case Raises => r.None?
    case Commits =>
      && r.Some? && r.value.pc.Commit? && SendOf(r.value).box == c.box
      && c.touch in db.touches && db.touches[c.touch].prospect in db.prospects
      && WentOut(db, c.touch, c.box, c.month, c.day, c.now, c.drip, Merged(db, r.value))
    case Releases(slot) =>
      && r.Some? && !r.value.pc.Commit?
      && (slot ==> exists m :: G.SlotKept(db, c.who.tenant, c.day, m, released, Merged(db, r.value)))
      && (!slot ==> Merged(db, r.value) == db.(touches := released))
  }

  lemma RunHasLeft(db: Db, c: Case, r: Option<Txn>)
    requires IsCase(db, c) && (r.Some? ==> Carries(db, c, r.value) && TxnOk(db, [], db, r.value))
    requires r.Some? ==> r.value.pc.Commit? || r.value.pc.CommitRefusal?
    requires (exists m :: Free(db, c.who.tenant, c.day, m)) ==> LeastUsedFree(db, c.who.tenant, c.day, c.box)
    ensures HasLeft(db, c, r)
  {
    if r.Some? {
      var x := r.value;
      BoxIsFree(db, c, x);
      hide TxnOk, Carries, Merged, WentOut, G.SlotKept, LeastUsedFree, Free, SendOf;
      if x.pc.Commit? { DispatchLeft(db, c, x); SentBox(db, c, x); } else { ReleaseLeft(db, c, x); }
    }
  }

  lemma SentBox(db: Db, c: Case, x: Txn)
    requires IsCase(db, c) && Carries(db, c, x) && x.pc.Commit?
    ensures SendOf(x).box == c.box
  {
    SendIsCase(db, c, x);
  }

  lemma BoxIsFree(db: Db, c: Case, x: Txn)
    requires Carries(db, c, x)
    ensures x.spend.box.Some? ==> Free(db, c.who.tenant, c.day, c.box)
  {
  }

  /** A delivery whose statements nobody disturbs ends as the handler's contract says, on the same
      rows: it raises, releases, or sends for the same reasons, and leaves the same behind. */
  lemma EndsAsTheHandler(db: Db, touch: Id, findings: bool, month: int, day: int, now: Time, sequences: map<(string, string), Drip>,
                         box: string, reason: G.Reason)
    requires Waiting(db, touch) && db.touches[touch].created <= now && forall k | k in sequences :: ValidDrip(sequences[k])
    requires var tenant := db.prospects[db.touches[touch].prospect].tenant;
      (exists m :: Free(db, tenant, day, m)) ==> LeastUsedFree(db, tenant, day, box)
    ensures var row := db.touches[touch];
      var who := db.prospects[row.prospect];
      var x := Started(touch, row, who, now, month, day, Configured(sequences, who), 0);
      var r := RunAlone(db, now, x, Oracle(findings, box));
      G.EndsAs(db, touch, findings, true, month, day, now, now, sequences, EndingOf(r, reason), if r.Some? then Merged(db, r.value) else db)
  {
    var row := db.touches[touch];
    var who := db.prospects[row.prospect];
    var c := Case(touch, row, who, findings, month, day, now, Configured(sequences, who), box);
    Starts(db, c);
    var x := Started(touch, row, who, now, month, day, Configured(sequences, who), 0);
    RunMeetsFate(db, c, x);
    var r := RunAlone(db, now, x, Oracle(findings, box));
    RunHasLeft(db, c, r);
    hide Carries, TxnOk, RunAlone, HasLeft, G.EndsAs, FateAt, AtHalt, Started, Free, LeastUsedFree;
    EndsByFate(db, c, sequences, reason, r);
  }

  lemma EndsByFate(db: Db, c: Case, sequences: map<(string, string), Drip>, reason: G.Reason, r: Option<Txn>)
    requires IsCase(db, c) && FateOf(r) == AtHalt(db, c) && HasLeft(db, c, r) && c.drip == Configured(sequences, c.who)
    requires (exists m :: Free(db, c.who.tenant, c.day, m)) ==> LeastUsedFree(db, c.who.tenant, c.day, c.box)
    ensures G.EndsAs(db, c.touch, c.findings, true, c.month, c.day, c.now, c.now, sequences, EndingOf(r, reason),
                     if r.Some? then Merged(db, r.value) else db)
  {
    BestIsFree(db, c);
    hide FlagSet, Struck, MayContact, Room, Free, LeastUsedFree, HolderVerified, Barred, Merged, WentOut, G.SlotKept, SendOf;
  }

  lemma BestIsFree(db: Db, c: Case)
    requires (exists m :: Free(db, c.who.tenant, c.day, m)) ==> LeastUsedFree(db, c.who.tenant, c.day, c.box)
    ensures Free(db, c.who.tenant, c.day, c.box) <==> exists m :: Free(db, c.who.tenant, c.day, m)
  {
  }
}
