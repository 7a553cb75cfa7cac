/** The transactions that bind the send path from outside: halt and resume, suppression, ingest
    screening, data-subject deletion and human tasks; and what a deletion means for aliases. */
module Desk {
  import opened Options
  import opened Tables
  import opened Ledger
  import opened Stops
  import E = Endings
  import C = Canonical

  // ---------------------------------------------------------------- screening

  /** May a discovered candidate with this address proceed?  An unreadable address may not. */
  predicate Screens(db: Db, raw: string, tenant: string, at: Time) {
    match C.Canonicalize(raw)
    case Ok(a) => !Suppressed(db, a, tenant, at)
    case Invalid => false
  }

  /** A deletion request names an address or an entity. */
  datatype Subject = ByAddress(raw: string) | ByEntity(entity: Id)

  /** The entities a request names: those of prospects with the address, and its key's owner. */
  function EntitiesOf(db: Db, emailKeys: map<string, Id>, s: Subject): set<Id> {
    match s
    case ByEntity(e) => {e}
    case ByAddress(raw) =>
      match C.Canonicalize(raw)
      case Invalid => {}
      case Ok(a) =>
        (set p | p in db.prospects && db.prospects[p].email == Option.Some(a) :: db.prospects[p].entity)
        + (if a in emailKeys then {emailKeys[a]} else {})
  }

  /** Every address tied to the request: the one it names and those of its entities' prospects. */
  function AddressesOf(db: Db, emailKeys: map<string, Id>, s: Subject): set<string> {
    (if s.ByAddress? && C.Canonicalize(s.raw).Ok? then {C.Canonicalize(s.raw).address} else {})
    + set p | p in db.prospects && db.prospects[p].entity in EntitiesOf(db, emailKeys, s) && db.prospects[p].email.Some?
        :: db.prospects[p].email.value
  }

  /** The deletion a request stands for. */
  function DeletionOf(db: Db, emailKeys: map<string, Id>, s: Subject): Event {
    Event.Forget(EntitiesOf(db, emailKeys, s), AddressesOf(db, emailKeys, s))
  }

  /** What a request collects: an entity it names; or everyone who holds the address or owns its
      key. And the addresses are the one it names and those of these people, no others. */
  lemma RequestExactly(db: Db, emailKeys: map<string, Id>, s: Subject)
    ensures forall e :: e in EntitiesOf(db, emailKeys, s) <==>
      match s
      case ByEntity(entity) => e == entity
      case ByAddress(raw) => exists a :: C.Canonicalize(raw) == C.Ok(a) && (HolderOf(db, a, e) || (a in emailKeys && emailKeys[a] == e))
    ensures forall a :: a in AddressesOf(db, emailKeys, s) <==>
      (s.ByAddress? && C.Canonicalize(s.raw) == C.Ok(a)) || exists e :: e in EntitiesOf(db, emailKeys, s) && HolderOf(db, a, e)
  {
    hide C.Canonicalize;
    forall a ensures a in AddressesOf(db, emailKeys, s) <==>
      (s.ByAddress? && C.Canonicalize(s.raw) == C.Ok(a)) || exists e :: e in EntitiesOf(db, emailKeys, s) && HolderOf(db, a, e)
    {
      AddressIsCollected(db, emailKeys, s, a);
    }
  }

  /** A prospect of the entity has that address. */
  ghost predicate HolderOf(db: Db, address: string, entity: Id) {
    exists p :: p in db.prospects && db.prospects[p].email == Option.Some(address) && db.prospects[p].entity == entity
  }

  lemma AddressIsCollected(db: Db, emailKeys: map<string, Id>, s: Subject, a: string)
    ensures a in AddressesOf(db, emailKeys, s) <==>
      (s.ByAddress? && C.Canonicalize(s.raw) == C.Ok(a)) || exists e :: e in EntitiesOf(db, emailKeys, s) && HolderOf(db, a, e)
  {
    hide C.Canonicalize, EntitiesOf;
    if e :| e in EntitiesOf(db, emailKeys, s) && HolderOf(db, a, e) {
      var p :| p in db.prospects && db.prospects[p].email == Option.Some(a) && db.prospects[p].entity == e;
      assert db.prospects[p].entity in EntitiesOf(db, emailKeys, s);
    }
    if p :| p in db.prospects && db.prospects[p].email == Option.Some(a) && db.prospects[p].entity in EntitiesOf(db, emailKeys, s) {
      assert HolderOf(db, a, db.prospects[p].entity);
    }
  }

  datatype ReplyText = ReplyText(prospect: Id, body: Option<string>)

  datatype Receipt = Receipt(entities: set<Id>, addresses: nat)

  predicate Belongs(db: Db, prospect: Id, entities: set<Id>) {
    prospect in db.prospects && db.prospects[prospect].entity in entities
  }

  /** What the engine knows in words: `scrubbed` are the touches without text any more, and
      `evidence` maps a fact to its prospect. */
  datatype Texts = Texts(scrubbed: set<Id>, replies: map<Id, ReplyText>, evidence: map<Id, Id>)

  /** Messages stay as skeletons without text, evidence goes. */
  function WithoutTexts(db: Db, entities: set<Id>, t: Texts): Texts {
    Texts(t.scrubbed + (set k | k in db.touches && Belongs(db, db.touches[k].prospect, entities)),
          map r | r in t.replies ::
            if Belongs(db, t.replies[r].prospect, entities) then t.replies[r].(body := Option.None) else t.replies[r],
          map f | f in t.evidence && !Belongs(db, t.evidence[f], entities) :: t.evidence[f])
  }

  /** Nothing in words is left about the deleted entities, no row of a reply is lost, and nothing
      about others changes. */
  lemma DeletedTextsAreGone(db: Db, entities: set<Id>, t: Texts)
    ensures var after := WithoutTexts(db, entities, t);
      && (forall k :: k in after.scrubbed <==> k in t.scrubbed || (k in db.touches && Belongs(db, db.touches[k].prospect, entities)))
      && (forall r | r in after.replies && Belongs(db, after.replies[r].prospect, entities) :: after.replies[r].body.None?)
      && (forall f | f in after.evidence :: !Belongs(db, after.evidence[f], entities))
      && after.replies.Keys == t.replies.Keys && after.evidence.Keys <= t.evidence.Keys
      && (forall r | r in t.replies :: after.replies[r].prospect == t.replies[r].prospect)
      && (forall r | r in t.replies && !Belongs(db, t.replies[r].prospect, entities) :: after.replies[r] == t.replies[r])
      && (forall f | f in t.evidence && !Belongs(db, t.evidence[f], entities) :: f in after.evidence && after.evidence[f] == t.evidence[f])
  {
  }

  /** What is kept of an entity besides its contacts. */
  datatype Card = Card(name: Option<string>, forgotten: bool)

  function Nameless(people: map<Id, Card>, entities: set<Id>): map<Id, Card> {
    map e | e in people :: if e in entities then Card(Option.None, true) else people[e]
  }

  /** The deleted entities keep their row, without a name. */
  lemma PeopleLeft(people: map<Id, Card>, entities: set<Id>)
    ensures var after := Nameless(people, entities);
      && after.Keys == people.Keys
      && (forall e | e in people && e in entities :: after[e].name.None? && after[e].forgotten)
      && (forall e | e in people && e !in entities :: after[e] == people[e])
  {
  }

  /** `propagations` are the addresses whose deletion the provider is asked for. */
  class Desk {
    var db: Db
    var emailKeys: map<string, Id>
    var people: map<Id, Card>
    var texts: Texts
    var propagations: set<string>
    var receipts: seq<Receipt>

    method Halt(scope: string)
      modifies this`db
      ensures db == Apply(old(db), Event.Halt(scope))
    {
      db := db.(flags := db.flags + {scope});
    }

    /** `ok` is false for the refusal of an actor who is not human. */
    method Resume(scope: string, actor: string) returns (ok: bool, cleared: bool)
      modifies this`db
      ensures ok <==> "operator:" <= actor
      ensures ok ==> db == Apply(old(db), Event.Resume(scope, actor)) && (cleared <==> scope in old(db).flags)
      ensures !ok ==> db == old(db)
    {
      if !(HUMAN_ACTOR_PREFIX <= actor) { return false, false; }
      ok, cleared := true, scope in db.flags;
      db := db.(flags := db.flags - {scope});
    }

    method HaltedScopes(tenant: string) returns (scopes: set<string>)
      ensures scopes != {} <==> Halted(db, tenant)
      ensures scopes == db.flags * {GLOBAL_SCOPE, tenant}
    {
      scopes := {};
      if GLOBAL_SCOPE in db.flags { scopes := scopes + {GLOBAL_SCOPE}; }
      if tenant in db.flags { scopes := scopes + {tenant}; }
    }

    /** The upsert overwrites the expiry of an earlier suppression of the same address and scope. */
    method Suppress(raw: string, scope: string, expires: Option<Time>) returns (canonical: C.Result)
      modifies this`db
      ensures canonical == C.Canonicalize(raw)
      ensures canonical.Invalid? ==> db == old(db)
      ensures canonical.Ok? ==> db == old(db).(suppressions := old(db).suppressions[(canonical.address, scope) := expires])
    {
      canonical := C.Canonicalize(raw);
      if canonical.Ok? {
        db := db.(suppressions := db.suppressions[(canonical.address, scope) := expires]);
      }
    }

    method ScreenAtIngest(raw: string, tenant: string, now: Time) returns (ok: bool)
      ensures ok <==> Screens(db, raw, tenant, now)
      ensures ok <==> exists a :: C.Canonicalize(raw) == C.Ok(a) && !E.Struck(db, a, tenant, now)
    {
      if C.Canonicalize(raw).Ok? { E.SuppressedMeans(db, C.Canonicalize(raw).address, tenant, now); }
      var canonical := C.Canonicalize(raw);
      if canonical.Invalid? { return false; }
      ok := !Suppressed(db, canonical.address, tenant, now);
    }

    /** Deletion, table by table; false stands for an unreadable address. */
    method Forget(s: Subject) returns (ok: bool, entities: set<Id>, addresses: set<string>)
      modifies this
      ensures ok <==> s.ByEntity? || C.Canonicalize(s.raw).Ok?
      ensures !ok ==> db == old(db) && emailKeys == old(emailKeys) && texts == old(texts) && people == old(people)
      ensures !ok ==> propagations == old(propagations) && receipts == old(receipts)
      ensures ok ==> Event.Forget(entities, addresses) == DeletionOf(old(db), old(emailKeys), s)
      ensures ok ==> Guard(old(db), Event.Forget(entities, addresses))
      ensures ok ==> db == Apply(old(db), Event.Forget(entities, addresses))
      ensures ok ==> emailKeys == map a | a in old(emailKeys) && old(emailKeys)[a] !in entities :: old(emailKeys)[a]
      ensures ok ==> people == Nameless(old(people), entities)
      ensures ok ==> texts == WithoutTexts(old(db), entities, old(texts))
      ensures ok ==> propagations == old(propagations) + addresses
      ensures ok ==> receipts == old(receipts) + [Receipt(entities, |addresses|)]
    {
      if s.ByAddress? && C.Canonicalize(s.raw).Invalid? { return false, {}, {}; }
      ok, entities, addresses := true, EntitiesOf(db, emailKeys, s), AddressesOf(db, emailKeys, s);
      DeletionIsGuarded(db, emailKeys, s);
      hide EntitiesOf, AddressesOf, DeletionOf, WithoutTexts, Nameless, Guard, Apply, C.Canonicalize;
      Erase(entities);
      DeletePeople(entities, addresses);
      receipts := receipts + [Receipt(entities, |addresses|)];
      propagations := propagations + addresses;
    }

    /** What is kept of the deleted people besides their addresses. */
    method Erase(entities: set<Id>)
      modifies this`texts, this`people
      ensures texts == WithoutTexts(db, entities, old(texts))
      ensures people == Nameless(old(people), entities)
    {
      texts := WithoutTexts(db, entities, texts);
      people := Nameless(people, entities);
    }

    /** Tombstones first, then identities and keys, then the suppression rows the tombstones cover. */
    method DeletePeople(entities: set<Id>, addresses: set<string>)
      requires Guard(db, Event.Forget(entities, addresses))
      modifies this`db, this`emailKeys
      ensures db == Apply(old(db), Event.Forget(entities, addresses))
      ensures emailKeys == map a | a in old(emailKeys) && old(emailKeys)[a] !in entities :: old(emailKeys)[a]
    {
      Tombstone(addresses);
      db := db.(prospects := map p | p in db.prospects :: Scrubbed(db.prospects[p], entities));
      emailKeys := map a | a in emailKeys && emailKeys[a] !in entities :: emailKeys[a];
      Unsuppress(addresses);
    }

    method Tombstone(addresses: set<string>)
      modifies this`db
      ensures db == old(db).(tombstones := old(db).tombstones + addresses)
    {
      var todo := addresses;
      while todo != {}
        invariant todo <= addresses
        invariant db == old(db).(tombstones := old(db).tombstones + (addresses - todo))
        decreases |todo|
      {
        var a :| a in todo;
        todo := todo - {a};
        db := db.(tombstones := db.tombstones + {a});
      }
    }

    method Unsuppress(addresses: set<string>)
      modifies this`db
      ensures db == old(db).(suppressions :=
        map k | k in old(db).suppressions && k.0 !in addresses :: old(db).suppressions[k])
    {
      var todo := addresses;
      while todo != {}
        invariant todo <= addresses
        invariant db == old(db).(suppressions :=
          map k | k in old(db).suppressions && k.0 !in addresses - todo :: old(db).suppressions[k])
        decreases |todo|
      {
        var a :| a in todo;
        todo := todo - {a};
        db := db.(suppressions := map k | k in db.suppressions && k.0 != a :: db.suppressions[k]);
      }
    }

    /** A task is resolved once; `done` counts as a contact, anything else releases the touch. */
    method ResolveTask(task: Id, actor: string, done: bool, stamp: Time) returns (permitted: bool, resolved: bool)
      requires task in db.tasks && db.tasks[task].pending ==> Guard(db, Event.Resolve(task, done, stamp))
      modifies this`db
      ensures permitted <==> "operator:" <= actor
      ensures resolved <==> permitted && task in old(db).tasks && old(db).tasks[task].pending
      ensures resolved ==> db == Apply(old(db), Event.Resolve(task, done, stamp)) && !db.tasks[task].pending
      ensures !resolved ==> db == old(db)
    {
      if !(HUMAN_ACTOR_PREFIX <= actor) { return false, false; }
      if task !in db.tasks || !db.tasks[task].pending { return true, false; }
      permitted, resolved := true, true;
      var t := db.tasks[task];
      var ent := db.prospects[t.prospect].entity;
      db := db.(tasks := db.tasks[task := t.(pending := false)]);
      if done {
        db := db.(touches := db.touches[t.touch := db.touches[t.touch].(status := Sent)]);
        var e := db.entities[ent];
        db := db.(entities := db.entities[ent := e.(lastContact := Option.Some(stamp), touches12mo := e.touches12mo + 1)]);
      } else {
        db := db.(touches := db.touches[t.touch := db.touches[t.touch].(status := Released)]);
      }
    }
  }

  /** A deletion collects every address of the people it deletes before it deletes them. */
  lemma DeletionIsGuarded(db: Db, emailKeys: map<string, Id>, s: Subject)
    ensures Guard(db, DeletionOf(db, emailKeys, s))
  {
  }

  // ---------------------------------------------------------------- aliases

  /** From a deletion on, at every later moment and for every tenant, no candidate passes ingest
      whose address any chain of rewrites joins to a deleted one. */
  lemma ForgottenAliasIsDropped(db0: Db, log: seq<Event>, i: nat, n: nat,
                                raw: string, address: string, tenant: string, at: Time)
    requires Valid(db0, log) && i < n <= |log| && log[i].Forget?
    requires C.Canonicalize(address).Ok? && C.Canonicalize(address).address in log[i].addresses
    requires C.Joined(raw, address)
    ensures !Screens(Replay(db0, log[..n]), raw, tenant, at)
  {
    hide Guard, Apply, Valid, Replay, C.Canonicalize, C.Joined;
    StepAt(db0, log, i);
    ForgetSets(Replay(db0, log[..i]), log[i]);
    HistoryContinues(db0, log, i + 1, n);
    JoinedForm(raw, address);
  }

  lemma JoinedForm(x: string, y: string)
    requires C.Joined(x, y)
    ensures C.Canonicalize(x) == C.Canonicalize(y)
  {
    hide C.Canonicalize, C.Step;
    var path :| C.IsChain(path) && path[0] == x && path[|path| - 1] == y;
    C.ChainKeepsForm(path);
  }

  /** A claim on such an alias, stored in canonical form, that still commits was screened before
      the deletion. A contact with a deleted person passed its frequency gate behind the deletion;
      and whoever passed the confidence gate behind it met a verified prospect that holds the
      alias all the same. */
  lemma ForgottenAliasIsNotClaimed(db0: Db, log: seq<Event>, i: nat, j: nat, address: string) returns (p: Id, k: nat)
    requires Valid(db0, log) && i < j < |log| && log[i].Forget? && log[j].Dispatch?
    requires C.Canonicalize(address).Ok? && C.Canonicalize(address).address in log[i].addresses
    requires var email := log[j].send.who.email;
      email.Some? && C.Joined(email.value, address) && C.Canonicalize(email.value) == C.Ok(email.value)
    ensures log[j].send.screenAt <= i && log[j].send.confidenceAt <= j
    ensures log[j].send.who.entity in log[i].entities ==>
      log[j].send.persistAt > i && (Contact(log[j].send) ==> i < log[j].send.frequencyAt <= log[j].send.confidenceAt)
    ensures log[j].send.confidenceAt > i ==>
      HeldAgain(db0, log, i, log[j].send.confidenceAt, p, k, log[j].send.who.email.value, log[j].send.who.tenant)
  {
    hide Guard, Apply, Valid, Replay, HeldAgain, C.Canonicalize, C.Joined;
    JoinedForm(log[j].send.who.email.value, address);
    p, k := ForgetBindsExactly(db0, log, i, j);
  }

  /** A deletion asked for by address leaves no holder out. A contact with a prospect that held an
      alias of it when it committed commits after it only if an enrichment in between, event `k`,
      gave the address to a verified prospect `p` anew. A reply may, besides, have passed its
      confidence gate before the deletion; its claim then came after it. */
  lemma DeletionByAddressBinds(db0: Db, log: seq<Event>, i: nat, j: nat, emailKeys: map<string, Id>, raw: string)
    returns (p: Id, k: nat)
    requires Valid(db0, log) && i < j < |log| && log[j].Dispatch? && C.Canonicalize(raw).Ok?
    requires log[i] == DeletionOf(Replay(db0, log[..i]), emailKeys, ByAddress(raw))
    requires var email := log[j].send.who.email;
      email.Some? && C.Joined(email.value, raw) && C.Canonicalize(email.value) == C.Ok(email.value)
    ensures log[j].send.screenAt <= i && log[j].send.confidenceAt <= j
    ensures HeldBy(Replay(db0, log[..i]), log[j].send) ==>
      log[j].send.persistAt > i && (Contact(log[j].send) ==> log[j].send.confidenceAt > i)
    ensures var s := log[j].send;
      s.confidenceAt > i ==>
        && i < k < s.confidenceAt && log[k].Elsewhere?
        && !Holds(Replay(db0, log[..k]), p, s.who.email.value, s.who.tenant)
        && Holds(Replay(db0, log[..k + 1]), p, s.who.email.value, s.who.tenant)
  {
    hide Guard, Apply, Valid, Replay, C.Canonicalize, C.Joined, DeletionOf;
    var email := log[j].send.who.email.value;
    JoinedForm(email, raw);
    DeletionByAddressCovers(Replay(db0, log[..i]), emailKeys, raw);
    if HeldBy(Replay(db0, log[..i]), log[j].send) { SamePerson(db0, log, i, j); }
    p, k := ForgottenAliasIsNotClaimed(db0, log, i, j, raw);
  }

  /** The prospect a claim is on holds the claim's address. */
  predicate HeldBy(db: Db, s: Send) {
    s.row.prospect in db.prospects && db.prospects[s.row.prospect].email == s.who.email
  }

  /** A prospect's entity never changes. */
  lemma SamePerson(db0: Db, log: seq<Event>, i: nat, j: nat)
    requires Valid(db0, log) && i < j < |log| && log[j].Dispatch? && log[j].send.row.prospect in Replay(db0, log[..i]).prospects
    ensures Replay(db0, log[..i]).prospects[log[j].send.row.prospect].entity == log[j].send.who.entity
  {
    hide Apply, Valid, Replay, HasRoom;
    StepAt(db0, log, j);
    HistoryContinues(db0, log, i, j);
  }

  /** It names every entity that holds the address. */
  lemma DeletionByAddressCovers(db: Db, emailKeys: map<string, Id>, raw: string)
    requires C.Canonicalize(raw).Ok?
    ensures var e := DeletionOf(db, emailKeys, ByAddress(raw));
      && e.Forget? && C.Canonicalize(raw).address in e.addresses
      && forall p :: p in db.prospects && db.prospects[p].email == Option.Some(C.Canonicalize(raw).address) ==>
           db.prospects[p].entity in e.entities
  {
    hide C.Canonicalize;
  }
}
