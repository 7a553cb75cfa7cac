/** The prospect life cycle, and the ingestion of provider events on top of it. */
module Events {
  import opened Options
  import opened Tables
  import opened Canonical

  // ---------------------------------------------------------------- the life cycle

  /** The states that only `forget` may leave. */
  predicate Terminal(s: ProspectState) {
    s.Converted? || s.Disqualified? || s.Unenrichable? || s.Bounced? || s.Declined? || s.Unsubscribed? || s.Forgotten?
  }

  predicate Allowed(source: ProspectState, target: ProspectState) {
    match source
    case Discovered => target.Enriched? || target.Unenrichable? || target.Forgotten?
    case Enriched => target.Qualified? || target.Disqualified? || target.Forgotten?
    case Qualified => target.Queued? || target.Forgotten?
    case Queued => target.Contacted? || target.Disqualified? || target.Forgotten?
    case Contacted =>
      target.Engaged? || target.Converted? || target.Bounced? || target.Declined? || target.Unsubscribed?
      || target.NoResponse? || target.Forgotten?
    case Engaged =>
      target.Converted? || target.Declined? || target.Unsubscribed? || target.NoResponse? || target.Forgotten?
    case NoResponse => target.Queued? || target.Forgotten?
    case Forgotten => false
    case _ => target.Forgotten?
  }

  ghost predicate IsLife(path: seq<ProspectState>) {
    path != [] && forall i | 0 < i < |path| :: Allowed(path[i - 1], path[i])
  }

  /** Whoever has reached a terminal state stays in it or is forgotten. */
  lemma {:induction false} TerminalIsFinal(path: seq<ProspectState>, i: nat, j: nat)
    requires IsLife(path) && i <= j < |path| && Terminal(path[i])
    ensures path[j] == path[i] || path[j] == Forgotten
  {
    if i < j {
      TerminalIsFinal(path, i, j - 1);
      assert Allowed(path[j - 1], path[j]);
    }
  }

  /** Nobody is engaged, converted, bounced, declined, unsubscribed or given up on who was not
      contacted before. */
  lemma {:induction false} ContactComesFirst(path: seq<ProspectState>, j: nat) returns (i: nat)
    requires IsLife(path) && path[0] == Discovered && j < |path|
    requires path[j] in {Engaged, Converted, Bounced, Declined, Unsubscribed, NoResponse}
    ensures i < j && path[i] == Contacted
  {
    i := j - 1;
    assert Allowed(path[i], path[j]);
    if path[i] != Contacted { i := ContactComesFirst(path, j - 1); }
  }

  /** Where each state can be reached from. */
  lemma WhoMayBecome(source: ProspectState, target: ProspectState)
    ensures Allowed(source, target) <==>
      match target
      case Discovered => false
      case Enriched => source == Discovered
      case Qualified => source == Enriched
      case Queued => source == Qualified || source == NoResponse
      case Contacted => source == Queued
      case Engaged => source == Contacted
      case Converted => source == Contacted || source == Engaged
      case Disqualified => source == Enriched || source == Queued
      case Unenrichable => source == Discovered
      case Bounced => source == Contacted
      case Declined => source == Contacted || source == Engaged
      case Unsubscribed => source == Contacted || source == Engaged
      case NoResponse => source == Contacted || source == Engaged
      case Forgotten => source != Forgotten
  {
  }

  /** Terminal are the states behind which there is nothing but being forgotten. */
  lemma TerminalExactly(s: ProspectState)
    ensures Terminal(s) <==> forall t | Allowed(s, t) :: t == Forgotten
  {
    assert Allowed(Discovered, Enriched) && Allowed(Enriched, Qualified) && Allowed(Qualified, Queued)
        && Allowed(Queued, Contacted) && Allowed(Contacted, Engaged) && Allowed(Engaged, Declined) && Allowed(NoResponse, Queued);
  }

  // ---------------------------------------------------------------- events

  datatype EventKind = SentEvent | Bounce | Complaint | Unsubscribe | ReplyEvent | Other

  datatype Event = Event(id: string, kind: EventKind, touch: Option<Id>, body: string)

  /** What event handling reads and writes.  A suppression maps a canonical address to its reason;
      those of event handling have global scope and never expire.  `classify` are the replies with
      a classification job, `skipped` the transitions audited as skipped. */
  datatype World = World(
    seen: set<string>,
    touches: map<Id, Touch>,
    prospects: map<Id, Prospect>,
    suppressed: map<string, EventKind>,
    pauses: set<(string, EventKind)>,
    guardrails: map<(string, string, EventKind), nat>,
    replies: seq<(Id, string)>,
    classify: set<nat>,
    skipped: seq<(Id, ProspectState)>)

  predicate Known(w: World, e: Event) {
    e.touch.Some? && e.touch.value in w.touches && w.touches[e.touch.value].prospect in w.prospects
  }

  function ProspectOf(w: World, e: Event): Prospect
    requires Known(w, e)
  {
    w.prospects[w.touches[e.touch.value].prospect]
  }

  predicate Stopping(kind: EventKind) { kind.Bounce? || kind.Complaint? || kind.Unsubscribe? }

  function TargetOf(kind: EventKind): ProspectState {
    match kind case Bounce => Bounced case Complaint => Declined case Unsubscribe => Unsubscribed case _ => Engaged
  }

  /** The tolerant transition: an illegal one is skipped, with a trace. */
  function Moved(w: World, id: Id, target: ProspectState): World
    requires id in w.prospects
  {
    if Allowed(w.prospects[id].state, target)
    then w.(prospects := w.prospects[id := w.prospects[id].(state := target)])
    else w.(skipped := w.skipped + [(id, target)])
  }

  /** The address that a stopping event suppresses. */
  function AddressOf(p: Prospect): Option<string> {
    if p.email.None? || p.email.value == "" then Option.None
    else match Canonicalize(p.email.value) case Ok(a) => Option.Some(a) case Invalid => Option.None
  }

  function Acted(w: World, e: Event): World {
    if e.kind.SentEvent? then
      if e.touch.Some? && e.touch.value in w.touches && w.touches[e.touch.value].status == Dispatched
      then w.(touches := w.touches[e.touch.value := w.touches[e.touch.value].(status := Sent)]) else w
    else if !Known(w, e) || e.kind.Other? then w
    else
      var id := w.touches[e.touch.value].prospect;
      var p := w.prospects[id];
      var moved := Moved(w, id, TargetOf(e.kind));
      if e.kind.ReplyEvent? then
        moved.(replies := w.replies + [(id, e.body)], classify := w.classify + {|w.replies|})
      else Suppressing(Guarded(moved, p.tenant, w.touches[e.touch.value].variant, e.kind), AddressOf(p), e.kind)
  }

  function Suppressing(w: World, address: Option<string>, kind: EventKind): World {
    if address.None? then w
    else w.(suppressed := w.suppressed[address.value := kind], pauses := w.pauses + {(address.value, kind)})
  }

  function Guarded(w: World, tenant: string, variant: Option<string>, kind: EventKind): World {
    if variant.None? then w
    else
      var k := (tenant, variant.value, kind);
      w.(guardrails := w.guardrails[k := (if k in w.guardrails then w.guardrails[k] else 0) + 1])
  }

  lemma MovedFrame(w: World, id: Id, target: ProspectState)
    requires id in w.prospects
    ensures Moved(w, id, target) == w.(prospects := Moved(w, id, target).prospects, skipped := Moved(w, id, target).skipped)
    ensures Moved(w, id, target).prospects.Keys == w.prospects.Keys
    ensures forall p | p in w.prospects :: OnlyStateMoves(w.prospects[p], Moved(w, id, target).prospects[p], target)
  {
    hide Allowed, OnlyStateMoves;
    forall p | p in w.prospects ensures OnlyStateMoves(w.prospects[p], Moved(w, id, target).prospects[p], target) {
      MovedState(w.prospects[p], target);
    }
  }

  ghost predicate OnlyStateMoves(a: Prospect, b: Prospect, target: ProspectState) {
    b == a || (b == a.(state := target) && Allowed(a.state, target))
  }

  lemma MovedState(p: Prospect, target: ProspectState)
    ensures OnlyStateMoves(p, p, target)
    ensures Allowed(p.state, target) ==> OnlyStateMoves(p, p.(state := target), target)
  {
    hide Allowed;
  }

  /** The transition may as well come last, as it does in the handler. */
  lemma MovedLast(w: World, id: Id, target: ProspectState, tenant: string, variant: Option<string>,
                  address: Option<string>, kind: EventKind, body: string)
    requires id in w.prospects
    ensures var later := Suppressing(Guarded(w, tenant, variant, kind), address, kind);
      && id in later.prospects
      && Moved(later, id, target) == Suppressing(Guarded(Moved(w, id, target), tenant, variant, kind), address, kind)
    ensures var later := w.(replies := w.replies + [(id, body)], classify := w.classify + {|w.replies|});
      Moved(later, id, target)
        == Moved(w, id, target).(replies := w.replies + [(id, body)], classify := w.classify + {|w.replies|})
  {
    hide Allowed;
  }

  /** Whom a safety event or a reply moves, and where to. */
  predicate Moves(state: ProspectState, kind: EventKind) {
    state == Contacted || (state == Engaged && (kind.Complaint? || kind.Unsubscribe?))
  }

  function Destination(kind: EventKind): ProspectState {
    if kind.Bounce? then Bounced else if kind.Complaint? then Declined else if kind.Unsubscribe? then Unsubscribed else Engaged
  }

  lemma LegalMoves(state: ProspectState, kind: EventKind)
    requires Stopping(kind) || kind.ReplyEvent?
    ensures TargetOf(kind) == Destination(kind) && (Allowed(state, TargetOf(kind)) <==> Moves(state, kind))
  {
  }

  lemma ActedAsMoved(w: World, e: Event)
    requires Known(w, e) && !e.kind.SentEvent? && !e.kind.Other?
    ensures var (after, moved) := (Acted(w, e), Moved(w, w.touches[e.touch.value].prospect, TargetOf(e.kind)));
      && after.prospects == moved.prospects && after.skipped == moved.skipped
      && after.touches == moved.touches && after.seen == moved.seen
  {
    hide AddressOf, Moved, TargetOf;
  }

  lemma MovedTables(w: World, id: Id, target: ProspectState)
    requires id in w.prospects
    ensures var moved := Moved(w, id, target);
      && moved.touches == w.touches && moved.seen == w.seen
      && (Allowed(w.prospects[id].state, target) ==>
            moved.prospects == w.prospects[id := w.prospects[id].(state := target)] && moved.skipped == w.skipped)
      && (!Allowed(w.prospects[id].state, target) ==>
            moved.prospects == w.prospects && moved.skipped == w.skipped + [(id, target)])
  {
    hide Allowed;
  }

  /** What a safety event or a reply about a known touch does to its prospect: only one who was
      contacted, or who had replied before a complaint or an unsubscribe, is moved. */
  lemma MoveExactly(w: World, e: Event)
    requires Known(w, e) && !e.kind.SentEvent? && !e.kind.Other?
    ensures var (id, p, after) := (w.touches[e.touch.value].prospect, ProspectOf(w, e), Acted(w, e));
      && (Moves(p.state, e.kind) ==>
            after.prospects == w.prospects[id := p.(state := Destination(e.kind))] && after.skipped == w.skipped)
      && (!Moves(p.state, e.kind) ==> after.prospects == w.prospects && after.skipped == w.skipped + [(id, Destination(e.kind))])
      && after.touches == w.touches && after.seen == w.seen
  {
    LegalMoves(ProspectOf(w, e).state, e.kind);
    hide Acted, Moved, Allowed, TargetOf, Destination, Moves;
    ActedAsMoved(w, e);
    MovedTables(w, w.touches[e.touch.value].prospect, TargetOf(e.kind));
  }

  /** What it does besides: a reply is kept and queued for classification; a safety event counts
      against the touch's variant and suppresses the prospect's address. */
  lemma EffectExactly(w: World, e: Event)
    requires Known(w, e) && !e.kind.SentEvent? && !e.kind.Other?
    ensures var (p, after) := (ProspectOf(w, e), Acted(w, e));
      && (e.kind.ReplyEvent? ==>
            && after.replies == w.replies + [(w.touches[e.touch.value].prospect, e.body)]
            && after.classify == w.classify + {|w.replies|}
            && after.suppressed == w.suppressed && after.pauses == w.pauses && after.guardrails == w.guardrails)
      && (Stopping(e.kind) ==>
            && after.replies == w.replies && after.classify == w.classify
            && (forall k :: CountOf(after, k) == CountOf(w, k) +
                  if w.touches[e.touch.value].variant == Option.Some(k.1) && k.0 == p.tenant && k.2 == e.kind then 1 else 0)
            && (p.email.None? || p.email.value == "" ==> after.suppressed == w.suppressed && after.pauses == w.pauses)
            && (p.email.Some? && Canonicalize(p.email.value).Ok? && p.email.value != "" ==>
                  var a := Canonicalize(p.email.value).address;
                  after.suppressed == w.suppressed[a := e.kind] && after.pauses == w.pauses + {(a, e.kind)}))
  {
    hide Canonicalize, Allowed;
    MovedFrame(w, w.touches[e.touch.value].prospect, TargetOf(e.kind));
    hide Moved, TargetOf;
  }

  /** All other events do nothing, except that the provider's receipt marks a dispatched touch as sent. */
  lemma ReceiptExactly(w: World, e: Event)
    ensures !e.kind.SentEvent? && (!Known(w, e) || e.kind.Other?) ==> Acted(w, e) == w
    ensures e.kind.SentEvent? ==>
      var after := Acted(w, e);
      && after == w.(touches := after.touches) && after.touches.Keys == w.touches.Keys
      && forall t | t in w.touches ::
           after.touches[t] == if e.touch == Option.Some(t) && w.touches[t].status == Dispatched
                               then w.touches[t].(status := Sent) else w.touches[t]
  {
  }

  /** Which prospects an event moves, and which touch it marks as sent. */
  lemma ActedRows(w: World, e: Event)
    ensures Acted(w, e).prospects ==
      if e.kind.SentEvent? || e.kind.Other? || !Known(w, e) then w.prospects
      else Moved(w, w.touches[e.touch.value].prospect, TargetOf(e.kind)).prospects
    ensures Acted(w, e).touches == w.touches
      || (e.touch.Some? && e.touch.value in w.touches
          && Acted(w, e).touches == w.touches[e.touch.value := w.touches[e.touch.value].(status := Sent)])
  {
    hide AddressOf, Moved, TargetOf;
    if Known(w, e) { MovedFrame(w, w.touches[e.touch.value].prospect, TargetOf(e.kind)); }
  }

  /** One event of a delivery: recorded and acted on, unless its identifier was seen before. */
  function Taken(w: World, e: Event): World {
    if e.id in w.seen then w else Acted(w.(seen := w.seen + {e.id}), e)
  }

  function Ingested(w: World, events: seq<Event>): World {
    if events == [] then w else Taken(Ingested(w, events[..|events| - 1]), events[|events| - 1])
  }

  function Ids(events: seq<Event>): set<string> { set e | e in events :: e.id }

  predicate Earlier(events: seq<Event>, n: nat, id: string)
    requires n <= |events|
  {
    exists i | 0 <= i < n :: events[i].id == id
  }

  /** The events that are acted on: the first occurrence of each new identifier. */
  function Fresh(seen: set<string>, events: seq<Event>): seq<Event> {
    if events == [] then []
    else
      var e := events[|events| - 1];
      var before := Fresh(seen, events[..|events| - 1]);
      if e.id in seen || Earlier(events, |events| - 1, e.id) then before else before + [e]
  }

  lemma ActingRecordsNothing(w: World, e: Event)
    ensures Acted(w, e).seen == w.seen
  {
  }

  lemma {:induction false} SeenAfter(w: World, events: seq<Event>)
    ensures Ingested(w, events).seen == w.seen + Ids(events)
  {
    hide Acted;
    if events != [] {
      var init, last := events[..|events| - 1], events[|events| - 1];
      SeenAfter(w, init);
      assert events == init + [last];
      var sofar := Ingested(w, init);
      ActingRecordsNothing(sofar.(seen := sofar.seen + {last.id}), last);
    }
  }

  // ---------------------------------------------------------------- the same state whatever the delivery

  /** The identifiers acted on are exactly the new ones. */
  lemma {:induction false} FreshIds(seen: set<string>, events: seq<Event>)
    ensures Ids(Fresh(seen, events)) == Ids(events) - seen
  {
    if events != [] {
      var init, last := events[..|events| - 1], events[|events| - 1];
      FreshIds(seen, init);
      assert events == init + [last];
      assert Ids(events) == Ids(init) + {last.id};
      if i :| 0 <= i < |init| && events[i].id == last.id { assert events[i] in init; }
      var once := Fresh(seen, init);
      assert Ids(once + [last]) == Ids(once) + {last.id};
    }
  }

  /** No identifier is acted on twice. */
  lemma {:induction false} FreshOnce(seen: set<string>, events: seq<Event>, i: nat, j: nat)
    requires i < j < |Fresh(seen, events)|
    ensures Fresh(seen, events)[i].id != Fresh(seen, events)[j].id
  {
    var init, last := events[..|events| - 1], events[|events| - 1];
    var once := Fresh(seen, init);
    if j < |once| {
      FreshOnce(seen, init, i, j);
    } else {
      FreshIds(seen, init);
      assert once[i].id in Ids(once);
      var e :| e in init && e.id == once[i].id;
      var k :| 0 <= k < |init| && init[k] == e;
      assert events[k] == e;
    }
  }

  /** Ingesting a list with duplicates is ingesting its fresh events once. */
  lemma {:induction false} DuplicatesChangeNothing(w: World, events: seq<Event>)
    ensures Ingested(w, events) == Ingested(w, Fresh(w.seen, events))
  {
    hide Acted;
    if events != [] {
      var init, last := events[..|events| - 1], events[|events| - 1];
      DuplicatesChangeNothing(w, init);
      SeenAfter(w, init);
      assert forall i | 0 <= i < |init| :: events[i] == init[i];
      var once := Fresh(w.seen, init);
      if !(last.id in w.seen || Earlier(events, |init|, last.id)) {
        assert (once + [last])[..|once|] == once;
      }
    }
  }

  /** However a list is cut into deliveries, the state after the last one is the same. */
  lemma {:induction false} BatchesCompose(w: World, a: seq<Event>, b: seq<Event>)
    ensures Ingested(w, a + b) == Ingested(Ingested(w, a), b)
  {
    if b == [] {
      assert a + b == a;
    } else {
      BatchesCompose(w, a, b[..|b| - 1]);
      assert (a + b)[..|a + b| - 1] == a + b[..|b| - 1];
    }
  }

  lemma {:induction false} CountsCompose(w: World, a: seq<Event>, b: seq<Event>)
    ensures |Fresh(w.seen, a + b)| == |Fresh(w.seen, a)| + |Fresh(Ingested(w, a).seen, b)|
  {
    SeenAfter(w, a);
    if b == [] {
      assert a + b == a;
    } else {
      var init, last := b[..|b| - 1], b[|b| - 1];
      CountsCompose(w, a, init);
      assert (a + b)[..|a + b| - 1] == a + init && (a + b)[|a + b| - 1] == last;
      RepeatedInEither(a, b);
    }
  }

  lemma RepeatedInEither(a: seq<Event>, b: seq<Event>)
    requires b != []
    ensures var last := b[|b| - 1]; var all := a + b;
      Earlier(all, |all| - 1, last.id) <==>
      last.id in Ids(a) || Earlier(b, |b| - 1, last.id)
  {
    var last, all := b[|b| - 1], a + b;
    if i :| 0 <= i < |all| - 1 && all[i].id == last.id {
      if i < |a| { assert a[i] in a; } else { assert b[i - |a|] == all[i]; }
    }
    if e :| e in a && e.id == last.id {
      var i :| 0 <= i < |a| && a[i] == e;
      assert all[i] == e;
    }
    if i :| 0 <= i < |b| - 1 && b[i].id == last.id { assert all[|a| + i] == b[i]; }
  }

  // ---------------------------------------------------------------- stopping events bind

  /** Event handling changes no touch's prospect, no prospect's address, and lifts no suppression. */
  ghost predicate Binds(a: World, b: World) {
    && (forall t | t in a.touches :: t in b.touches && b.touches[t].prospect == a.touches[t].prospect)
    && (forall p | p in a.prospects :: p in b.prospects && b.prospects[p].email == a.prospects[p].email)
    && (forall x | x in a.suppressed :: x in b.suppressed)
  }

  lemma SuppressingBinds(w: World, address: Option<string>, kind: EventKind)
    ensures Binds(w, Suppressing(w, address, kind))
    ensures address.Some? ==> address.value in Suppressing(w, address, kind).suppressed
  {
  }

  lemma MovingBinds(w: World, id: Id, target: ProspectState)
    requires id in w.prospects
    ensures Binds(w, Moved(w, id, target))
  {
    hide Allowed;
  }

  lemma BindsTransitive(a: World, b: World, c: World)
    requires Binds(a, b) && Binds(b, c)
    ensures Binds(a, c)
  {
  }

  lemma ActingBinds(w: World, e: Event)
    ensures Binds(w, Acted(w, e))
    ensures Stopping(e.kind) && Known(w, e) && AddressOf(ProspectOf(w, e)).Some? ==>
      AddressOf(ProspectOf(w, e)).value in Acted(w, e).suppressed
  {
    hide AddressOf, Moved, TargetOf, Suppressing;
    if Known(w, e) && (Stopping(e.kind) || e.kind.ReplyEvent?) {
      var id := w.touches[e.touch.value].prospect;
      var p := w.prospects[id];
      MovingBinds(w, id, TargetOf(e.kind));
      var moved := Moved(w, id, TargetOf(e.kind));
      if Stopping(e.kind) {
        var g := Guarded(moved, p.tenant, w.touches[e.touch.value].variant, e.kind);
        assert Binds(moved, g);
        SuppressingBinds(g, AddressOf(p), e.kind);
        BindsTransitive(w, moved, g);
        BindsTransitive(w, g, Acted(w, e));
      } else {
        assert Binds(moved, Acted(w, e));
        BindsTransitive(w, moved, Acted(w, e));
      }
    }
  }

  lemma {:induction false} IngestingBinds(w: World, events: seq<Event>)
    ensures Binds(w, Ingested(w, events))
  {
    hide Acted;
    if events != [] {
      var init, last := events[..|events| - 1], events[|events| - 1];
      IngestingBinds(w, init);
      var sofar := Ingested(w, init);
      ActingBinds(sofar.(seen := sofar.seen + {last.id}), last);
    }
  }

  /** Every fresh bounce, complaint or unsubscribe about a touch whose prospect has an address
      leaves that address suppressed, even where the prospect's state may not change. */
  lemma {:induction false} StoppingEventsBind(w: World, events: seq<Event>, e: Event)
    requires e in Fresh(w.seen, events) && Stopping(e.kind) && Known(w, e)
    requires AddressOf(ProspectOf(w, e)).Some?
    ensures AddressOf(ProspectOf(w, e)).value in Ingested(w, events).suppressed
  {
    hide Acted, AddressOf;
    var init, last := events[..|events| - 1], events[|events| - 1];
    IngestingBinds(w, init);
    SeenAfter(w, init);
    var sofar := Ingested(w, init);
    ActingBinds(sofar.(seen := sofar.seen + {last.id}), last);
    if e in Fresh(w.seen, init) {
      StoppingEventsBind(w, init, e);
    } else {
      assert e == last;
      SameAddress(w, sofar, e);
      NotYetSeen(w, init, last, events);
    }
  }

  lemma SameAddress(a: World, b: World, e: Event)
    requires Binds(a, b) && Known(a, e)
    ensures Known(b, e) && AddressOf(ProspectOf(b, e)) == AddressOf(ProspectOf(a, e))
  {
    hide Canonicalize;
  }

  lemma NotYetSeen(w: World, init: seq<Event>, last: Event, events: seq<Event>)
    requires events == init + [last] && last in Fresh(w.seen, events) && last !in Fresh(w.seen, init)
    ensures last.id !in w.seen + Ids(init)
  {
    assert events[..|init|] == init && events[|init|] == last;
    forall e | e in init ensures e.id != last.id {
      var i :| 0 <= i < |init| && init[i] == e;
      assert events[i] == e;
    }
  }

  /** Ingestion moves a prospect along the life cycle only; a terminal state is never left. */
  lemma {:induction false} IngestingKeepsTerminal(w: World, events: seq<Event>, p: Id)
    requires p in w.prospects && Terminal(w.prospects[p].state)
    ensures p in Ingested(w, events).prospects && Ingested(w, events).prospects[p].state == w.prospects[p].state
  {
    hide Acted;
    if events != [] {
      var init, last := events[..|events| - 1], events[|events| - 1];
      IngestingKeepsTerminal(w, init, p);
      var sofar := Ingested(w, init);
      ActingKeepsTerminal(sofar.(seen := sofar.seen + {last.id}), last, p);
    }
  }

  lemma ActingKeepsTerminal(w: World, e: Event, p: Id)
    requires p in w.prospects && Terminal(w.prospects[p].state)
    ensures p in Acted(w, e).prospects && Acted(w, e).prospects[p].state == w.prospects[p].state
  {
    hide Acted, Moved, AddressOf;
    ActedRows(w, e);
    if Known(w, e) { MovedFrame(w, w.touches[e.touch.value].prospect, TargetOf(e.kind)); }
  }

  // ---------------------------------------------------------------- guardrails are conserved

  function CountOf(w: World, k: (string, string, EventKind)): nat {
    if k in w.guardrails then w.guardrails[k] else 0
  }

  /** Does this event count against that tenant's variant? */
  predicate Counts(w: World, e: Event, k: (string, string, EventKind)) {
    && Stopping(e.kind) && e.kind == k.2 && Known(w, e)
    && w.touches[e.touch.value].variant == Option.Some(k.1) && ProspectOf(w, e).tenant == k.0
  }

  function Tally(w: World, events: seq<Event>, k: (string, string, EventKind)): nat {
    if events == [] then 0
    else Tally(w, events[..|events| - 1], k) + (if Counts(w, events[|events| - 1], k) then 1 else 0)
  }

  /** What decides whether an event counts never changes during ingestion. */
  ghost predicate SameRefs(a: World, b: World) {
    && a.touches.Keys == b.touches.Keys && a.prospects.Keys == b.prospects.Keys
    && (forall t | t in a.touches :: SameDraft(a.touches[t], b.touches[t]))
    && (forall p | p in a.prospects :: SameIdentity(a.prospects[p], b.prospects[p]))
  }

  lemma ActingKeepsRefs(w: World, e: Event)
    ensures SameRefs(w, Acted(w, e))
  {
    hide Acted, Moved, AddressOf, Allowed;
    ActedRows(w, e);
    if Known(w, e) { MovedFrame(w, w.touches[e.touch.value].prospect, TargetOf(e.kind)); }
  }

  lemma GuardedCounts(w: World, tenant: string, variant: Option<string>, kind: EventKind, k: (string, string, EventKind))
    ensures CountOf(Guarded(w, tenant, variant, kind), k)
         == CountOf(w, k) + (if variant == Option.Some(k.1) && tenant == k.0 && kind == k.2 then 1 else 0)
  {
  }

  lemma ActingCounts(w: World, e: Event, k: (string, string, EventKind))
    ensures CountOf(Acted(w, e), k) == CountOf(w, k) + (if Counts(w, e, k) then 1 else 0)
  {
    hide AddressOf, Moved, TargetOf, Guarded;
    if Known(w, e) { MovedFrame(w, w.touches[e.touch.value].prospect, TargetOf(e.kind)); }
    if Known(w, e) && Stopping(e.kind) {
      var id := w.touches[e.touch.value].prospect;
      var p := w.prospects[id];
      var moved := Moved(w, id, TargetOf(e.kind));
      GuardedCounts(moved, p.tenant, w.touches[e.touch.value].variant, e.kind, k);
    }
  }

  lemma SameRefsCount(a: World, b: World, e: Event, k: (string, string, EventKind))
    requires SameRefs(a, b)
    ensures Counts(a, e, k) <==> Counts(b, e, k)
  {
  }

  /** A variant's bounces, complaints and unsubscribes grow by exactly the fresh events of that
      kind about its touches, whatever was delivered twice. */
  lemma {:induction false} GuardrailsCountFreshEvents(w: World, events: seq<Event>, k: (string, string, EventKind))
    ensures SameRefs(w, Ingested(w, events))
    ensures CountOf(Ingested(w, events), k) == CountOf(w, k) + Tally(w, Fresh(w.seen, events), k)
  {
    hide Acted, SameRefs, Counts, CountOf;
    if events == [] {
      NoEventSameRefs(w);
    } else {
      var init, last := events[..|events| - 1], events[|events| - 1];
      GuardrailsCountFreshEvents(w, init, k);
      SeenAfter(w, init);
      SeenBefore(w.seen, events, |init|);
      assert events[..|init| + 1] == events;
      hide Ingested;
      OneMoreCounts(w, Ingested(w, init), last, k);
      var once := Fresh(w.seen, init);
      assert (once + [last])[..|once|] == once;
      IngestedLast(w, events);
    }
  }

  lemma IngestedLast(w: World, events: seq<Event>)
    requires events != []
    ensures Ingested(w, events) == Taken(Ingested(w, events[..|events| - 1]), events[|events| - 1])
  {
  }

  lemma OneMoreCounts(w: World, sofar: World, e: Event, k: (string, string, EventKind))
    requires SameRefs(w, sofar)
    ensures SameRefs(w, Taken(sofar, e))
    ensures CountOf(Taken(sofar, e), k) == CountOf(sofar, k) + (if e.id !in sofar.seen && Counts(w, e, k) then 1 else 0)
  {
    hide Acted, SameRefs, Counts;
    if e.id !in sofar.seen {
      var noted := sofar.(seen := sofar.seen + {e.id});
      ActingKeepsRefs(noted, e);
      ActingCounts(noted, e, k);
      SeenIsNoRef(w, sofar, noted);
      SameRefsCount(w, noted, e, k);
      SameRefsTransitive(w, noted, Acted(noted, e));
    }
  }

  lemma NoEventSameRefs(w: World)
    ensures SameRefs(w, w)
  {
  }

  lemma SeenIsNoRef(w: World, a: World, b: World)
    requires SameRefs(w, a) && b == a.(seen := b.seen)
    ensures SameRefs(w, b)
  {
  }

  lemma SameRefsTransitive(a: World, b: World, c: World)
    requires SameRefs(a, b) && SameRefs(b, c)
    ensures SameRefs(a, c)
  {
  }

  // ---------------------------------------------------------------- replies

  /** Exactly the replies taken in have a classification job. */
  ghost predicate AllClassified(w: World) {
    forall r: nat :: r in w.classify <==> r < |w.replies|
  }

  lemma {:induction false} RepliesAreClassified(w: World, events: seq<Event>)
    requires AllClassified(w)
    ensures AllClassified(Ingested(w, events)) && |Ingested(w, events).replies| >= |w.replies|
  {
    hide Acted;
    if events != [] {
      var init, last := events[..|events| - 1], events[|events| - 1];
      RepliesAreClassified(w, init);
      var sofar := Ingested(w, init);
      ActingClassifies(sofar.(seen := sofar.seen + {last.id}), last);
    }
  }

  lemma ActingClassifies(w: World, e: Event)
    requires AllClassified(w)
    ensures AllClassified(Acted(w, e)) && |Acted(w, e).replies| >= |w.replies|
  {
    hide AddressOf, Allowed;
  }

  // ---------------------------------------------------------------- the store

  class EventStore {
    var seen: set<string>
    var touches: map<Id, Touch>
    var prospects: map<Id, Prospect>
    var suppressed: map<string, EventKind>
    var pauses: set<(string, EventKind)>
    var guardrails: map<(string, string, EventKind), nat>
    var replies: seq<(Id, string)>
    var classify: set<nat>
    var skipped: seq<(Id, ProspectState)>

    function Contents(): World
      reads this
    {
      World(seen, touches, prospects, suppressed, pauses, guardrails, replies, classify, skipped)
    }

    method Suppress(email: string, kind: EventKind)
      requires Canonicalize(email).Ok?
      modifies this`suppressed, this`pauses
      ensures Contents() == Suppressing(old(Contents()), Option.Some(Canonicalize(email).address), kind)
    {
      var address := Canonicalize(email).address;
      suppressed := suppressed[address := kind];
      pauses := pauses + {(address, kind)};
    }

    method SafeTransition(id: Id, target: ProspectState)
      requires id in prospects
      modifies this`prospects, this`skipped
      ensures Contents() == Moved(old(Contents()), id, target)
    {
      if Allowed(prospects[id].state, target) {
        prospects := prospects[id := prospects[id].(state := target)];
      } else {
        skipped := skipped + [(id, target)];
      }
    }

    /** Suppression first, then the variant's guardrail. */
    method Stop(p: Prospect, variant: Option<string>, kind: EventKind)
      requires p.email.Some? && p.email.value != "" ==> Canonicalize(p.email.value).Ok?
      modifies this`suppressed, this`pauses, this`guardrails
      ensures Contents() == Suppressing(Guarded(old(Contents()), p.tenant, variant, kind), AddressOf(p), kind)
    {
      hide Canonicalize;
      if p.email.Some? && p.email.value != "" {
        Suppress(p.email.value, kind);
      }
      if variant.Some? {
        var k := (p.tenant, variant.value, kind);
        guardrails := guardrails[k := (if k in guardrails then guardrails[k] else 0) + 1];
      }
    }

    method Act(e: Event)
      requires Known(Contents(), e) && ProspectOf(Contents(), e).email.Some? && ProspectOf(Contents(), e).email.value != "" ==>
        Canonicalize(ProspectOf(Contents(), e).email.value).Ok?
      modifies this
      ensures Contents() == Acted(old(Contents()), e)
    {
      hide Canonicalize, Allowed, TargetOf, AddressOf;
      if e.kind.SentEvent? {
        if e.touch.Some? && e.touch.value in touches && touches[e.touch.value].status == Dispatched {
          touches := touches[e.touch.value := touches[e.touch.value].(status := Sent)];
        }
        return;
      }
      if !Known(Contents(), e) || e.kind.Other? { return; }
      var id, variant := touches[e.touch.value].prospect, touches[e.touch.value].variant;
      var p := prospects[id];
      MovedLast(Contents(), id, TargetOf(e.kind), p.tenant, variant, AddressOf(p), e.kind, e.body);
      hide Moved, Guarded, Suppressing;
      if e.kind.ReplyEvent? {
        classify := classify + {|replies|};
        replies := replies + [(id, e.body)];
      } else {
        Stop(p, variant, e.kind);
      }
      SafeTransition(id, TargetOf(e.kind));
    }

    /** Stored addresses are canonical, so suppressing one cannot fail. */
    ghost predicate AddressesAreCanonical()
      reads this
    {
      forall p | p in prospects && prospects[p].email.Some? && prospects[p].email.value != "" ::
        Canonicalize(prospects[p].email.value).Ok?
    }

    method Ingest(events: seq<Event>) returns (processed: nat)
      requires AddressesAreCanonical()
      modifies this
      ensures Contents() == Ingested(old(Contents()), events)
      ensures processed == |Fresh(old(seen), events)|
      ensures AddressesAreCanonical()
    {
      hide Acted, Canonicalize, Allowed;
      processed := 0;
      ghost var before := Contents();
      assert events[..0] == [];
      for n := 0 to |events|
        invariant Contents() == Ingested(before, events[..n])
        invariant processed == |Fresh(before.seen, events[..n])|
        invariant AddressesAreCanonical()
      {
        var e := events[n];
        assert events[..n + 1][..n] == events[..n];
        SeenAfter(before, events[..n]);
        SeenBefore(before.seen, events, n);
        if e.id !in seen {
          seen := seen + {e.id};
          label Recorded:
          Act(e);
          ActingKeepsAddresses(old@Recorded(Contents()), e);
          processed := processed + 1;
        }
      }
      assert events[..|events|] == events;
    }
  }

  lemma SeenBefore(seen: set<string>, events: seq<Event>, n: nat)
    requires n < |events|
    ensures events[n].id in seen + Ids(events[..n]) <==>
      events[n].id in seen || Earlier(events[..n + 1], n, events[n].id)
  {
    if e :| e in events[..n] && e.id == events[n].id {
      var i :| 0 <= i < n && events[..n][i] == e;
      var longer := events[..n + 1];
      assert longer[i].id == events[n].id;
    }
    if Earlier(events[..n + 1], n, events[n].id) {
      var longer := events[..n + 1];
      var i :| 0 <= i < n && longer[i].id == events[n].id;
      assert events[..n][i] == longer[i];
    }
  }

  lemma ActingKeepsAddresses(w: World, e: Event)
    ensures Acted(w, e).prospects.Keys == w.prospects.Keys
    ensures forall p | p in w.prospects :: Acted(w, e).prospects[p].email == w.prospects[p].email
  {
    hide Acted, Moved, AddressOf, Allowed;
    ActedRows(w, e);
    if Known(w, e) { MovedFrame(w, w.touches[e.touch.value].prospect, TargetOf(e.kind)); }
  }
}
