/** The proposal book: filing with duplicate and decline memory, approval, and the cap moves
    that approval makes. */
module Proposals {
  import opened Options
  import opened Discovery

  type Time = int
  type Caps = map<string, int>

  /** How long a decline is remembered, in days. */
  const MEMORY_DAYS: int := 90

  datatype Kind = BudgetShift | Rebalance | AlwaysHuman
  datatype Payload = Shift(source: string, target: string, amount: int) | Pause(cohort: string) | Prose
  datatype Status = Open | Approved(at: Time) | Declined(at: Time)

  /** `key` is empty for a proposal without a dedupe key. */
  datatype Row = Row(tenant: string, key: string, kind: Kind, payload: Payload, filed: Time, status: Status)

  datatype Book = Book(rows: seq<Row>, caps: Caps)

  // ---------------------------------------------------------------- filing

  predicate Blocks(r: Row, tenant: string, key: string, now: Time) {
    && r.tenant == tenant && r.key == key
    && (r.status.Open? || (r.status.Declined? && r.status.at > now - MEMORY_DAYS))
  }

  /** No later row for a key was filed while an earlier one was open, or too soon after its decline. */
  ghost predicate Orderly(rows: seq<Row>) {
    forall i, j | 0 <= i < j < |rows| && rows[i].key != "" && rows[j].key == rows[i].key && rows[j].tenant == rows[i].tenant ::
      && !rows[i].status.Open?
      && (rows[i].status.Declined? ==> rows[j].filed >= rows[i].status.at + MEMORY_DAYS)
  }

  lemma FilingKeepsOrder(rows: seq<Row>, row: Row)
    requires Orderly(rows)
    requires row.key != "" ==> forall i | 0 <= i < |rows| :: !Blocks(rows[i], row.tenant, row.key, row.filed)
    ensures Orderly(rows + [row])
  {
    var after := rows + [row];
    forall i, j | 0 <= i < j < |after| && after[i].key != "" && after[j].key == after[i].key && after[j].tenant == after[i].tenant
      ensures !after[i].status.Open? && (after[i].status.Declined? ==> after[j].filed >= after[i].status.at + MEMORY_DAYS)
    {
      if j == |rows| { assert !Blocks(rows[i], row.tenant, row.key, row.filed); }
    }
  }

  lemma ResolvingKeepsOrder(rows: seq<Row>, i: nat, status: Status)
    requires Orderly(rows) && i < |rows| && rows[i].status.Open? && !status.Open?
    ensures Orderly(rows[i := rows[i].(status := status)])
  {
  }

  /** Each dedupe key has at most one open proposal. */
  lemma OneOpenPerKey(rows: seq<Row>, i: nat, j: nat)
    requires Orderly(rows) && i < |rows| && j < |rows|
    requires rows[i].status.Open? && rows[j].status.Open?
    requires rows[i].key != "" && rows[i].key == rows[j].key && rows[i].tenant == rows[j].tenant
    ensures i == j
  {
  }

  // ---------------------------------------------------------------- moving caps

  function Max(a: int, b: int): int { if a < b then b else a }
  function Min(a: int, b: int): int { if a < b then a else b }

  /** The update touches no row when the cohort has none this month. */
  function Recap(caps: Caps, cohort: string, delta: int): Caps {
    if cohort in caps then caps[cohort := Max(caps[cohort] + delta, 0)] else caps
  }

  function Shifted(caps: Caps, source: string, target: string, amount: int): Caps {
    Recap(Recap(caps, source, -amount), target, amount)
  }

  /** The effect of an approval; None is the error of a payload without the fields it needs. */
  function Applied(caps: Caps, kind: Kind, payload: Payload): Option<Caps> {
    match kind
    case AlwaysHuman => Some(caps)
    case _ =>
      match payload
      case Shift(s, t, a) => Some(Shifted(caps, s, t, a))
      case Pause(c) => if kind.Rebalance? then Some(if c in caps then caps[c := 0] else caps) else None
      case Prose => None
  }

  /** Cohort by cohort: a shift takes what it may from the source, gives all of it to the target, and
      leaves every other cap alone; cohorts without a row stay without. */
  lemma ShiftExactly(caps: Caps, source: string, target: string, amount: int, c: string)
    ensures c in Shifted(caps, source, target, amount) <==> c in caps
    ensures c in caps ==>
      var cap, after := caps[c], Shifted(caps, source, target, amount)[c];
      && (c != source && c != target ==> after == cap)
      && (c == source != target ==> after == if cap >= amount then cap - amount else 0)
      && (c == target != source ==> after == if cap + amount >= 0 then cap + amount else 0)
      && (c == source == target && amount >= 0 ==> after == if cap >= amount then cap else amount)
  {
  }

  /** Which payloads have which effect: only a rebalancing may pause, only numbers move caps, and
      what is left to a human moves nothing. */
  lemma ApplicationExactly(caps: Caps, kind: Kind, payload: Payload)
    ensures Applied(caps, kind, payload).None? <==>
      !kind.AlwaysHuman? && (payload.Prose? || (payload.Pause? && kind.BudgetShift?))
    ensures Applied(caps, kind, payload).Some? ==>
      var after := Applied(caps, kind, payload).value;
      && (kind.AlwaysHuman? ==> after == caps)
      && (!kind.AlwaysHuman? && payload.Shift? ==> after == Shifted(caps, payload.source, payload.target, payload.amount))
      && (!kind.AlwaysHuman? && payload.Pause? ==>
            after.Keys == caps.Keys && forall c | c in caps :: after[c] == if c == payload.cohort then 0 else caps[c])
  {
  }

  /** The caps of the listed cohorts together. */
  function Total(caps: Caps, cohorts: seq<string>): int {
    if cohorts == [] then 0
    else Total(caps, cohorts[1..]) + (if cohorts[0] in caps then caps[cohorts[0]] else 0)
  }

  ghost predicate Distinct(cohorts: seq<string>) {
    forall i, j | 0 <= i < j < |cohorts| :: cohorts[i] != cohorts[j]
  }

  lemma {:induction false} RecapMovesTotal(caps: Caps, cohorts: seq<string>, c: string, delta: int)
    requires Distinct(cohorts)
    ensures Total(Recap(caps, c, delta), cohorts) == Total(caps, cohorts)
      + (if c in caps && c in cohorts then Max(caps[c] + delta, 0) - caps[c] else 0)
  {
    if cohorts != [] {
      RecapMovesTotal(caps, cohorts[1..], c, delta);
      if cohorts[0] == c { assert c !in cohorts[1..]; }
      assert c in cohorts <==> c == cohorts[0] || c in cohorts[1..];
    }
  }

  ghost predicate Rows(caps: Caps, cohorts: seq<string>) {
    Distinct(cohorts) && (forall c :: c in cohorts <==> c in caps) && forall c | c in caps :: caps[c] >= 0
  }

  /** A shift moves the total by the part of it that the source does not have, and leaves it alone
      exactly when the source covers the amount. */
  lemma ShiftMovesTotal(caps: Caps, cohorts: seq<string>, source: string, target: string, amount: nat)
    requires Rows(caps, cohorts) && source in caps && target in caps && source != target
    ensures Total(Shifted(caps, source, target, amount), cohorts) == Total(caps, cohorts) + Max(0, amount - caps[source])
    ensures Total(Shifted(caps, source, target, amount), cohorts) == Total(caps, cohorts) <==> amount <= caps[source]
    ensures Rows(Shifted(caps, source, target, amount), cohorts)
  {
    var less: int := 0 - amount;
    RecapMovesTotal(caps, cohorts, source, less);
    RecapMovesTotal(Recap(caps, source, less), cohorts, target, amount);
  }

  /** Without a row for the target the amount is lost; without one for the source it is created. */
  lemma ShiftWithoutRow(caps: Caps, cohorts: seq<string>, source: string, target: string, amount: nat)
    requires Rows(caps, cohorts)
    ensures source in caps && target !in caps ==>
      Total(Shifted(caps, source, target, amount), cohorts) == Total(caps, cohorts) - Min(amount, caps[source])
    ensures source !in caps && target in caps ==>
      Total(Shifted(caps, source, target, amount), cohorts) == Total(caps, cohorts) + amount
  {
    var less: int := 0 - amount;
    RecapMovesTotal(caps, cohorts, source, less);
    RecapMovesTotal(Recap(caps, source, less), cohorts, target, amount);
  }

  /** Amounts proposed from an unchanged cap of at least one keep the total; from an empty cap they
      raise it by one. */
  lemma ProposedAmounts(caps: Caps, cohorts: seq<string>, source: string, target: string)
    requires Rows(caps, cohorts) && source in caps && target in caps && source != target
    ensures var up := if caps[source] == 0 then 1 else 0;
      && Total(Shifted(caps, source, target, AnalyzeAmount(caps[source])), cohorts) == Total(caps, cohorts) + up
      && Total(Shifted(caps, source, target, RebalanceAmount(caps[source])), cohorts) == Total(caps, cohorts) + up
  {
    ShiftMovesTotal(caps, cohorts, source, target, AnalyzeAmount(caps[source]));
    ShiftMovesTotal(caps, cohorts, source, target, RebalanceAmount(caps[source]));
  }

  // ---------------------------------------------------------------- the automatic review

  predicate AutoApplicable(kind: Kind) { !kind.AlwaysHuman? }

  predicate AutoEligible(r: Row, tenant: string) {
    r.tenant == tenant && r.status.Open? && AutoApplicable(r.kind)
  }

  /** The book after the automatic review of its first `n` rows. */
  function Reviewed(b: Book, tenant: string, now: Time, n: nat): Option<Book>
    requires n <= |b.rows|
  {
    if n == 0 then Some(b)
    else
      match Reviewed(b, tenant, now, n - 1)
      case None => None
      case Some(sofar) =>
        var r := b.rows[n - 1];
        if !AutoEligible(r, tenant) then Some(sofar)
        else
          match Applied(sofar.caps, r.kind, r.payload)
          case None => None
          case Some(caps) =>
            if n <= |sofar.rows| then Some(Book(sofar.rows[n - 1 := r.(status := Approved(now))], caps)) else None
  }

  /** The review approves exactly the open, automatically applicable proposals of its tenant. */
  lemma {:induction false} ReviewedRows(b: Book, tenant: string, now: Time, n: nat)
    requires n <= |b.rows|
    ensures var r := Reviewed(b, tenant, now, n);
      r.Some? ==>
        && |r.value.rows| == |b.rows|
        && (forall i | 0 <= i < |b.rows| :: r.value.rows[i] ==
              if i < n && AutoEligible(b.rows[i], tenant) then b.rows[i].(status := Approved(now)) else b.rows[i])
  {
    if n > 0 { ReviewedRows(b, tenant, now, n - 1); }
  }

  /** What a proposal may add to the total when it is applied to `caps`. */
  function Raise(caps: Caps, r: Row): int {
    if AutoApplicable(r.kind) && r.payload.Shift? && r.payload.source in caps
    then Max(0, r.payload.amount - caps[r.payload.source]) else 0
  }

  /** A payload this tenant's own scans file: a pause, or a shift of at least nothing between two cohorts with rows. */
  ghost predicate Filed(caps: Caps, r: Row) {
    AutoApplicable(r.kind) ==>
      match r.payload
      case Shift(s, t, a) => a >= 0 && s != t && s in caps && t in caps
      case Pause(c) => r.kind.Rebalance?
      case Prose => false
  }

  /** The caps just before row `n` is reviewed. */
  function CapsBefore(b: Book, tenant: string, now: Time, n: nat): Caps
    requires n <= |b.rows|
  {
    match Reviewed(b, tenant, now, n) case Some(x) => x.caps case None => map[]
  }

  /** Everything the review's approvals may add to the total, each at the caps it meets. */
  function Raised(b: Book, tenant: string, now: Time, n: nat): int
    requires n <= |b.rows|
  {
    if n == 0 then 0
    else
      var r := b.rows[n - 1];
      Raised(b, tenant, now, n - 1) + (if AutoEligible(r, tenant) then Raise(CapsBefore(b, tenant, now, n - 1), r) else 0)
  }

  /** What a pause takes away when it is applied to `caps`. */
  function Removal(caps: Caps, r: Row): int {
    if AutoApplicable(r.kind) && r.payload.Pause? && r.payload.cohort in caps then caps[r.payload.cohort] else 0
  }

  /** The caps that the review's pauses zero, each at the value it meets. */
  function PausedAll(b: Book, tenant: string, now: Time, n: nat): int
    requires n <= |b.rows|
  {
    if n == 0 then 0
    else
      var r := b.rows[n - 1];
      PausedAll(b, tenant, now, n - 1) + (if AutoEligible(r, tenant) then Removal(CapsBefore(b, tenant, now, n - 1), r) else 0)
  }

  /** The automatic review moves the total by exactly what its shifts' sources lack, less what its
      pauses remove, each at the moment it is applied. */
  lemma {:induction false} ReviewMovesTotal(b: Book, tenant: string, now: Time, n: nat, cohorts: seq<string>)
    requires n <= |b.rows| && Rows(b.caps, cohorts)
    requires forall r | r in b.rows :: Filed(b.caps, r)
    ensures var r := Reviewed(b, tenant, now, n);
      && r.Some?
      && Rows(r.value.caps, cohorts)
      && Total(r.value.caps, cohorts) == Total(b.caps, cohorts) + Raised(b, tenant, now, n) - PausedAll(b, tenant, now, n)
  {
    if n > 0 {
      ReviewMovesTotal(b, tenant, now, n - 1, cohorts);
      ReviewedRows(b, tenant, now, n - 1);
      var row := b.rows[n - 1];
      assert Filed(b.caps, row);
      if AutoEligible(row, tenant) {
        OneApproval(Reviewed(b, tenant, now, n - 1).value.caps, b.caps, row, cohorts);
      }
    }
  }

  lemma OneApproval(caps: Caps, first: Caps, row: Row, cohorts: seq<string>)
    requires Rows(caps, cohorts) && Rows(first, cohorts) && Filed(first, row) && AutoApplicable(row.kind)
    ensures var after := Applied(caps, row.kind, row.payload);
      && after.Some? && Rows(after.value, cohorts)
      && Total(after.value, cohorts) == Total(caps, cohorts) + Raise(caps, row) - Removal(caps, row)
  {
    match row.payload
    case Shift(s, t, a) =>
      assert s in first && t in first;
      assert s in cohorts && t in cohorts;
      ShiftMovesTotal(caps, cohorts, s, t, a);
    case Pause(c) =>
      if c in caps { RecapMovesTotal(caps, cohorts, c, -caps[c]); }
  }

  /** So an automatic review raises the total if and only if what its shifts' sources lack exceeds
      what its pauses remove. */
  lemma ReviewRaisesTotal(b: Book, tenant: string, now: Time, cohorts: seq<string>)
    requires Rows(b.caps, cohorts) && forall r | r in b.rows :: Filed(b.caps, r)
    ensures Reviewed(b, tenant, now, |b.rows|).Some?
    ensures var r := Reviewed(b, tenant, now, |b.rows|);
      Total(r.value.caps, cohorts) > Total(b.caps, cohorts) <==>
      Raised(b, tenant, now, |b.rows|) > PausedAll(b, tenant, now, |b.rows|)
  {
    ReviewMovesTotal(b, tenant, now, |b.rows|, cohorts);
  }

  /** Two shifts out of the same small cap: the first empties it, the second creates budget. */
  lemma ReviewCanRaiseTotal(tenant: string, now: Time)
    ensures var caps := map["a" := 1, "b" := 1];
      var rows := [Row(tenant, "budget_shift:a:b", BudgetShift, Shift("a", "b", AnalyzeAmount(1)), now, Open),
                   Row(tenant, "rebalance:a", Rebalance, Shift("a", "b", RebalanceAmount(1)), now, Open)];
      && Orderly(rows)
      && Reviewed(Book(rows, caps), tenant, now, 2).Some?
      && Total(Reviewed(Book(rows, caps), tenant, now, 2).value.caps, ["a", "b"]) == Total(caps, ["a", "b"]) + 1
  {
    var caps := map["a" := 1, "b" := 1];
    var one := Shifted(caps, "a", "b", 1);
    assert one == map["a" := 0, "b" := 2];
    assert Shifted(one, "a", "b", 1) == map["a" := 0, "b" := 3];
    var rows := [Row(tenant, "budget_shift:a:b", BudgetShift, Shift("a", "b", 1), now, Open),
                 Row(tenant, "rebalance:a", Rebalance, Shift("a", "b", 1), now, Open)];
    assert "budget_shift:a:b"[0] != "rebalance:a"[0];
    assert Reviewed(Book(rows, caps), tenant, now, 0) == Some(Book(rows, caps));
    assert Reviewed(Book(rows, caps), tenant, now, 1) == Some(Book(rows[0 := rows[0].(status := Approved(now))], one));
    assert Total(map["a" := 0, "b" := 3], ["a", "b"]) == 3 && Total(caps, ["a", "b"]) == 2 by {
      assert ["a", "b"][1..] == ["b"] && ["b"][1..] == [];
    }
  }

  // ---------------------------------------------------------------- the store

  datatype Answer = Done | NotOpen | Forbidden | Broken

  function Decided(b: Book, i: nat, human: bool, auto: bool): Answer {
    if !auto && !human then Forbidden
    else if i >= |b.rows| || !b.rows[i].status.Open? then NotOpen
    else if auto && !AutoApplicable(b.rows[i].kind) then Forbidden
    else if Applied(b.caps, b.rows[i].kind, b.rows[i].payload).None? then Broken
    else Done
  }

  class Store {
    var rows: seq<Row>
    var caps: Caps

    constructor (first: Caps)
      ensures rows == [] && caps == first && Orderly(rows)
    {
      rows, caps := [], first;
    }

    function Contents(): Book
      reads this
    {
      Book(rows, caps)
    }

    /** Files a proposal unless an open duplicate or a remembered decline stands against it. */
    method Propose(tenant: string, key: string, kind: Kind, payload: Payload, now: Time) returns (id: Option<nat>)
      requires Orderly(rows)
      modifies this`rows
      ensures Orderly(rows)
      ensures id.None? <==> key != "" && exists i :: 0 <= i < |old(rows)| && Blocks(old(rows)[i], tenant, key, now)
      ensures id.None? <==> key != "" && exists r ::
        (r in old(rows) && r.tenant == tenant && r.key == key && (r.status.Open? || (r.status.Declined? && now - r.status.at < 90)))
      ensures id.None? ==> rows == old(rows)
      ensures id.Some? ==> id.value == |old(rows)| && rows == old(rows) + [Row(tenant, key, kind, payload, now, Open)]
    {
      if key != "" && exists i | 0 <= i < |rows| :: Blocks(rows[i], tenant, key, now) {
        return None;
      }
      FilingKeepsOrder(rows, Row(tenant, key, kind, payload, now, Open));
      id := Some(|rows|);
      rows := rows + [Row(tenant, key, kind, payload, now, Open)];
    }

    method Decline(i: nat, human: bool, now: Time) returns (r: Answer)
      requires Orderly(rows)
      modifies this`rows
      ensures Orderly(rows)
      ensures r == if !human then Forbidden
                   else if i < |old(rows)| && old(rows)[i].status.Open? then Done else NotOpen
      ensures rows == if r.Done? then old(rows)[i := old(rows)[i].(status := Declined(now))] else old(rows)
    {
      if !human { return Forbidden; }
      if i >= |rows| || !rows[i].status.Open? { return NotOpen; }
      ResolvingKeepsOrder(rows, i, Declined(now));
      rows := rows[i := rows[i].(status := Declined(now))];
      r := Done;
    }

    method Approve(i: nat, human: bool, auto: bool, now: Time) returns (r: Answer)
      requires Orderly(rows)
      modifies this
      ensures Orderly(rows)
      ensures r == Decided(old(Contents()), i, human, auto)
      ensures r.Done? || r.Broken? <==>
        i < |old(rows)| && old(rows)[i].status.Open? && (if auto then !old(rows)[i].kind.AlwaysHuman? else human)
      ensures r.Broken? ==> Applied(old(caps), old(rows)[i].kind, old(rows)[i].payload).None?
      ensures r.NotOpen? <==> (auto || human) && (i >= |old(rows)| || !old(rows)[i].status.Open?)
      ensures !r.Done? ==> Contents() == old(Contents())
      ensures r.Done? ==>
        && Some(caps) == Applied(old(caps), old(rows)[i].kind, old(rows)[i].payload)
        && rows == old(rows)[i := old(rows)[i].(status := Approved(now))]
    {
      if !auto && !human { return Forbidden; }
      if i >= |rows| || !rows[i].status.Open? { return NotOpen; }
      if auto && !AutoApplicable(rows[i].kind) { return Forbidden; }
      var moved := Applied(caps, rows[i].kind, rows[i].payload);
      if moved.None? { return Broken; }
      ResolvingKeepsOrder(rows, i, Approved(now));
      caps := moved.value;
      rows := rows[i := rows[i].(status := Approved(now))];
      r := Done;
    }

    /** The hands-off review.  A broken payload ends it; the caller's transaction then rolls back. */
    method AutoReview(tenant: string, handsOff: bool, now: Time) returns (ok: bool, approved: seq<nat>)
      requires Orderly(rows)
      modifies this
      ensures Orderly(rows)
      ensures !handsOff ==> ok && approved == [] && Contents() == old(Contents())
      ensures handsOff ==> (ok <==> Reviewed(old(Contents()), tenant, now, |old(rows)|).Some?)
      ensures ok && handsOff ==> Some(Contents()) == Reviewed(old(Contents()), tenant, now, |old(rows)|)
      ensures ok && handsOff ==> forall i: nat :: i in approved <==>
        i < |old(rows)| && old(rows)[i].tenant == tenant && old(rows)[i].status.Open? && !old(rows)[i].kind.AlwaysHuman?
      ensures !ok ==> Contents() == old(Contents())
    {
      hide Orderly, Applied;
      approved, ok := [], true;
      if !handsOff { return; }
      ghost var before := Contents();
      var listed := rows;
      var firstCaps := caps;
      for i := 0 to |listed|
        invariant before == Book(listed, firstCaps) && |rows| == |listed|
        invariant Orderly(rows)
        invariant Some(Contents()) == Reviewed(before, tenant, now, i)
        invariant forall k: nat :: k in approved <==> k < i && AutoEligible(listed[k], tenant)
      {
        ReviewedRows(before, tenant, now, i);
        if AutoEligible(listed[i], tenant) {
          assert rows[i] == listed[i];
          var r := Approve(i, false, true, now);
          if !r.Done? {
            ReviewFails(before, tenant, now, i + 1, |listed|);
            rows, caps := listed, firstCaps;
            return false, [];
          }
          approved := approved + [i];
        }
      }
    }
  }

  lemma {:induction false} ReviewFails(b: Book, tenant: string, now: Time, n: nat, m: nat)
    requires n <= m <= |b.rows| && Reviewed(b, tenant, now, n).None?
    ensures Reviewed(b, tenant, now, m).None?
  {
    if n < m { ReviewFails(b, tenant, now, n, m - 1); }
  }
}
