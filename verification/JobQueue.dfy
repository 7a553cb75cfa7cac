/** The lease queue and the worker's three-transaction protocol. Reports are not fenced by
    the lease: a stale worker may finish, revive or bury a job another one holds. What still
    bounds the work is that every lease reports at most once. */
module JobQueue {
  import opened Options
  import opened Tables

  const LEASE_SECONDS := 120
  const BACKOFF_BASE_SECONDS := 30

  const QUEUE_PRIORITY := ["control", "trigger", "classify", "deliver", "compose", "referral",
                           "reengage", "qualify", "enrich", "discover", "synthesize"]

  datatype JobStatus = Ready | Leased | Done | Dead

  datatype Job = Job(queue: string, status: JobStatus, attempts: nat, maxAttempts: nat,
                     leaseUntil: Option<Time>, runAfter: Time)

  /** What a worker carries away from a lease. */
  datatype Handle = Handle(id: nat, attempts: nat, maxAttempts: nat)

  /** How a handler ended. */
  datatype Ending = Succeeded | RetryableError | PermanentError | ComplianceError

  function Pow2(n: nat): nat { if n == 0 then 1 else 2 * Pow2(n - 1) }

  predicate Due(j: Job, queue: string, now: Time) {
    j.queue == queue && j.status == Ready && j.runAfter <= now
  }

  function LeasedRow(j: Job, now: Time): Job {
    j.(status := Leased, leaseUntil := Some(now + LEASE_SECONDS), attempts := j.attempts + 1)
  }

  function CompletedRow(j: Job): Job { j.(status := Done, leaseUntil := None) }

  function FailedRow(j: Job, h: Handle, permanent: bool, now: Time): Job {
    if permanent || h.attempts >= h.maxAttempts then j.(status := Dead, leaseUntil := None)
    else j.(status := Ready, leaseUntil := None, runAfter := now + BACKOFF_BASE_SECONDS * Pow2(h.attempts))
  }

  function ReportedRow(j: Job, h: Handle, ending: Ending, now: Time): Job {
    match ending
    case Succeeded => CompletedRow(j)
    case RetryableError => FailedRow(j, h, false, now)
    case _ => FailedRow(j, h, true, now)
  }

  predicate Expired(j: Job, now: Time) {
    j.status == Leased && j.leaseUntil.Some? && j.leaseUntil.value < now
  }

  function ReapedRow(j: Job, now: Time): Job {
    if Expired(j, now) then j.(status := Ready, leaseUntil := None) else j
  }

  function ExpiredIds(jobs: map<nat, Job>, now: Time): set<nat> {
    set id | id in jobs && Expired(jobs[id], now)
  }

  /** The parts of a row that only enqueueing, leasing and failing set. */
  predicate SameWork(a: Job, b: Job) {
    a.queue == b.queue && a.attempts == b.attempts && a.maxAttempts == b.maxAttempts && a.runAfter == b.runAfter
  }

  /** Who may be leased: a ready job of the queue whose time has come. The lease lasts two minutes and
      counts an attempt. */
  lemma LeaseExactly(j: Job, queue: string, now: Time)
    ensures Due(j, queue, now) <==> j.status == Ready && j.queue == queue && now >= j.runAfter
    ensures var leased := LeasedRow(j, now);
      && SameWork(leased.(attempts := j.attempts), j) && leased.attempts == j.attempts + 1
      && leased.status == Leased && leased.leaseUntil == Some(now + 120)
  {
  }

  /** What a report makes of the row: success ends it; an error that is not retryable, or the last
      attempt, buries it; any other waits sixty seconds after the first attempt, and twice as long
      after each further one. */
  lemma ReportExactly(j: Job, h: Handle, ending: Ending, now: Time)
    ensures var after := ReportedRow(j, h, ending, now);
      && after.leaseUntil.None? && SameWork(after.(runAfter := j.runAfter), j)
      && (after.status == Done <==> ending == Succeeded)
      && (after.status == Ready <==> ending == RetryableError && h.attempts < h.maxAttempts)
      && (after.status == Dead <==> ending != Succeeded && (ending != RetryableError || h.attempts >= h.maxAttempts))
      && (after.status != Ready ==> after.runAfter == j.runAfter)
      && (after.status == Ready && h.attempts == 1 ==> after.runAfter == now + 60)
      && (after.status == Ready && h.attempts > 1 ==>
            after.runAfter - now == 2 * (ReportedRow(j, h.(attempts := h.attempts - 1), ending, now).runAfter - now))
  {
    assert Pow2(0) == 1 && Pow2(1) == 2;
  }

  /** A crashed worker costs an attempt and the lease time, no more: once its lease has run out
      the job is expired, and the reaped job is due in its queue at once; until then it is
      neither expired nor due. */
  lemma ReapedIsDueAgain(j: Job, queue: string, leasedAt: Time, now: Time)
    requires Due(j, queue, leasedAt) && leasedAt <= now
    ensures var leased := LeasedRow(j, leasedAt);
      && !Due(leased, queue, now)
      && (Expired(leased, now) <==> now > leasedAt + LEASE_SECONDS)
      && (Expired(leased, now) ==> Due(ReapedRow(leased, now), queue, now))
      && ReapedRow(leased, now).attempts == j.attempts + 1
  {
  }

  class Queue {
    var jobs: map<nat, Job>
    var keys: map<string, nat>
    var nextId: nat

    ghost predicate Valid() reads this {
      forall id :: id in jobs ==> id < nextId
    }

    constructor ()
      ensures Valid() && jobs == map[] && keys == map[]
    {
      jobs, keys, nextId := map[], map[], 0;
    }

    /** A repeated idempotency key is a successful no-op. */
    method Enqueue(queue: string, key: Option<string>, runAfterSeconds: nat, maxAttempts: nat, now: Time)
      returns (id: Option<nat>)
      requires Valid()
      modifies this
      ensures Valid()
      ensures id.None? <==> key.Some? && key.value in old(keys)
      ensures id.None? ==> jobs == old(jobs) && keys == old(keys)
      ensures id.Some? ==> id.value !in old(jobs)
      ensures id.Some? ==> jobs == old(jobs)[id.value := Job(queue, Ready, 0, maxAttempts, None, now + runAfterSeconds)]
      ensures id.Some? ==> keys == if key.Some? then old(keys)[key.value := id.value] else old(keys)
    {
      if key.Some? && key.value in keys { return None; }
      id := Some(nextId);
      jobs := jobs[nextId := Job(queue, Ready, 0, maxAttempts, None, now + runAfterSeconds)];
      if key.Some? { keys := keys[key.value := nextId]; }
      nextId := nextId + 1;
    }

    /** The due job of the queue with the lowest id, now leased for one more attempt. */
    method Lease(queue: string, now: Time) returns (h: Option<Handle>)
      requires Valid()
      modifies this`jobs
      ensures Valid()
      ensures h.None? ==> jobs == old(jobs) && forall id :: id in jobs ==> !Due(jobs[id], queue, now)
      ensures h.Some? ==> var id := h.value.id;
        && id in old(jobs) && Due(old(jobs)[id], queue, now)
        && (forall other :: other in old(jobs) && Due(old(jobs)[other], queue, now) ==> id <= other)
        && jobs == old(jobs)[id := LeasedRow(old(jobs)[id], now)]
        && h.value == Handle(id, jobs[id].attempts, jobs[id].maxAttempts)
    {
      var id := 0;
      while id < nextId
        invariant forall other :: other in jobs && Due(jobs[other], queue, now) ==> id <= other
      {
        if id in jobs && Due(jobs[id], queue, now) {
          jobs := jobs[id := LeasedRow(jobs[id], now)];
          return Some(Handle(id, jobs[id].attempts, jobs[id].maxAttempts));
        }
        id := id + 1;
      }
      return None;
    }

    /** The third transaction of the worker. It names the job by id alone. */
    method Report(h: Handle, ending: Ending, now: Time)
      requires Valid()
      modifies this`jobs
      ensures Valid()
      ensures h.id !in old(jobs) ==> jobs == old(jobs)
      ensures h.id in old(jobs) ==> jobs == old(jobs)[h.id := ReportedRow(old(jobs)[h.id], h, ending, now)]
    {
      if h.id !in jobs { return; }
      var j := jobs[h.id];
      if ending == Succeeded {
        j := j.(status := Done, leaseUntil := None);
      } else {
        var permanent := ending != RetryableError;
        if permanent || h.attempts >= h.maxAttempts {
          j := j.(status := Dead, leaseUntil := None);
        } else {
          var backoff := BACKOFF_BASE_SECONDS * Pow2(h.attempts);
          j := j.(status := Ready, leaseUntil := None, runAfter := now + backoff);
        }
      }
      jobs := jobs[h.id := j];
    }

    /** Requeues exactly the jobs whose lease ran out: nothing expired is left, a requeued job keeps
        its attempts, its queue and its run time, and every other row is as it was. */
    method ReapExpired(now: Time) returns (count: nat)
      requires Valid()
      modifies this`jobs
      ensures Valid() && jobs.Keys == old(jobs).Keys
      ensures forall id :: id in jobs ==> !Expired(jobs[id], now)
      ensures forall id :: id in jobs && !Expired(old(jobs)[id], now) ==> jobs[id] == old(jobs)[id]
      ensures forall id :: id in jobs && Expired(old(jobs)[id], now) ==>
        jobs[id].status == Ready && jobs[id].leaseUntil.None? && SameWork(jobs[id], old(jobs)[id])
      ensures count == |ExpiredIds(old(jobs), now)|
    {
      count := 0;
      var todo := ExpiredIds(jobs, now);
      while todo != {}
        invariant Valid() && jobs.Keys == old(jobs).Keys
        invariant todo <= ExpiredIds(old(jobs), now) && count + |todo| == |ExpiredIds(old(jobs), now)|
        invariant forall id :: id in jobs ==>
          jobs[id] == if id in todo then old(jobs)[id] else ReapedRow(old(jobs)[id], now)
        decreases |todo|
      {
        var id :| id in todo;
        todo := todo - {id};
        jobs := jobs[id := jobs[id].(status := Ready, leaseUntil := None)];
        count := count + 1;
      }
    }

    /** One poll: the job comes from the first queue, in priority order, that has one due. */
    method RunOnce(handled: set<string>, now: Time) returns (h: Option<Handle>, ghost at: nat)
      requires Valid()
      modifies this`jobs
      ensures Valid() && at <= |QUEUE_PRIORITY|
      ensures forall i, id :: 0 <= i < at && QUEUE_PRIORITY[i] in handled && id in old(jobs) ==>
                !Due(old(jobs)[id], QUEUE_PRIORITY[i], now)
      ensures h.None? ==> at == |QUEUE_PRIORITY| && jobs == old(jobs)
      ensures h.Some? ==> at < |QUEUE_PRIORITY| && QUEUE_PRIORITY[at] in handled
      ensures h.Some? ==> h.value.id in old(jobs) && Due(old(jobs)[h.value.id], QUEUE_PRIORITY[at], now)
      ensures h.Some? ==> jobs == old(jobs)[h.value.id := LeasedRow(old(jobs)[h.value.id], now)]
    {
      var i := 0;
      while i < |QUEUE_PRIORITY|
        invariant 0 <= i <= |QUEUE_PRIORITY| && Valid() && jobs == old(jobs)
        invariant forall k, id :: 0 <= k < i && QUEUE_PRIORITY[k] in handled && id in jobs ==>
                    !Due(jobs[id], QUEUE_PRIORITY[k], now)
      {
        if QUEUE_PRIORITY[i] in handled {
          h := Lease(QUEUE_PRIORITY[i], now);
          if h.Some? { return h, i; }
        }
        i := i + 1;
      }
      return None, i;
    }
  }

  // ---- any number of workers, crashes and stale reports ---------------------------------------

  /** One job's whole life: its row, the leases not reported yet, the attempts whose retry was
      reported, how often it was reaped, and the attempt numbers handed out in order. */
  datatype Life = Life(row: Job, out: set<nat>, retried: set<nat>, reaps: nat, leases: seq<nat>)

  datatype Act =
    | TakeLease(queue: string)
    | Report(attempt: nat, ending: Ending)
    | Crash(attempt: nat)
    | Reap
    | Wait

  predicate CanAct(life: Life, a: Act, now: Time) {
    match a
    case TakeLease(q) => Due(life.row, q, now)
    case Report(k, _) => k in life.out
    case Crash(k) => k in life.out
    case _ => true
  }

  function HandleOf(life: Life, attempt: nat): Handle { Handle(0, attempt, life.row.maxAttempts) }

  function Acted(life: Life, a: Act, now: Time): Life {
    match a
    case TakeLease(_) =>
      var row := LeasedRow(life.row, now);
      life.(row := row, out := life.out + {row.attempts}, leases := life.leases + [row.attempts])
    case Report(k, ending) =>
      var row := ReportedRow(life.row, HandleOf(life, k), ending, now);
      life.(row := row, out := life.out - {k},
            retried := if ending == RetryableError && k < life.row.maxAttempts then life.retried + {k} else life.retried)
    case Crash(k) => life.(out := life.out - {k})
    case Reap => if Expired(life.row, now) then life.(row := ReapedRow(life.row, now), reaps := life.reaps + 1) else life
    case Wait => life
  }

  function Born(queue: string, maxAttempts: nat, runAfter: Time): Life {
    Life(Job(queue, Ready, 0, maxAttempts, None, runAfter), {}, {}, 0, [])
  }

  /** Clock readings need not even be monotone for the bound. */
  ghost predicate IsLife(lives: seq<Life>, acts: seq<Act>, clock: seq<Time>) {
    && |lives| == |acts| + 1 && |clock| == |acts|
    && (exists queue, maxAttempts, runAfter :: lives[0] == Born(queue, maxAttempts, runAfter))
    && forall i :: 0 <= i < |acts| ==>
         CanAct(lives[i], acts[i], clock[i]) && lives[i + 1] == Acted(lives[i], acts[i], clock[i])
  }

  ghost predicate Inv(life: Life) {
    && (forall k :: k in life.out ==> 1 <= k <= life.row.attempts && k !in life.retried)
    && (forall k :: k in life.retried ==> 1 <= k <= life.row.attempts && k < life.row.maxAttempts)
    && |life.leases| == life.row.attempts
    && (forall i :: 0 <= i < |life.leases| ==> life.leases[i] == i + 1)
    && |life.leases| + (if life.row.status == Ready then 1 else 0) <= 1 + |life.retried| + life.reaps
  }

  lemma ActKeepsInv(life: Life, a: Act, now: Time)
    requires Inv(life) && CanAct(life, a, now)
    ensures Inv(Acted(life, a, now))
    ensures Acted(life, a, now).row.maxAttempts == life.row.maxAttempts
  {
    if a.Report? && a.ending == RetryableError && a.attempt < life.row.maxAttempts {
      assert |life.retried + {a.attempt}| == |life.retried| + 1;
    }
  }

  lemma {:induction false} BelowCount(s: set<nat>, n: nat)
    requires forall k :: k in s ==> 1 <= k < n
    ensures |s| <= if n == 0 then 0 else n - 1
  {
    if n <= 1 {
      assert s == {};
    } else if n - 1 in s {
      BelowCount(s - {n - 1}, n - 1);
    } else {
      BelowCount(s, n - 1);
    }
  }

  lemma {:induction false} LifeInv(lives: seq<Life>, acts: seq<Act>, clock: seq<Time>, n: nat)
    requires IsLife(lives, acts, clock) && n < |lives|
    ensures Inv(lives[n]) && lives[n].row.maxAttempts == lives[0].row.maxAttempts
  {
    if n > 0 {
      LifeInv(lives, acts, clock, n - 1);
      ActKeepsInv(lives[n - 1], acts[n - 1], clock[n - 1]);
    }
  }

  /** Whatever the workers do, a job is leased at most max_attempts times (once if that is
      zero) plus the number of times it was reaped, each lease with its own attempt number:
      with finitely many reaps, work on it stops. */
  lemma LeasesAreBounded(lives: seq<Life>, acts: seq<Act>, clock: seq<Time>, n: nat)
    requires IsLife(lives, acts, clock) && n < |lives|
    ensures var most := if lives[0].row.maxAttempts == 0 then 1 else lives[0].row.maxAttempts;
            |lives[n].leases| <= most + lives[n].reaps
    ensures forall i, j :: 0 <= i < j < |lives[n].leases| ==> lives[n].leases[i] < lives[n].leases[j]
  {
    LifeInv(lives, acts, clock, n);
    BelowCount(lives[n].retried, lives[n].row.maxAttempts);
  }

  // ---- lives that happen ------------------------------------------------------------------------

  ghost predicate Ticking(clock: seq<Time>) {
    forall i, j :: 0 <= i < j < |clock| ==> clock[i] <= clock[j]
  }

  /** `life` is what becomes of a job enqueued in `queue` with that many attempts, after the acts
      at those instants, the last of them at `now`. */
  ghost predicate Lived(queue: string, maxAttempts: nat, lives: seq<Life>, acts: seq<Act>, clock: seq<Time>, life: Life, now: Time) {
    && IsLife(lives, acts, clock) && Ticking(clock)
    && lives[0].row.queue == queue && lives[0].row.maxAttempts == maxAttempts
    && lives[|lives| - 1] == life && (clock != [] ==> clock[|clock| - 1] <= now)
  }

  ghost predicate Happens(queue: string, maxAttempts: nat, life: Life, now: Time) {
    exists lives, acts, clock :: Lived(queue, maxAttempts, lives, acts, clock, life, now)
  }

  lemma BirthHappens(queue: string, maxAttempts: nat, runAfter: Time, now: Time)
    ensures Happens(queue, maxAttempts, Born(queue, maxAttempts, runAfter), now)
  {
    var lives, acts: seq<Act>, clock: seq<Time> := [Born(queue, maxAttempts, runAfter)], [], [];
    assert IsLife(lives, acts, clock);
    assert Lived(queue, maxAttempts, lives, acts, clock, Born(queue, maxAttempts, runAfter), now);
  }

  lemma ActHappens(queue: string, maxAttempts: nat, life: Life, now: Time, a: Act, at: Time)
    requires Happens(queue, maxAttempts, life, now) && now <= at && CanAct(life, a, at)
    ensures Happens(queue, maxAttempts, Acted(life, a, at), at)
  {
    hide CanAct, Acted;
    var lives, acts, clock :| Lived(queue, maxAttempts, lives, acts, clock, life, now);
    var next := Acted(life, a, at);
    var ls, xs, ts := lives + [next], acts + [a], clock + [at];
    LongerLife(lives, acts, clock, a, at);
    LongerClock(clock, at);
    assert Lived(queue, maxAttempts, ls, xs, ts, next, at);
  }

  lemma LongerLife(lives: seq<Life>, acts: seq<Act>, clock: seq<Time>, a: Act, at: Time)
    requires IsLife(lives, acts, clock) && CanAct(lives[|lives| - 1], a, at)
    ensures IsLife(lives + [Acted(lives[|lives| - 1], a, at)], acts + [a], clock + [at])
  {
    hide CanAct, Acted;
    var ls, xs, ts := lives + [Acted(lives[|lives| - 1], a, at)], acts + [a], clock + [at];
    assert ls[0] == lives[0];
    forall i | 0 <= i < |xs| ensures CanAct(ls[i], xs[i], ts[i]) && ls[i + 1] == Acted(ls[i], xs[i], ts[i]) {
      if i < |acts| { assert CanAct(lives[i], acts[i], clock[i]) && lives[i + 1] == Acted(lives[i], acts[i], clock[i]); }
    }
  }

  lemma LongerClock(clock: seq<Time>, at: Time)
    requires Ticking(clock) && (clock != [] ==> clock[|clock| - 1] <= at)
    ensures Ticking(clock + [at])
  {
  }

  /** The bound is met: there is a life without reaps, with a clock that never goes back, in which
      a handler that always fails uses every attempt and the last one buries the job. */
  lemma {:induction false} AlwaysFailingUsesEveryAttempt(queue: string, maxAttempts: nat, n: nat) returns (life: Life, now: Time)
    requires 1 <= n <= maxAttempts
    ensures Happens(queue, maxAttempts, life, now)
    ensures |life.leases| == n && life.reaps == 0 && life.row.attempts == n && life.row.maxAttempts == maxAttempts
    ensures life.row.queue == queue && life.row.status == (if n == maxAttempts then Dead else Ready) && life.out == {}
  {
    var before, since := Born(queue, maxAttempts, 0), 0;
    if n > 1 {
      before, since := AlwaysFailingUsesEveryAttempt(queue, maxAttempts, n - 1);
    } else {
      BirthHappens(queue, maxAttempts, 0, 0);
    }
    hide Happens;
    now := if since < before.row.runAfter then before.row.runAfter else since;
    var leased := Acted(before, TakeLease(queue), now);
    ActHappens(queue, maxAttempts, before, since, TakeLease(queue), now);
    life := Acted(leased, Report(n, RetryableError), now);
    ActHappens(queue, maxAttempts, leased, now, Report(n, RetryableError), now);
  }

  /** Reports are not fenced: there is a life in which a job is finished by the worker that holds
      its lease, and a stale retry report of the worker before turns it ready again. */
  lemma StaleReportRevivesDone(queue: string, maxAttempts: nat, now: Time) returns (done: Life, revived: Life, late: Time)
    requires maxAttempts >= 2
    ensures Happens(queue, maxAttempts, done, late) && done.row.status == Done && done.row.attempts == 2
    ensures 1 in done.out && CanAct(done, Report(1, RetryableError), late)
    ensures revived == Acted(done, Report(1, RetryableError), late) && revived.row.status == Ready
    ensures Happens(queue, maxAttempts, revived, late)
  {
    hide Happens;
    var born := Born(queue, maxAttempts, now);
    BirthHappens(queue, maxAttempts, now, now);
    var first := Acted(born, TakeLease(queue), now);
    ActHappens(queue, maxAttempts, born, now, TakeLease(queue), now);
    late := now + LEASE_SECONDS + 1;
    var reaped := Acted(first, Reap, late);
    ActHappens(queue, maxAttempts, first, now, Reap, late);
    var second := Acted(reaped, TakeLease(queue), late);
    ActHappens(queue, maxAttempts, reaped, late, TakeLease(queue), late);
    done := Acted(second, Report(2, Succeeded), late);
    ActHappens(queue, maxAttempts, second, late, Report(2, Succeeded), late);
    revived := Acted(done, Report(1, RetryableError), late);
    ActHappens(queue, maxAttempts, done, late, Report(1, RetryableError), late);
  }

  /** A report turns a done row ready if and only if its lease is still out, it asks for a retry,
      and its attempt was not the last. Nothing else turns it ready. */
  lemma RevivedExactly(life: Life, a: Act, now: Time)
    requires life.row.status == Done
    ensures CanAct(life, a, now) && Acted(life, a, now).row.status == Ready <==>
      a.Report? && a.attempt in life.out && a.ending == RetryableError && a.attempt < life.row.maxAttempts
  {
  }
}
