/** Creating executions: idempotency, active caps and per-window quotas
    (executions.ts:20-53, admission.ts:20-48, queued-maintenance.ts:47). */
module Admission {
  import opened Contracts
  import opened EventLog
  import opened Rows
  import opened Jobs
  import opened JobStore
  import opened Outbox

  const WINDOW_MS := 60000

  datatype Limits = Limits(enabled: bool, perUser: nat, global: nat, globalRate: nat, ipRate: nat, userRate: nat, queueTtlMs: nat)

  datatype Scope = GlobalScope | IpScope(ip: nat) | UserScope(user: Id)

  /** A rate-limit key: the HMAC of a window and a scope. */
  datatype RateKey = RateKey(window: int, scope: Scope)
  datatype Counter = Counter(count: nat, expiresAt: Time)

  /** A committed creation, remembered for the proofs. */
  datatype Reservation = Reservation(at: Time, ip: nat, user: Id)

  /** `owners` is the unique index on (userId, idempotencyKey). */
  datatype Db = Db(jobs: Table, owners: map<(Id, nat), Id>, counters: map<RateKey, Counter>, reservations: seq<Reservation>)

  /** What the problem and competition queries say, in the transaction. */
  datatype Lookup = Resolved(publicCases: set<Id>) | Refused(reason: LookupError)

  datatype LookupError = ProblemNotFound | CompetitionNotFound | CompetitionNotStarted | CompetitionFinished
                       | RegistrationRequired | RoundNotActive

  datatype CreateError = ExecutionsDisabled | IdempotencyConflict | ActiveJobLimit | Unavailable(reason: LookupError)
                       | ExecutionCapacity | ExecutionRateLimit
  datatype Outcome = Accepted(id: Id, state: State) | Rejected(error: CreateError)

  /** A create request; `newId` is the identifier an insert would get. */
  datatype Create = Create(user: Id, key: nat, hash: nat, mode: Mode, ip: nat, lookup: Lookup, newId: Id, bytes: EventSize)

  /** activeStates: everything not yet terminal. */
  function Unfinished(jobs: Table): set<Id> {
    set id | id in jobs && !IsTerminal(jobs[id].row.state)
  }

  function UnfinishedOf(jobs: Table, user: Id): set<Id> {
    set id | id in Unfinished(jobs) && jobs[id].row.request.userId == user
  }

  function WindowOf(t: Time): int {
    t / WINDOW_MS
  }

  function WindowEnd(w: int): Time {
    (w + 1) * WINDOW_MS
  }

  /** The three scopes of a reservation, in the order the loop visits them. */
  function Keys(user: Id, ip: nat, now: Time): seq<RateKey> {
    [RateKey(WindowOf(now), GlobalScope), RateKey(WindowOf(now), IpScope(ip)), RateKey(WindowOf(now), UserScope(user))]
  }

  function Limit(l: Limits, s: Scope): nat {
    match s
    case GlobalScope => l.globalRate
    case IpScope(_) => l.ipRate
    case UserScope(_) => l.userRate
  }

  function CountOf(counters: map<RateKey, Counter>, k: RateKey): nat {
    if k in counters then counters[k].count else 0
  }

  /** One upsert. */
  function Bump(counters: map<RateKey, Counter>, k: RateKey): map<RateKey, Counter> {
    counters[k := if k in counters then counters[k].(count := counters[k].count + 1) else Counter(1, WindowEnd(k.window))]
  }

  function BumpAll(counters: map<RateKey, Counter>, keys: seq<RateKey>): map<RateKey, Counter> {
    if keys == [] then counters else Bump(BumpAll(counters, keys[..|keys| - 1]), keys[|keys| - 1])
  }

  /** Every scope still has room for one more. */
  predicate HasRoom(l: Limits, counters: map<RateKey, Counter>, keys: seq<RateKey>) {
    forall i :: 0 <= i < |keys| ==> CountOf(counters, keys[i]) < Limit(l, keys[i].scope)
  }

  function RequestOf(l: Limits, c: Create, now: Time): Request {
    Request(c.newId, c.user, c.mode, if c.lookup.Resolved? then c.lookup.publicCases else {}, c.hash, c.key, now, now + l.queueTtlMs)
  }

  /** The answer to a create, on the state its transaction sees. */
  function Answer(l: Limits, db: Db, c: Create, now: Time): Outcome {
    if !l.enabled then Rejected(ExecutionsDisabled)
    else if (c.user, c.key) in db.owners && db.owners[(c.user, c.key)] in db.jobs then
      var row := db.jobs[db.owners[(c.user, c.key)]].row;
      if row.request.payloadHash != c.hash then Rejected(IdempotencyConflict)
      else Outcome.Accepted(db.owners[(c.user, c.key)], row.state)
    else if |UnfinishedOf(db.jobs, c.user)| >= l.perUser then Rejected(ActiveJobLimit)
    else if c.lookup.Refused? then Rejected(Unavailable(c.lookup.reason))
    else if |Unfinished(db.jobs)| >= l.global then Rejected(ExecutionCapacity)
    else if !HasRoom(l, db.counters, Keys(c.user, c.ip, now)) then Rejected(ExecutionRateLimit)
    else Outcome.Accepted(c.newId, Queued)
  }

  /** The create is a new job, not a retry and not a refusal. */
  predicate Inserts(l: Limits, db: Db, c: Create, now: Time) {
    Answer(l, db, c, now).Accepted? && !((c.user, c.key) in db.owners && db.owners[(c.user, c.key)] in db.jobs)
  }

  function AfterCreate(l: Limits, db: Db, c: Create, now: Time): Db {
    if !Inserts(l, db, c, now) then db
    else Db(db.jobs[c.newId := NewJob(RequestOf(l, c, now), c.bytes, now)],
            db.owners[(c.user, c.key) := c.newId],
            BumpAll(db.counters, Keys(c.user, c.ip, now)),
            db.reservations + [Reservation(now, c.ip, c.user)])
  }

  /** Counters whose window is over. */
  function CleanUp(counters: map<RateKey, Counter>, now: Time): map<RateKey, Counter> {
    map k | k in counters && counters[k].expiresAt > now :: counters[k]
  }

  datatype DbEvent =
    | Creating(create: Create)
    | Stepping(id: Id, action: Action)
    | Cleaning

  function Next(l: Limits, db: Db, e: DbEvent, now: Time): Db {
    match e
    case Creating(c) => AfterCreate(l, db, c, now)
    case Stepping(id, a) => db.(jobs := Updated(db.jobs, id, a, now))
    case Cleaning => db.(counters := CleanUp(db.counters, now))
  }

  // ------------------------------------------------------------------
  // The invariant

  predicate InScope(r: Reservation, k: RateKey) {
    && WindowOf(r.at) == k.window
    && match k.scope
       case GlobalScope => true
       case IpScope(ip) => r.ip == ip
       case UserScope(user) => r.user == user
  }

  /** Committed creations charged to a key. */
  function Charged(rs: seq<Reservation>, k: RateKey): nat {
    if rs == [] then 0 else Charged(rs[..|rs| - 1], k) + (if InScope(rs[|rs| - 1], k) then 1 else 0)
  }

  /** The index is exact, so (user, key) names at most one execution. */
  predicate OwnersOk(db: Db) {
    && (forall id <- db.jobs ::
          var r := db.jobs[id].row.request;
          (r.userId, r.idempotencyKey) in db.owners && db.owners[(r.userId, r.idempotencyKey)] == id)
    && (forall k <- db.owners ::
          && db.owners[k] in db.jobs
          && db.jobs[db.owners[k]].row.request.userId == k.0
          && db.jobs[db.owners[k]].row.request.idempotencyKey == k.1)
  }

  ghost predicate CapsOk(l: Limits, jobs: Table) {
    |Unfinished(jobs)| <= l.global && forall user: Id :: |UnfinishedOf(jobs, user)| <= l.perUser
  }

  predicate QuotaOk(l: Limits, db: Db, k: RateKey, t: Time) {
    && Charged(db.reservations, k) <= Limit(l, k.scope)
    && (k in db.counters ==> db.counters[k] == Counter(Charged(db.reservations, k), WindowEnd(k.window)))
    && (k !in db.counters && WindowEnd(k.window) > t ==> Charged(db.reservations, k) == 0)
  }

  ghost predicate DbOk(l: Limits, db: Db, t: Time) {
    && OwnersOk(db) && CapsOk(l, db.jobs)
    && (forall k: RateKey :: QuotaOk(l, db, k, t))
    && (forall i :: 0 <= i < |db.reservations| ==> db.reservations[i].at <= t)
  }

  lemma EmptyDbOk(l: Limits, t: Time)
    ensures DbOk(l, Db(map[], map[], map[], []), t)
  {
    var db := Db(map[], map[], map[], []);
    assert Unfinished(db.jobs) == {};
    assert forall user: Id :: UnfinishedOf(db.jobs, user) == {};
  }

  /** randomUUID() does not repeat, and the clock does not run backwards. */
  predicate EventOk(db: Db, e: DbEvent, t: Time, now: Time) {
    t <= now && (e.Creating? ==> e.create.newId !in db.jobs)
  }

  lemma SettledRowStays(row: Row, op: Op, now: Time)
    ensures Decide(row, op, now).row.request == row.request
    ensures IsTerminal(row.state) ==> Decide(row, op, now).row == row
  {
    TerminalStates(row.state);
  }

  lemma StepKeepsTerminal(job: Job, a: Action, now: Time)
    ensures Apply(job, a, now).row.request == job.row.request
    ensures IsTerminal(job.row.state) ==> IsTerminal(Apply(job, a, now).row.state)
  {
    if a.Call? {
      SettledRowStays(job.row, a.op, now);
    }
  }

  lemma SubsetSize(a: set<Id>, b: set<Id>)
    requires a <= b
    ensures |a| <= |b|
  {
    assert b == a + (b - a);
  }

  lemma PutKeepsOwners(db: Db, id: Id, next: Job)
    requires OwnersOk(db) && id in db.jobs && next.row.request == db.jobs[id].row.request
    ensures OwnersOk(db.(jobs := db.jobs[id := next]))
  {
  }

  lemma PutKeepsCaps(l: Limits, jobs: Table, id: Id, next: Job)
    requires CapsOk(l, jobs) && id in jobs && next.row.request == jobs[id].row.request
    requires IsTerminal(jobs[id].row.state) ==> IsTerminal(next.row.state)
    ensures CapsOk(l, jobs[id := next])
  {
    var jobs' := jobs[id := next];
    assert Unfinished(jobs') <= Unfinished(jobs);
    SubsetSize(Unfinished(jobs'), Unfinished(jobs));
    forall user: Id
      ensures |UnfinishedOf(jobs', user)| <= l.perUser
    {
      assert UnfinishedOf(jobs', user) <= UnfinishedOf(jobs, user);
      SubsetSize(UnfinishedOf(jobs', user), UnfinishedOf(jobs, user));
    }
  }

  lemma SteppingKeeps(l: Limits, db: Db, id: Id, a: Action, t: Time, now: Time)
    requires DbOk(l, db, t) && t <= now
    ensures DbOk(l, db.(jobs := Updated(db.jobs, id, a, now)), now)
  {
    if id in db.jobs {
      StepKeepsTerminal(db.jobs[id], a, now);
      PutKeepsOwners(db, id, Apply(db.jobs[id], a, now));
      PutKeepsCaps(l, db.jobs, id, Apply(db.jobs[id], a, now));
    }
    var db' := db.(jobs := Updated(db.jobs, id, a, now));
    forall k: RateKey
      ensures QuotaOk(l, db', k, now)
    {
      assert QuotaOk(l, db, k, t);
    }
  }

  lemma CleaningKeeps(l: Limits, db: Db, t: Time, now: Time)
    requires DbOk(l, db, t) && t <= now
    ensures DbOk(l, db.(counters := CleanUp(db.counters, now)), now)
  {
    var db' := db.(counters := CleanUp(db.counters, now));
    forall k: RateKey
      ensures QuotaOk(l, db', k, now)
    {
      assert QuotaOk(l, db, k, t);
    }
  }

  lemma BumpedKeys(counters: map<RateKey, Counter>, user: Id, ip: nat, now: Time, k: RateKey)
    ensures var after := BumpAll(counters, Keys(user, ip, now));
      && (k in Keys(user, ip, now) ==>
            k in after && after[k] == if k in counters then Counter(counters[k].count + 1, counters[k].expiresAt) else Counter(1, WindowEnd(k.window)))
      && (k !in Keys(user, ip, now) ==> (k in after <==> k in counters) && (k in counters ==> after[k] == counters[k]))
  {
    var keys := Keys(user, ip, now);
    assert keys[..2][..1][..0] == [];
    assert keys[..2][..1] == [keys[0]] && keys[..2] == [keys[0], keys[1]];
    assert BumpAll(counters, keys[..2][..1]) == Bump(counters, keys[0]);
    assert BumpAll(counters, keys[..2]) == Bump(Bump(counters, keys[0]), keys[1]);
    assert k in keys <==> k == keys[0] || k == keys[1] || k == keys[2];
  }

  lemma ChargeOne(rs: seq<Reservation>, user: Id, ip: nat, now: Time, k: RateKey)
    ensures Charged(rs + [Reservation(now, ip, user)], k) == Charged(rs, k) + (if k in Keys(user, ip, now) then 1 else 0)
  {
    var r := Reservation(now, ip, user);
    assert (rs + [r])[..|rs|] == rs;
    assert InScope(r, k) <==> k in Keys(user, ip, now);
  }

  lemma WindowIsOpen(now: Time)
    ensures WindowEnd(WindowOf(now)) > now
  {
  }

  lemma QuotaAfterCreate(l: Limits, db: Db, c: Create, t: Time, now: Time, k: RateKey)
    requires QuotaOk(l, db, k, t) && t <= now && Inserts(l, db, c, now)
    ensures QuotaOk(l, AfterCreate(l, db, c, now), k, now)
  {
    BumpedKeys(db.counters, c.user, c.ip, now, k);
    ChargeOne(db.reservations, c.user, c.ip, now, k);
    WindowIsOpen(now);
    var keys := Keys(c.user, c.ip, now);
    if k in keys {
      var i :| 0 <= i < |keys| && keys[i] == k;
      assert CountOf(db.counters, keys[i]) < Limit(l, keys[i].scope);
    }
  }

  lemma InsertKeepsOwners(l: Limits, db: Db, c: Create, now: Time)
    requires OwnersOk(db) && Inserts(l, db, c, now) && c.newId !in db.jobs
    ensures OwnersOk(AfterCreate(l, db, c, now))
  {
    var db' := AfterCreate(l, db, c, now);
    assert (c.user, c.key) !in db.owners;
    forall id | id in db'.jobs
      ensures var r := db'.jobs[id].row.request;
        (r.userId, r.idempotencyKey) in db'.owners && db'.owners[(r.userId, r.idempotencyKey)] == id
    {
    }
  }

  lemma InsertCountsOnce(jobs: Table, id: Id, next: Job, user: Id)
    requires id !in jobs
    ensures |Unfinished(jobs[id := next])| <= |Unfinished(jobs)| + 1
    ensures |UnfinishedOf(jobs[id := next], user)| <= |UnfinishedOf(jobs, user)| + (if next.row.request.userId == user then 1 else 0)
  {
    var jobs' := jobs[id := next];
    assert Unfinished(jobs') <= Unfinished(jobs) + {id};
    SubsetSize(Unfinished(jobs'), Unfinished(jobs) + {id});
    var mine := if next.row.request.userId == user then {id} else {};
    assert UnfinishedOf(jobs', user) <= UnfinishedOf(jobs, user) + mine;
    SubsetSize(UnfinishedOf(jobs', user), UnfinishedOf(jobs, user) + mine);
  }

  lemma InsertKeepsCaps(l: Limits, jobs: Table, id: Id, next: Job, user: Id)
    requires CapsOk(l, jobs) && id !in jobs && next.row.request.userId == user
    requires |Unfinished(jobs)| < l.global && |UnfinishedOf(jobs, user)| < l.perUser
    ensures CapsOk(l, jobs[id := next])
  {
    var jobs' := jobs[id := next];
    InsertCountsOnce(jobs, id, next, user);
    forall u: Id
      ensures |UnfinishedOf(jobs', u)| <= l.perUser
    {
      InsertCountsOnce(jobs, id, next, u);
    }
  }

  lemma CreatingKeeps(l: Limits, db: Db, c: Create, t: Time, now: Time)
    requires DbOk(l, db, t) && t <= now && c.newId !in db.jobs
    ensures DbOk(l, AfterCreate(l, db, c, now), now)
  {
    var db' := AfterCreate(l, db, c, now);
    if Inserts(l, db, c, now) {
      InsertKeepsOwners(l, db, c, now);
      InsertKeepsCaps(l, db.jobs, c.newId, NewJob(RequestOf(l, c, now), c.bytes, now), c.user);
      forall k: RateKey
        ensures QuotaOk(l, db', k, now)
      {
        assert QuotaOk(l, db, k, t);
        QuotaAfterCreate(l, db, c, t, now, k);
      }
    } else {
      forall k: RateKey
        ensures QuotaOk(l, db', k, now)
      {
        assert QuotaOk(l, db, k, t);
      }
    }
  }

  lemma EventKeeps(l: Limits, db: Db, e: DbEvent, t: Time, now: Time)
    requires DbOk(l, db, t) && EventOk(db, e, t, now)
    ensures DbOk(l, Next(l, db, e, now), now)
  {
    match e
    case Creating(c) => CreatingKeeps(l, db, c, t, now);
    case Stepping(id, a) => SteppingKeeps(l, db, id, a, t, now);
    case Cleaning => CleaningKeeps(l, db, t, now);
  }

  // ------------------------------------------------------------------
  // Runs

  datatype TimedEvent = TimedEvent(event: DbEvent, now: Time)

  predicate HistoryIsOk(l: Limits, db: Db, run: seq<TimedEvent>, t: Time)
    decreases |run|
  {
    run == [] || (EventOk(db, run[0].event, t, run[0].now) && HistoryIsOk(l, Next(l, db, run[0].event, run[0].now), run[1..], run[0].now))
  }

  function After(l: Limits, db: Db, run: seq<TimedEvent>): Db
    decreases |run|
  {
    if run == [] then db else After(l, Next(l, db, run[0].event, run[0].now), run[1..])
  }

  function EndOf(run: seq<TimedEvent>, t: Time): Time {
    if run == [] then t else run[|run| - 1].now
  }

  /** Admission is exact, over any interleaving of creates, job steps and clean-up: the
      active caps hold per user and in total, each counter of the current window equals
      the creations committed in it and stays within its limit. */
  lemma {:induction false} AdmissionIsExact(l: Limits, db: Db, run: seq<TimedEvent>, t: Time)
    requires DbOk(l, db, t) && HistoryIsOk(l, db, run, t)
    ensures DbOk(l, After(l, db, run), EndOf(run, t))
    decreases |run|
  {
    if run != [] {
      var db', now := Next(l, db, run[0].event, run[0].now), run[0].now;
      EventKeeps(l, db, run[0].event, t, now);
      AdmissionIsExact(l, db', run[1..], now);
      assert EndOf(run, t) == EndOf(run[1..], now);
    }
  }

  lemma NextKeepsOwner(l: Limits, db: Db, e: DbEvent, t: Time, now: Time, k: (Id, nat))
    requires DbOk(l, db, t) && EventOk(db, e, t, now) && k in db.owners
    ensures var db' := Next(l, db, e, now);
      && k in db'.owners && db'.owners[k] == db.owners[k] && db.owners[k] in db'.jobs
      && db'.jobs[db.owners[k]].row.request == db.jobs[db.owners[k]].row.request
  {
    if e.Stepping? && e.id in db.jobs {
      StepKeepsTerminal(db.jobs[e.id], e.action, now);
    }
  }

  /** Once accepted, a (user, key) pair answers every later create, after any run, with
      the same execution if the payload is the same and with a conflict if it is not; and
      such a create, like any rejected one, changes nothing. */
  lemma {:induction false} RetriesReturnTheSameJob(l: Limits, db: Db, run: seq<TimedEvent>, t: Time, c: Create, now: Time)
    requires DbOk(l, db, t) && HistoryIsOk(l, db, run, t) && l.enabled && (c.user, c.key) in db.owners
    ensures var db' := After(l, db, run);
      var id := db.owners[(c.user, c.key)];
      && id in db'.jobs && db'.jobs[id].row.request == db.jobs[id].row.request
      && Answer(l, db', c, now) ==
           (if db.jobs[id].row.request.payloadHash == c.hash then Outcome.Accepted(id, db'.jobs[id].row.state)
            else Rejected(IdempotencyConflict))
      && AfterCreate(l, db', c, now) == db'
    decreases |run|
  {
    if run != [] {
      EventKeeps(l, db, run[0].event, t, run[0].now);
      NextKeepsOwner(l, db, run[0].event, t, run[0].now, (c.user, c.key));
      RetriesReturnTheSameJob(l, Next(l, db, run[0].event, run[0].now), run[1..], run[0].now, c, now);
    }
  }

  // ------------------------------------------------------------------
  // When a create is accepted

  /** Jobs count as active until they end. */
  lemma UnfinishedMeaning(jobs: Table, user: Id, id: Id)
    ensures id in Unfinished(jobs) <==> id in jobs && jobs[id].row.state in {Queued, Compiling, Running}
    ensures id in UnfinishedOf(jobs, user) <==>
              id in jobs && jobs[id].row.state in {Queued, Compiling, Running} && jobs[id].row.request.userId == user
  {
    if id in jobs {
      TerminalStates(jobs[id].row.state);
    }
  }

  /** Windows are whole minutes. */
  lemma WindowsAreMinutes(t: Time)
    ensures WindowOf(t) * 60000 <= t < (WindowOf(t) + 1) * 60000
    ensures WindowEnd(WindowOf(t)) == (WindowOf(t) + 1) * 60000
  {
  }

  /** The three quotas of a create: everybody's, its address's and its user's, each in the
      current minute and by the creations really committed in it. */
  predicate WithinQuotas(l: Limits, db: Db, c: Create, now: Time) {
    var w := WindowOf(now);
    && Charged(db.reservations, RateKey(w, GlobalScope)) < l.globalRate
    && Charged(db.reservations, RateKey(w, IpScope(c.ip))) < l.ipRate
    && Charged(db.reservations, RateKey(w, UserScope(c.user))) < l.userRate
  }

  lemma CountersTellQuota(l: Limits, db: Db, k: RateKey, t: Time, now: Time)
    requires QuotaOk(l, db, k, t) && t <= now && k.window == WindowOf(now)
    ensures CountOf(db.counters, k) == Charged(db.reservations, k)
  {
    WindowsAreMinutes(now);
  }

  lemma RoomIsQuota(l: Limits, db: Db, c: Create, t: Time, now: Time)
    requires DbOk(l, db, t) && t <= now
    ensures HasRoom(l, db.counters, Keys(c.user, c.ip, now)) <==> WithinQuotas(l, db, c, now)
  {
    var w := WindowOf(now);
    var keys := Keys(c.user, c.ip, now);
    assert keys == [RateKey(w, GlobalScope), RateKey(w, IpScope(c.ip)), RateKey(w, UserScope(c.user))];
    CountersTellQuota(l, db, keys[0], t, now);
    CountersTellQuota(l, db, keys[1], t, now);
    CountersTellQuota(l, db, keys[2], t, now);
    assert keys[0].scope == GlobalScope && keys[1].scope == IpScope(c.ip) && keys[2].scope == UserScope(c.user);
  }

  /** Acceptance is exact. A create under a new key is accepted if and only if the service is
      enabled, its user and everybody together have fewer active jobs than their caps, the
      look-up resolved and all three quotas have room; each refusal happens exactly when it is
      the first of these to fail. */
  lemma AcceptanceIsExact(l: Limits, db: Db, c: Create, t: Time, now: Time)
    requires DbOk(l, db, t) && t <= now && (c.user, c.key) !in db.owners
    ensures var answer := Answer(l, db, c, now);
      var userFull, allFull := |UnfinishedOf(db.jobs, c.user)| >= l.perUser, |Unfinished(db.jobs)| >= l.global;
      && (answer.Accepted? <==> l.enabled && !userFull && c.lookup.Resolved? && !allFull && WithinQuotas(l, db, c, now))
      && (answer.Accepted? ==> answer == Outcome.Accepted(c.newId, Queued) && Inserts(l, db, c, now))
      && (answer == Rejected(ExecutionsDisabled) <==> !l.enabled)
      && (answer == Rejected(ActiveJobLimit) <==> l.enabled && userFull)
      && (answer.Rejected? && answer.error.Unavailable? <==> l.enabled && !userFull && c.lookup.Refused?)
      && (answer.Rejected? && answer.error.Unavailable? ==> answer.error.reason == c.lookup.reason)
      && (answer == Rejected(ExecutionCapacity) <==> l.enabled && !userFull && c.lookup.Resolved? && allFull)
      && (answer == Rejected(ExecutionRateLimit) <==>
            l.enabled && !userFull && c.lookup.Resolved? && !allFull && !WithinQuotas(l, db, c, now))
  {
    RoomIsQuota(l, db, c, t, now);
  }

  /** A disabled service refuses known keys as well, and no refusal changes anything. */
  lemma RefusalChangesNothing(l: Limits, db: Db, c: Create, now: Time)
    ensures !l.enabled ==> Answer(l, db, c, now) == Rejected(ExecutionsDisabled)
    ensures Answer(l, db, c, now).Rejected? ==> AfterCreate(l, db, c, now) == db
  {
  }

  /** A new job is durable at once: it is filed under its key, queued, and has its intent; its
      request is the one made, with its deadline, and no other job is touched. */
  lemma AcceptedIsDurable(l: Limits, db: Db, c: Create, now: Time)
    requires Inserts(l, db, c, now)
    ensures var db' := AfterCreate(l, db, c, now);
      && db'.owners == db.owners[(c.user, c.key) := c.newId] && c.newId in db'.jobs
      && (forall id <- db.jobs :: id != c.newId ==> id in db'.jobs && db'.jobs[id] == db.jobs[id])
      && db'.jobs.Keys == db.jobs.Keys + {c.newId}
      && var job := db'.jobs[c.newId];
      && job.row.state == Queued && job.row.attempt == 0
      && job.row.request == Request(c.newId, c.user, c.mode, c.lookup.publicCases, c.hash, c.key, now, now + l.queueTtlMs)
      && job.intents == map[IntentKey(ExecutionCreated, 0) := NewIntent(now)]
      && job.notifications == []
      && db'.reservations == db.reservations + [Reservation(now, c.ip, c.user)]
  {
  }

  /** The caps and quotas themselves, over any interleaving. */
  lemma CapsHold(l: Limits, db: Db, run: seq<TimedEvent>, t: Time, user: Id, ip: nat, window: int)
    requires DbOk(l, db, t) && HistoryIsOk(l, db, run, t)
    ensures var end := After(l, db, run);
      && |Unfinished(end.jobs)| <= l.global && |UnfinishedOf(end.jobs, user)| <= l.perUser
      && Charged(end.reservations, RateKey(window, GlobalScope)) <= l.globalRate
      && Charged(end.reservations, RateKey(window, IpScope(ip))) <= l.ipRate
      && Charged(end.reservations, RateKey(window, UserScope(user))) <= l.userRate
  {
    AdmissionIsExact(l, db, run, t);
    var end, now := After(l, db, run), EndOf(run, t);
    assert QuotaOk(l, end, RateKey(window, GlobalScope), now);
    assert QuotaOk(l, end, RateKey(window, IpScope(ip)), now);
    assert QuotaOk(l, end, RateKey(window, UserScope(user)), now);
  }

  /** Clean-up drops exactly the counters whose minute is over. */
  lemma CleanUpIsExact(counters: map<RateKey, Counter>, now: Time, k: RateKey)
    ensures k in CleanUp(counters, now) <==> k in counters && now < counters[k].expiresAt
    ensures k in CleanUp(counters, now) ==> CleanUp(counters, now)[k] == counters[k]
  {
  }

  // ------------------------------------------------------------------
  // The transaction

  /** `reserve` and `create` as they run: checks, then three upserts, rolled back together
      when one of them exceeds its limit. */
  class Executions {
    var db: Db
    const limits: Limits

    constructor (limits: Limits)
      ensures db == Db(map[], map[], map[], []) && this.limits == limits
    {
      this.limits := limits;
      db := Db(map[], map[], map[], []);
    }

    method Reserve(user: Id, ip: nat, now: Time) returns (counters: Option<map<RateKey, Counter>>)
      ensures counters == if HasRoom(limits, db.counters, Keys(user, ip, now))
                          then Some(BumpAll(db.counters, Keys(user, ip, now))) else None
    {
      var keys := Keys(user, ip, now);
      var pending := db.counters;
      for i := 0 to |keys|
        invariant pending == BumpAll(db.counters, keys[..i])
        invariant forall j :: 0 <= j < i ==> CountOf(db.counters, keys[j]) < Limit(limits, keys[j].scope)
        invariant forall j :: i <= j < |keys| ==> CountOf(pending, keys[j]) == CountOf(db.counters, keys[j])
      {
        assert keys[..i + 1][..i] == keys[..i];
        pending := Bump(pending, keys[i]);
        if pending[keys[i]].count > Limit(limits, keys[i].scope) {
          return None;
        }
      }
      assert keys[..|keys|] == keys;
      return Some(pending);
    }

    method Submit(c: Create, now: Time) returns (outcome: Outcome)
      modifies this
      ensures outcome == Answer(limits, old(db), c, now)
      ensures db == AfterCreate(limits, old(db), c, now)
    {
      if !limits.enabled {
        return Rejected(ExecutionsDisabled);
      }
      if (c.user, c.key) in db.owners && db.owners[(c.user, c.key)] in db.jobs {
        var previous := db.jobs[db.owners[(c.user, c.key)]].row;
        if previous.request.payloadHash != c.hash {
          return Rejected(IdempotencyConflict);
        }
        return Outcome.Accepted(db.owners[(c.user, c.key)], previous.state);
      }
      if |UnfinishedOf(db.jobs, c.user)| >= limits.perUser {
        return Rejected(ActiveJobLimit);
      }
      if c.lookup.Refused? {
        return Rejected(Unavailable(c.lookup.reason));
      }
      if |Unfinished(db.jobs)| >= limits.global {
        return Rejected(ExecutionCapacity);
      }
      var counters := Reserve(c.user, c.ip, now);
      if counters.None? {
        return Rejected(ExecutionRateLimit);
      }
      db := Db(db.jobs[c.newId := NewJob(RequestOf(limits, c, now), c.bytes, now)], db.owners[(c.user, c.key) := c.newId],
               counters.value, db.reservations + [Reservation(now, c.ip, c.user)]);
      return Outcome.Accepted(c.newId, Queued);
    }
  }
}
