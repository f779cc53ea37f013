/** Any number of dispatchers working on one intent while its job moves on
    (queue.ts:19-44). Each dispatcher claims, looks at the job, enqueues or skips, and then
    acknowledges or backs off, at its own pace. */
module Dispatcher {
  import opened Contracts
  import opened EventLog
  import opened Rows
  import opened SqlLifecycle
  import opened Outbox
  import opened Jobs
  import opened JobTheorems

  /** A claim and its validity period [start, end): cut short when its holder lets go. */
  datatype Span = Span(token: Token, start: Time, end: Time)

  /** The trace of one intent: claims granted, dispatchers whose look at the job succeeded,
      and for each dispatcher that put the job on the queue, when it last did. */
  datatype Slip = Slip(claims: seq<Span>, cleared: set<Token>, enqueuedAt: map<Token, Time>)

  datatype Board = Board(w: World, slip: Slip)

  datatype Move =
    | Other(action: Action)
    | Tick(token: Token)
    | Look(token: Token)
    | Ack(token: Token)
    | GiveUp(token: Token)

  predicate Claimed(claims: seq<Span>, token: Token) {
    exists i :: 0 <= i < |claims| && claims[i].token == token
  }

  /** Program order of a dispatcher: claim, then look, then acknowledge; the catch branch
      is reached only after a claim. Nothing else dispatches this intent. */
  predicate May(b: Board, k: IntentKey, m: Move, now: Time) {
    && b.w.clock <= now
    && match m
       case Other(a) => Enabled(b.w, a, now) && !(a.Dispatch? && a.key == k)
       case Tick(token) => !Claimed(b.slip.claims, token)
       case Look(token) => Claimed(b.slip.claims, token)
       case Ack(token) => token in b.slip.cleared
       case GiveUp(token) => Claimed(b.slip.claims, token)
  }

  function Release(claims: seq<Span>, now: Time): seq<Span> {
    if claims == [] then claims
    else
      var last := claims[|claims| - 1];
      claims[|claims| - 1 := last.(end := Min(last.end, now))]
  }

  function NextSlip(i: Intent, s: Slip, m: Move, eligible: bool, now: Time): Slip {
    match m
    case Other(_) => s
    case Tick(token) => if Claimable(i, now) then s.(claims := s.claims + [Span(token, now, now + DISPATCH_MS)]) else s
    case Look(token) =>
      s.(cleared := s.cleared + {token}, enqueuedAt := if eligible then s.enqueuedAt[token := now] else s.enqueuedAt)
    case Ack(token) => if HoldsClaim(i, token, now) then s.(claims := Release(s.claims, now)) else s
    case GiveUp(token) => if i.dispatchToken == Some(token) then s.(claims := Release(s.claims, now)) else s
  }

  /** The move as a step of the job; looking at the job is a sweep of nothing. */
  function ActionOf(k: IntentKey, m: Move): Action {
    match m
    case Other(a) => a
    case Tick(token) => Dispatch(k, DispatchClaim(token))
    case Look(_) => SweepEvents({})
    case Ack(token) => Dispatch(k, DispatchAck(token))
    case GiveUp(token) => Dispatch(k, DispatchBackoff(token))
  }

  function Play(b: Board, k: IntentKey, m: Move, now: Time): Board
    requires k in b.w.job.intents
  {
    Board(Step(b.w, ActionOf(k, m), now),
          NextSlip(b.w.job.intents[k], b.slip, m, Eligible(b.w.job.row, k, now), now))
  }

  /** What the move makes of the intent's columns. */
  function NextIntent(i: Intent, m: Move, now: Time): Intent {
    match m
    case Tick(token) => ClaimIntent(i, token, now)
    case Ack(token) => AckIntent(i, token, now)
    case GiveUp(token) => BackoffIntent(i, token, now)
    case _ => i
  }

  // ------------------------------------------------------------------
  // The invariant

  predicate Disjoint(claims: seq<Span>) {
    && (forall i :: 0 <= i < |claims| ==> claims[i].start <= claims[i].end)
    && (forall i, j :: 0 <= i < j < |claims| ==> claims[i].end <= claims[j].start && claims[i].token != claims[j].token)
  }

  /** The intent's columns describe the last claim, or no claim at all. */
  predicate Current(i: Intent, claims: seq<Span>, t: Time) {
    && (i.dispatchToken.Some? <==> i.dispatchExpiresAt.Some?)
    && (i.dispatchToken.Some? ==>
          claims != [] && claims[|claims| - 1].token == i.dispatchToken.value && claims[|claims| - 1].end == i.dispatchExpiresAt.value)
    && (i.dispatchToken.None? && claims != [] ==> claims[|claims| - 1].end <= t)
    && (claims != [] ==> claims[|claims| - 1].start <= t)
    && i.dispatchAttempts == |claims|
  }

  /** Only claimants looked or enqueued, and each enqueued after its claim began. */
  predicate LooksOk(s: Slip, t: Time) {
    && (forall token <- s.cleared :: Claimed(s.claims, token))
    && (forall token <- s.enqueuedAt :: Claimed(s.claims, token) && s.enqueuedAt[token] <= t)
    && (forall i :: 0 <= i < |s.claims| && s.claims[i].token in s.enqueuedAt ==> s.claims[i].start <= s.enqueuedAt[s.claims[i].token])
  }

  /** A published intent was published by its last claimant, and every dispatcher whose look
      let it go on has enqueued the job itself, unless the job no longer needs it. */
  predicate SlipOk(i: Intent, s: Slip, eligible: bool, t: Time) {
    && Disjoint(s.claims) && Current(i, s.claims, t) && LooksOk(s, t)
    && (i.publishedAt.Some? ==> s.claims != [] && s.claims[|s.claims| - 1].token in s.cleared)
    && (eligible ==> s.cleared <= s.enqueuedAt.Keys)
  }

  predicate BoardOk(b: Board, k: IntentKey) {
    && WorldOk(b.w) && k in b.w.job.intents
    && SlipOk(b.w.job.intents[k], b.slip, Eligible(b.w.job.row, k, b.w.clock), b.w.clock)
  }

  const NoSlip := Slip([], {}, map[])

  /** Every intent starts out of every dispatcher's hands. */
  lemma NewIntentOk(w: World, k: IntentKey, t: Time)
    requires WorldOk(w) && k in w.job.intents && w.job.intents[k] == NewIntent(t)
    ensures BoardOk(Board(w, NoSlip), k)
  {
  }

  /** A new job with the intent `create` wrote. */
  function NewBoard(request: Request, bytes: EventSize): Board {
    Board(Start(request, bytes), NoSlip)
  }

  lemma NewBoardOk(request: Request, bytes: EventSize)
    requires request.createdAt < request.queueExpiresAt
    ensures BoardOk(NewBoard(request, bytes), IntentKey(ExecutionCreated, 0))
  {
    StartOk(request, bytes);
    NewIntentOk(Start(request, bytes), IntentKey(ExecutionCreated, 0), request.createdAt);
  }

  /** A job that stopped needing an intent never needs it again. */
  lemma EligibilityNeverReturns(k: IntentKey, row: Row, op: Op, t: Time, now: Time)
    requires RowOk(row, t) && t <= now && IntentOk(k, row, t) && !Eligible(row, k, t)
    ensures !Eligible(Decide(row, op, now).row, k, now)
  {
    TerminalStates(row.state);
    TransitionsFollowTheTable(row, op, t, now);
  }

  /** Store transactions never rewrite an existing intent. */
  lemma CallsLeaveIntentsAlone(w: World, op: Op, now: Time, k: IntentKey)
    requires WorldOk(w) && w.clock <= now && k in w.job.intents
    ensures var job := Commit(w.job, Decide(w.job.row, op, now), now);
      k in job.intents && job.intents[k] == w.job.intents[k]
  {
    InsertsAreNew(w, op, now);
    WriteShape(w.job.row, op, now);
    var write := Decide(w.job.row, op, now).write;
    if write.ResetIntent? {
      RecoverAlwaysInserts(w, op.lease, now);
    }
    assert !write.NoIntent? && write.key == k ==> write.EnsureIntent?;
  }

  /** The job's own steps leave the claim alone; at most they reoffer the intent. */
  lemma OtherLeavesClaim(w: World, k: IntentKey, a: Action, now: Time)
    requires WorldOk(w) && w.clock <= now && k in w.job.intents && !(a.Dispatch? && a.key == k)
    ensures var job := Apply(w.job, a, now);
      && k in job.intents
      && (job.intents[k] == w.job.intents[k] || job.intents[k] == w.job.intents[k].(publishedAt := None))
  {
    if a.Call? {
      CallsLeaveIntentsAlone(w, a.op, now, k);
    }
  }

  lemma OtherEligibility(w: World, k: IntentKey, a: Action, now: Time)
    requires WorldOk(w) && w.clock <= now && k in w.job.intents && Eligible(Apply(w.job, a, now).row, k, now)
    ensures Eligible(w.job.row, k, w.clock)
  {
    if a.Call? {
      InsertsAreNew(w, a.op, now);
      assert IntentOk(k, w.job.row, w.clock);
      if !Eligible(w.job.row, k, w.clock) {
        EligibilityNeverReturns(k, w.job.row, a.op, w.clock, now);
      }
    }
  }

  lemma TickKeepsClaims(i: Intent, claims: seq<Span>, token: Token, t: Time, now: Time)
    requires Disjoint(claims) && Current(i, claims, t) && t <= now && !Claimed(claims, token) && Claimable(i, now)
    ensures var claims' := claims + [Span(token, now, now + DISPATCH_MS)];
      Disjoint(claims') && Current(ClaimIntent(i, token, now), claims', now)
  {
    assert forall j :: 0 <= j < |claims| ==> claims[j].end <= now && claims[j].token != token;
  }

  lemma ReleaseKeepsClaims(i: Intent, claims: seq<Span>, t: Time, now: Time)
    requires Disjoint(claims) && Current(i, claims, t) && t <= now && i.dispatchToken.Some?
    ensures Disjoint(Release(claims, now))
    ensures Current(i.(dispatchToken := None, dispatchExpiresAt := None), Release(claims, now), now)
  {
  }

  /** More claims, or shorter ones, keep what was seen under the earlier ones. */
  lemma LooksStay(s: Slip, claims: seq<Span>, t: Time, now: Time)
    requires LooksOk(s, t) && t <= now && |s.claims| <= |claims|
    requires forall i :: 0 <= i < |s.claims| ==> claims[i].token == s.claims[i].token && claims[i].start == s.claims[i].start
    requires forall i :: |s.claims| <= i < |claims| ==> !Claimed(s.claims, claims[i].token)
    ensures LooksOk(s.(claims := claims), now)
  {
    forall token | Claimed(s.claims, token)
      ensures Claimed(claims, token)
    {
      var n :| 0 <= n < |s.claims| && s.claims[n].token == token;
      assert claims[n].token == token;
    }
  }

  lemma LookKeeps(s: Slip, token: Token, seen: bool, t: Time, now: Time)
    requires LooksOk(s, t) && t <= now && Claimed(s.claims, token)
    requires forall i :: 0 <= i < |s.claims| ==> s.claims[i].start <= now
    ensures LooksOk(s.(cleared := s.cleared + {token}, enqueuedAt := if seen then s.enqueuedAt[token := now] else s.enqueuedAt), now)
  {
  }

  lemma StartsArePast(i: Intent, claims: seq<Span>, t: Time)
    requires Disjoint(claims) && Current(i, claims, t)
    ensures forall j :: 0 <= j < |claims| ==> claims[j].start <= t
  {
    forall j | 0 <= j < |claims|
      ensures claims[j].start <= t
    {
      assert j < |claims| - 1 ==> claims[j].end <= claims[|claims| - 1].start;
    }
  }

  lemma TickKeepsSlip(i: Intent, s: Slip, token: Token, before: bool, after: bool, t: Time, now: Time)
    requires SlipOk(i, s, before, t) && t <= now && (after ==> before) && !Claimed(s.claims, token) && Claimable(i, now)
    ensures SlipOk(ClaimIntent(i, token, now), s.(claims := s.claims + [Span(token, now, now + DISPATCH_MS)]), after, now)
  {
    TickKeepsClaims(i, s.claims, token, t, now);
    LooksStay(s, s.claims + [Span(token, now, now + DISPATCH_MS)], t, now);
  }

  /** Letting a claim go, to publish or to wait. */
  lemma ReleaseKeepsSlip(i: Intent, i': Intent, s: Slip, before: bool, after: bool, t: Time, now: Time)
    requires SlipOk(i, s, before, t) && t <= now && (after ==> before) && i.dispatchToken.Some?
    requires i'.dispatchToken.None? && i'.dispatchExpiresAt.None? && i'.dispatchAttempts == i.dispatchAttempts
    requires i'.publishedAt == i.publishedAt || i.dispatchToken.value in s.cleared
    ensures SlipOk(i', s.(claims := Release(s.claims, now)), after, now)
  {
    ReleaseKeepsClaims(i, s.claims, t, now);
    LooksStay(s, Release(s.claims, now), t, now);
  }

  lemma LookKeepsSlip(i: Intent, s: Slip, token: Token, before: bool, seen: bool, after: bool, t: Time, now: Time)
    requires SlipOk(i, s, before, t) && t <= now && (after ==> before && seen) && Claimed(s.claims, token)
    ensures SlipOk(i, s.(cleared := s.cleared + {token}, enqueuedAt := if seen then s.enqueuedAt[token := now] else s.enqueuedAt), after, now)
  {
    StartsArePast(i, s.claims, t);
    LookKeeps(s, token, seen, t, now);
  }

  lemma WaitKeepsSlip(i: Intent, i': Intent, s: Slip, before: bool, after: bool, t: Time, now: Time)
    requires SlipOk(i, s, before, t) && t <= now && (after ==> before)
    requires i' == i || i' == i.(publishedAt := None)
    ensures SlipOk(i', s, after, now)
  {
    LooksStay(s, s.claims, t, now);
  }

  /** One move on the slip, given what it does to the columns and to the job's need. */
  lemma SlipKeeps(i: Intent, i': Intent, s: Slip, m: Move, before: bool, seen: bool, after: bool, t: Time, now: Time)
    requires SlipOk(i, s, before, t) && t <= now && (after ==> before && seen)
    requires m.Tick? ==> !Claimed(s.claims, m.token)
    requires m.Look? || m.GiveUp? ==> Claimed(s.claims, m.token)
    requires m.Ack? ==> m.token in s.cleared
    requires i' == NextIntent(i, m, now) || (m.Other? && i' == i.(publishedAt := None))
    ensures SlipOk(i', NextSlip(i, s, m, seen, now), after, now)
  {
    if m.Tick? && Claimable(i, now) {
      TickKeepsSlip(i, s, m.token, before, after, t, now);
    } else if m.Look? {
      LookKeepsSlip(i, s, m.token, before, seen, after, t, now);
    } else if (m.Ack? && HoldsClaim(i, m.token, now)) || (m.GiveUp? && i.dispatchToken == Some(m.token)) {
      ReleaseKeepsSlip(i, i', s, before, after, t, now);
    } else {
      WaitKeepsSlip(i, i', s, before, after, t, now);
    }
  }

  /** How a dispatcher's own move shows in the job. */
  lemma OwnMoveShows(job: Job, k: IntentKey, m: Move, now: Time)
    requires k in job.intents && !m.Other?
    ensures var job' := Apply(job, ActionOf(k, m), now);
      job'.row == job.row && k in job'.intents && job'.intents[k] == NextIntent(job.intents[k], m, now)
  {
  }

  /** How a move shows in the job. */
  lemma MoveShows(b: Board, k: IntentKey, m: Move, now: Time)
    requires BoardOk(b, k) && May(b, k, m, now)
    ensures var job' := Apply(b.w.job, ActionOf(k, m), now);
      var i := b.w.job.intents[k];
      && k in job'.intents
      && (job'.intents[k] == NextIntent(i, m, now) || (m.Other? && job'.intents[k] == i.(publishedAt := None)))
      && (Eligible(job'.row, k, now) ==> Eligible(b.w.job.row, k, b.w.clock))
      && (!m.Other? ==> job'.row == b.w.job.row)
  {
    var a := ActionOf(k, m);
    if m.Other? {
      OtherLeavesClaim(b.w, k, a, now);
    } else {
      OwnMoveShows(b.w.job, k, m, now);
    }
    if Eligible(Apply(b.w.job, a, now).row, k, now) {
      OtherEligibility(b.w, k, a, now);
    }
  }

  lemma WorldStays(b: Board, k: IntentKey, m: Move, now: Time)
    requires WorldOk(b.w) && May(b, k, m, now)
    ensures WorldOk(Step(b.w, ActionOf(k, m), now))
  {
    StepKeeps(b.w, ActionOf(k, m), now);
  }

  /** Every move of every dispatcher, and every step of the job, keeps the invariant. */
  lemma PlayKeeps(b: Board, k: IntentKey, m: Move, now: Time)
    requires BoardOk(b, k) && May(b, k, m, now)
    ensures BoardOk(Play(b, k, m, now), k)
  {
    WorldStays(b, k, m, now);
    MoveShows(b, k, m, now);
    StepShows(b.w, ActionOf(k, m), now);
    SlipStep(b, Play(b, k, m, now), k, m, now);
  }

  lemma SlipStep(b: Board, b': Board, k: IntentKey, m: Move, now: Time)
    requires k in b.w.job.intents && k in b'.w.job.intents && b.w.clock <= now && b'.w.clock == now
    requires SlipOk(b.w.job.intents[k], b.slip, Eligible(b.w.job.row, k, b.w.clock), b.w.clock)
    requires May(b, k, m, now)
    requires b'.slip == NextSlip(b.w.job.intents[k], b.slip, m, Eligible(b.w.job.row, k, now), now)
    requires b'.w.job.intents[k] == NextIntent(b.w.job.intents[k], m, now)
             || (m.Other? && b'.w.job.intents[k] == b.w.job.intents[k].(publishedAt := None))
    requires Eligible(b'.w.job.row, k, now) ==> Eligible(b.w.job.row, k, b.w.clock)
    requires !m.Other? ==> b'.w.job.row == b.w.job.row
    ensures SlipOk(b'.w.job.intents[k], b'.slip, Eligible(b'.w.job.row, k, now), now)
  {
    var seen := if m.Other? then Eligible(b'.w.job.row, k, now) else Eligible(b.w.job.row, k, now);
    SlipKeeps(b.w.job.intents[k], b'.w.job.intents[k], b.slip, m, Eligible(b.w.job.row, k, b.w.clock), seen,
              Eligible(b'.w.job.row, k, now), b.w.clock, now);
  }

  // ------------------------------------------------------------------
  // Runs

  datatype TimedMove = TimedMove(move: Move, now: Time)

  predicate GameOk(b: Board, k: IntentKey, game: seq<TimedMove>)
    decreases |game|
  {
    && k in b.w.job.intents
    && (game == [] || (&& May(b, k, game[0].move, game[0].now)
                       && GameOk(Play(b, k, game[0].move, game[0].now), k, game[1..])))
  }

  function Game(b: Board, k: IntentKey, game: seq<TimedMove>): (r: Board)
    requires GameOk(b, k, game)
    ensures k in r.w.job.intents
    decreases |game|
  {
    if game == [] then b else Game(Play(b, k, game[0].move, game[0].now), k, game[1..])
  }

  /** A published intent that the job still needs was put on the queue by the dispatcher that
      published it, during its claim; a reoffer ends that, for the next claim begins later. */
  predicate ReallyEnqueued(s: Slip) {
    && s.claims != []
    && var last := s.claims[|s.claims| - 1];
    && last.token in s.enqueuedAt && last.start <= s.enqueuedAt[last.token]
  }

  /** Dispatcher fencing over any game: claims never overlap in time, and a published
      intent that the job still needs has really been put on the queue under the last one. */
  lemma {:induction false} DispatchIsFenced(b: Board, k: IntentKey, game: seq<TimedMove>)
    requires BoardOk(b, k) && GameOk(b, k, game)
    ensures var b' := Game(b, k, game);
      && BoardOk(b', k) && Disjoint(b'.slip.claims)
      && (b'.w.job.intents[k].publishedAt.Some? && Eligible(b'.w.job.row, k, b'.w.clock) ==> ReallyEnqueued(b'.slip))
    decreases |game|
  {
    if game != [] {
      PlayKeeps(b, k, game[0].move, game[0].now);
      DispatchIsFenced(Play(b, k, game[0].move, game[0].now), k, game[1..]);
    }
  }

  lemma StillEligible(row: Row, k: IntentKey, t: Time, now: Time)
    requires t <= now && Eligible(row, k, now)
    ensures Eligible(row, k, t)
  {
  }

  lemma PublishNeedsClaim(i: Intent, s: Slip, m: Move, eligible: bool, t: Time, now: Time)
    requires SlipOk(i, s, eligible, t) && i.publishedAt.None? && (m.Ack? ==> m.token in s.cleared)
    requires NextIntent(i, m, now).publishedAt.Some? && t <= now
    ensures m.Ack? && s.claims != []
    ensures var last := s.claims[|s.claims| - 1];
      && last.token == m.token && last.start <= now < last.end
      && (eligible ==> m.token in s.enqueuedAt && last.start <= s.enqueuedAt[m.token] <= now)
  {
    assert HoldsClaim(i, m.token, now);
  }

  /** `publishedAt` is set only by the holder of the current unexpired claim, after its own
      look at the job; and if the job is still eligible, that holder has enqueued it since
      its claim began. */
  lemma OnlyTheHolderPublishes(b: Board, k: IntentKey, m: Move, now: Time)
    requires BoardOk(b, k) && May(b, k, m, now)
    requires b.w.job.intents[k].publishedAt.None?
    ensures k in Play(b, k, m, now).w.job.intents
    ensures Play(b, k, m, now).w.job.intents[k].publishedAt.Some? ==>
              && m.Ack? && m.token in b.slip.cleared && b.slip.claims != []
              && var last := b.slip.claims[|b.slip.claims| - 1];
              && last.token == m.token && last.start <= now < last.end
              && (Eligible(b.w.job.row, k, now) ==>
                    m.token in b.slip.enqueuedAt && last.start <= b.slip.enqueuedAt[m.token] <= now)
  {
    MoveShows(b, k, m, now);
    StepShows(b.w, ActionOf(k, m), now);
    if Play(b, k, m, now).w.job.intents[k].publishedAt.Some? {
      PublishNeedsClaim(b.w.job.intents[k], b.slip, m, Eligible(b.w.job.row, k, b.w.clock), b.w.clock, now);
      if Eligible(b.w.job.row, k, now) {
        StillEligible(b.w.job.row, k, b.w.clock, now);
      }
    }
  }

  lemma SlipFences(i: Intent, i': Intent, s: Slip, m: Move, seen: bool, now: Time, token: Token)
    requires i' == NextIntent(i, m, now) || (m.Other? && i' == i.(publishedAt := None))
    requires m.Tick? ==> !Claimed(s.claims, m.token)
    requires Claimed(s.claims, token) && i.dispatchToken != Some(token)
    ensures Claimed(NextSlip(i, s, m, seen, now).claims, token) && i'.dispatchToken != Some(token)
  {
    var n :| 0 <= n < |s.claims| && s.claims[n].token == token;
    assert NextSlip(i, s, m, seen, now).claims[n].token == token;
  }

  /** A dispatcher that released its claim or lost it to another can never write again:
      after any game its acknowledgement and its backoff leave the intent as it is. */
  lemma {:induction false} StaleDispatcherIsSilent(b: Board, k: IntentKey, game: seq<TimedMove>, token: Token, now: Time)
    requires BoardOk(b, k) && GameOk(b, k, game)
    requires Claimed(b.slip.claims, token) && b.w.job.intents[k].dispatchToken != Some(token)
    ensures var i := Game(b, k, game).w.job.intents[k];
      AckIntent(i, token, now) == i && BackoffIntent(i, token, now) == i
    decreases |game|
  {
    if game != [] {
      var m, at := game[0].move, game[0].now;
      var b' := Play(b, k, m, at);
      MoveShows(b, k, m, at);
      SlipFences(b.w.job.intents[k], b'.w.job.intents[k], b.slip, m, Eligible(b.w.job.row, k, at), at, token);
      PlayKeeps(b, k, m, at);
      StaleDispatcherIsSilent(b', k, game[1..], token, now);
    }
  }

  /** The catch branch does not test the claim's expiry, so a dispatcher whose claim has
      merely run out still writes: its backoff is silent exactly when the token has been
      released or taken over. */
  lemma BackoffNeedsOnlyTheToken(i: Intent, token: Token, now: Time)
    requires i.dispatchToken.Some? <==> i.dispatchExpiresAt.Some?
    ensures BackoffIntent(i, token, now) == i <==> i.dispatchToken != Some(token)
    ensures AckIntent(i, token, now) == i <==> !HoldsClaim(i, token, now)
    ensures !HoldsClaim(i, token, now) ==>
              (BackoffIntent(i, token, now) != i <==> i.dispatchToken == Some(token) && i.dispatchExpiresAt.value <= now)
  {
    assert BackoffIntent(i, token, now).dispatchToken != Some(token);
    assert HoldsClaim(i, token, now) ==> AckIntent(i, token, now).dispatchToken.None?;
  }

  /** A game from any new job in which this happens: a dispatcher claims the job's first
      intent, nobody takes it over, and ten seconds later its acknowledgement would be
      refused but its backoff is written. */
  lemma ExpiredBackoffStillWrites(request: Request, bytes: EventSize, token: Token)
    requires request.createdAt < request.queueExpiresAt
    ensures var k, t := IntentKey(ExecutionCreated, 0), request.createdAt;
      var game := [TimedMove(Tick(token), t), TimedMove(GiveUp(token), t + DISPATCH_MS)];
      var claimed := ClaimIntent(NewIntent(t), token, t);
      && GameOk(NewBoard(request, bytes), k, game)
      && !HoldsClaim(claimed, token, t + DISPATCH_MS) && AckIntent(claimed, token, t + DISPATCH_MS) == claimed
      && Game(NewBoard(request, bytes), k, game).w.job.intents[k] == Intent(None, None, None, t + DISPATCH_MS + 2000, 1)
  {
    var k, t := IntentKey(ExecutionCreated, 0), request.createdAt;
    var b := NewBoard(request, bytes);
    var b1 := Play(b, k, Tick(token), t);
    var b2 := Play(b1, k, GiveUp(token), t + DISPATCH_MS);
    assert b1.slip.claims[0].token == token;
    assert b1.w.job.intents[k] == ClaimIntent(NewIntent(t), token, t);
    var game := [TimedMove(Tick(token), t), TimedMove(GiveUp(token), t + DISPATCH_MS)];
    assert game[1..] == [TimedMove(GiveUp(token), t + DISPATCH_MS)];
    assert game[1..][1..] == [];
    assert GameOk(b2, k, []);
    assert GameOk(b1, k, game[1..]) && Game(b1, k, game[1..]) == b2;
  }

  /** A dispatcher can always go on: look or give up once it has claimed, acknowledge once it
      has looked; and only so. */
  lemma DispatcherGoesOn(b: Board, k: IntentKey, token: Token, now: Time)
    requires BoardOk(b, k) && b.w.clock <= now
    ensures May(b, k, Tick(token), now) <==> !Claimed(b.slip.claims, token)
    ensures May(b, k, Look(token), now) <==> Claimed(b.slip.claims, token)
    ensures May(b, k, GiveUp(token), now) <==> Claimed(b.slip.claims, token)
    ensures May(b, k, Look(token), now) ==> token in Play(b, k, Look(token), now).slip.cleared
    ensures token in b.slip.cleared ==> May(b, k, Ack(token), now)
    ensures May(b, k, Tick(token), now) && Claimable(b.w.job.intents[k], now) ==>
              Claimed(Play(b, k, Tick(token), now).slip.claims, token)
  {
    if Claimable(b.w.job.intents[k], now) && !Claimed(b.slip.claims, token) {
      var claims := Play(b, k, Tick(token), now).slip.claims;
      assert claims[|claims| - 1].token == token;
    }
  }

  // ------------------------------------------------------------------
  // The dispatcher's writes

  /** The intents as the dispatcher's statements update them. */
  class OutboxTable {
    var intents: map<IntentKey, Intent>

    constructor (intents: map<IntentKey, Intent>)
      ensures this.intents == intents
    {
      this.intents := intents;
    }

    /** The claiming transaction of `tick` over the selected rows: each is re-tested as it
        is updated, and only the rows really claimed are handed on. */
    method ClaimDue(due: seq<IntentKey>, token: Token, now: Time) returns (claimed: seq<IntentKey>)
      requires forall i, j :: 0 <= i < j < |due| ==> due[i] != due[j]
      modifies this
      ensures intents.Keys == old(intents).Keys
      ensures forall k <- intents :: intents[k] == if k in due then ClaimIntent(old(intents)[k], token, now) else old(intents)[k]
      ensures forall k :: k in claimed <==> k in due && k in old(intents) && Claimable(old(intents)[k], now)
    {
      claimed := [];
      for i := 0 to |due|
        invariant intents.Keys == old(intents).Keys
        invariant forall k <- intents :: intents[k] == if k in due[..i] then ClaimIntent(old(intents)[k], token, now) else old(intents)[k]
        invariant forall k :: k in claimed <==> k in due[..i] && k in old(intents) && Claimable(old(intents)[k], now)
      {
        var k := due[i];
        assert k !in due[..i];
        assert due[..i + 1] == due[..i] + [k];
        if k in intents && Claimable(intents[k], now) {
          intents := intents[k := ClaimIntent(intents[k], token, now)];
          claimed := claimed + [k];
        }
      }
      assert due[..|due|] == due;
    }

    /** After the look at the job: acknowledge, or back off when enqueueing threw. */
    method Settle(k: IntentKey, token: Token, threw: bool, now: Time)
      requires k in intents
      modifies this
      ensures intents == old(intents)[k := if threw then BackoffIntent(old(intents)[k], token, now) else AckIntent(old(intents)[k], token, now)]
    {
      var i := intents[k];
      if !threw {
        if i.dispatchToken == Some(token) && i.dispatchExpiresAt.Some? && i.dispatchExpiresAt.value > now {
          intents := intents[k := i.(publishedAt := Some(now), dispatchToken := None, dispatchExpiresAt := None)];
        }
      } else if i.dispatchToken == Some(token) {
        intents := intents[k := i.(dispatchToken := None, dispatchExpiresAt := None, nextDispatchAt := now + Backoff(i.dispatchAttempts))];
      }
    }
  }
}
