/** Delivery of one execution to one socket (realtime.ts): polls and subscribe commands
    that exclude each other, interleaved with any steps of the job. */
module Realtime {
  import opened Contracts
  import opened EventLog
  import opened Jobs
  import opened JobTheorems
  import opened Replay

  datatype Cursor = Cursor(attempt: nat, after: nat)

  datatype Message =
    | Acked(ack: Replayed)
    | Sync(snapshot: Snapshot)
    | Deliver(event: Event)

  function CursorOf(s: Snapshot): Cursor {
    Cursor(s.attempt, s.lastSequence)
  }

  /** Where a client that applied this message stands. */
  function PositionOf(m: Message): Cursor {
    match m
    case Acked(r) => CursorOf(r.snapshot)
    case Sync(s) => CursorOf(s)
    case Deliver(e) => Cursor(e.attempt, e.sequence)
  }

  predicate Before(a: Cursor, b: Cursor) {
    a.attempt < b.attempt || (a.attempt == b.attempt && a.after < b.after)
  }

  /** What one poll emits for one subscription. */
  function Emitted(r: Replayed): seq<Message> {
    if r.available then seq(|r.events|, i requires 0 <= i < |r.events| => Deliver(r.events[i])) else [Sync(r.snapshot)]
  }

  /** A replay read by a poll, not yet emitted, and the cursor it was read with. */
  datatype Read = Read(cursor: Cursor, result: Replayed)

  datatype Feed = Feed(
    w: World, cursor: Option<Cursor>, busy: bool, polling: bool,
    reading: Option<Read>, acking: Option<Replayed>, sent: seq<Message>)

  /** One indivisible piece of the event loop. A poll and a subscribe each read in one
      transaction and continue later; `SubscribeRead` waits for `client.polling`. */
  datatype Turn =
    | JobTurn(action: Action)
    | PollBegin
    | PollRead
    | PollEmit
    | PollEnd
    | SubscribeBegin
    | SubscribeRead(attempt: nat, after: nat)
    | SubscribeReply
    | SubscribeAbort
    | Unsubscribe

  predicate MayTurn(f: Feed, turn: Turn, now: Time) {
    && f.w.clock <= now
    && match turn
       case JobTurn(a) => Enabled(f.w, a, now)
       case PollBegin => !f.busy && !f.polling
       case PollRead => f.polling && f.reading.None? && f.cursor.Some?
       case PollEmit => f.reading.Some?
       case PollEnd => f.polling && f.reading.None?
       case SubscribeBegin => !f.busy
       case SubscribeRead(_, _) => f.busy && !f.polling && f.acking.None?
       case SubscribeReply => f.acking.Some?
       case SubscribeAbort => f.busy && f.acking.None?
       case Unsubscribe => true
  }

  function Reader(f: Feed, c: Cursor, now: Time): Option<Replayed> {
    ReplayJob(f.w.job, f.w.job.row.request.userId, c.attempt, c.after, now)
  }

  function TakeTurn(f: Feed, turn: Turn, now: Time): Feed
    requires MayTurn(f, turn, now)
  {
    match turn
    case JobTurn(a) => f.(w := Step(f.w, a, now))
    case PollBegin => f.(polling := true)
    case PollRead => f.(reading := match Reader(f, f.cursor.value, now) case Some(r) => Some(Read(f.cursor.value, r)) case None => None)
    case PollEmit =>
      var r := f.reading.value.result;
      f.(sent := f.sent + Emitted(r), reading := None, cursor := if f.cursor.Some? then Some(CursorOf(r.snapshot)) else None)
    case PollEnd => f.(polling := false)
    case SubscribeBegin => f.(busy := true)
    case SubscribeRead(attempt, after) => f.(acking := Reader(f, Cursor(attempt, after), now))
    case SubscribeReply =>
      f.(sent := f.sent + [Acked(f.acking.value)], cursor := Some(CursorOf(f.acking.value.snapshot)), acking := None, busy := false)
    case SubscribeAbort => f.(busy := false)
    case Unsubscribe => f.(cursor := None)
  }

  /** Which flags each turn sets and clears, and that it changes nothing else. */
  lemma TurnsAreExact(f: Feed, turn: Turn, now: Time)
    requires MayTurn(f, turn, now)
    ensures var g := TakeTurn(f, turn, now);
      && (turn.PollBegin? ==> g == f.(polling := g.polling) && g.polling)
      && (turn.PollEnd? ==> g == f.(polling := g.polling) && !g.polling)
      && (turn.SubscribeBegin? ==> g == f.(busy := g.busy) && g.busy)
      && (turn.SubscribeAbort? ==> g == f.(busy := g.busy) && !g.busy)
      && (turn.Unsubscribe? ==> g == f.(cursor := g.cursor) && g.cursor.None?)
      && (turn.JobTurn? ==> g == f.(w := g.w))
      && (turn.PollRead? ==> g == f.(reading := g.reading))
      && (turn.SubscribeRead? ==> g == f.(acking := g.acking))
      && (turn.PollEmit? ==> g == f.(sent := g.sent, reading := g.reading, cursor := g.cursor) && g.reading.None?
                             && (g.cursor.Some? <==> f.cursor.Some?))
      && (turn.SubscribeReply? ==>
            && g == f.(sent := g.sent, cursor := g.cursor, acking := g.acking, busy := g.busy)
            && g.acking.None? && !g.busy && g.cursor.Some?
            && g.sent == f.sent + [Acked(f.acking.value)])
  {
  }

  /** A poll emits exactly the replayed events, in order, or exactly one sync when there is a
      gap. */
  lemma EmissionIsExact(r: Replayed)
    ensures r.available ==> |Emitted(r)| == |r.events| && forall i :: 0 <= i < |r.events| ==> Emitted(r)[i] == Deliver(r.events[i])
    ensures !r.available ==> Emitted(r) == [Sync(r.snapshot)]
  {
  }

  // ------------------------------------------------------------------
  // The stream

  /** The event is the one the job's full history holds at that place. */
  predicate Genuine(w: World, e: Event) {
    && e.attempt <= |w.past| && 1 <= e.sequence <= |HistoryOf(w, e.attempt)|
    && e == HistoryOf(w, e.attempt)[e.sequence - 1].payload
  }

  /** Message `m` may follow a client standing at `at`: an event only as the very next one
      of the same attempt, a sync only forward. */
  predicate Follows(w: World, at: Cursor, m: Message) {
    match m
    case Deliver(e) => e.attempt == at.attempt && e.sequence == at.after + 1 && Genuine(w, e)
    case Sync(s) => Before(at, CursorOf(s))
    case Acked(_) => true
  }

  predicate StreamOk(w: World, sent: seq<Message>) {
    forall i :: 0 <= i < |sent| ==> LinkOk(w, sent, i)
  }

  /** What a read still to be emitted promises. */
  predicate ReadOk(w: World, at: Cursor, r: Replayed) {
    && (r.available ==>
          && CursorOf(r.snapshot) == Cursor(at.attempt, at.after + |r.events|)
          && forall i :: 0 <= i < |r.events| ==>
               r.events[i].attempt == at.attempt && r.events[i].sequence == at.after + i + 1 && Genuine(w, r.events[i]))
    && (!r.available ==> Before(at, CursorOf(r.snapshot)))
  }

  /** The job has reached this position. */
  predicate Reached(w: World, c: Cursor) {
    c.attempt < |w.past| || (c.attempt == |w.past| && c.after <= |w.current|)
  }

  function Standing(sent: seq<Message>): Cursor
    requires sent != []
  {
    PositionOf(sent[|sent| - 1])
  }

  predicate FeedOk(f: Feed) {
    && WorldOk(f.w) && StreamOk(f.w, f.sent)
    && (f.sent != [] ==> Reached(f.w, Standing(f.sent)))
    && (f.cursor.Some? ==> f.sent != [] && f.cursor.value == Standing(f.sent))
    && (f.reading.Some? ==>
          && f.polling && f.sent != [] && f.reading.value.cursor == Standing(f.sent)
          && ReadOk(f.w, Standing(f.sent), f.reading.value.result)
          && Reached(f.w, CursorOf(f.reading.value.result.snapshot)))
    && (f.acking.Some? ==> f.busy && !f.polling && Reached(f.w, CursorOf(f.acking.value.snapshot)))
  }

  /** A client that has just connected: no subscription, nothing in flight, nothing sent. */
  function Connected(w: World): Feed {
    Feed(w, None, false, false, None, None, [])
  }

  lemma ConnectedOk(w: World)
    requires WorldOk(w)
    ensures FeedOk(Connected(w))
  {
  }

  lemma GenuineStays(w: World, v: World, e: Event)
    requires Extends(w, v) && Genuine(w, e)
    ensures Genuine(v, e)
  {
  }

  predicate LinkOk(w: World, sent: seq<Message>, i: nat)
    requires i < |sent|
  {
    sent[i].Acked? || (i > 0 && Follows(w, PositionOf(sent[i - 1]), sent[i]))
  }

  lemma StreamStays(w: World, v: World, sent: seq<Message>)
    requires Extends(w, v) && StreamOk(w, sent)
    ensures StreamOk(v, sent)
  {
    forall i | 0 <= i < |sent|
      ensures LinkOk(v, sent, i)
    {
      assert LinkOk(w, sent, i);
      if sent[i].Deliver? {
        GenuineStays(w, v, sent[i].event);
      }
    }
  }

  lemma ReadStays(w: World, v: World, at: Cursor, r: Replayed)
    requires Extends(w, v) && ReadOk(w, at, r)
    ensures ReadOk(v, at, r)
  {
    if r.available {
      forall i | 0 <= i < |r.events|
        ensures Genuine(v, r.events[i])
      {
        GenuineStays(w, v, r.events[i]);
      }
    }
  }

  lemma CurrentIsGenuine(w: World, i: nat)
    requires WorldOk(w) && i < |w.current|
    ensures var e := w.current[i].payload;
      e.attempt == w.job.row.attempt && e.sequence == i + 1 && Genuine(w, e)
  {
  }

  lemma TailFollows(w: World, at: Cursor, events: seq<Event>)
    requires WorldOk(w) && at.attempt == w.job.row.attempt && at.after <= |w.current|
    requires events == Payloads(w.current[at.after..])
    ensures |events| == |w.current| - at.after
    ensures forall i :: 0 <= i < |events| ==>
              events[i].attempt == at.attempt && events[i].sequence == at.after + i + 1 && Genuine(w, events[i])
  {
    forall i | 0 <= i < |events|
      ensures events[i].attempt == at.attempt && events[i].sequence == at.after + i + 1 && Genuine(w, events[i])
    {
      assert events[i] == w.current[at.after + i].payload;
      CurrentIsGenuine(w, at.after + i);
    }
  }

  /** What `replay` returns for the cursor of an earlier snapshot. */
  lemma ReaderDelivers(f: Feed, at: Cursor, now: Time)
    requires WorldOk(f.w) && f.w.clock <= now
    ensures Reader(f, at, now).Some?
    ensures Reached(f.w, CursorOf(Reader(f, at, now).value.snapshot))
    ensures Reached(f.w, at) ==> ReadOk(f.w, at, Reader(f, at, now).value)
  {
    ReplaySoundAndComplete(f.w, at.attempt, at.after, now);
    var r := Reader(f, at, now).value;
    if r.available {
      TailFollows(f.w, at, r.events);
    }
  }

  /** Emitting a read keeps the stream gap-free and leaves the client at the snapshot. */
  lemma EmitKeeps(w: World, sent: seq<Message>, r: Replayed)
    requires sent != [] && StreamOk(w, sent) && ReadOk(w, Standing(sent), r)
    ensures StreamOk(w, sent + Emitted(r)) && Standing(sent + Emitted(r)) == CursorOf(r.snapshot)
  {
    var all := sent + Emitted(r);
    forall i | |sent| <= i < |all|
      ensures LinkOk(w, all, i)
    {
      if r.available {
        var j := i - |sent|;
        assert all[i] == Deliver(r.events[j]);
        assert j > 0 ==> all[i - 1] == Deliver(r.events[j - 1]);
      }
    }
    forall i | 0 <= i < |sent|
      ensures LinkOk(w, all, i)
    {
      assert LinkOk(w, sent, i);
    }
    assert r.available && r.events == [] ==> all == sent;
  }

  lemma AckKeeps(w: World, sent: seq<Message>, r: Replayed)
    requires StreamOk(w, sent)
    ensures StreamOk(w, sent + [Acked(r)])
  {
    forall i | 0 <= i < |sent|
      ensures LinkOk(w, sent + [Acked(r)], i)
    {
      assert LinkOk(w, sent, i);
    }
  }

  lemma JobTurnKeeps(f: Feed, a: Action, now: Time)
    requires FeedOk(f) && Enabled(f.w, a, now)
    ensures FeedOk(f.(w := Step(f.w, a, now)))
  {
    var v := Step(f.w, a, now);
    StepKeeps(f.w, a, now);
    StepExtends(f.w, a, now);
    StreamStays(f.w, v, f.sent);
    if f.reading.Some? {
      ReadStays(f.w, v, Standing(f.sent), f.reading.value.result);
    }
  }

  /** Every turn keeps the feed in order. */
  lemma TurnKeeps(f: Feed, turn: Turn, now: Time)
    requires FeedOk(f) && MayTurn(f, turn, now)
    ensures FeedOk(TakeTurn(f, turn, now))
  {
    match turn
    case JobTurn(a) => JobTurnKeeps(f, a, now);
    case PollRead => ReaderDelivers(f, f.cursor.value, now);
    case PollEmit => EmitKeeps(f.w, f.sent, f.reading.value.result);
    case SubscribeRead(attempt, after) => ReaderDelivers(f, Cursor(attempt, after), now);
    case SubscribeReply => AckKeeps(f.w, f.sent, f.acking.value);
    case _ =>
  }

  // ------------------------------------------------------------------
  // Sessions

  datatype TimedTurn = TimedTurn(turn: Turn, now: Time)

  predicate SessionOk(f: Feed, turns: seq<TimedTurn>)
    decreases |turns|
  {
    turns == [] || (MayTurn(f, turns[0].turn, turns[0].now) && SessionOk(TakeTurn(f, turns[0].turn, turns[0].now), turns[1..]))
  }

  function Session(f: Feed, turns: seq<TimedTurn>): Feed
    requires SessionOk(f, turns)
    decreases |turns|
  {
    if turns == [] then f else Session(TakeTurn(f, turns[0].turn, turns[0].now), turns[1..])
  }

  lemma {:induction false} SessionKeeps(f: Feed, turns: seq<TimedTurn>)
    requires FeedOk(f) && SessionOk(f, turns)
    ensures FeedOk(Session(f, turns))
    decreases |turns|
  {
    if turns != [] {
      TurnKeeps(f, turns[0].turn, turns[0].now);
      SessionKeeps(TakeTurn(f, turns[0].turn, turns[0].now), turns[1..]);
    }
  }

  /** Realtime delivery, for any interleaving of polls, subscribe commands and job steps:
      between acknowledgements every event is genuine and is the successor of what the
      client last saw, a gap is announced by a sync that moves strictly forward, and the
      cursor is always where the last message left the client. */
  lemma StreamIsGapFree(f: Feed, turns: seq<TimedTurn>, i: nat)
    requires FeedOk(f) && SessionOk(f, turns) && i < |Session(f, turns).sent|
    ensures var g := Session(f, turns);
      && (g.sent[i].Deliver? ==>
            && i > 0 && Genuine(g.w, g.sent[i].event)
            && PositionOf(g.sent[i]) == Cursor(PositionOf(g.sent[i - 1]).attempt, PositionOf(g.sent[i - 1]).after + 1))
      && (!g.sent[i].Acked? ==>
            && i > 0
            && var p, q := PositionOf(g.sent[i - 1]), PositionOf(g.sent[i]);
            p.attempt < q.attempt || (p.attempt == q.attempt && p.after < q.after))
      && (g.cursor.Some? ==> g.cursor.value == Standing(g.sent))
  {
    SessionKeeps(f, turns);
    assert LinkOk(Session(f, turns).w, Session(f, turns).sent, i);
  }

  /** Nothing is withheld: a poll that reads and emits leaves the client at the very last event
      of the job it read, and a subscribe does the same. */
  lemma PollCatchesUp(f: Feed, now: Time)
    requires FeedOk(f) && MayTurn(f, PollRead, now)
    ensures var read := TakeTurn(f, PollRead, now);
      && MayTurn(read, PollEmit, now)
      && var done := TakeTurn(read, PollEmit, now);
      && done.cursor == Some(Cursor(f.w.job.row.attempt, f.w.job.row.lastSequence))
      && (done.sent != [] ==> Standing(done.sent) == Cursor(f.w.job.row.attempt, f.w.job.row.lastSequence))
      && done.sent[..|f.sent|] == f.sent
  {
    ReaderDelivers(f, f.cursor.value, now);
    var r := Reader(f, f.cursor.value, now).value;
    EmitKeeps(f.w, f.sent, r);
  }

  /** No client hangs: a poll under way can always go on or end, a subscribe that waits for no
      poll can always read or reply, and an idle client can always begin either. */
  lemma ClientNeverStuck(f: Feed, attempt: nat, after: nat, now: Time)
    requires FeedOk(f) && f.w.clock <= now
    ensures f.polling ==> MayTurn(f, PollEmit, now) || MayTurn(f, PollEnd, now)
    ensures f.polling && f.reading.None? && f.cursor.Some? ==> MayTurn(f, PollRead, now)
    ensures f.busy && !f.polling ==> MayTurn(f, SubscribeReply, now) || MayTurn(f, SubscribeRead(attempt, after), now)
    ensures f.busy && f.acking.None? ==> MayTurn(f, SubscribeAbort, now)
    ensures !f.busy ==> MayTurn(f, SubscribeBegin, now)
    ensures !f.busy && !f.polling ==> MayTurn(f, PollBegin, now)
    ensures MayTurn(f, Unsubscribe, now)
  {
  }

  /** And the two never cross: nothing is read for a subscribe while a poll is under way, and no
      poll begins while a command is. */
  lemma PollsAndCommandsExclude(f: Feed, attempt: nat, after: nat, now: Time)
    ensures f.polling ==> !MayTurn(f, PollBegin, now) && !MayTurn(f, SubscribeRead(attempt, after), now)
    ensures f.busy ==> !MayTurn(f, PollBegin, now) && !MayTurn(f, SubscribeBegin, now)
  {
  }

  // ------------------------------------------------------------------
  // The socket's own state

  const MAX_SUBSCRIPTIONS := 5
  const MAX_REQUESTS := 60
  const REQUEST_WINDOW_MS := 60000

  datatype SocketError = RateLimited | InvalidRequest | SubscriptionLimit

  /** A socket's bookkeeping: its cursors, the command in flight and the request window. */
  class Client {
    var subscriptions: map<Id, Cursor>
    var commandBusy: bool
    var pending: Id
    var requests: nat
    var window: Time
    var sent: seq<(Id, Message)>

    /** At most five subscriptions, counting the one a command in flight may add. */
    ghost predicate Valid()
      reads this
    {
      && |subscriptions| <= MAX_SUBSCRIPTIONS
      && (commandBusy && pending !in subscriptions ==> |subscriptions| < MAX_SUBSCRIPTIONS)
    }

    constructor (now: Time)
      ensures Valid() && subscriptions == map[] && !commandBusy && sent == []
    {
      subscriptions := map[];
      commandBusy := false;
      pending := 0;
      requests := 0;
      window := now;
      sent := [];
    }

    /** The checks before a subscribe command starts, in order; a success makes the client
        busy. `input` is the execution the request names, if it parses. */
    method Admit(input: Option<Id>, now: Time) returns (error: Option<SocketError>)
      requires Valid()
      modifies this
      ensures Valid() && subscriptions == old(subscriptions) && sent == old(sent)
      ensures error.None? ==> !old(commandBusy) && commandBusy && Some(pending) == input && requests <= MAX_REQUESTS
      ensures error.Some? ==> commandBusy == old(commandBusy) && pending == old(pending)
      ensures requests == (if now - old(window) >= REQUEST_WINDOW_MS then 0 else old(requests)) + 1
      ensures window == (if now - old(window) >= REQUEST_WINDOW_MS then now else old(window))
      ensures error == Some(RateLimited) <==> requests > MAX_REQUESTS || old(commandBusy)
      ensures error == Some(InvalidRequest) <==> !(requests > MAX_REQUESTS || old(commandBusy)) && input.None?
      ensures error == Some(SubscriptionLimit) <==>
                && !(requests > MAX_REQUESTS || old(commandBusy)) && input.Some?
                && input.value !in subscriptions && |subscriptions| >= MAX_SUBSCRIPTIONS
    {
      if now - window >= REQUEST_WINDOW_MS {
        window := now;
        requests := 0;
      }
      requests := requests + 1;
      if requests > MAX_REQUESTS || commandBusy {
        return Some(RateLimited);
      }
      if input.None? {
        return Some(InvalidRequest);
      }
      if input.value !in subscriptions && |subscriptions| >= MAX_SUBSCRIPTIONS {
        return Some(SubscriptionLimit);
      }
      commandBusy := true;
      pending := input.value;
      return None;
    }

    /** The acknowledgement: the cursor starts at its snapshot. */
    method Acknowledge(result: Replayed)
      requires Valid() && commandBusy
      modifies this
      ensures Valid() && !commandBusy
      ensures subscriptions == old(subscriptions)[old(pending) := CursorOf(result.snapshot)]
      ensures sent == old(sent) + [(old(pending), Acked(result))]
    {
      assert pending !in subscriptions ==> |subscriptions[pending := CursorOf(result.snapshot)]| == |subscriptions| + 1;
      assert pending in subscriptions ==> subscriptions[pending := CursorOf(result.snapshot)].Keys == subscriptions.Keys;
      subscriptions := subscriptions[pending := CursorOf(result.snapshot)];
      sent := sent + [(pending, Acked(result))];
      commandBusy := false;
    }

    method Unsubscribe(id: Id)
      requires Valid()
      modifies this`subscriptions
      ensures Valid() && subscriptions == old(subscriptions) - {id}
    {
      ghost var before := subscriptions;
      subscriptions := subscriptions - {id};
      assert subscriptions.Keys == before.Keys - {id};
      assert |subscriptions.Keys| + |before.Keys * {id}| == |before.Keys|;
      assert id in before ==> before.Keys * {id} == {id};
    }

    /** The body of the poll loop for one cursor: emit, then advance the cursor in place. */
    method Deliver(id: Id, result: Replayed)
      requires Valid()
      modifies this`subscriptions, this`sent
      ensures Valid()
      ensures subscriptions == if id in old(subscriptions) then old(subscriptions)[id := CursorOf(result.snapshot)] else old(subscriptions)
      ensures |sent| == |old(sent)| + |Emitted(result)| && old(sent) <= sent
      ensures forall i :: 0 <= i < |Emitted(result)| ==> sent[|old(sent)| + i] == (id, Emitted(result)[i])
    {
      if !result.available {
        sent := sent + [(id, Sync(result.snapshot))];
      } else {
        for i := 0 to |result.events|
          invariant subscriptions == old(subscriptions) && |sent| == |old(sent)| + i && old(sent) <= sent
          invariant forall j :: 0 <= j < i ==> sent[|old(sent)| + j] == (id, Message.Deliver(result.events[j]))
        {
          sent := sent + [(id, Message.Deliver(result.events[i]))];
        }
      }
      if id in subscriptions {
        assert subscriptions[id := CursorOf(result.snapshot)].Keys == subscriptions.Keys;
        subscriptions := subscriptions[id := CursorOf(result.snapshot)];
      }
    }
  }
}
