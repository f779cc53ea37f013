/** Concurrent requests to the runner: the server's admission counter and controllers, and
    the supervisor's active executions and readiness (server.ts:24-50,
    supervisor.ts:32-55, 71-80, 120). */
module RunnerServer {
  import opened Contracts

  const MAX_ADMITTED := 8
  const MAX_ACTIVE := 2

  type Key = nat
  type Rid = nat
  type Container = nat

  /** Where one HTTP request is: reading its body, refused by the supervisor, executing
      with at most one container open, or back from the supervisor. */
  datatype Phase =
    | Reading
    | Refused(key: Key)
    | Executing(key: Key, open: Option<Container>)
    | Exited(key: Key)

  /** `named` are all containers ever named, `vanished` those verified absent, and `held`
      those a running execution has open. */
  datatype Runner = Runner(
    closing: bool, admitted: nat, requests: map<Rid, Phase>, controllers: map<Key, Rid>, aborted: set<Rid>,
    ready: bool, shuttingDown: bool, active: set<Key>, named: set<Container>, vanished: set<Container>,
    held: map<Container, Rid>)

  datatype Move =
    | Arrive(rid: Rid, wellFormed: bool)
    | Reject(rid: Rid)
    | CancelKey(rid: Rid, cancelled: Key)
    | Register(rid: Rid, key: Key)
    | Name(rid: Rid, container: Container)
    | Destroy(rid: Rid, gone: bool)
    | Exit(rid: Rid)
    | Finish(rid: Rid)
    | Close
    | ReaperFails

  function KeyOf(p: Phase): Option<Key> {
    if p.Reading? then None else Some(p.key)
  }

  /** The await points of the handler: which pieces of code can run next. */
  predicate May(r: Runner, m: Move) {
    match m
    case Arrive(rid, _) => rid !in r.requests
    case Reject(rid) => rid in r.requests && r.requests[rid].Reading?
    case CancelKey(rid, _) => rid in r.requests && r.requests[rid].Reading?
    case Register(rid, _) => rid in r.requests && r.requests[rid].Reading?
    case Name(rid, c) => rid in r.requests && r.requests[rid].Executing? && r.requests[rid].open.None? && c !in r.named
    case Destroy(rid, _) => rid in r.requests && r.requests[rid].Executing? && r.requests[rid].open.Some?
    case Exit(rid) => rid in r.requests && r.requests[rid].Executing? && r.requests[rid].open.None?
    case Finish(rid) => rid in r.requests && (r.requests[rid].Refused? || r.requests[rid].Exited?)
    case Close => true
    case ReaperFails => true
  }

  /** The handler's finally block. */
  function Leave(r: Runner, rid: Rid): Runner
    requires rid in r.requests
  {
    r.(requests := r.requests - {rid}, admitted := if r.admitted > 0 then r.admitted - 1 else 0,
       controllers := match KeyOf(r.requests[rid]) case Some(k) => r.controllers - {k} case None => r.controllers)
  }

  /** The supervisor's entry checks pass. */
  predicate Takes(r: Runner, key: Key) {
    r.ready && !r.shuttingDown && |r.active| < MAX_ACTIVE && key !in r.active
  }

  function Next(r: Runner, m: Move): Runner
    requires May(r, m)
  {
    match m
    case Arrive(rid, ok) =>
      if r.closing || r.admitted >= MAX_ADMITTED || !ok then r
      else r.(admitted := r.admitted + 1, requests := r.requests[rid := Reading])
    case Reject(rid) => Leave(r, rid)
    case CancelKey(rid, k) =>
      Leave(if k in r.controllers then r.(aborted := r.aborted + {r.controllers[k]}) else r, rid)
    case Register(rid, k) =>
      if k in r.controllers then Leave(r, rid)
      else if Takes(r, k) then
        r.(controllers := r.controllers[k := rid], active := r.active + {k}, requests := r.requests[rid := Executing(k, None)])
      else r.(controllers := r.controllers[k := rid], requests := r.requests[rid := Refused(k)])
    case Name(rid, c) =>
      r.(named := r.named + {c}, held := r.held[c := rid], requests := r.requests[rid := r.requests[rid].(open := Some(c))])
    case Destroy(rid, gone) =>
      var p := r.requests[rid];
      if gone then
        r.(vanished := r.vanished + {p.open.value}, held := r.held - {p.open.value}, requests := r.requests[rid := p.(open := None)])
      else
        r.(ready := false, held := r.held - {p.open.value}, active := r.active - {p.key}, requests := r.requests[rid := Exited(p.key)])
    case Exit(rid) =>
      r.(active := r.active - {r.requests[rid].key}, requests := r.requests[rid := Exited(r.requests[rid].key)])
    case Finish(rid) => Leave(r, rid)
    case Close => r.(closing := true, shuttingDown := true, aborted := r.aborted + set k | k in r.active && k in r.controllers :: r.controllers[k])
    case ReaperFails => r.(ready := false)
  }

  const Idle := Runner(false, 0, map[], map[], {}, true, false, {}, {}, {}, map[])

  // ------------------------------------------------------------------
  // The invariant

  /** Controllers hold exactly the registered requests, each under its own key. */
  predicate ControllersOk(r: Runner) {
    && (forall k <- r.controllers :: r.controllers[k] in r.requests && KeyOf(r.requests[r.controllers[k]]) == Some(k))
    && (forall rid <- r.requests :: !r.requests[rid].Reading? ==>
          r.requests[rid].key in r.controllers && r.controllers[r.requests[rid].key] == rid)
  }

  predicate ActiveOk(r: Runner) {
    && |r.active| <= MAX_ACTIVE
    && (forall k <- r.active :: k in r.controllers && r.controllers[k] in r.requests && r.requests[r.controllers[k]].Executing?)
    && (forall rid <- r.requests :: r.requests[rid].Executing? ==> r.requests[rid].key in r.active)
  }

  predicate Holds(p: Phase, c: Container) {
    p.Executing? && p.open == Some(c)
  }

  predicate HeldOk(r: Runner) {
    && (forall c <- r.held :: r.held[c] in r.requests && Holds(r.requests[r.held[c]], c))
    && (forall rid <- r.requests :: r.requests[rid].Executing? && r.requests[rid].open.Some? ==>
          r.requests[rid].open.value in r.held && r.held[r.requests[rid].open.value] == rid && r.requests[rid].open.value in r.named)
  }

  /** While the supervisor is ready, a container is either verified absent or open in a
      running execution. */
  predicate NoLeak(r: Runner) {
    r.ready ==> r.named <= r.vanished + r.held.Keys
  }

  predicate CountOk(r: Runner) {
    r.admitted == |r.requests| <= MAX_ADMITTED
  }

  predicate SlotsOk(r: Runner) {
    CountOk(r) && ControllersOk(r) && ActiveOk(r)
  }

  predicate RunnerOk(r: Runner) {
    SlotsOk(r) && HeldOk(r) && NoLeak(r)
  }

  lemma RemovalCounts(m: map<Rid, Phase>, rid: Rid)
    requires rid in m
    ensures |m - {rid}| == |m| - 1
  {
    assert (m - {rid}).Keys == m.Keys - {rid};
    assert |m.Keys - {rid}| == |m.Keys| - 1;
  }

  lemma PutCounts(m: map<Rid, Phase>, rid: Rid, p: Phase)
    ensures rid in m ==> |m[rid := p]| == |m|
    ensures rid !in m ==> |m[rid := p]| == |m| + 1
  {
    assert rid in m ==> m[rid := p].Keys == m.Keys;
    assert rid !in m ==> m[rid := p].Keys == m.Keys + {rid};
  }

  lemma LeaveStays(r: Runner, rid: Rid)
    requires SlotsOk(r) && rid in r.requests && !r.requests[rid].Executing?
    ensures SlotsOk(Leave(r, rid))
  {
    RemovalCounts(r.requests, rid);
  }

  /** A request that keeps its key while it changes phase. */
  lemma PhaseKeepsControllers(r: Runner, r': Runner, rid: Rid, p: Phase)
    requires ControllersOk(r) && rid in r.requests && !r.requests[rid].Reading? && KeyOf(p) == KeyOf(r.requests[rid])
    requires r'.controllers == r.controllers && r'.requests == r.requests[rid := p]
    ensures ControllersOk(r')
  {
  }

  lemma PhaseKeepsActive(r: Runner, r': Runner, rid: Rid, p: Phase)
    requires ControllersOk(r) && ActiveOk(r) && rid in r.requests && r.requests[rid].Executing?
    requires KeyOf(p) == KeyOf(r.requests[rid])
    requires r'.controllers == r.controllers && r'.requests == r.requests[rid := p]
    requires r'.active == if p.Executing? then r.active else r.active - {p.key}
    ensures ActiveOk(r')
  {
    assert |r.active - {r.requests[rid].key}| <= |r.active|;
  }

  lemma PhaseStays(r: Runner, r': Runner, rid: Rid, p: Phase)
    requires SlotsOk(r) && rid in r.requests && r.requests[rid].Executing?
    requires KeyOf(p) == KeyOf(r.requests[rid])
    requires r'.admitted == r.admitted && r'.controllers == r.controllers && r'.requests == r.requests[rid := p]
    requires r'.active == if p.Executing? then r.active else r.active - {p.key}
    ensures SlotsOk(r')
  {
    PutCounts(r.requests, rid, p);
    PhaseKeepsControllers(r, r', rid, p);
    PhaseKeepsActive(r, r', rid, p);
  }

  lemma NameStays(r: Runner, rid: Rid, c: Container)
    requires SlotsOk(r) && May(r, Name(rid, c))
    ensures SlotsOk(Next(r, Name(rid, c)))
  {
    PhaseStays(r, Next(r, Name(rid, c)), rid, r.requests[rid].(open := Some(c)));
  }

  lemma DestroyStays(r: Runner, rid: Rid, gone: bool)
    requires SlotsOk(r) && May(r, Destroy(rid, gone))
    ensures SlotsOk(Next(r, Destroy(rid, gone)))
  {
    var p := r.requests[rid];
    PhaseStays(r, Next(r, Destroy(rid, gone)), rid, if gone then p.(open := None) else Exited(p.key));
  }

  lemma ExitStays(r: Runner, rid: Rid)
    requires SlotsOk(r) && May(r, Exit(rid))
    ensures SlotsOk(Next(r, Exit(rid)))
  {
    PhaseStays(r, Next(r, Exit(rid)), rid, Exited(r.requests[rid].key));
  }

  lemma AddKey(r: Runner, rid: Rid, k: Key, p: Phase, active: set<Key>)
    requires ControllersOk(r) && rid in r.requests && r.requests[rid].Reading? && k !in r.controllers && KeyOf(p) == Some(k)
    ensures ControllersOk(r.(controllers := r.controllers[k := rid], active := active, requests := r.requests[rid := p]))
  {
  }

  lemma AddActive(r: Runner, rid: Rid, k: Key, p: Phase, active: set<Key>)
    requires ActiveOk(r) && rid in r.requests && r.requests[rid].Reading? && k !in r.controllers && KeyOf(p) == Some(k)
    requires active == if p.Executing? then r.active + {k} else r.active
    requires p.Executing? ==> |r.active| < MAX_ACTIVE
    ensures ActiveOk(r.(controllers := r.controllers[k := rid], active := active, requests := r.requests[rid := p]))
  {
  }

  lemma RegisterStays(r: Runner, rid: Rid, k: Key)
    requires SlotsOk(r) && May(r, Register(rid, k))
    ensures SlotsOk(Next(r, Register(rid, k)))
  {
    if k in r.controllers {
      LeaveStays(r, rid);
    } else {
      var r' := Next(r, Register(rid, k));
      var p := r'.requests[rid];
      assert r' == r.(controllers := r.controllers[k := rid], active := r'.active, requests := r.requests[rid := p]);
      PutCounts(r.requests, rid, p);
      AddKey(r, rid, k, p, r'.active);
      AddActive(r, rid, k, p, r'.active);
    }
  }

  lemma CancelStays(r: Runner, rid: Rid, k: Key)
    requires SlotsOk(r) && May(r, CancelKey(rid, k))
    ensures SlotsOk(Next(r, CancelKey(rid, k)))
  {
    LeaveStays(if k in r.controllers then r.(aborted := r.aborted + {r.controllers[k]}) else r, rid);
  }

  lemma ArriveKeepsSlots(r: Runner, rid: Rid)
    requires ControllersOk(r) && ActiveOk(r) && rid !in r.requests
    ensures var r' := r.(admitted := r.admitted + 1, requests := r.requests[rid := Reading]);
      ControllersOk(r') && ActiveOk(r')
  {
  }

  lemma ArriveStays(r: Runner, rid: Rid, ok: bool)
    requires SlotsOk(r) && rid !in r.requests
    ensures SlotsOk(Next(r, Arrive(rid, ok)))
  {
    PutCounts(r.requests, rid, Reading);
    ArriveKeepsSlots(r, rid);
  }

  lemma SlotsStay(r: Runner, m: Move)
    requires SlotsOk(r) && May(r, m)
    ensures SlotsOk(Next(r, m))
  {
    match m
    case Arrive(rid, ok) => ArriveStays(r, rid, ok);
    case Reject(rid) => LeaveStays(r, rid);
    case CancelKey(rid, k) => CancelStays(r, rid, k);
    case Register(rid, k) => RegisterStays(r, rid, k);
    case Name(rid, c) => NameStays(r, rid, c);
    case Destroy(rid, gone) => DestroyStays(r, rid, gone);
    case Exit(rid) => ExitStays(r, rid);
    case Finish(rid) => LeaveStays(r, rid);
    case Close =>
    case ReaperFails =>
  }

  lemma NameKeepsHeld(r: Runner, rid: Rid, c: Container)
    requires HeldOk(r) && May(r, Name(rid, c))
    ensures HeldOk(Next(r, Name(rid, c)))
  {
  }

  lemma DestroyKeepsHeld(r: Runner, rid: Rid, gone: bool)
    requires HeldOk(r) && May(r, Destroy(rid, gone))
    ensures HeldOk(Next(r, Destroy(rid, gone)))
  {
  }

  /** A request that holds no container may take another phase without one, or leave. */
  lemma PutKeepsHeld(r: Runner, r': Runner, rid: Rid, p: Phase)
    requires HeldOk(r) && r'.held == r.held && r'.named == r.named && r'.requests == r.requests[rid := p]
    requires rid in r.requests ==> !(r.requests[rid].Executing? && r.requests[rid].open.Some?)
    requires !(p.Executing? && p.open.Some?)
    ensures HeldOk(r')
  {
    assert forall c <- r.held :: r.held[c] != rid;
  }

  lemma LeaveKeepsHeld(r: Runner, r': Runner, rid: Rid)
    requires HeldOk(r) && r'.held == r.held && r'.named == r.named && rid in r.requests && r'.requests == r.requests - {rid}
    requires !r.requests[rid].Executing?
    ensures HeldOk(r')
  {
    assert forall c <- r.held :: r.held[c] != rid;
  }

  lemma HeldStays(r: Runner, m: Move)
    requires HeldOk(r) && May(r, m)
    ensures HeldOk(Next(r, m))
  {
    var r' := Next(r, m);
    match m
    case Arrive(rid, ok) => if rid in r'.requests { PutKeepsHeld(r, r', rid, Reading); }
    case Register(rid, k) => if rid in r'.requests { PutKeepsHeld(r, r', rid, r'.requests[rid]); } else { LeaveKeepsHeld(r, r', rid); }
    case Name(rid, c) => NameKeepsHeld(r, rid, c);
    case Destroy(rid, gone) => DestroyKeepsHeld(r, rid, gone);
    case Exit(rid) => PutKeepsHeld(r, r', rid, r'.requests[rid]);
    case Close =>
    case ReaperFails =>
    case _ => LeaveKeepsHeld(r, r', m.rid);
  }

  lemma NoLeakStays(r: Runner, m: Move)
    requires HeldOk(r) && NoLeak(r) && May(r, m)
    ensures NoLeak(Next(r, m))
  {
  }

  /** Every piece of handler code keeps the invariant. */
  lemma MoveKeeps(r: Runner, m: Move)
    requires RunnerOk(r) && May(r, m)
    ensures RunnerOk(Next(r, m))
  {
    SlotsStay(r, m);
    HeldStays(r, m);
    NoLeakStays(r, m);
  }

  predicate RunOk(r: Runner, moves: seq<Move>)
    decreases |moves|
  {
    moves == [] || (May(r, moves[0]) && RunOk(Next(r, moves[0]), moves[1..]))
  }

  function Run(r: Runner, moves: seq<Move>): Runner
    requires RunOk(r, moves)
    decreases |moves|
  {
    if moves == [] then r else Run(Next(r, moves[0]), moves[1..])
  }

  /** Capacity over every interleaving: at most eight requests inside, at most two active
      executions with distinct keys, and a controller for exactly the registered requests,
      so a duplicate never removes the entry of the original. */
  lemma {:induction false} CapacityHolds(r: Runner, moves: seq<Move>)
    requires RunnerOk(r) && RunOk(r, moves)
    ensures var e := Run(r, moves);
      && RunnerOk(e) && e.admitted <= MAX_ADMITTED && |e.active| <= MAX_ACTIVE && e.active <= e.controllers.Keys
    decreases |moves|
  {
    if moves != [] {
      MoveKeeps(r, moves[0]);
      CapacityHolds(Next(r, moves[0]), moves[1..]);
    }
  }

  /** A duplicate request leaves the original registered, running and under its own
      controller; and a key the server lets through is never a duplicate downstream. */
  lemma DuplicateIsHarmless(r: Runner, rid: Rid, k: Key)
    requires RunnerOk(r) && May(r, Register(rid, k))
    ensures k in r.controllers ==>
              && Next(r, Register(rid, k)).controllers == r.controllers
              && Next(r, Register(rid, k)).active == r.active
              && Next(r, Register(rid, k)).requests == r.requests - {rid}
    ensures k !in r.controllers ==> k !in r.active
  {
  }

  lemma NotReadyAdmitsNothing(r: Runner, m: Move)
    requires May(r, m) && !r.ready
    ensures !Next(r, m).ready
    ensures forall rid :: rid in Next(r, m).requests && Next(r, m).requests[rid].Executing? ==>
              rid in r.requests && r.requests[rid].Executing?
  {
  }

  /** Clean-up: an execution that ends with a container it could not verify absent makes
      the supervisor refuse every later execution, for as long as the process runs. */
  lemma LeakStopsTheRunner(r: Runner, moves: seq<Move>, c: Container)
    requires RunnerOk(r) && RunOk(r, moves)
    requires c in r.named && c !in r.vanished && c !in r.held
    ensures var e := Run(r, moves);
      && !e.ready
      && forall rid :: rid in e.requests && e.requests[rid].Executing? ==> rid in r.requests && r.requests[rid].Executing?
  {
    NotReadyRun(r, moves);
  }

  lemma {:induction false} NotReadyRun(r: Runner, moves: seq<Move>)
    requires RunOk(r, moves) && !r.ready
    ensures var e := Run(r, moves);
      && !e.ready
      && forall rid :: rid in e.requests && e.requests[rid].Executing? ==> rid in r.requests && r.requests[rid].Executing?
    decreases |moves|
  {
    if moves != [] {
      NotReadyAdmitsNothing(r, moves[0]);
      NotReadyRun(Next(r, moves[0]), moves[1..]);
    }
  }

  // ------------------------------------------------------------------
  // What each piece of code does

  /** A request gets inside exactly while the server is open, fewer than eight are inside and
      it is well formed; it is then reading and nothing else has changed. */
  lemma ArriveIsExact(r: Runner, rid: Rid, ok: bool)
    requires RunnerOk(r) && May(r, Arrive(rid, ok))
    ensures var r' := Next(r, Arrive(rid, ok));
      && (rid in r'.requests <==> !r.closing && |r.requests| < 8 && ok)
      && (rid !in r'.requests ==> r' == r)
      && (rid in r'.requests ==> r' == r.(admitted := |r.requests| + 1, requests := r.requests[rid := Reading]))
  {
  }

  /** A new key is registered, and its execution starts exactly when the supervisor is ready,
      not shutting down and running fewer than two. */
  lemma RegisterIsExact(r: Runner, rid: Rid, k: Key)
    requires RunnerOk(r) && May(r, Register(rid, k)) && k !in r.controllers
    ensures var r' := Next(r, Register(rid, k));
      var starts := r.ready && !r.shuttingDown && |r.active| < 2;
      && r'.controllers == r.controllers[k := rid]
      && r'.requests == r.requests[rid := if starts then Executing(k, None) else Refused(k)]
      && r'.active == (if starts then r.active + {k} else r.active)
      && r'.(controllers := r.controllers, requests := r.requests, active := r.active) == r
  {
    assert k !in r.active;
  }

  /** A cancel aborts exactly the request registered under its key, and leaves. */
  lemma CancelIsExact(r: Runner, rid: Rid, k: Key)
    requires CountOk(r) && May(r, CancelKey(rid, k))
    ensures var r' := Next(r, CancelKey(rid, k));
      && r'.aborted == r.aborted + (if k in r.controllers then {r.controllers[k]} else {})
      && r'.requests == r.requests - {rid} && r'.admitted == |r'.requests|
      && r'.(aborted := r.aborted, requests := r.requests, admitted := r.admitted) == r
  {
    RemovalCounts(r.requests, rid);
  }

  /** A request leaves with its own controller, if it has one, and frees its place. */
  lemma LeavingIsExact(r: Runner, m: Move)
    requires RunnerOk(r) && May(r, m) && (m.Reject? || m.Finish?)
    ensures var r' := Next(r, m);
      && r'.requests == r.requests - {m.rid} && r'.admitted == |r'.requests|
      && (forall k :: k in r'.controllers <==> k in r.controllers && r.controllers[k] != m.rid)
      && (forall k <- r'.controllers :: r'.controllers[k] == r.controllers[k])
      && r'.(controllers := r.controllers, requests := r.requests, admitted := r.admitted) == r
  {
    RemovalCounts(r.requests, m.rid);
  }

  /** A container verified absent is gone and the execution goes on; one that is not ends the
      execution, frees its key and ends readiness. */
  lemma DestroyIsExact(r: Runner, rid: Rid, gone: bool)
    requires May(r, Destroy(rid, gone))
    ensures var r', c, k := Next(r, Destroy(rid, gone)), r.requests[rid].open.value, r.requests[rid].key;
      && r'.vanished == (if gone then r.vanished + {c} else r.vanished) && r'.held == r.held - {c}
      && r'.ready == (r.ready && gone) && r'.active == (if gone then r.active else r.active - {k})
      && r'.requests == r.requests[rid := if gone then Executing(k, None) else Exited(k)]
      && r'.(vanished := r.vanished, held := r.held, ready := r.ready, active := r.active, requests := r.requests) == r
  {
  }

  /** A sandbox names its container before anything else; an execution that is done frees its
      key and keeps its controller until the request leaves. */
  lemma SandboxIsExact(r: Runner, rid: Rid, c: Container)
    ensures May(r, Name(rid, c)) ==>
              Next(r, Name(rid, c)) == r.(named := r.named + {c}, held := r.held[c := rid],
                                          requests := r.requests[rid := Executing(r.requests[rid].key, Some(c))])
    ensures May(r, Exit(rid)) ==>
              Next(r, Exit(rid)) == r.(active := r.active - {r.requests[rid].key}, requests := r.requests[rid := Exited(r.requests[rid].key)])
  {
  }

  /** Closing refuses everything to come and aborts exactly the executions under way. */
  lemma CloseIsExact(r: Runner, rid: Rid)
    requires RunnerOk(r)
    ensures var r' := Next(r, Close);
      && r'.closing && r'.shuttingDown
      && (rid in r'.aborted <==> rid in r.aborted || (rid in r.requests && r.requests[rid].Executing?))
      && r'.(closing := r.closing, shuttingDown := r.shuttingDown, aborted := r.aborted) == r
  {
  }

  /** No request hangs: whatever the others do, there is always a piece of its own code that
      can run next, and an open container can always be destroyed. */
  lemma RequestNeverStuck(r: Runner, rid: Rid, k: Key, c: Container, gone: bool)
    requires rid in r.requests && c !in r.named
    ensures match r.requests[rid]
      case Reading => May(r, Reject(rid)) && May(r, CancelKey(rid, k)) && May(r, Register(rid, k))
      case Refused(_) => May(r, Finish(rid))
      case Executing(_, open) => if open.Some? then May(r, Destroy(rid, gone)) else May(r, Name(rid, c)) && May(r, Exit(rid))
      case Exited(_) => May(r, Finish(rid))
  {
  }

  /** The reaper only ever takes readiness away. */
  lemma ReaperIsExact(r: Runner)
    ensures May(r, ReaperFails) && Next(r, ReaperFails) == r.(ready := false)
    ensures May(r, Close)
  {
  }

  // ------------------------------------------------------------------
  // The objects themselves

  /** The server's and the supervisor's fields, and the pieces of code between two awaits. */
  class Host {
    var closing: bool
    var admitted: nat
    var requests: map<Rid, Phase>
    var controllers: map<Key, Rid>
    var aborted: set<Rid>
    var ready: bool
    var shuttingDown: bool
    var active: set<Key>
    ghost var named: set<Container>
    ghost var vanished: set<Container>
    ghost var held: map<Container, Rid>

    ghost function View(): Runner
      reads this
    {
      Runner(closing, admitted, requests, controllers, aborted, ready, shuttingDown, active, named, vanished, held)
    }

    constructor ()
      ensures View() == Idle && RunnerOk(View())
    {
      closing, admitted, requests, controllers, aborted := false, 0, map[], map[], {};
      ready, shuttingDown, active := true, false, {};
      named, vanished, held := {}, {}, map[];
    }

    /** Entry of `handle`. */
    method Arrive(rid: Rid, wellFormed: bool) returns (inside: bool)
      requires rid !in requests
      modifies this
      ensures View() == Next(old(View()), Move.Arrive(rid, wellFormed))
      ensures inside <==> rid in requests
    {
      if closing || admitted >= MAX_ADMITTED || !wellFormed {
        return false;
      }
      admitted := admitted + 1;
      requests := requests[rid := Reading];
      return true;
    }

    /** The finally block of `handle`. */
    method Finally(rid: Rid)
      requires rid in requests && !requests[rid].Executing?
      modifies this
      ensures View() == Leave(old(View()), rid)
    {
      if !requests[rid].Reading? {
        controllers := controllers - {requests[rid].key};
      }
      requests := requests - {rid};
      if admitted > 0 {
        admitted := admitted - 1;
      }
    }

    /** From the parsed body to the supervisor's first await. */
    method Register(rid: Rid, key: Key)
      requires rid in requests && requests[rid].Reading?
      modifies this
      ensures View() == Next(old(View()), Move.Register(rid, key))
    {
      if key in controllers {
        Finally(rid);
        return;
      }
      controllers := controllers[key := rid];
      if !ready || shuttingDown || |active| >= MAX_ACTIVE || key in active {
        requests := requests[rid := Refused(key)];
      } else {
        active := active + {key};
        requests := requests[rid := Executing(key, None)];
      }
    }

    /** The finally block of `sandbox`: verified absence, or the end of readiness. */
    method Destroy(rid: Rid, gone: bool)
      requires rid in requests && requests[rid].Executing? && requests[rid].open.Some?
      modifies this
      ensures View() == Next(old(View()), Move.Destroy(rid, gone))
    {
      var p := requests[rid];
      held := held - {p.open.value};
      if gone {
        vanished := vanished + {p.open.value};
        requests := requests[rid := p.(open := None)];
      } else {
        ready := false;
        active := active - {p.key};
        requests := requests[rid := Exited(p.key)];
      }
    }

    /** `close` and `stopAccepting`. */
    method Close()
      modifies this
      ensures View() == Next(old(View()), Move.Close)
    {
      closing := true;
      shuttingDown := true;
      aborted := aborted + set k | k in active && k in controllers :: controllers[k];
    }
  }
}
