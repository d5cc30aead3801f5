/** run_idempotent as its code runs, with other callers acting between any two of its requests. */
module WriteService {
  import opened Wrappers
  import opened WriteProtocol
  import opened ReplayCodec
  import opened WriteTheorems

  /** The requests a call makes, in order. */
  datatype Point = LookupGet | LockSet | LostRaceGet | RecheckGet | Query | Statements | ResultSet | LockRelease

  /** What interrupts this call, if anything does: a request that fails, whatever the reason, a reply
      that is lost after its request took effect, or a call cut off with its transaction still open. */
  datatype Fault =
    | NoFault
    | FailsAt(point: Point)
    | LockReplyLost
    | CommitReplyLost
    | SaveReplyLost
    | UnlockReplyLost
    | CutOff

  /** What surrounds one call: everything other workers and the clock do before its k-th request,
      how many times they act while it waits for a row lock, its fault, and whether its arguments
      and acting account pass the checks. */
  datatype Scene = Scene(others: nat -> seq<Action>, patience: nat, fault: Fault, permitted: bool)

  datatype Outcome = Answered(reply: Reply) | Raised | BadKey

  predicate NotBy(w: WorkerId, a: Action) {
    match a
    case Start(v, _, _, _, _) => v != w
    case Act(v, _) => v != w
    case Tick(_) => true
  }

  predicate AllNotBy(w: WorkerId, actions: seq<Action>) {
    forall i | 0 <= i < |actions| :: NotBy(w, actions[i])
  }

  ghost predicate Elsewhere(w: WorkerId, scene: Scene) {
    forall k :: AllNotBy(w, scene.others(k))
  }

  /** The outcome the caller sees and the worker's place in the machine are the same thing. */
  predicate Matches(o: Outcome, pc: Pc) {
    match o
    case Answered(reply) => pc == Done(reply)
    case Raised => pc == Stopped || pc.InDoubt?
    case BadKey => false
  }

  /** Why a call is rejected: its arguments or account, or the ceiling. */
  predicate MayReject(c: Config, s: State, w: WorkerId, scene: Scene) {
    && w in s.workers
    && var r := s.workers[w].request;
    match s.workers[w].pc
    case Callback => !scene.permitted || r.quantity <= 0.0 || r.row !in s.balances
    case InTransaction(seen) =>
      r.Discard? && r.role == Estoquista && seen > 0.0 && (r.quantity / seen) * 100.0 > c.ceilingPercent
    case _ => false
  }

  /** Why an undisturbed call raises: the row stayed locked for as long as it waited, or the balance
      would become negative. */
  predicate MayRaise(s: State, w: WorkerId) {
    && w in s.workers
    && var r := s.workers[w].request;
    match s.workers[w].pc
    case Callback => r.row in s.rowLocks
    case InTransaction(_) => r.row in s.balances ==> s.balances[r.row] + Delta(r) < 0.0
    case _ => false
  }

  /** Where the call turned away from success, and why. */
  predicate TurnedAway(c: Config, s: State, w: WorkerId, a: Action, scene: Scene, o: Outcome) {
    && (o == Answered(Rejected) ==> a == Act(w, Refuse) && MayReject(c, s, w, scene))
    && (o == Raised && scene.fault.NoFault? ==> a == Act(w, Fail) && MayRaise(s, w))
  }

  // ---- What the call does, and what happens around it ----

  /** A run seen from one call: its own actions, and the k-th thing its scene has the others do. */
  datatype Piece = Mine(action: Action) | Theirs(k: nat)

  function Played(scene: Scene, course: seq<Piece>): seq<Action> {
    if course == [] then [] else
      Played(scene, course[..|course| - 1]) +
      match course[|course| - 1]
      case Mine(a) => [a]
      case Theirs(k) => scene.others(k)
  }

  function Reached(c: Config, scene: Scene, start: State, course: seq<Piece>): State {
    Run(c, start, Played(scene, course))
  }

  /** The call's own actions. */
  function Moves(course: seq<Piece>): seq<Action> {
    if course == [] then [] else
      Moves(course[..|course| - 1]) + if course[|course| - 1].Mine? then [course[|course| - 1].action] else []
  }

  /** One request the call makes, and the point at which a fault can strike it. */
  datatype Ask = Ask(point: Option<Point>, op: Op)

  /** How a call fares while nothing interrupts it. */
  datatype Path = HitAtOnce | LostTheRace | HitUnderLock | RejectedEarly | RowBusy | RejectedLate | Overdrawn | Commits

  const LOOKUP: Ask := Ask(Some(LookupGet), Get)
  const LOCK: Ask := Ask(Some(LockSet), TryLock(true))
  const RECHECK: Ask := Ask(Some(RecheckGet), Get)
  const SAVE: Ask := Ask(Some(ResultSet), Save(true))
  const UNLOCK: Ask := Ask(Some(LockRelease), Unlock(true))

  /** What the callback first asks of the database. */
  function QueryOf(path: Path): Ask {
    Ask(Some(Query), if path.RejectedEarly? then Refuse else if path.RowBusy? then Fail else Select)
  }

  /** What it then does with the row. */
  function StatementOf(path: Path): Ask {
    if path.RejectedLate? then Ask(None, Refuse)
    else Ask(Some(Statements), if path.Overdrawn? then Fail else Commit(true))
  }

  function Body(path: Path): seq<Ask> {
    if path.RejectedEarly? || path.RowBusy? then [QueryOf(path)] else [QueryOf(path)] + [StatementOf(path)]
  }

  predicate InTheCallback(path: Path) {
    !path.HitAtOnce? && !path.LostTheRace? && !path.HitUnderLock?
  }

  predicate Refused(path: Path) {
    path.RejectedEarly? || path.RejectedLate?
  }

  /** The callback and what follows it. */
  function CallbackAsks(path: Path): seq<Ask> {
    Body(path) +
    if Refused(path) then [UNLOCK] else if path.Commits? then [SAVE] + [UNLOCK] else []
  }

  function AfterMiss(path: Path): seq<Ask> {
    if path.LostTheRace? then [LOCK] + [Ask(Some(LostRaceGet), Get)]
    else [LOCK] + ([RECHECK] + UnderLock(path))
  }

  function UnderLock(path: Path): seq<Ask> {
    if path.HitUnderLock? then [UNLOCK] else CallbackAsks(path)
  }

  /** All requests of a call on this path. */
  function Requests(path: Path): seq<Ask> {
    if path.HitAtOnce? then [LOOKUP] else [LOOKUP] + AfterMiss(path)
  }

  /** What a fault makes of a request; None when it leaves it alone. */
  function Struck(a: Ask, fault: Fault): Option<Op> {
    match fault
    case FailsAt(point) => if a.point == Some(point) then Some(Fail) else None
    case CutOff => if a.point == Some(Statements) then Some(Abandon) else None
    case LockReplyLost => if a.op.TryLock? then Some(TryLock(false)) else None
    case CommitReplyLost => if a.op.Commit? then Some(Commit(false)) else None
    case SaveReplyLost => if a.op.Save? then Some(Save(false)) else None
    case UnlockReplyLost => if a.op.Unlock? then Some(Unlock(false)) else None
    case NoFault => None
  }

  /** What is left of the requests: the first one struck is the call's last. */
  function Interrupted(asks: seq<Ask>, fault: Fault): seq<Op> {
    if asks == [] then [] else
      match Struck(asks[0], fault)
      case Some(op) => [op]
      case None => [asks[0].op] + Interrupted(asks[1..], fault)
  }

  predicate Untouched(asks: seq<Ask>, fault: Fault) {
    forall i | 0 <= i < |asks| :: Struck(asks[i], fault).None?
  }

  function Told(w: WorkerId, asks: seq<Ask>, fault: Fault): seq<Action> {
    var ops := Interrupted(asks, fault);
    seq(|ops|, i requires 0 <= i < |ops| => Act(w, ops[i]))
  }

  lemma {:induction false} ToldConcat(w: WorkerId, a: seq<Ask>, b: seq<Ask>, fault: Fault)
    ensures Told(w, a + b, fault) == Told(w, a, fault) + if Untouched(a, fault) then Told(w, b, fault) else []
  {
    if a == [] {
      assert a + b == b;
    } else {
      var rest := a[1..];
      assert (a + b)[1..] == rest + b && (a + b)[0] == a[0] && [a[0]] + rest == a;
      UntouchedNext(a[0], rest, fault);
      ToldConcat(w, rest, b, fault);
      ToldHead(w, a, fault);
      ToldHead(w, a + b, fault);
      hide *;
      if Struck(a[0], fault).None? {
        Assoc([Act(w, a[0].op)], Told(w, rest, fault), if Untouched(rest, fault) then Told(w, b, fault) else []);
      }
    }
  }

  lemma ToldHead(w: WorkerId, asks: seq<Ask>, fault: Fault)
    requires asks != []
    ensures Told(w, asks, fault) == match Struck(asks[0], fault)
      case Some(op) => [Act(w, op)]
      case None => [Act(w, asks[0].op)] + Told(w, asks[1..], fault)
  {
    hide Struck;
  }

  /** The next request: struck, it is the last. */
  lemma AskNext(w: WorkerId, told: seq<Action>, a: Ask, rest: seq<Ask>, fault: Fault)
    ensures told + Told(w, [a] + rest, fault) == match Struck(a, fault)
      case Some(op) => told + [Act(w, op)]
      case None => (told + [Act(w, a.op)]) + Told(w, rest, fault)
  {
    hide Struck;
    assert ([a] + rest)[1..] == rest;
    ToldHead(w, [a] + rest, fault);
    hide Told;
  }

  lemma ToldOne(w: WorkerId, a: Ask, fault: Fault)
    ensures Told(w, [a], fault) == [Act(w, if Struck(a, fault).Some? then Struck(a, fault).value else a.op)]
    ensures Untouched([a], fault) <==> Struck(a, fault).None?
  {
    hide Struck;
    ToldHead(w, [a], fault);
    assert [a][1..] == [];
    assert Told(w, [], fault) == [];
  }

  // ---- Following the machine ----

  ghost predicate Follows(c: Config, scene: Scene, start: State, course: seq<Piece>, s: State) {
    s == Reached(c, scene, start, course)
  }

  /** The call's next action. */
  lemma Next(c: Config, scene: Scene, start: State, course: seq<Piece>, s: State, a: Action)
    requires Follows(c, scene, start, course, s)
    ensures Follows(c, scene, start, course + [Mine(a)], Step(c, s, a))
    ensures Moves(course + [Mine(a)]) == Moves(course) + [a]
  {
    hide Step;
    assert (course + [Mine(a)])[..|course|] == course;
    RunOne(c, start, Played(scene, course), a);
  }

  /** The others' k-th part. */
  lemma NextOthers(c: Config, scene: Scene, start: State, course: seq<Piece>, s: State, k: nat)
    requires Follows(c, scene, start, course, s)
    ensures Follows(c, scene, start, course + [Theirs(k)], Run(c, s, scene.others(k)))
    ensures Moves(course + [Theirs(k)]) == Moves(course)
  {
    hide Run;
    assert (course + [Theirs(k)])[..|course|] == course;
    RunConcat(c, start, Played(scene, course), scene.others(k));
    assert Moves(course) + [] == Moves(course);
  }

  /** What others do leaves this call where it is. */
  lemma {:induction false} OthersLeaveIt(c: Config, s: State, actions: seq<Action>, w: WorkerId)
    requires AllNotBy(w, actions)
    ensures w in s.workers ==> w in Run(c, s, actions).workers && Run(c, s, actions).workers[w] == s.workers[w]
    ensures w !in s.workers ==> w !in Run(c, s, actions).workers
  {
    if actions != [] {
      var before, a := actions[..|actions| - 1], actions[|actions| - 1];
      OthersLeaveIt(c, s, before, w);
      OtherLeavesIt(c, Run(c, s, before), a, w);
    }
  }

  lemma OtherLeavesIt(c: Config, s: State, a: Action, w: WorkerId)
    requires NotBy(w, a)
    ensures w in s.workers ==> w in Step(c, s, a).workers && Step(c, s, a).workers[w] == s.workers[w]
    ensures w !in s.workers ==> w !in Step(c, s, a).workers
  {
    if a.Act? && a.w in s.workers {
      hide StepWorker;
      OnlyOneMoves(c, s, a.w, a.op);
    }
  }

  lemma SamePrefix(a: seq<Piece>, b: seq<Piece>, n: nat)
    requires a <= b && n < |a|
    ensures b[..n] == a[..n] && b[n] == a[n]
  {
  }

  lemma InBalances(c: Config, s: State, w: WorkerId)
    requires w in s.workers && Committable(c, s, w)
    ensures s.workers[w].request.row in s.balances
  {
  }

  lemma MovementIs(s: State, w: WorkerId)
    requires w in s.workers && s.workers[w].request.row in s.balances
    ensures var r := s.workers[w].request;
            MovementOf(s, w) == Movement(w, s.workers[w].key, r, s.now, s.balances[r.row], s.balances[r.row] + Delta(r))
  {
  }

  /** A commit, spelled out. */
  lemma CommitIs(c: Config, s: State, w: WorkerId, replied: bool, m: Movement)
    requires w in s.workers && s.workers[w].pc.InTransaction? && Committable(c, s, w) && m == MovementOf(s, w)
    ensures var more := if m.request.Discard? then [DisposalItem(m.request.row, m.request.quantity)] else [];
            Step(c, s, Act(w, Commit(replied))) ==
            State(s.now, s.workers[w := s.workers[w].(pc := if replied then Store(m) else Stopped)], s.cache, s.locks,
                  s.rowLocks - {m.request.row}, s.balances[m.request.row := m.after], s.log + [m], s.items + more)
  {
    hide Committable;
  }

  // ---- Redis and PostgreSQL, as their clients see them ----

  class Service {
    const c: Config
    var now: int
    var cache: map<Key, Cached>
    var locks: map<Key, WorkerId>
    var rowLocks: map<RowId, WorkerId>
    var balances: map<RowId, real>
    var log: seq<Movement>
    var items: seq<DisposalItem>
    var workers: map<WorkerId, Worker>

    constructor (c: Config, now: int)
      ensures this.c == c && View() == Initial(c, now)
    {
      this.c := c;
      this.now := now;
      cache, locks, rowLocks, balances := map[], map[], map[], c.initial;
      log, items, workers := [], [], map[];
    }

    function View(): State
      reads this
    {
      State(now, workers, cache, locks, rowLocks, balances, log, items)
    }

    predicate Here(w: WorkerId, key: Key, request: Request, pc: Pc)
      reads this
    {
      w in workers && workers[w] == Worker(key, request, pc)
    }

    /** Everything the others do before the k-th request. */
    method Interlude(k: nat, w: WorkerId, scene: Scene, ghost start: State, ghost course: seq<Piece>) returns (ghost longer: seq<Piece>)
      requires Elsewhere(w, scene) && Follows(c, scene, start, course, View())
      modifies this
      ensures Follows(c, scene, start, longer, View())
      ensures w in old(workers) ==> w in workers && workers[w] == old(workers[w])
      ensures w !in old(workers) ==> w !in workers
      ensures longer == course + [Theirs(k)] && Moves(longer) == Moves(course)
    {
      hide Follows, Moves;
      var s := Run(c, View(), scene.others(k));
      OthersLeaveIt(c, View(), scene.others(k), w);
      NextOthers(c, scene, start, course, View(), k);
      longer := course + [Theirs(k)];
      now, workers, cache, locks := s.now, s.workers, s.cache, s.locks;
      rowLocks, balances, log, items := s.rowLocks, s.balances, s.log, s.items;
    }

    /** GET of the cached result. */
    method GetCached(key: Key) returns (hit: Option<Movement>)
      ensures hit == if Live(View(), key) then Some(cache[key].result) else None
    {
      hit := if key in cache && now < cache[key].expires then Some(cache[key].result) else None;
    }

    method Place(w: WorkerId, pc: Pc)
      requires w in workers
      modifies this`workers
      ensures workers == old(workers)[w := old(workers)[w].(pc := pc)]
    {
      workers := workers[w := workers[w].(pc := pc)];
    }

    /** An exception this call does not handle: an open transaction is rolled back, the lock stays. */
    method Break(w: WorkerId, scene: Scene, ghost start: State, ghost course: seq<Piece>) returns (ghost longer: seq<Piece>)
      requires Follows(c, scene, start, course, View()) && w in workers && !workers[w].pc.Done?
      modifies this
      ensures longer == course + [Mine(Act(w, Fail))] && Moves(longer) == Moves(course) + [Act(w, Fail)]
      ensures Follows(c, scene, start, longer, View())
      ensures w in workers && workers[w] == old(workers[w]).(pc := Stopped)
    {
      hide Follows, Moves;
      Next(c, scene, start, course, View(), Act(w, Fail));
      if workers[w].pc.InTransaction? || workers[w].pc.InDoubt? {
        rowLocks := rowLocks - {workers[w].request.row};
      }
      Place(w, Stopped);
      longer := course + [Mine(Act(w, Fail))];
    }

    /** lock.release() and the end of the call. */
    method Release(w: WorkerId, key: Key, request: Request, reply: Reply, scene: Scene, ghost start: State, ghost course: seq<Piece>)
      returns (outcome: Outcome, ghost longer: seq<Piece>)
      requires Follows(c, scene, start, course, View())
      requires Here(w, key, request, Pc.Release(reply))
      modifies this
      ensures Follows(c, scene, start, longer, View()) && course <= longer
      ensures Moves(longer) == Moves(course) + Told(w, [UNLOCK], scene.fault)
      ensures outcome == if scene.fault in {FailsAt(LockRelease), UnlockReplyLost} then Raised else Answered(reply)
      ensures w in workers && workers[w].key == key && workers[w].request == request && Matches(outcome, workers[w].pc)
    {
      hide Follows, Moves, Told;
      ToldOne(w, UNLOCK, scene.fault);
      longer := course;
      if scene.fault == FailsAt(LockRelease) {
        longer := Break(w, scene, start, longer);
        return Raised, longer;
      }
      var replied := !scene.fault.UnlockReplyLost?;
      Next(c, scene, start, longer, View(), Act(w, Unlock(replied)));
      if key in locks && locks[key] == w {
        locks := locks - {key};
      }
      Place(w, if replied then Done(reply) else Stopped);
      longer := longer + [Mine(Act(w, Unlock(replied)))];
      outcome := if replied then Answered(reply) else Raised;
    }

    /** The callback: discard_batch or receive_inventory, in one transaction. None when it raises anything
        but a rejection; then the call is over. */
    method MoveStock(w: WorkerId, key: Key, request: Request, scene: Scene, ghost start: State, ghost course: seq<Piece>)
      returns (result: Option<Movement>, rejected: bool, ghost longer: seq<Piece>, ghost turn: nat, ghost path: Path)
      requires Elsewhere(w, scene) && Follows(c, scene, start, course, View())
      requires Here(w, key, request, Callback)
      modifies this
      ensures Follows(c, scene, start, longer, View())
      ensures Moves(longer) == Moves(course) + Told(w, Body(path), scene.fault) && InTheCallback(path)
      ensures rejected <==> Refused(path) && Untouched(Body(path), scene.fault)
      ensures result.Some? <==> path.Commits? && Untouched(Body(path), scene.fault)
      ensures result.Some? ==> Here(w, key, request, Store(result.value))
      ensures rejected ==> Here(w, key, request, Pc.Release(Rejected))
      ensures result.None? && !rejected ==>
        w in workers && workers[w].key == key && workers[w].request == request && Matches(Raised, workers[w].pc)
      ensures rejected ==> turn < |longer| && longer[turn] == Mine(Act(w, Refuse)) && MayReject(c, Reached(c, scene, start, longer[..turn]), w, scene)
      ensures result.None? && !rejected && scene.fault.NoFault? ==>
        turn < |longer| && longer[turn] == Mine(Act(w, Fail)) && MayRaise(Reached(c, scene, start, longer[..turn]), w)
    {
      hide Follows, Moves, Reached, MayReject, MayRaise, Elsewhere, Told, Struck;
      result := None;
      var seen;
      seen, rejected, longer, turn, path := LockRow(w, key, request, scene, start, course);
      ToldOne(w, QueryOf(path), scene.fault);
      if seen.Some? {
        ghost var told := Moves(longer);
        longer := Interlude(4, w, scene, start, longer);
        result, rejected, longer, turn, path := ChangeRow(w, key, request, seen.value, scene, start, longer);
        ToldOne(w, StatementOf(path), scene.fault);
        AskNext(w, Moves(course), QueryOf(path), [StatementOf(path)], scene.fault);
        UntouchedNext(QueryOf(path), [StatementOf(path)], scene.fault);
      }
    }

    /** The checks and SELECT ... FOR UPDATE; the balance it reads, if it gets the row. */
    method LockRow(w: WorkerId, key: Key, request: Request, scene: Scene, ghost start: State, ghost course: seq<Piece>)
      returns (seen: Option<real>, rejected: bool, ghost longer: seq<Piece>, ghost turn: nat, ghost path: Path)
      requires Elsewhere(w, scene) && Follows(c, scene, start, course, View())
      requires Here(w, key, request, Callback)
      modifies this
      ensures Follows(c, scene, start, longer, View())
      ensures Moves(longer) == Moves(course) + Told(w, [QueryOf(path)], scene.fault)
      ensures path.RejectedEarly? || path.RowBusy? || path.Commits?
      ensures !path.RowBusy? ==> Struck(QueryOf(path), scene.fault).None?
      ensures seen.Some? <==> path.Commits?
      ensures rejected <==> path.RejectedEarly?
      ensures seen.Some? ==> Here(w, key, request, InTransaction(seen.value))
      ensures rejected ==> Here(w, key, request, Pc.Release(Rejected))
      ensures path.RowBusy? ==> Here(w, key, request, Stopped)
      ensures rejected ==> turn < |longer| && longer[turn] == Mine(Act(w, Refuse)) && MayReject(c, Reached(c, scene, start, longer[..turn]), w, scene)
      ensures path.RowBusy? && scene.fault.NoFault? ==>
        turn < |longer| && longer[turn] == Mine(Act(w, Fail)) && MayRaise(Reached(c, scene, start, longer[..turn]), w)
    {
      hide Moves, Reached, Told;
      seen, rejected, turn, path := None, false, 0, RowBusy;
      longer := Interlude(3, w, scene, start, course);
      if scene.fault == FailsAt(Query) {
        ToldOne(w, QueryOf(path), scene.fault);
        longer := Break(w, scene, start, longer);
        return;
      }
      if scene.permitted && request.quantity > 0.0 {
        longer := AwaitRow(w, key, request, scene, start, longer);
      }
      turn := |longer|;
      if !scene.permitted || request.quantity <= 0.0 || request.row !in balances {
        longer := GiveBack(w, scene, start, longer);
        rejected, path := true, RejectedEarly;
      } else if request.row in rowLocks {
        longer := Break(w, scene, start, longer);
      } else {
        Next(c, scene, start, longer, View(), Act(w, Select));
        seen, path := Some(balances[request.row]), Commits;
        rowLocks := rowLocks[request.row := w];
        Place(w, InTransaction(seen.value));
        longer := longer + [Mine(Act(w, Select))];
      }
      ToldOne(w, QueryOf(path), scene.fault);
    }

    /** The ceiling check and the statements up to COMMIT. */
    method ChangeRow(w: WorkerId, key: Key, request: Request, seen: real, scene: Scene, ghost start: State, ghost course: seq<Piece>)
      returns (result: Option<Movement>, rejected: bool, ghost longer: seq<Piece>, ghost turn: nat, ghost path: Path)
      requires Follows(c, scene, start, course, View())
      requires Here(w, key, request, InTransaction(seen))
      modifies this
      ensures Follows(c, scene, start, longer, View())
      ensures Moves(longer) == Moves(course) + Told(w, [StatementOf(path)], scene.fault)
      ensures path.RejectedLate? || path.Overdrawn? || path.Commits?
      ensures rejected <==> path.RejectedLate?
      ensures rejected ==> Struck(StatementOf(path), scene.fault).None?
      ensures result.Some? <==> path.Commits? && Struck(StatementOf(path), scene.fault).None?
      ensures result.Some? ==> Here(w, key, request, Store(result.value))
      ensures rejected ==> Here(w, key, request, Pc.Release(Rejected))
      ensures result.None? && !rejected ==>
        w in workers && workers[w].key == key && workers[w].request == request && Matches(Raised, workers[w].pc)
      ensures rejected ==> turn < |longer| && longer[turn] == Mine(Act(w, Refuse)) && MayReject(c, Reached(c, scene, start, longer[..turn]), w, scene)
      ensures result.None? && !rejected && scene.fault.NoFault? ==>
        turn < |longer| && longer[turn] == Mine(Act(w, Fail)) && MayRaise(Reached(c, scene, start, longer[..turn]), w)
    {
      hide Moves, Reached, Told;
      result, rejected, turn := None, false, |course|;
      if request.Discard? && request.role == Estoquista && seen > 0.0 && (request.quantity / seen) * 100.0 > c.ceilingPercent {
        longer := GiveBack(w, scene, start, course);
        rejected, path := true, RejectedLate;
      } else if scene.fault.CutOff? {
        longer := LeaveOpen(w, scene, start, course);
        path := Commits;
      } else if scene.fault == FailsAt(Statements) || request.row !in balances || balances[request.row] + Delta(request) < 0.0 {
        longer := Break(w, scene, start, course);
        path := Overdrawn;
      } else {
        var m;
        m, longer := CommitMove(w, key, request, seen, !scene.fault.CommitReplyLost?, scene, start, course);
        result := if scene.fault.CommitReplyLost? then None else Some(m);
        path := Commits;
      }
      ToldOne(w, StatementOf(path), scene.fault);
    }

    /** FOR UPDATE waits while others hold the row. */
    method AwaitRow(w: WorkerId, key: Key, request: Request, scene: Scene, ghost start: State, ghost course: seq<Piece>)
      returns (ghost longer: seq<Piece>)
      requires Elsewhere(w, scene) && Follows(c, scene, start, course, View())
      requires Here(w, key, request, Callback)
      modifies this
      ensures Follows(c, scene, start, longer, View()) && Here(w, key, request, Callback)
      ensures Moves(longer) == Moves(course)
    {
      hide Follows, Moves;
      longer := course;
      var n := 0;
      while n < scene.patience && request.row in rowLocks
        invariant Follows(c, scene, start, longer, View()) && Here(w, key, request, Callback)
        invariant Moves(longer) == Moves(course)
      {
        longer := Interlude(7 + n, w, scene, start, longer);
        n := n + 1;
      }
    }

    /** The call is gone; whether its transaction commits is left to the database. */
    method LeaveOpen(w: WorkerId, scene: Scene, ghost start: State, ghost course: seq<Piece>) returns (ghost longer: seq<Piece>)
      requires Follows(c, scene, start, course, View()) && w in workers && workers[w].pc.InTransaction?
      modifies this`workers
      ensures longer == course + [Mine(Act(w, Abandon))] && Moves(longer) == Moves(course) + [Act(w, Abandon)]
      ensures Follows(c, scene, start, longer, View())
      ensures w in workers && workers[w] == old(workers[w]).(pc := InDoubt(old(workers[w]).pc.seen))
    {
      hide Follows, Moves;
      Next(c, scene, start, course, View(), Act(w, Abandon));
      Place(w, InDoubt(workers[w].pc.seen));
      longer := course + [Mine(Act(w, Abandon))];
    }

    /** Rolls back and passes the callback's ValueError or PermissionError on. */
    method GiveBack(w: WorkerId, scene: Scene, ghost start: State, ghost course: seq<Piece>) returns (ghost longer: seq<Piece>)
      requires Follows(c, scene, start, course, View()) && w in workers && Refusable(c, View(), w)
      modifies this
      ensures longer == course + [Mine(Act(w, Refuse))] && Moves(longer) == Moves(course) + [Act(w, Refuse)]
      ensures Follows(c, scene, start, longer, View())
      ensures w in workers && workers[w] == old(workers[w]).(pc := Pc.Release(Rejected))
    {
      hide Follows, Moves;
      Next(c, scene, start, course, View(), Act(w, Refuse));
      if workers[w].pc.InTransaction? {
        rowLocks := rowLocks - {workers[w].request.row};
      }
      Place(w, Pc.Release(Rejected));
      longer := course + [Mine(Act(w, Refuse))];
    }

    /** The disposal rows, fn_atomic_update_inventory and COMMIT. */
    method CommitMove(w: WorkerId, key: Key, request: Request, seen: real, replied: bool, scene: Scene, ghost start: State, ghost course: seq<Piece>)
      returns (m: Movement, ghost longer: seq<Piece>)
      requires Follows(c, scene, start, course, View())
      requires Here(w, key, request, InTransaction(seen)) && Committable(c, View(), w)
      modifies this
      ensures longer == course + [Mine(Act(w, Commit(replied)))] && Moves(longer) == Moves(course) + [Act(w, Commit(replied))]
      ensures Follows(c, scene, start, longer, View())
      ensures Here(w, key, request, if replied then Store(m) else Stopped)
      ensures m == Movement(w, key, request, old(now), old(balances)[request.row], old(balances)[request.row] + Delta(request))
    {
      InBalances(c, View(), w);
      MovementIs(View(), w);
      hide Step, Follows, Moves, Committable, MovementOf, Delta, ExceedsCeiling, Open, Played, Reached, Run;
      Next(c, scene, start, course, View(), Act(w, Commit(replied)));
      CommitIs(c, View(), w, replied, MovementOf(View(), w));
      assert items + [] == items;
      m := Record(w, key, request);
      rowLocks := rowLocks - {request.row};
      Place(w, if replied then Store(m) else Stopped);
      longer := course + [Mine(Act(w, Commit(replied)))];
    }

    /** What the transaction writes. */
    method Record(w: WorkerId, key: Key, request: Request) returns (m: Movement)
      requires request.row in balances
      modifies this`items, this`balances, this`log
      ensures m == Movement(w, key, request, now, old(balances)[request.row], old(balances)[request.row] + Delta(request))
      ensures items == old(items) + if request.Discard? then [DisposalItem(request.row, request.quantity)] else []
      ensures balances == old(balances)[request.row := m.after] && log == old(log) + [m]
    {
      if request.Discard? {
        items := items + [DisposalItem(request.row, request.quantity)];
      }
      var before := balances[request.row];
      m := Movement(w, key, request, now, before, before + Delta(request));
      balances := balances[request.row := m.after];
      log := log + [m];
    }

    /** SET with the TTL, then release. */
    method SaveAndRelease(w: WorkerId, key: Key, request: Request, m: Movement, scene: Scene, ghost start: State, ghost course: seq<Piece>)
      returns (outcome: Outcome, ghost longer: seq<Piece>)
      requires Elsewhere(w, scene) && Follows(c, scene, start, course, View())
      requires Here(w, key, request, Store(m))
      modifies this
      ensures Follows(c, scene, start, longer, View())
      ensures Moves(longer) == Moves(course) + Told(w, [SAVE] + [UNLOCK], scene.fault)
      ensures outcome == if scene.fault in {FailsAt(ResultSet), SaveReplyLost, FailsAt(LockRelease), UnlockReplyLost} then Raised else Answered(Returned(m))
      ensures w in workers && workers[w].key == key && workers[w].request == request && Matches(outcome, workers[w].pc)
    {
      hide Follows, Moves, Told, Elsewhere;
      AskNext(w, Moves(course), SAVE, [UNLOCK], scene.fault);
      longer := Interlude(5, w, scene, start, course);
      if scene.fault == FailsAt(ResultSet) {
        longer := Break(w, scene, start, longer);
        return Raised, longer;
      }
      var replied := !scene.fault.SaveReplyLost?;
      Next(c, scene, start, longer, View(), Act(w, Save(replied)));
      cache := cache[key := Cached(m, now + c.ttl)];
      Place(w, if replied then Pc.Release(Returned(m)) else Stopped);
      longer := longer + [Mine(Act(w, Save(replied)))];
      if !replied {
        return Raised, longer;
      }
      longer := Interlude(6, w, scene, start, longer);
      outcome, longer := Release(w, key, request, Returned(m), scene, start, longer);
    }

    /** run_idempotent(company, scoped_write_key(user, operation, client), callback). The course splits what
        happens into the call's own actions, which are the requests of its path up to the fault, and the
        others' parts of the scene. */
    method RunIdempotent(w: WorkerId, company: int, user: int, client: string, request: Request, scene: Scene)
      returns (outcome: Outcome, ghost course: seq<Piece>, ghost turn: nat, ghost path: Path)
      requires w !in workers && Elsewhere(w, scene)
      modifies this
      ensures outcome.BadKey? <==> client == "" || ':' in client || |client| > 128
      ensures View() == Run(c, old(View()), Played(scene, course))
      ensures outcome.BadKey? ==> course == []
      ensures !outcome.BadKey? ==>
        && Moves(course) == [Start(w, company, user, client, request)] + Told(w, Requests(path), scene.fault)
        && w in workers && workers[w].key == ScopedKey(company, user, client, request) && workers[w].request == request
        && Matches(outcome, workers[w].pc)
      ensures outcome == Answered(Rejected) || (outcome.Raised? && scene.fault.NoFault?) ==>
        turn < |course| && course[turn].Mine?
        && TurnedAway(c, Run(c, old(View()), Played(scene, course[..turn])), w, course[turn].action, scene, outcome)
    {
      course, turn, path := [], 0, HitAtOnce;
      StartFollowing(c, scene, View());
      if !ValidKey(client) {
        return BadKey, course, turn, path;
      }
      ghost var start := View();
      hide Run, Played, Moves, Told, TurnedAway, Elsewhere, ScopedKey, Follows, Reached, Requests;
      var key := ScopedKey(company, user, client, request);
      course := Interlude(0, w, scene, start, course);
      course := Enter(w, key, company, user, client, request, scene, start, course);
      assert [] + [Start(w, company, user, client, request)] == [Start(w, company, user, client, request)];
      outcome, course, turn, path := Look(w, key, request, scene, start, course);
      ReachedIsRun(c, scene, start, course, View());
      ReachedIsRun(c, scene, start, course[..if turn < |course| then turn else 0], View());
    }

    /** The first look at the cache. */
    method Look(w: WorkerId, key: Key, request: Request, scene: Scene, ghost start: State, ghost course: seq<Piece>)
      returns (outcome: Outcome, ghost longer: seq<Piece>, ghost turn: nat, ghost path: Path)
      requires Elsewhere(w, scene) && Follows(c, scene, start, course, View())
      requires Here(w, key, request, Lookup)
      modifies this
      ensures !outcome.BadKey? && Follows(c, scene, start, longer, View())
      ensures Moves(longer) == Moves(course) + Told(w, Requests(path), scene.fault)
      ensures w in workers && workers[w].key == key && workers[w].request == request && Matches(outcome, workers[w].pc)
      ensures outcome == Answered(Rejected) || (outcome.Raised? && scene.fault.NoFault?) ==>
        turn < |longer| && longer[turn].Mine? && TurnedAway(c, Reached(c, scene, start, longer[..turn]), w, longer[turn].action, scene, outcome)
    {
      hide Follows, Moves, Told, TurnedAway, Elsewhere, Reached, Requests;
      turn, path := 0, HitAtOnce;
      FirstAsk(w, Moves(course), path, scene.fault);
      if scene.fault == FailsAt(LookupGet) {
        longer := Break(w, scene, start, course);
        return Raised, longer, turn, path;
      }
      var cached := GetCached(key);
      longer := Seen(w, key, request, cached, Lookup, scene, start, course);
      if cached.Some? {
        return Answered(Returned(cached.value)), longer, turn, path;
      }
      outcome, longer, turn, path := Compete(w, key, request, scene, start, longer);
      FirstAsk(w, Moves(course), path, scene.fault);
    }

    /** After a miss: the lock, and a second look. */
    method Compete(w: WorkerId, key: Key, request: Request, scene: Scene, ghost start: State, ghost course: seq<Piece>)
      returns (outcome: Outcome, ghost longer: seq<Piece>, ghost turn: nat, ghost path: Path)
      requires Elsewhere(w, scene) && Follows(c, scene, start, course, View())
      requires Here(w, key, request, Acquire)
      modifies this
      ensures Follows(c, scene, start, longer, View())
      ensures Moves(longer) == Moves(course) + Told(w, AfterMiss(path), scene.fault) && !path.HitAtOnce?
      ensures w in workers && workers[w].key == key && workers[w].request == request && Matches(outcome, workers[w].pc)
      ensures outcome == Answered(Rejected) || (outcome.Raised? && scene.fault.NoFault?) ==>
        turn < |longer| && longer[turn].Mine? && TurnedAway(c, Reached(c, scene, start, longer[..turn]), w, longer[turn].action, scene, outcome)
    {
      hide Follows, Moves, Told, TurnedAway, Elsewhere, Reached;
      turn, path := 0, LostTheRace;
      LockAsk(w, Moves(course), path, scene.fault);
      longer := Interlude(1, w, scene, start, course);
      if scene.fault == FailsAt(LockSet) {
        longer := Break(w, scene, start, longer);
        return Raised, longer, turn, path;
      }
      var acquired, replied;
      acquired, replied, longer := TryAcquire(w, key, request, scene, start, longer);
      if !replied {
        return Raised, longer, turn, path;
      }
      longer := Interlude(2, w, scene, start, longer);
      if acquired {
        outcome, longer, turn, path := LookAgain(w, key, request, scene, start, longer);
        LockAsk(w, Moves(course), path, scene.fault);
      } else {
        outcome, longer := LoseRace(w, key, request, scene, start, longer);
      }
    }

    /** The lock was taken: perhaps its owner has finished meanwhile. */
    method LoseRace(w: WorkerId, key: Key, request: Request, scene: Scene, ghost start: State, ghost course: seq<Piece>)
      returns (outcome: Outcome, ghost longer: seq<Piece>)
      requires Follows(c, scene, start, course, View())
      requires Here(w, key, request, LostRace)
      modifies this
      ensures Follows(c, scene, start, longer, View())
      ensures Moves(longer) == Moves(course) + Told(w, [Ask(Some(LostRaceGet), Get)], scene.fault)
      ensures w in workers && workers[w].key == key && workers[w].request == request && Matches(outcome, workers[w].pc)
      ensures outcome != Answered(Rejected) && (outcome.Raised? ==> !scene.fault.NoFault?)
    {
      hide Follows, Moves, Told;
      ToldOne(w, Ask(Some(LostRaceGet), Get), scene.fault);
      if scene.fault == FailsAt(LostRaceGet) {
        longer := Break(w, scene, start, course);
        return Raised, longer;
      }
      var cached := GetCached(key);
      longer := Seen(w, key, request, cached, LostRace, scene, start, course);
      outcome := Answered(if cached.Some? then Returned(cached.value) else InProgress);
    }

    /** Under the lock: another worker may have completed since the first look. */
    method LookAgain(w: WorkerId, key: Key, request: Request, scene: Scene, ghost start: State, ghost course: seq<Piece>)
      returns (outcome: Outcome, ghost longer: seq<Piece>, ghost turn: nat, ghost path: Path)
      requires Elsewhere(w, scene) && Follows(c, scene, start, course, View())
      requires Here(w, key, request, Recheck)
      modifies this
      ensures Follows(c, scene, start, longer, View())
      ensures Moves(longer) == Moves(course) + Told(w, [RECHECK] + UnderLock(path), scene.fault)
      ensures !path.HitAtOnce? && !path.LostTheRace?
      ensures w in workers && workers[w].key == key && workers[w].request == request && Matches(outcome, workers[w].pc)
      ensures outcome == Answered(Rejected) || (outcome.Raised? && scene.fault.NoFault?) ==>
        turn < |longer| && longer[turn].Mine? && TurnedAway(c, Reached(c, scene, start, longer[..turn]), w, longer[turn].action, scene, outcome)
    {
      hide Follows, Moves, Told, TurnedAway, Elsewhere, Reached, CallbackAsks;
      turn, path := 0, HitUnderLock;
      AskNext(w, Moves(course), RECHECK, UnderLock(path), scene.fault);
      if scene.fault == FailsAt(RecheckGet) {
        longer := Break(w, scene, start, course);
        return Raised, longer, turn, path;
      }
      var cached := GetCached(key);
      longer := Seen(w, key, request, cached, Recheck, scene, start, course);
      if cached.Some? {
        outcome, longer := Release(w, key, request, Returned(cached.value), scene, start, longer);
      } else {
        outcome, longer, turn, path := WriteOnce(w, key, request, scene, start, longer);
        AskNext(w, Moves(course), RECHECK, UnderLock(path), scene.fault);
      }
    }

    /** The callback and what follows it, under the lock. */
    method WriteOnce(w: WorkerId, key: Key, request: Request, scene: Scene, ghost start: State, ghost course: seq<Piece>)
      returns (outcome: Outcome, ghost longer: seq<Piece>, ghost turn: nat, ghost path: Path)
      requires Elsewhere(w, scene) && Follows(c, scene, start, course, View())
      requires Here(w, key, request, Callback)
      modifies this
      ensures Follows(c, scene, start, longer, View())
      ensures Moves(longer) == Moves(course) + Told(w, CallbackAsks(path), scene.fault) && InTheCallback(path)
      ensures w in workers && workers[w].key == key && workers[w].request == request && Matches(outcome, workers[w].pc)
      ensures outcome == Answered(Rejected) || (outcome.Raised? && scene.fault.NoFault?) ==>
        turn < |longer| && longer[turn].Mine? && TurnedAway(c, Reached(c, scene, start, longer[..turn]), w, longer[turn].action, scene, outcome)
    {
      hide Follows, Moves, Told, Reached, MayReject, MayRaise, Elsewhere, Untouched, Body;
      var result, rejected;
      result, rejected, longer, turn, path := MoveStock(w, key, request, scene, start, course);
      ghost var told := Moves(course);
      BodyThen(w, told, path, scene.fault);
      if rejected {
        ghost var before := longer;
        outcome, longer := Release(w, key, request, Rejected, scene, start, longer);
        SamePrefix(before, longer, turn);
      } else if result.None? {
        outcome := Raised;
      } else {
        outcome, longer := SaveAndRelease(w, key, request, result.value, scene, start, longer);
      }
    }

    /** The call begins. */
    method Enter(w: WorkerId, key: Key, company: int, user: int, client: string, request: Request,
                 scene: Scene, ghost start: State, ghost course: seq<Piece>)
      returns (ghost longer: seq<Piece>)
      requires w !in workers && key == ScopedKey(company, user, client, request) && Follows(c, scene, start, course, View())
      modifies this`workers
      ensures Follows(c, scene, start, longer, View()) && Here(w, key, request, Lookup)
      ensures Moves(longer) == Moves(course) + [Start(w, company, user, client, request)]
    {
      hide Follows, Moves;
      Next(c, scene, start, course, View(), Start(w, company, user, client, request));
      workers := workers[w := Worker(key, request, Lookup)];
      longer := course + [Mine(Start(w, company, user, client, request))];
    }

    /** The call acts on what a GET told it. */
    method Seen(w: WorkerId, key: Key, request: Request, cached: Option<Movement>, pc: Pc, scene: Scene, ghost start: State, ghost course: seq<Piece>)
      returns (ghost longer: seq<Piece>)
      requires Follows(c, scene, start, course, View()) && Here(w, key, request, pc) && (pc.Lookup? || pc.LostRace? || pc.Recheck?)
      requires cached == if Live(View(), key) then Some(cache[key].result) else None
      modifies this`workers
      ensures Follows(c, scene, start, longer, View()) && Moves(longer) == Moves(course) + [Act(w, Get)]
      ensures Here(w, key, request,
                   if cached.Some? then (if pc.Recheck? then Pc.Release(Returned(cached.value)) else Done(Returned(cached.value)))
                   else if pc.Lookup? then Acquire else if pc.LostRace? then Done(InProgress) else Callback)
    {
      hide Follows, Moves;
      Next(c, scene, start, course, View(), Act(w, Get));
      Place(w, if cached.Some? then (if pc.Recheck? then Pc.Release(Returned(cached.value)) else Done(Returned(cached.value)))
               else if pc.Lookup? then Acquire else if pc.LostRace? then Done(InProgress) else Callback);
      longer := course + [Mine(Act(w, Get))];
    }

    /** lock.acquire(blocking=False): SET NX without expiry. */
    method TryAcquire(w: WorkerId, key: Key, request: Request, scene: Scene, ghost start: State, ghost course: seq<Piece>)
      returns (acquired: bool, replied: bool, ghost longer: seq<Piece>)
      requires Follows(c, scene, start, course, View()) && Here(w, key, request, Acquire)
      modifies this
      ensures replied == !scene.fault.LockReplyLost? && acquired == (key !in old(locks))
      ensures Follows(c, scene, start, longer, View()) && Moves(longer) == Moves(course) + [Act(w, TryLock(replied))]
      ensures Here(w, key, request, if !replied then Stopped else if acquired then Recheck else LostRace)
    {
      hide Follows, Moves;
      replied := !scene.fault.LockReplyLost?;
      Next(c, scene, start, course, View(), Act(w, TryLock(replied)));
      acquired := key !in locks;
      if acquired {
        locks := locks[key := w];
      }
      Place(w, if !replied then Stopped else if acquired then Recheck else LostRace);
      longer := course + [Mine(Act(w, TryLock(replied)))];
    }
  }

  lemma StartFollowing(c: Config, scene: Scene, s: State)
    ensures Follows(c, scene, s, [], s) && Moves([]) == [] && s == Run(c, s, Played(scene, []))
  {
  }

  lemma ReachedIsRun(c: Config, scene: Scene, start: State, course: seq<Piece>, s: State)
    ensures Reached(c, scene, start, course) == Run(c, start, Played(scene, course))
    ensures Follows(c, scene, start, course, s) ==> s == Run(c, start, Played(scene, course))
  {
  }

  lemma UntouchedNext(a: Ask, rest: seq<Ask>, fault: Fault)
    ensures Untouched([a] + rest, fault) <==> Struck(a, fault).None? && Untouched(rest, fault)
  {
    hide Struck;
    assert forall i | 0 <= i < |rest| :: ([a] + rest)[i + 1] == rest[i];
    assert ([a] + rest)[0] == a;
    if Struck(a, fault).None? && Untouched(rest, fault) {
      forall i | 0 <= i < |[a] + rest| ensures Struck(([a] + rest)[i], fault).None? {
        assert i > 0 ==> ([a] + rest)[i] == rest[i - 1];
      }
    }
  }

  /** The first GET, and what follows it. */
  lemma FirstAsk(w: WorkerId, told: seq<Action>, path: Path, fault: Fault)
    ensures told + Told(w, Requests(path), fault) ==
      if fault == FailsAt(LookupGet) then told + [Act(w, Fail)]
      else if path.HitAtOnce? then told + [Act(w, Get)]
      else (told + [Act(w, Get)]) + Told(w, AfterMiss(path), fault)
  {
    hide AfterMiss, Told;
    if path.HitAtOnce? {
      ToldOne(w, LOOKUP, fault);
    } else {
      AskNext(w, told, LOOKUP, AfterMiss(path), fault);
    }
  }

  lemma LockAsk(w: WorkerId, told: seq<Action>, path: Path, fault: Fault)
    ensures told + Told(w, AfterMiss(path), fault) ==
      if fault == FailsAt(LockSet) then told + [Act(w, Fail)]
      else if fault.LockReplyLost? then told + [Act(w, TryLock(false))]
      else (told + [Act(w, TryLock(true))]) +
           Told(w, if path.LostTheRace? then [Ask(Some(LostRaceGet), Get)] else [RECHECK] + UnderLock(path), fault)
  {
    hide UnderLock, Told;
    AskNext(w, told, LOCK, if path.LostTheRace? then [Ask(Some(LostRaceGet), Get)] else [RECHECK] + UnderLock(path), fault);
  }

  /** After the callback: the release, the SET and the release, or nothing. */
  lemma BodyThen(w: WorkerId, told: seq<Action>, path: Path, fault: Fault)
    ensures told + Told(w, CallbackAsks(path), fault) ==
      if !Untouched(Body(path), fault) then told + Told(w, Body(path), fault)
      else (told + Told(w, Body(path), fault)) +
           (if Refused(path) then Told(w, [UNLOCK], fault) else if path.Commits? then Told(w, [SAVE] + [UNLOCK], fault) else [])
  {
    var tail := if Refused(path) then [UNLOCK] else if path.Commits? then [SAVE] + [UNLOCK] else [];
    ToldConcat(w, Body(path), tail, fault);
    assert Told(w, [], fault) == [];
    hide Body, Told, Untouched;
    Assoc(told, Told(w, Body(path), fault), Told(w, tail, fault));
    assert CallbackAsks(path) == Body(path) + tail;
    assert (told + Told(w, Body(path), fault)) + [] == told + Told(w, Body(path), fault);
    assert Told(w, Body(path), fault) + [] == Told(w, Body(path), fault);
  }
}
