/**
 Idempotent stock movements: run_idempotent (app/cache/idempotency.py) around
 discard_batch and receive_inventory (app/tools/postgres_tools.py), as a state
 machine over the steps of any number of concurrent workers.

 Redis keeps cached results with an expiry and locks without one; PostgreSQL
 keeps row locks, balances and the movement log. Every step is one atomic
 request to one of them, and at every step a worker can be refused, fail, be
 cancelled or lose the reply.
 */
module WriteProtocol {

  type WorkerId = nat
  type RowId = nat

  datatype Operation = DiscardBatch | ReceiveInventory

  /** What scoped_write_key joins and hashes; the hash is taken to be injective. */
  datatype Key = Key(company: int, user: int, operation: Operation, client: string)

  datatype Role = Estoquista | Gerente | Dono

  datatype Request =
    | Receive(row: RowId, quantity: real)
    | Discard(row: RowId, quantity: real, role: Role)

  /** A committed stock movement, as inventory_movement records it, and the call that committed it. */
  datatype Movement = Movement(call: WorkerId, key: Key, request: Request, at: int, before: real, after: real)

  datatype DisposalItem = DisposalItem(row: RowId, quantity: real)

  datatype Reply = Returned(result: Movement) | InProgress | Rejected

  /** Where a worker is in run_idempotent. Stopped is any other exception, cancellation or
      crash; InDoubt is the same while its transaction is still open in the database. */
  datatype Pc =
    | Lookup
    | Acquire
    | LostRace
    | Recheck
    | Callback
    | InTransaction(seen: real)
    | InDoubt(seen: real)
    | Store(result: Movement)
    | Release(reply: Reply)
    | Done(reply: Reply)
    | Stopped

  datatype Worker = Worker(key: Key, request: Request, pc: Pc)

  datatype Cached = Cached(result: Movement, expires: int)

  datatype Config = Config(ttl: nat, ceilingPercent: real, initial: map<RowId, real>)

  datatype State = State(
    now: int,
    workers: map<WorkerId, Worker>,
    cache: map<Key, Cached>,
    locks: map<Key, WorkerId>,
    rowLocks: map<RowId, WorkerId>,
    balances: map<RowId, real>,
    log: seq<Movement>,
    items: seq<DisposalItem>)

  /** One step of a worker. `replied` is false when the effect happens but the worker never hears of it. */
  datatype Op =
    | Get
    | TryLock(replied: bool)
    | Refuse
    | Select
    | Commit(replied: bool)
    | Save(replied: bool)
    | Unlock(replied: bool)
    | Abandon
    | Fail

  datatype Action =
    | Start(w: WorkerId, company: int, user: int, client: string, request: Request)
    | Act(w: WorkerId, op: Op)
    | Tick(elapsed: nat)

  function Initial(c: Config, now: int): State {
    State(now, map[], map[], map[], map[], c.initial, [], [])
  }

  predicate Live(s: State, k: Key) {
    k in s.cache && s.now < s.cache[k].expires
  }

  function ScopedKey(company: int, user: int, client: string, r: Request): Key {
    Key(company, user, if r.Discard? then DiscardBatch else ReceiveInventory, client)
  }

  /** The worker's transaction holds a row lock. */
  predicate Open(pc: Pc) {
    pc.InTransaction? || pc.InDoubt?
  }

  function Move(s: State, w: WorkerId, pc: Pc): State
    requires w in s.workers
  {
    s.(workers := s.workers[w := s.workers[w].(pc := pc)])
  }

  /** A lost reply raises in the worker. */
  function Hear(s: State, w: WorkerId, replied: bool, pc: Pc): State
    requires w in s.workers
  {
    Move(s, w, if replied then pc else Stopped)
  }

  /** Only GERENTE and DONO may discard more than the ceiling in one call. */
  predicate ExceedsCeiling(c: Config, r: Request, balance: real) {
    r.Discard? && r.role == Estoquista && balance > 0.0 && (r.quantity / balance) * 100.0 > c.ceilingPercent
  }

  function Delta(r: Request): real {
    if r.Receive? then r.quantity else -r.quantity
  }

  function MovementOf(s: State, w: WorkerId): Movement
    requires w in s.workers && s.workers[w].request.row in s.balances
  {
    var r := s.workers[w].request;
    Movement(w, s.workers[w].key, r, s.now, s.balances[r.row], s.balances[r.row] + Delta(r))
  }

  /** The effect of a committed transaction; fn_atomic_update_inventory adds the delta to the stored balance. */
  function Committed(s: State, w: WorkerId): State
    requires w in s.workers && s.workers[w].request.row in s.balances
  {
    var m := MovementOf(s, w);
    s.(balances := s.balances[m.request.row := m.after],
       rowLocks := s.rowLocks - {m.request.row},
       log := s.log + [m],
       items := s.items + if m.request.Discard? then [DisposalItem(m.request.row, m.request.quantity)] else [])
  }

  /** Ending a transaction without committing. */
  function RolledBack(s: State, w: WorkerId): State
    requires w in s.workers
  {
    if Open(s.workers[w].pc) then s.(rowLocks := s.rowLocks - {s.workers[w].request.row}) else s
  }

  /** A disabled action changes nothing. */
  function Step(c: Config, s: State, a: Action): State {
    match a
    case Start(w, company, user, client, request) => StepStart(s, w, ScopedKey(company, user, client, request), request)
    case Tick(elapsed) => s.(now := s.now + elapsed)
    case Act(w, op) => if w in s.workers then StepWorker(c, s, w, op) else s
  }

  function StepWorker(c: Config, s: State, w: WorkerId, op: Op): State
    requires w in s.workers
  {
    match op
    case Get => StepGet(s, w)
    case TryLock(replied) => StepTryLock(s, w, replied)
    case Refuse => StepRefuse(c, s, w)
    case Select => StepSelect(s, w)
    case Commit(replied) => StepCommit(c, s, w, replied)
    case Save(replied) => StepSave(c, s, w, replied)
    case Unlock(replied) => StepUnlock(s, w, replied)
    case Abandon => StepAbandon(s, w)
    case Fail => StepFail(s, w)
  }

  /** A worker is one call of run_idempotent; ids are not reused, as lock tokens are not. */
  function StepStart(s: State, w: WorkerId, key: Key, request: Request): State {
    if w in s.workers then s else s.(workers := s.workers[w := Worker(key, request, Lookup)])
  }

  /** A GET of the cached result, at the three places the worker makes one. */
  function StepGet(s: State, w: WorkerId): State
    requires w in s.workers
  {
    var k := s.workers[w].key;
    match s.workers[w].pc
    case Lookup => Move(s, w, if Live(s, k) then Done(Returned(s.cache[k].result)) else Acquire)
    case LostRace => Move(s, w, if Live(s, k) then Done(Returned(s.cache[k].result)) else Done(InProgress))
    case Recheck => Move(s, w, if Live(s, k) then Release(Returned(s.cache[k].result)) else Callback)
    case _ => s
  }

  /** SET NX with no expiry. */
  function StepTryLock(s: State, w: WorkerId, replied: bool): State
    requires w in s.workers
  {
    var k := s.workers[w].key;
    if s.workers[w].pc != Acquire then s
    else if k in s.locks then Hear(s, w, replied, LostRace)
    else Hear(s.(locks := s.locks[k := w]), w, replied, Recheck)
  }

  function StepRefuse(c: Config, s: State, w: WorkerId): State
    requires w in s.workers
  {
    if Refusable(c, s, w) then Move(RolledBack(s, w), w, Release(Rejected)) else s
  }

  /** SELECT ... FOR UPDATE, after the arguments passed their checks. */
  function StepSelect(s: State, w: WorkerId): State
    requires w in s.workers
  {
    var r := s.workers[w].request;
    if s.workers[w].pc == Callback && r.quantity > 0.0 && r.row in s.balances && r.row !in s.rowLocks
    then Move(s.(rowLocks := s.rowLocks[r.row := w]), w, InTransaction(s.balances[r.row]))
    else s
  }

  function StepCommit(c: Config, s: State, w: WorkerId, replied: bool): State
    requires w in s.workers
  {
    if Committable(c, s, w) then
      Hear(Committed(s, w), w, replied && s.workers[w].pc.InTransaction?, Store(MovementOf(s, w)))
    else s
  }

  /** SET with the TTL. */
  function StepSave(c: Config, s: State, w: WorkerId, replied: bool): State
    requires w in s.workers
  {
    if s.workers[w].pc.Store? then
      var m := s.workers[w].pc.result;
      Hear(s.(cache := s.cache[s.workers[w].key := Cached(m, s.now + c.ttl)]), w, replied, Release(Returned(m)))
    else s
  }

  /** Compare the token, then delete. */
  function StepUnlock(s: State, w: WorkerId, replied: bool): State
    requires w in s.workers
  {
    var k := s.workers[w].key;
    if s.workers[w].pc.Release? then
      Hear(if k in s.locks && s.locks[k] == w then s.(locks := s.locks - {k}) else s,
           w, replied, Done(s.workers[w].pc.reply))
    else s
  }

  function StepAbandon(s: State, w: WorkerId): State
    requires w in s.workers
  {
    if s.workers[w].pc.InTransaction? then Move(s, w, InDoubt(s.workers[w].pc.seen)) else s
  }

  function StepFail(s: State, w: WorkerId): State
    requires w in s.workers
  {
    if s.workers[w].pc.Done? then s else Move(RolledBack(s, w), w, Stopped)
  }

  /** The callback raises ValueError or PermissionError: on its arguments before
      the transaction reads the row, or on the ceiling after it. */
  predicate Refusable(c: Config, s: State, w: WorkerId)
    requires w in s.workers
  {
    match s.workers[w].pc
    case Callback => true
    case InTransaction(seen) => ExceedsCeiling(c, s.workers[w].request, seen)
    case _ => false
  }

  predicate Committable(c: Config, s: State, w: WorkerId)
    requires w in s.workers
  {
    && Open(s.workers[w].pc)
    && var r := s.workers[w].request;
    && r.row in s.balances
    && !ExceedsCeiling(c, r, s.workers[w].pc.seen)
    && s.balances[r.row] + Delta(r) >= 0.0
  }

  function Run(c: Config, s: State, actions: seq<Action>): State {
    if actions == [] then s else Step(c, Run(c, s, actions[..|actions| - 1]), actions[|actions| - 1])
  }
}
