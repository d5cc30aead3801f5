/** A call nobody disturbs: what it leaves, and which movements commit. */
module SingleCalls {
  import opened WriteProtocol
  import opened WriteTheorems

  /** Requests that can be made under the key: its operation is part of it. */
  predicate Asks(k: Key, r: Request) {
    k.operation == if r.Discard? then DiscardBatch else ReceiveInventory
  }

  // ---- One call from start to end, with nobody in its way ----

  function Undisturbed(w: WorkerId, k: Key, r: Request): seq<Action> {
    Entry(w, k, r) + Passage(w)
  }

  function Entry(w: WorkerId, k: Key, r: Request): seq<Action> {
    [Start(w, k.company, k.user, k.client, r), Act(w, Get), Act(w, TryLock(true)), Act(w, Get)]
  }

  function Passage(w: WorkerId): seq<Action> {
    [Act(w, Select), Act(w, Commit(true)), Act(w, Save(true)), Act(w, Unlock(true))]
  }

  lemma RunFour(c: Config, s: State, a1: Action, a2: Action, a3: Action, a4: Action)
    ensures Run(c, s, [a1, a2, a3, a4]) == Step(c, Step(c, Step(c, Step(c, s, a1), a2), a3), a4)
  {
    hide Step;
    var all := [a1, a2, a3, a4];
    assert all[..3] == [a1, a2, a3] && [a1, a2, a3][..2] == [a1, a2] && [a1, a2][..1] == [a1] && [a1][..0] == [];
    assert Run(c, s, [a1]) == Step(c, s, a1);
    assert Run(c, s, [a1, a2]) == Step(c, Run(c, s, [a1]), a2);
    assert Run(c, s, [a1, a2, a3]) == Step(c, Run(c, s, [a1, a2]), a3);
  }

  /** Nobody holds anything, the key has no result in force, and the request is a positive quantity of a known row. */
  predicate CanEnter(s: State, w: WorkerId, k: Key, r: Request) {
    && w !in s.workers && s.locks == map[] && s.rowLocks == map[] && !Live(s, k) && Asks(k, r)
    && r.quantity > 0.0 && r.row in s.balances
  }

  /** And it fits the stored balance. */
  predicate Ready(c: Config, s: State, w: WorkerId, k: Key, r: Request) {
    CanEnter(s, w, k, r) && !ExceedsCeiling(c, r, s.balances[r.row]) && s.balances[r.row] + Delta(r) >= 0.0
  }

  function Waiting(s: State, w: WorkerId, k: Key, r: Request): State {
    s.(workers := s.workers[w := Worker(k, r, Callback)], locks := map[k := w])
  }

  lemma Enters(c: Config, s: State, w: WorkerId, k: Key, r: Request)
    requires CanEnter(s, w, k, r)
    ensures Run(c, s, Entry(w, k, r)) == Waiting(s, w, k, r)
  {
    RunFour(c, s, Start(w, k.company, k.user, k.client, r), Act(w, Get), Act(w, TryLock(true)), Act(w, Get));
    hide Run;
    assert ScopedKey(k.company, k.user, k.client, r) == k;
    var s1 := Step(c, s, Start(w, k.company, k.user, k.client, r));
    assert s1 == s.(workers := s.workers[w := Worker(k, r, Lookup)]);
    var s2 := Step(c, s1, Act(w, Get));
    assert s2 == s.(workers := s.workers[w := Worker(k, r, Acquire)]);
    var s3 := Step(c, s2, Act(w, TryLock(true)));
    assert s3 == s.(workers := s.workers[w := Worker(k, r, Recheck)], locks := map[k := w]);
  }

  function Result(s: State, w: WorkerId, k: Key, r: Request): Movement
    requires r.row in s.balances
  {
    Movement(w, k, r, s.now, s.balances[r.row], s.balances[r.row] + Delta(r))
  }

  /** What an undisturbed call leaves. */
  ghost predicate Finished(c: Config, s: State, w: WorkerId, k: Key, r: Request, t: State)
    requires r.row in s.balances
  {
    && t.now == s.now && t.locks == map[] && t.rowLocks == map[]
    && t.cache == s.cache[k := Cached(Result(s, w, k, r), s.now + c.ttl)]
    && t.balances == s.balances[r.row := s.balances[r.row] + Delta(r)]
    && t.workers == s.workers[w := Worker(k, r, Done(Returned(Result(s, w, k, r))))]
  }

  /** The call is at this place, with these locks; the rest is as in s. */
  function At(s: State, w: WorkerId, k: Key, r: Request, pc: Pc, locks: map<Key, WorkerId>, rowLocks: map<RowId, WorkerId>): State {
    s.(workers := s.workers[w := Worker(k, r, pc)], locks := locks, rowLocks := rowLocks)
  }

  /** The database after the commit. */
  function Applied(s: State, r: Request, m: Movement): State {
    s.(balances := s.balances[r.row := m.after], log := s.log + [m],
       items := s.items + if r.Discard? then [DisposalItem(r.row, r.quantity)] else [])
  }

  /** In its transaction, having read the balance. */
  function Opened(s: State, w: WorkerId, k: Key, r: Request): State
    requires r.row in s.balances
  {
    At(s, w, k, r, InTransaction(s.balances[r.row]), map[k := w], map[r.row := w])
  }

  lemma Selects(c: Config, s: State, w: WorkerId, k: Key, r: Request)
    requires CanEnter(s, w, k, r)
    ensures Step(c, Waiting(s, w, k, r), Act(w, Select)) == Opened(s, w, k, r)
  {
    hide ExceedsCeiling;
  }

  lemma Commits(c: Config, s: State, w: WorkerId, k: Key, r: Request)
    requires Ready(c, s, w, k, r)
    ensures var m := Result(s, w, k, r);
            Step(c, Opened(s, w, k, r), Act(w, Commit(true)))
            == Applied(At(s, w, k, r, Store(m), map[k := w], map[]), r, m)
  {
    var m := Result(s, w, k, r);
    var open := Opened(s, w, k, r);
    assert Committable(c, open, w) && MovementOf(open, w) == m;
    hide Committable, ExceedsCeiling, MovementOf;
    assert map[r.row := w] - {r.row} == map[];
  }

  function Replied(c: Config, s: State, w: WorkerId, k: Key, r: Request, m: Movement): State {
    s.(workers := s.workers[w := Worker(k, r, Done(Returned(m)))], locks := map[],
       cache := s.cache[k := Cached(m, s.now + c.ttl)])
  }

  lemma SavesAndUnlocks(c: Config, s: State, w: WorkerId, k: Key, r: Request, m: Movement)
    requires s.locks == map[k := w] && w in s.workers && s.workers[w] == Worker(k, r, Store(m))
    ensures Step(c, Step(c, s, Act(w, Save(true))), Act(w, Unlock(true))) == Replied(c, s, w, k, r, m)
  {
    var saved := Step(c, s, Act(w, Save(true)));
    assert saved == s.(workers := s.workers[w := Worker(k, r, Release(Returned(m)))], cache := s.cache[k := Cached(m, s.now + c.ttl)]);
    assert map[k := w] - {k} == map[];
  }

  lemma Passes(c: Config, s: State, w: WorkerId, k: Key, r: Request)
    requires Ready(c, s, w, k, r)
    ensures Finished(c, s, w, k, r, Run(c, Waiting(s, w, k, r), Passage(w)))
  {
    var m := Result(s, w, k, r);
    RowIsThere(c, s, w, k, r);
    CommittedCall(c, s, w, k, r);
    hide *;
    RunFour(c, Waiting(s, w, k, r), Act(w, Select), Act(w, Commit(true)), Act(w, Save(true)), Act(w, Unlock(true)));
    Selects(c, s, w, k, r);
    Commits(c, s, w, k, r);
    SavesAndUnlocks(c, Applied(At(s, w, k, r, Store(m), map[k := w], map[]), r, m), w, k, r, m);
  }

  lemma RowIsThere(c: Config, s: State, w: WorkerId, k: Key, r: Request)
    requires Ready(c, s, w, k, r)
    ensures r.row in s.balances
    ensures Passage(w) == [Act(w, Select), Act(w, Commit(true)), Act(w, Save(true)), Act(w, Unlock(true))]
  {
  }

  lemma CommittedCall(c: Config, s: State, w: WorkerId, k: Key, r: Request)
    requires Ready(c, s, w, k, r)
    ensures var m := Result(s, w, k, r);
            var u := Applied(At(s, w, k, r, Store(m), map[k := w], map[]), r, m);
            && u.locks == map[k := w] && w in u.workers && u.workers[w] == Worker(k, r, Store(m))
            && Finished(c, s, w, k, r, Replied(c, u, w, k, r, m))
  {
  }

  lemma UndisturbedFinishes(c: Config, s: State, w: WorkerId, k: Key, r: Request)
    requires Ready(c, s, w, k, r)
    ensures Finished(c, s, w, k, r, Run(c, s, Undisturbed(w, k, r)))
  {
    Enters(c, s, w, k, r);
    Passes(c, s, w, k, r);
    RunConcat(c, s, Entry(w, k, r), Passage(w));
  }

  // ---- Who may discard how much ----

  /** A call turned away inside its transaction. */
  function TurnedBack(w: WorkerId): seq<Action> {
    [Act(w, Select), Act(w, Refuse), Act(w, Unlock(true))]
  }

  lemma ShareIsPart(q: real, b: real, p: real)
    requires b > 0.0
    ensures (q / b) * 100.0 > p <==> q * 100.0 > p * b
  {
    var x := q / b;
    assert x * b == q;
    Scale(x * 100.0, p, b);
    assert (x * 100.0) * b == (x * b) * 100.0;
  }

  lemma Scale(x: real, y: real, b: real)
    requires b > 0.0
    ensures x > y <==> x * b > y * b
  {
  }

  lemma RunThree(c: Config, s: State, a1: Action, a2: Action, a3: Action)
    ensures Run(c, s, [a1, a2, a3]) == Step(c, Step(c, Step(c, s, a1), a2), a3)
  {
    hide Step;
    assert [a1, a2, a3][..2] == [a1, a2] && [a1, a2][..1] == [a1] && [a1][..0] == [];
    assert Run(c, s, [a1]) == Step(c, s, a1);
    assert Run(c, s, [a1, a2]) == Step(c, Run(c, s, [a1]), a2);
  }

  lemma AfterSelect(c: Config, s: State, w: WorkerId, k: Key, r: Request)
    requires CanEnter(s, w, k, r)
    ensures Run(c, s, Undisturbed(w, k, r)) ==
            Step(c, Step(c, Step(c, Opened(s, w, k, r), Act(w, Commit(true))), Act(w, Save(true))), Act(w, Unlock(true)))
    ensures Run(c, s, Entry(w, k, r) + TurnedBack(w)) == Step(c, Step(c, Opened(s, w, k, r), Act(w, Refuse)), Act(w, Unlock(true)))
  {
    Enters(c, s, w, k, r);
    Selects(c, s, w, k, r);
    RunConcat(c, s, Entry(w, k, r), TurnedBack(w));
    RunConcat(c, s, Entry(w, k, r), Passage(w));
    RunThree(c, Waiting(s, w, k, r), Act(w, Select), Act(w, Refuse), Act(w, Unlock(true)));
    RunFour(c, Waiting(s, w, k, r), Act(w, Select), Act(w, Commit(true)), Act(w, Save(true)), Act(w, Unlock(true)));
    hide Run, Step, CanEnter, Waiting, Opened, Entry;
  }

  /** What the transaction allows is decided by the role, the ceiling and the balance alone. */
  lemma CeilingInQuantities(c: Config, s: State, w: WorkerId, k: Key, row: RowId, q: real, role: Role)
    requires row in s.balances && q > 0.0
    ensures var r, b := Discard(row, q, role), s.balances[row];
            var open := Opened(s, w, k, r);
            && (Refusable(c, open, w) <==> role == Estoquista && b > 0.0 && q * 100.0 > c.ceilingPercent * b)
            && (Committable(c, open, w) <==> q <= b && (role == Estoquista ==> q * 100.0 <= c.ceilingPercent * b))
  {
    var b := s.balances[row];
    if b > 0.0 {
      ShareIsPart(q, b, c.ceilingPercent);
    }
  }

  /** A clerk over the ceiling ends rejected. */
  lemma IsTurnedBack(c: Config, s: State, w: WorkerId, k: Key, r: Request)
    requires CanEnter(s, w, k, r) && Refusable(c, Opened(s, w, k, r), w)
    ensures Step(c, Step(c, Opened(s, w, k, r), Act(w, Refuse)), Act(w, Unlock(true)))
            == s.(workers := s.workers[w := Worker(k, r, Done(Rejected))], locks := map[], rowLocks := map[])
  {
    var open := Opened(s, w, k, r);
    hide Refusable;
    var refused := Step(c, open, Act(w, Refuse));
    assert refused == At(s, w, k, r, Release(Rejected), map[k := w], map[]) by {
      assert map[r.row := w] - {r.row} == map[];
    }
    assert map[k := w] - {k} == map[];
  }

  lemma IsNotTurnedBack(c: Config, s: State, w: WorkerId, k: Key, r: Request)
    requires CanEnter(s, w, k, r) && !Refusable(c, Opened(s, w, k, r), w)
    ensures Step(c, Step(c, Opened(s, w, k, r), Act(w, Refuse)), Act(w, Unlock(true))) == Opened(s, w, k, r)
  {
    hide Refusable;
  }

  lemma IsNotCommitted(c: Config, s: State, w: WorkerId, k: Key, r: Request)
    requires CanEnter(s, w, k, r) && !Committable(c, Opened(s, w, k, r), w)
    ensures Step(c, Step(c, Step(c, Opened(s, w, k, r), Act(w, Commit(true))), Act(w, Save(true))), Act(w, Unlock(true)))
            == Opened(s, w, k, r)
  {
    hide Committable;
  }

  /** A disposal of a positive quantity commits exactly when the balance covers it and, for a clerk, it is
      at most the ceiling's share of the balance. */
  lemma {:induction false} DisposalCommitsIff(
    c: Config, s: State, w: WorkerId, k: Key, row: RowId, quantity: real, role: Role)
    requires w !in s.workers && s.locks == map[] && s.rowLocks == map[] && !Live(s, k)
    requires k.operation == DiscardBatch && row in s.balances && quantity > 0.0
    ensures var r, b := Discard(row, quantity, role), s.balances[row];
            var done := Run(c, s, Undisturbed(w, k, r));
            if quantity <= b && (role == Estoquista ==> quantity * 100.0 <= c.ceilingPercent * b) then
              && done.workers == s.workers[w := Worker(k, r, Done(Returned(Movement(w, k, r, s.now, b, b - quantity))))]
              && done.balances == s.balances[row := b - quantity] && done.locks == map[] && done.rowLocks == map[]
            else
              done.balances == s.balances && done.log == s.log && done.items == s.items && done.cache == s.cache
  {
    var r := Discard(row, quantity, role);
    assert CanEnter(s, w, k, r);
    CeilingInQuantities(c, s, w, k, row, quantity, role);
    if Committable(c, Opened(s, w, k, r), w) {
      FitsIsReady(c, s, w, k, r);
      UndisturbedFinishes(c, s, w, k, r);
      hide Run, Step, Undisturbed, Committable, Refusable, CanEnter, Opened;
    } else {
      AfterSelect(c, s, w, k, r);
      IsNotCommitted(c, s, w, k, r);
      OpenedKeeps(s, w, k, r);
      hide Run, Step, Undisturbed, Committable, Refusable, CanEnter, Opened;
    }
  }

  lemma OpenedKeeps(s: State, w: WorkerId, k: Key, r: Request)
    requires r.row in s.balances
    ensures var open := Opened(s, w, k, r);
            && open.balances == s.balances && open.log == s.log && open.items == s.items && open.cache == s.cache
            && open.workers == s.workers[w := Worker(k, r, InTransaction(s.balances[r.row]))]
  {
  }

  /** A clerk's disposal of more than the ceiling's share ends rejected, with everything as it was and the
      key free; nobody else's is turned away. */
  lemma {:induction false} DisposalIsTurnedBackIff(
    c: Config, s: State, w: WorkerId, k: Key, row: RowId, quantity: real, role: Role)
    requires w !in s.workers && s.locks == map[] && s.rowLocks == map[] && !Live(s, k)
    requires k.operation == DiscardBatch && row in s.balances && quantity > 0.0
    ensures var r, b := Discard(row, quantity, role), s.balances[row];
            var back := Run(c, s, Entry(w, k, r) + TurnedBack(w));
            if role == Estoquista && b > 0.0 && quantity * 100.0 > c.ceilingPercent * b then
              back == s.(workers := s.workers[w := Worker(k, r, Done(Rejected))])
            else
              back.workers == s.workers[w := Worker(k, r, InTransaction(b))]
  {
    var r := Discard(row, quantity, role);
    assert CanEnter(s, w, k, r);
    AfterSelect(c, s, w, k, r);
    CeilingInQuantities(c, s, w, k, row, quantity, role);
    OpenedKeeps(s, w, k, r);
    if Refusable(c, Opened(s, w, k, r), w) {
      IsTurnedBack(c, s, w, k, r);
      hide Run, Step, Undisturbed, Entry, TurnedBack, Committable, Refusable, CanEnter, Opened;
    } else {
      IsNotTurnedBack(c, s, w, k, r);
      hide Run, Step, Undisturbed, Entry, TurnedBack, Committable, Refusable, CanEnter, Opened;
    }
  }

  lemma FitsIsReady(c: Config, s: State, w: WorkerId, k: Key, r: Request)
    requires CanEnter(s, w, k, r) && Committable(c, Opened(s, w, k, r), w)
    ensures Ready(c, s, w, k, r)
  {
  }

  // ---- Who else commits ----

  /** A receipt of a positive quantity commits whenever the row's balance does not stay negative. */
  lemma {:induction false} ReceiptCommits(c: Config, s: State, w: WorkerId, k: Key, row: RowId, quantity: real)
    requires w !in s.workers && s.locks == map[] && s.rowLocks == map[] && !Live(s, k)
    requires k.operation == ReceiveInventory && row in s.balances && quantity > 0.0 && s.balances[row] + quantity >= 0.0
    ensures var r, b := Receive(row, quantity), s.balances[row];
            var done := Run(c, s, Undisturbed(w, k, r));
            && done.workers == s.workers[w := Worker(k, r, Done(Returned(Movement(w, k, r, s.now, b, b + quantity))))]
            && done.balances == s.balances[row := b + quantity] && done.locks == map[] && done.rowLocks == map[]
  {
    var r := Receive(row, quantity);
    assert Ready(c, s, w, k, r);
    UndisturbedFinishes(c, s, w, k, r);
    hide Run, Undisturbed;
  }
}
