/** Whose request a reply answers when one idempotency key is used more than once. */
module KeyReuse {
  import opened WriteProtocol
  import opened WriteSafety
  import opened WriteTheorems
  import opened Ledger
  import opened SingleCalls

  // ---- What callers may do with a key ----

  /** Every call of the key asks for something in this set. */
  ghost predicate KeyAsks(actions: seq<Action>, k: Key, asked: iset<Request>) {
    forall i | 0 <= i < |actions| :: StartAsks(actions[i], k, asked)
  }

  ghost predicate StartAsks(a: Action, k: Key, asked: iset<Request>) {
    a.Start? && ScopedKey(a.company, a.user, a.client, a.request) == k ==> a.request in asked
  }

  /** Every successful caller of the key is told of its own request. */
  ghost predicate OwnReplies(s: State, k: Key) {
    forall w, m | w in s.workers && s.workers[w].key == k && s.workers[w].pc == Done(Returned(m)) ::
      m.request == s.workers[w].request
  }

  ghost predicate AlwaysOwn(c: Config, k: Key, asked: iset<Request>) {
    forall now, actions | KeyAsks(actions, k, asked) :: OwnReplies(Run(c, Initial(c, now), actions), k)
  }

  /** The request can commit in some run: a positive quantity of a known row that some balance allows. */
  predicate CanCommit(c: Config, r: Request) {
    && r.quantity > 0.0 && r.row in c.initial
    && (r.Discard? && r.role == Estoquista ==> c.ceilingPercent > 0.0)
  }

  // ---- Callers that cannot be told of another's request ----

  /** The calls of a key ask for what their starts ask for. */
  lemma {:induction false} CallersAsk(c: Config, now: int, actions: seq<Action>, k: Key, asked: iset<Request>, w: WorkerId)
    requires KeyAsks(actions, k, asked)
    requires var s := Run(c, Initial(c, now), actions); w in s.workers && s.workers[w].key == k
    ensures var r := Run(c, Initial(c, now), actions).workers[w].request; r in asked && Asks(k, r)
  {
    if actions != [] {
      var before, a := actions[..|actions| - 1], actions[|actions| - 1];
      var s := Run(c, Initial(c, now), before);
      assert StartAsks(a, k, asked);
      assert KeyAsks(before, k, asked);
      if w in s.workers {
        CallsKeepTheirRequest(c, s, a, w);
        CallersAsk(c, now, before, k, asked, w);
      } else {
        Newcomer(c, s, a, w);
      }
    }
  }

  lemma Newcomer(c: Config, s: State, a: Action, w: WorkerId)
    requires w !in s.workers && w in Step(c, s, a).workers
    ensures a.Start? && a.w == w
    ensures Step(c, s, a).workers[w] == Worker(ScopedKey(a.company, a.user, a.client, a.request), a.request, Lookup)
  {
    if a.Act? && a.w in s.workers {
      hide StepWorker;
      OnlyOneMoves(c, s, a.w, a.op);
    }
  }

  lemma LawfulCanCommit(c: Config, m: Movement)
    requires Lawful(c, m) && m.request.row in c.initial
    ensures CanCommit(c, m.request)
  {
    if m.request.Discard? && m.request.role == Estoquista {
      assert m.before > 0.0;
      PositiveShare(m.request.quantity, m.before);
    }
  }

  lemma PositiveShare(q: real, b: real)
    requires q > 0.0 && b > 0.0
    ensures (q / b) * 100.0 > 0.0
  {
  }

  /** Only requests that can commit are ever committed. */
  lemma {:induction false} CommittedCanCommit(c: Config, now: int, actions: seq<Action>, m: Movement)
    requires m in Run(c, Initial(c, now), actions).log
    ensures CanCommit(c, m.request)
  {
    if actions != [] {
      var before, a := actions[..|actions| - 1], actions[|actions| - 1];
      var s := Run(c, Initial(c, now), before);
      StepAppends(c, s, a);
      StockIsConserved(c, now, before);
      StockIsConserved(c, now, actions);
      hide Step, Lawful, CanCommit;
      if m in s.log {
        CommittedCanCommit(c, now, before, m);
      } else {
        assert m == MovementOf(s, a.w) && m.request.row in s.balances;
        LawfulCanCommit(c, m);
      }
    }
  }

  /** While every request that can commit is the only one asked for, replies are own. */
  lemma SingleRequestIsOwn(c: Config, now: int, actions: seq<Action>, k: Key, asked: iset<Request>)
    requires KeyAsks(actions, k, asked) && OneCommits(c, k, asked)
    ensures OwnReplies(Run(c, Initial(c, now), actions), k)
  {
    var s := Run(c, Initial(c, now), actions);
    forall w, m | w in s.workers && s.workers[w].key == k && s.workers[w].pc == Done(Returned(m))
      ensures m.request == s.workers[w].request
    {
      RepliesAgree(c, now, actions, w, w, m, m);
      ReplyIsForTheCommittersRequest(c, now, actions, w, m);
      CommittedCanCommit(c, now, actions, m);
      CallersAsk(c, now, actions, k, asked, w);
      CallersAsk(c, now, actions, k, asked, m.call);
      RunKnowsCommitters(c, now, actions);
      var i :| 0 <= i < |s.log| && s.log[i] == m;
      assert CommitterKnown(s, s.log[i]);
    }
  }

  /** A request of the key that can commit is the only one asked for. */
  ghost predicate OneCommits(c: Config, k: Key, asked: iset<Request>) {
    forall r1, r2 | r1 in asked && r2 in asked && Asks(k, r1) && Asks(k, r2) && CanCommit(c, r1) :: r1 == r2
  }

  // ---- Without a TTL nothing is replayed ----

  /** No cached result is live. */
  ghost predicate Dead(s: State) {
    forall k | k in s.cache :: s.cache[k].expires <= s.now
  }

  /** What the worker holds is its own. */
  predicate HoldsOwn(w: Worker) {
    match w.pc
    case Store(m) => m.request == w.request
    case Release(Returned(m)) => m.request == w.request
    case Done(Returned(m)) => m.request == w.request
    case _ => true
  }

  ghost predicate AllHoldOwn(s: State) {
    forall w | w in s.workers :: HoldsOwn(s.workers[w])
  }

  lemma OwnStep(c: Config, s: State, w: WorkerId, op: Op)
    requires c.ttl == 0 && Dead(s) && w in s.workers && HoldsOwn(s.workers[w])
    ensures w in StepWorker(c, s, w, op).workers && HoldsOwn(StepWorker(c, s, w, op).workers[w])
  {
    assert !Live(s, s.workers[w].key);
    if ToRedis(op) {
      OwnAfterRedis(c, s, w, op);
    } else {
      OwnAfterDatabase(c, s, w, op);
    }
  }

  lemma OwnAfterRedis(c: Config, s: State, w: WorkerId, op: Op)
    requires w in s.workers && HoldsOwn(s.workers[w]) && !Live(s, s.workers[w].key) && ToRedis(op)
    ensures w in StepWorker(c, s, w, op).workers && HoldsOwn(StepWorker(c, s, w, op).workers[w])
  {
    hide Live, Committable, Refusable, ExceedsCeiling;
    if op.Get? {
      assert StepWorker(c, s, w, op) == StepGet(s, w);
      hide StepWorker;
    } else {
      hide StepGet;
    }
  }

  lemma OwnAfterDatabase(c: Config, s: State, w: WorkerId, op: Op)
    requires w in s.workers && HoldsOwn(s.workers[w]) && !ToRedis(op)
    ensures w in StepWorker(c, s, w, op).workers && HoldsOwn(StepWorker(c, s, w, op).workers[w])
  {
    hide Live, ExceedsCeiling;
  }

  lemma DeadStep(c: Config, s: State, w: WorkerId, op: Op)
    requires c.ttl == 0 && Dead(s) && w in s.workers
    ensures Dead(StepWorker(c, s, w, op))
  {
    hide ExceedsCeiling, Committable, Refusable, Live;
  }

  lemma {:induction false} NothingReplayed(c: Config, now: int, actions: seq<Action>)
    requires c.ttl == 0
    ensures Dead(Run(c, Initial(c, now), actions)) && AllHoldOwn(Run(c, Initial(c, now), actions))
  {
    if actions != [] {
      var s, a := Run(c, Initial(c, now), actions[..|actions| - 1]), actions[|actions| - 1];
      NothingReplayed(c, now, actions[..|actions| - 1]);
      if a.Act? && a.w in s.workers {
        hide StepWorker, HoldsOwn, Dead;
        OwnStep(c, s, a.w, a.op);
        DeadStep(c, s, a.w, a.op);
        OnlyOneMoves(c, s, a.w, a.op);
      }
    }
  }

  // ---- A caller told of another's request ----

  /** A receipt under another user's key that brings the row up to a balance the request fits. */
  function Enough(c: Config, r: Request): real {
    r.quantity + 1.0 + if c.ceilingPercent > 0.0 then r.quantity * 100.0 / c.ceilingPercent else 0.0
  }

  function Supply(c: Config, r: Request): Request
    requires r.row in c.initial
  {
    var b := c.initial[r.row];
    Receive(r.row, if b < 0.0 then Enough(c, r) - b else Enough(c, r))
  }

  lemma SupplySuffices(c: Config, r: Request)
    requires CanCommit(c, r)
    ensures Supply(c, r).quantity > 0.0 && c.initial[r.row] + Supply(c, r).quantity >= 0.0
    ensures var b := c.initial[r.row] + Supply(c, r).quantity; !ExceedsCeiling(c, r, b) && b + Delta(r) >= 0.0
  {
    var b := c.initial[r.row] + Supply(c, r).quantity;
    if c.ceilingPercent > 0.0 {
      HundredShares(r.quantity, c.ceilingPercent);
      WithinCeiling(r.quantity, b, c.ceilingPercent);
    }
  }

  lemma HundredShares(q: real, p: real)
    requires q > 0.0 && p > 0.0
    ensures q * 100.0 / p > 0.0
  {
  }

  lemma WithinCeiling(q: real, b: real, p: real)
    requires q > 0.0 && p > 0.0 && b >= q * 100.0 / p && b > 0.0
    ensures (q / b) * 100.0 <= p
  {
    var x := q / b;
    assert x * b == q;
    assert (q * 100.0 / p) * p == q * 100.0;
    assert b * p >= (q * 100.0 / p) * p;
    if x * 100.0 > p {
      assert x * 100.0 * b > p * b;
    }
  }

  /** One caller commits r1; another uses the same key for r2 and is told of r1. */
  function Reuse(c: Config, k: Key, r1: Request, r2: Request): seq<Action>
    requires r1.row in c.initial
  {
    Undisturbed(0, Neighbour(k), Supply(c, r1)) + Undisturbed(1, k, r1) + [Start(2, k.company, k.user, k.client, r2), Act(2, Get)]
  }

  function Neighbour(k: Key): Key {
    Key(k.company, k.user + 1, ReceiveInventory, k.client)
  }

  lemma {:induction false} ReuseIsToldOfTheFirst(c: Config, now: int, k: Key, r1: Request, r2: Request)
    requires c.ttl > 0 && CanCommit(c, r1) && Asks(k, r1) && Asks(k, r2)
    ensures var t := Run(c, Initial(c, now), Reuse(c, k, r1, r2));
            && 2 in t.workers && t.workers[2].key == k && t.workers[2].request == r2
            && exists m :: t.workers[2].pc == Done(Returned(m)) && m.request == r1
  {
    var s, supply := Initial(c, now), Supply(c, r1);
    SupplySuffices(c, r1);
    assert Ready(c, s, 0, Neighbour(k), supply);
    UndisturbedFinishes(c, s, 0, Neighbour(k), supply);
    var s1 := Run(c, s, Undisturbed(0, Neighbour(k), supply));
    hide Supply;
    SuppliedIsReady(c, s, s1, k, r1, supply);
    UndisturbedFinishes(c, s1, 1, k, r1);
    var s2 := Run(c, s1, Undisturbed(1, k, r1));
    hide Undisturbed, Run, Ready, CanCommit;
    RunConcat(c, s, Undisturbed(0, Neighbour(k), supply), Undisturbed(1, k, r1));
    RunConcat(c, s, Undisturbed(0, Neighbour(k), supply) + Undisturbed(1, k, r1), [Start(2, k.company, k.user, k.client, r2), Act(2, Get)]);
    assert ScopedKey(k.company, k.user, k.client, r2) == k && Live(s2, k) && 2 !in s2.workers;
    ReusedKeyGetsTheEarlierMovement(c, s2, 2, k.company, k.user, k.client, r2);
    assert s2.cache[k].result.request == r1;
  }

  /** After the supply, the first request can be made. */
  lemma SuppliedIsReady(c: Config, s: State, s1: State, k: Key, r: Request, supply: Request)
    requires s.workers == map[] && s.cache == map[] && r.row in s.balances && supply.Receive? && supply.row == r.row
    requires Finished(c, s, 0, Neighbour(k), supply, s1)
    requires Asks(k, r) && r.quantity > 0.0
    requires var b := s.balances[r.row] + supply.quantity; !ExceedsCeiling(c, r, b) && b + Delta(r) >= 0.0
    ensures Ready(c, s1, 1, k, r)
  {
    hide ExceedsCeiling;
  }

  lemma ReuseAsks(c: Config, k: Key, r1: Request, r2: Request, asked: iset<Request>)
    requires r1.row in c.initial && r1 in asked && r2 in asked
    ensures KeyAsks(Reuse(c, k, r1, r2), k, asked)
  {
    hide Supply;
  }

  // ---- Exactly when ----

  /** Every caller of a key is told of its own request, in every run, exactly when no two requests are
      made under it of which one can commit; or when results are not kept at all. */
  lemma {:induction false} RepliesAreOwnIff(c: Config, k: Key, asked: iset<Request>)
    ensures AlwaysOwn(c, k, asked) <==> c.ttl == 0 || OneCommits(c, k, asked)
  {
    if c.ttl == 0 || OneCommits(c, k, asked) {
      forall now, actions | KeyAsks(actions, k, asked) ensures OwnReplies(Run(c, Initial(c, now), actions), k) {
        if c.ttl == 0 {
          NothingReplayed(c, now, actions);
        } else {
          SingleRequestIsOwn(c, now, actions, k, asked);
        }
      }
    } else {
      var r1, r2 :| r1 in asked && r2 in asked && Asks(k, r1) && Asks(k, r2) && CanCommit(c, r1) && r1 != r2;
      ReuseAsks(c, k, r1, r2, asked);
      ReuseIsToldOfTheFirst(c, 0, k, r1, r2);
      hide Reuse, CanCommit, KeyAsks;
      assert !OwnReplies(Run(c, Initial(c, 0), Reuse(c, k, r1, r2)), k);
    }
  }
}
