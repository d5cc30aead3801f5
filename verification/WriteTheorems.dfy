/** What the write protocol promises: at most one commit per key and TTL, faithful
    replay, blocked and free keys, and a ledger that applies each key once. */
module WriteTheorems {
  import opened WriteProtocol
  import opened WriteSafety

  // ---- Runs ----

  lemma {:induction false} RunConcat(c: Config, s: State, a: seq<Action>, b: seq<Action>)
    ensures Run(c, s, a + b) == Run(c, Run(c, s, a), b)
  {
    if b == [] {
      assert a + b == a;
    } else {
      assert (a + b)[..|a + b| - 1] == a + b[..|b| - 1];
      RunConcat(c, s, a, b[..|b| - 1]);
    }
  }

  lemma RunOne(c: Config, s: State, script: seq<Action>, a: Action)
    ensures Run(c, s, script + [a]) == Step(c, Run(c, s, script), a)
  {
    assert (script + [a])[..|script|] == script;
  }

  // ---- At most once, over every run ----

  lemma {:induction false} RunKeeps(c: Config, s: State, actions: seq<Action>)
    requires Inv(c, s)
    ensures Inv(c, Run(c, s, actions))
  {
    if actions != [] {
      RunKeeps(c, s, actions[..|actions| - 1]);
      StepKeeps(c, Run(c, s, actions[..|actions| - 1]), actions[|actions| - 1]);
    }
  }

  /** Any number of workers, any interleaving, any failures: two commits of one key are at least the TTL apart. */
  lemma {:induction false} CommitsATtlApart(c: Config, now: int, actions: seq<Action>, i: nat, j: nat)
    requires i < j < |Run(c, Initial(c, now), actions).log|
    ensures var log := Run(c, Initial(c, now), actions).log;
            log[i].key == log[j].key ==> log[i].at + c.ttl <= log[j].at
  {
    InitialInv(c, now);
    RunKeeps(c, Initial(c, now), actions);
  }

  /** A step of worker w leaves the others' positions alone; only a commit extends the
      log, only a save changes the cache. */
  lemma WorkerEffects(c: Config, s: State, w: WorkerId, op: Op)
    requires w in s.workers
    ensures var s' := StepWorker(c, s, w, op);
            && OnlyMoved(s, s', w)
            && (s'.log == s.log || (op.Commit? && Committable(c, s, w) && s'.log == s.log + [MovementOf(s, w)]))
            && (s'.cache == s.cache || (op.Save? && s.workers[w].pc.Store?))
            && (s'.workers[w].pc.Store? ==> s.workers[w].pc.Store? || (op.Commit? && Committable(c, s, w)))
            && (s.workers[w].pc.Stopped? ==> s'.workers[w].pc.Stopped?)
  {
    hide StepWorker;
    OnlyOneMoves(c, s, w, op);
    LogEffect(c, s, w, op);
    CacheEffect(c, s, w, op);
    PcEffect(c, s, w, op);
  }

  lemma OnlyOneMoves(c: Config, s: State, w: WorkerId, op: Op)
    requires w in s.workers
    ensures OnlyMoved(s, StepWorker(c, s, w, op), w)
  {
    hide Committable, Refusable, Live, MovementOf;
    if StepWorker(c, s, w, op) == s {
      assert s.workers == s.workers[w := s.workers[w].(pc := s.workers[w].pc)];
    }
  }

  lemma LogEffect(c: Config, s: State, w: WorkerId, op: Op)
    requires w in s.workers
    ensures var s' := StepWorker(c, s, w, op);
            s'.log == s.log || (op.Commit? && Committable(c, s, w) && s'.log == s.log + [MovementOf(s, w)])
  {
    hide ExceedsCeiling, Refusable, Live;
  }

  lemma CacheEffect(c: Config, s: State, w: WorkerId, op: Op)
    requires w in s.workers
    ensures StepWorker(c, s, w, op).cache == s.cache || (op.Save? && s.workers[w].pc.Store?)
  {
    hide Committable, Refusable, Live;
  }

  /** A worker comes to hold a result to store only by committing, and once stopped stays so. */
  ghost predicate PcMoves(c: Config, s: State, w: WorkerId, op: Op)
    requires w in s.workers && w in StepWorker(c, s, w, op).workers
  {
    var pc, pc' := s.workers[w].pc, StepWorker(c, s, w, op).workers[w].pc;
    && (pc'.Store? ==> pc.Store? || (op.Commit? && Committable(c, s, w)))
    && (pc.Stopped? ==> pc'.Stopped?)
  }

  lemma PcEffect(c: Config, s: State, w: WorkerId, op: Op)
    requires w in s.workers
    ensures w in StepWorker(c, s, w, op).workers && PcMoves(c, s, w, op)
  {
    OnlyOneMoves(c, s, w, op);
    if ToRedis(op) {
      RedisPcEffect(c, s, w, op);
    } else {
      DatabasePcEffect(c, s, w, op);
    }
  }

  predicate ToRedis(op: Op) {
    op.Get? || op.TryLock? || op.Save? || op.Unlock?
  }

  lemma RedisPcEffect(c: Config, s: State, w: WorkerId, op: Op)
    requires w in s.workers && w in StepWorker(c, s, w, op).workers && ToRedis(op)
    ensures PcMoves(c, s, w, op)
  {
    hide ExceedsCeiling, Live, Committable, Refusable;
    if op.Get? {
      assert StepWorker(c, s, w, op) == StepGet(s, w);
      hide StepWorker;
    } else {
      hide StepGet;
    }
  }

  lemma DatabasePcEffect(c: Config, s: State, w: WorkerId, op: Op)
    requires w in s.workers && w in StepWorker(c, s, w, op).workers && !ToRedis(op)
    ensures PcMoves(c, s, w, op)
  {
    hide ExceedsCeiling, Live;
  }

  /** One step appends at most one movement and never turns time back. */
  lemma StepAppends(c: Config, s: State, a: Action)
    ensures var s' := Step(c, s, a);
            && s.now <= s'.now
            && (s'.log != s.log ==>
                 && a.Act? && a.w in s.workers && Committable(c, s, a.w)
                 && s'.log == s.log + [MovementOf(s, a.w)] && s'.now == s.now)
  {
    if a.Act? && a.w in s.workers {
      hide StepWorker, Committable, MovementOf;
      WorkerEffects(c, s, a.w, a.op);
    }
  }

  lemma {:induction false} RunAppends(c: Config, s: State, actions: seq<Action>)
    ensures var s' := Run(c, s, actions);
            s.now <= s'.now && s.log <= s'.log && forall i | |s.log| <= i < |s'.log| :: s.now <= s'.log[i].at
  {
    if actions != [] {
      RunAppends(c, s, actions[..|actions| - 1]);
      StepAppends(c, Run(c, s, actions[..|actions| - 1]), actions[|actions| - 1]);
    }
  }

  /** While no result has expired, each key commits at most once. */
  lemma {:induction false} AtMostOnce(c: Config, now: int, actions: seq<Action>, i: nat, j: nat)
    requires var s := Run(c, Initial(c, now), actions);
             s.now < now + c.ttl && i < j < |s.log|
    ensures var log := Run(c, Initial(c, now), actions).log; log[i].key != log[j].key
  {
    CommitsATtlApart(c, now, actions, i, j);
    RunAppends(c, Initial(c, now), actions);
    InitialInv(c, now);
    RunKeeps(c, Initial(c, now), actions);
  }

  // ---- Replay ----

  /** Every successful call returns a commit of its own key, and two successful calls
      of one key return the same commit unless their commits are a TTL apart. */
  lemma {:induction false} RepliesAgree(c: Config, now: int, actions: seq<Action>, v: WorkerId, w: WorkerId, m: Movement, n: Movement)
    requires var s := Run(c, Initial(c, now), actions);
             && v in s.workers && w in s.workers && s.workers[v].key == s.workers[w].key
             && s.workers[v].pc == Done(Returned(m)) && s.workers[w].pc == Done(Returned(n))
    ensures var s := Run(c, Initial(c, now), actions);
            m in s.log && n in s.log && m.key == n.key == s.workers[v].key
    ensures m == n || m.at + c.ttl <= n.at || n.at + c.ttl <= m.at
  {
    var s := Run(c, Initial(c, now), actions);
    InitialInv(c, now);
    RunKeeps(c, Initial(c, now), actions);
    WorkerGenuine(s, v);
    WorkerGenuine(s, w);
    var i :| 0 <= i < |s.log| && s.log[i] == m;
    var j :| 0 <= j < |s.log| && s.log[j] == n;
    assert i < j || j < i || i == j;
  }

  /** Every movement was committed by a call with its key and its request. */
  ghost predicate CommittersKnown(s: State) {
    forall i | 0 <= i < |s.log| :: CommitterKnown(s, s.log[i])
  }

  ghost predicate CommitterKnown(s: State, m: Movement) {
    m.call in s.workers && s.workers[m.call].key == m.key && s.workers[m.call].request == m.request
  }

  /** A call keeps its key and its request for good. */
  lemma CallsKeepTheirRequest(c: Config, s: State, a: Action, w: WorkerId)
    requires w in s.workers
    ensures var t := Step(c, s, a);
            w in t.workers && t.workers[w].key == s.workers[w].key && t.workers[w].request == s.workers[w].request
  {
    if a.Act? && a.w in s.workers {
      hide StepWorker;
      OnlyOneMoves(c, s, a.w, a.op);
    }
  }

  lemma {:induction false} RunKnowsCommitters(c: Config, now: int, actions: seq<Action>)
    ensures CommittersKnown(Run(c, Initial(c, now), actions))
  {
    if actions != [] {
      var s, a := Run(c, Initial(c, now), actions[..|actions| - 1]), actions[|actions| - 1];
      RunKnowsCommitters(c, now, actions[..|actions| - 1]);
      StepAppends(c, s, a);
      hide Step, Committable;
      forall i | 0 <= i < |s.log| ensures CommitterKnown(Step(c, s, a), s.log[i]) {
        CallsKeepTheirRequest(c, s, a, s.log[i].call);
      }
      if a.Act? && a.w in s.workers {
        CallsKeepTheirRequest(c, s, a, a.w);
      }
    }
  }

  /** Every call of this key asks for the same. */
  ghost predicate OneRequest(s: State, k: Key) {
    forall v, w | v in s.workers && w in s.workers && s.workers[v].key == k && s.workers[w].key == k ::
      s.workers[v].request == s.workers[w].request
  }

  /** A successful reply carries the request of the call that committed it: the caller's own exactly
      when that call asked for the same, and always so while one key stands for one request. */
  lemma {:induction false} ReplyIsForTheCommittersRequest(c: Config, now: int, actions: seq<Action>, w: WorkerId, m: Movement)
    requires var s := Run(c, Initial(c, now), actions); w in s.workers && s.workers[w].pc == Done(Returned(m))
    ensures var s := Run(c, Initial(c, now), actions);
            && m.call in s.workers && s.workers[m.call].key == s.workers[w].key
            && (m.request == s.workers[w].request <==> s.workers[m.call].request == s.workers[w].request)
            && (OneRequest(s, s.workers[w].key) ==> m.request == s.workers[w].request)
  {
    var s := Run(c, Initial(c, now), actions);
    RepliesAgree(c, now, actions, w, w, m, m);
    RunKnowsCommitters(c, now, actions);
    hide Run;
    var i :| 0 <= i < |s.log| && s.log[i] == m;
    assert CommitterKnown(s, s.log[i]);
  }

  /** A GET hits exactly while the key has a result whose lifetime is not over, at all three points of a call. */
  lemma {:induction false} HitsIff(s: State, w: WorkerId)
    requires w in s.workers && (s.workers[w].pc.Lookup? || s.workers[w].pc.LostRace? || s.workers[w].pc.Recheck?)
    ensures var k := s.workers[w].key;
            k in s.cache && s.now < s.cache[k].expires ==>
              StepGet(s, w).workers[w].pc == (if s.workers[w].pc.Recheck? then Release(Returned(s.cache[k].result))
                                              else Done(Returned(s.cache[k].result)))
    ensures s.workers[w].key !in s.cache || s.now >= s.cache[s.workers[w].key].expires ==>
              StepGet(s, w).workers[w].pc == (if s.workers[w].pc.Lookup? then Acquire
                                              else if s.workers[w].pc.LostRace? then Done(InProgress) else Callback)
  {
  }

  /** A key used again while its result is cached gets that result, whatever is asked for this time. */
  lemma {:induction false} ReusedKeyGetsTheEarlierMovement(
    c: Config, s: State, v: WorkerId, company: int, user: int, client: string, request: Request)
    requires v !in s.workers && Live(s, ScopedKey(company, user, client, request))
    ensures var m := s.cache[ScopedKey(company, user, client, request)].result;
            Run(c, s, [Start(v, company, user, client, request), Act(v, Get)]).workers
            == s.workers[v := Worker(ScopedKey(company, user, client, request), request, Done(Returned(m)))]
  {
    var start := Start(v, company, user, client, request);
    assert [start, Act(v, Get)][..1] == [start] && [start][..0] == [];
    assert Run(c, s, [start]) == Step(c, s, start);
  }

  /** A cached result is in force: it is live, and no other result of its key waits to replace it. */
  ghost predicate InForce(s: State, k: Key, e: Cached) {
    && k in s.cache && s.cache[k] == e && s.now < e.expires
    && forall w | w in s.workers && s.workers[w].key == k :: !s.workers[w].pc.Store?
  }

  lemma StepKeepsInForce(c: Config, s: State, a: Action, k: Key, e: Cached)
    requires Inv(c, s) && InForce(s, k, e) && Step(c, s, a).now < e.expires
    ensures InForce(Step(c, s, a), k, e)
  {
    if a.Act? && a.w in s.workers {
      hide StepWorker, Committed;
      WorkerEffects(c, s, a.w, a.op);
      assert Live(s, k) && Cleared(c, s);
      assert Open(s.workers[a.w].pc) ==> s.workers[a.w].key != k;
      var s' := StepWorker(c, s, a.w, a.op);
      if s'.cache != s.cache {
        SaveTouchesItsKey(c, s, a.w, a.op);
      }
    }
  }

  lemma SaveTouchesItsKey(c: Config, s: State, w: WorkerId, op: Op)
    requires w in s.workers && op.Save?
    ensures var s' := StepWorker(c, s, w, op);
            forall k | k != s.workers[w].key :: k in s.cache ==> k in s'.cache && s'.cache[k] == s.cache[k]
  {
  }

  lemma {:induction false} RunKeepsInForce(c: Config, s: State, actions: seq<Action>, k: Key, e: Cached)
    requires Inv(c, s) && InForce(s, k, e) && Run(c, s, actions).now < e.expires
    ensures InForce(Run(c, s, actions), k, e)
  {
    if actions != [] {
      var before := actions[..|actions| - 1];
      StepAppends(c, Run(c, s, before), actions[|actions| - 1]);
      RunKeepsInForce(c, s, before, k, e);
      RunKeeps(c, s, before);
      StepKeepsInForce(c, Run(c, s, before), actions[|actions| - 1], k, e);
    }
  }

  /** From the SET until the TTL runs out, whatever else happens, even if the lock is
      stuck: every GET of the key, at all three points of the call, is a hit on that result. */
  lemma {:induction false} SavedResultIsReplayed(c: Config, s: State, w: WorkerId, replied: bool, actions: seq<Action>, v: WorkerId)
    requires Inv(c, s) && w in s.workers && s.workers[w].pc.Store? && c.ttl > 0
    requires var t := Run(c, StepSave(c, s, w, replied), actions);
             && t.now < s.now + c.ttl && v in t.workers && t.workers[v].key == s.workers[w].key
             && (t.workers[v].pc.Lookup? || t.workers[v].pc.LostRace? || t.workers[v].pc.Recheck?)
    ensures var t := Run(c, StepSave(c, s, w, replied), actions);
            var hit := Returned(s.workers[w].pc.result);
            StepGet(t, v).workers[v].pc == if t.workers[v].pc.Recheck? then Release(hit) else Done(hit)
  {
    var s1, k := StepSave(c, s, w, replied), s.workers[w].key;
    var e := Cached(s.workers[w].pc.result, s.now + c.ttl);
    SaveKeeps(c, s, w, replied);
    SavePutsInForce(c, s, w, replied);
    hide StepSave, Inv, InForce;
    RunAppends(c, s1, actions);
    RunKeepsInForce(c, s1, actions, k, e);
    GetHits(Run(c, s1, actions), v, e);
  }

  lemma SavePutsInForce(c: Config, s: State, w: WorkerId, replied: bool)
    requires Inv(c, s) && w in s.workers && s.workers[w].pc.Store? && c.ttl > 0
    ensures InForce(StepSave(c, s, w, replied), s.workers[w].key, Cached(s.workers[w].pc.result, s.now + c.ttl))
  {
    assert LocksOwned(s);
    forall u | u in s.workers && s.workers[u].key == s.workers[w].key && s.workers[u].pc.Store? ensures u == w {
      assert Holds(s.workers[u].pc) && Holds(s.workers[w].pc);
    }
  }

  lemma GetHits(t: State, v: WorkerId, e: Cached)
    requires v in t.workers && InForce(t, t.workers[v].key, e)
    requires t.workers[v].pc.Lookup? || t.workers[v].pc.LostRace? || t.workers[v].pc.Recheck?
    ensures StepGet(t, v).workers[v].pc ==
            if t.workers[v].pc.Recheck? then Release(Returned(e.result)) else Done(Returned(e.result))
  {
  }

  // ---- Blocked and free keys ----

  /** The key's lock belongs to a worker that is gone. */
  ghost predicate Blocked(s: State, k: Key) {
    k in s.locks && s.locks[k] in s.workers && s.workers[s.locks[k]].pc.Stopped?
  }

  lemma StepKeepsBlocked(c: Config, s: State, a: Action, k: Key)
    requires Inv(c, s) && Blocked(s, k)
    ensures Blocked(Step(c, s, a), k)
    ensures forall i | |s.log| <= i < |Step(c, s, a).log| :: Step(c, s, a).log[i].key != k
  {
    StepAppends(c, s, a);
    var s' := Step(c, s, a);
    if s'.log != s.log {
      assert Holds(s.workers[a.w].pc) && LocksOwned(s);
    }
    BlockedStays(c, s, a, k);
  }

  lemma BlockedStays(c: Config, s: State, a: Action, k: Key)
    requires LocksOwned(s) && Blocked(s, k)
    ensures Blocked(Step(c, s, a), k)
  {
    if a.Act? && a.w in s.workers {
      WorkerEffects(c, s, a.w, a.op);
      OnlyTheOwnerUnlocks(c, s, a.w, a.op, k);
      hide StepWorker;
    }
  }

  lemma OnlyTheOwnerUnlocks(c: Config, s: State, w: WorkerId, op: Op, k: Key)
    requires w in s.workers && k in s.locks
    ensures var s' := StepWorker(c, s, w, op);
            (k in s'.locks && s'.locks[k] == s.locks[k]) || (s.locks[k] == w && s.workers[w].pc.Release?)
  {
    hide Committable, Refusable, Live;
    if !ToRedis(op) {
      DatabaseKeepsLocks(c, s, w, op);
      hide StepWorker;
    }
  }

  lemma DatabaseKeepsLocks(c: Config, s: State, w: WorkerId, op: Op)
    requires w in s.workers && !ToRedis(op)
    ensures StepWorker(c, s, w, op).locks == s.locks
  {
    hide Committable, Refusable, ExceedsCeiling, MovementOf;
  }

  /** A blocked key stays blocked and commits nothing more, in every continuation. */
  lemma {:induction false} BlockedForever(c: Config, s: State, actions: seq<Action>, k: Key)
    requires Inv(c, s) && Blocked(s, k)
    ensures Blocked(Run(c, s, actions), k)
    ensures s.log <= Run(c, s, actions).log
    ensures forall i | |s.log| <= i < |Run(c, s, actions).log| :: Run(c, s, actions).log[i].key != k
  {
    RunAppends(c, s, actions);
    if actions != [] {
      var before := actions[..|actions| - 1];
      BlockedForever(c, s, before, k);
      RunKeeps(c, s, before);
      StepKeepsBlocked(c, Run(c, s, before), actions[|actions| - 1], k);
      StepAppends(c, Run(c, s, before), actions[|actions| - 1]);
    }
  }

  /** Any failure while the lock is held, and a lost reply to the acquisition, the
      commit or the SET, leaves the key blocked. */
  lemma {:induction false} FailureBlocks(c: Config, s: State, w: WorkerId, op: Op)
    requires Inv(c, s) && w in s.workers
    requires
      || (op == Fail && Holds(s.workers[w].pc))
      || (op == TryLock(false) && s.workers[w].pc == Acquire && s.workers[w].key !in s.locks)
      || (op == Commit(false) && Committable(c, s, w))
      || (op == Save(false) && s.workers[w].pc.Store?)
    ensures Blocked(StepWorker(c, s, w, op), s.workers[w].key)
  {
    assert LocksOwned(s);
  }

  /** A refused callback leaves nothing behind: after the release the key is free, and
      balances, log, disposal items and cache are as before the call. */
  lemma {:induction false} RefusalFreesTheKey(c: Config, s: State, w: WorkerId)
    requires Inv(c, s) && w in s.workers && Refusable(c, s, w)
    ensures var t := StepUnlock(StepRefuse(c, s, w), w, true);
            && s.workers[w].key !in t.locks && t.workers[w].pc == Done(Rejected)
            && t.balances == s.balances && t.log == s.log && t.items == s.items && t.cache == s.cache
            && (s.workers[w].pc.InTransaction? ==> s.workers[w].request.row !in t.rowLocks)
  {
    assert LocksOwned(s) && Holds(s.workers[w].pc);
  }
}
