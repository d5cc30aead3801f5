/** What every run of the write protocol keeps. */
module WriteSafety {
  import opened WriteProtocol

  // ---- The invariant ----

  /** The worker believes it owns its key's lock. */
  predicate Holds(pc: Pc) {
    pc.Recheck? || pc.Callback? || Open(pc) || pc.Store? || pc.Release?
  }

  ghost predicate LocksOwned(s: State) {
    && (forall w | w in s.workers && Holds(s.workers[w].pc) ::
          s.workers[w].key in s.locks && s.locks[s.workers[w].key] == w)
    && (forall k | k in s.locks ::
          && s.locks[k] in s.workers && s.workers[s.locks[k]].key == k
          && (Holds(s.workers[s.locks[k]].pc) || s.workers[s.locks[k]].pc.Stopped?))
  }

  /** An open transaction locks its row, and the balance it read is still the stored one. */
  ghost predicate RowsLocked(s: State) {
    && (forall w | w in s.workers && Open(s.workers[w].pc) ::
          var r := s.workers[w].request;
          && r.row in s.rowLocks && s.rowLocks[r.row] == w
          && r.row in s.balances && s.balances[r.row] == s.workers[w].pc.seen && r.quantity > 0.0)
    && (forall r | r in s.rowLocks ::
          s.rowLocks[r] in s.workers && Open(s.workers[s.rowLocks[r]].pc) && s.workers[s.rowLocks[r]].request.row == r)
  }

  /** Commits of one key are at least the TTL apart. */
  ghost predicate Spaced(c: Config, log: seq<Movement>) {
    forall i, j | 0 <= i < j < |log| && log[i].key == log[j].key :: log[i].at + c.ttl <= log[j].at
  }

  ghost predicate Past(s: State) {
    forall i | 0 <= i < |s.log| :: s.log[i].at <= s.now
  }

  /** A commit younger than the TTL is covered by the cached result or by the lock. */
  ghost predicate Covered(c: Config, s: State, m: Movement) {
    || m.at + c.ttl <= s.now
    || (m.key in s.cache && m.at + c.ttl <= s.cache[m.key].expires)
    || (m.key in s.locks && s.locks[m.key] in s.workers &&
        var pc := s.workers[s.locks[m.key]].pc; pc.Stopped? || pc.Store?)
  }

  ghost predicate AllCovered(c: Config, s: State) {
    forall i | 0 <= i < |s.log| :: Covered(c, s, s.log[i])
  }

  /** A worker past its recheck has no commit of its key younger than the TTL, and no live cached result. */
  ghost predicate Cleared(c: Config, s: State) {
    forall w | w in s.workers && (s.workers[w].pc.Callback? || Open(s.workers[w].pc)) ::
      && !Live(s, s.workers[w].key)
      && forall i | 0 <= i < |s.log| && s.log[i].key == s.workers[w].key :: s.log[i].at + c.ttl <= s.now
  }

  /** m is the latest commit of its key. */
  ghost predicate Latest(log: seq<Movement>, m: Movement) {
    m in log && forall i | 0 <= i < |log| && log[i].key == m.key :: log[i] == m || log[i].at <= m.at
  }

  /** Whatever is returned was committed under that very key. */
  ghost predicate Genuine(s: State, key: Key, pc: Pc) {
    match pc
    case Store(m) => m.key == key && Latest(s.log, m)
    case Release(Returned(m)) => m.key == key && m in s.log
    case Done(Returned(m)) => m.key == key && m in s.log
    case _ => true
  }

  ghost predicate RepliesGenuine(s: State) {
    && (forall w | w in s.workers :: Genuine(s, s.workers[w].key, s.workers[w].pc))
    && (forall k | k in s.cache :: s.cache[k].result.key == k && s.cache[k].result in s.log)
    && (forall k | Live(s, k) :: Latest(s.log, s.cache[k].result))
  }

  ghost predicate Inv(c: Config, s: State) {
    && LocksOwned(s) && RowsLocked(s) && Spaced(c, s.log) && Past(s)
    && AllCovered(c, s) && Cleared(c, s) && RepliesGenuine(s)
  }

  lemma InitialInv(c: Config, now: int)
    ensures Inv(c, Initial(c, now))
  {
  }

  // ---- Every step keeps it: what a step leaves alone ----

  /** Only worker w moved. */
  ghost predicate OnlyMoved(s: State, s': State, w: WorkerId) {
    && w in s.workers && w in s'.workers
    && s'.workers == s.workers[w := s.workers[w].(pc := s'.workers[w].pc)]
    && s.now == s'.now
  }

  lemma LocksFrame(s: State, s': State, w: WorkerId)
    requires LocksOwned(s) && OnlyMoved(s, s', w) && s'.locks == s.locks
    requires Holds(s'.workers[w].pc) ==> Holds(s.workers[w].pc)
    requires Holds(s.workers[w].pc) || s.workers[w].pc.Stopped? ==> Holds(s'.workers[w].pc) || s'.workers[w].pc.Stopped?
    ensures LocksOwned(s')
  {
  }

  lemma RowsFrame(s: State, s': State, w: WorkerId)
    requires RowsLocked(s) && OnlyMoved(s, s', w) && s'.rowLocks == s.rowLocks && s'.balances == s.balances
    requires Open(s'.workers[w].pc) == Open(s.workers[w].pc)
    requires Open(s.workers[w].pc) ==> s'.workers[w].pc.seen == s.workers[w].pc.seen
    ensures RowsLocked(s')
  {
  }

  lemma CoverFrame(c: Config, s: State, s': State, w: WorkerId)
    requires AllCovered(c, s) && OnlyMoved(s, s', w) && s'.log == s.log && s'.cache == s.cache && s'.locks == s.locks
    requires s.workers[w].pc.Stopped? || s.workers[w].pc.Store? ==> s'.workers[w].pc.Stopped? || s'.workers[w].pc.Store?
    ensures AllCovered(c, s')
  {
    assert forall i | 0 <= i < |s.log| && Covered(c, s, s.log[i]) :: Covered(c, s', s'.log[i]);
  }

  ghost predicate PastRecheck(pc: Pc) {
    pc.Callback? || Open(pc)
  }

  lemma ClearFrame(c: Config, s: State, s': State, w: WorkerId)
    requires Cleared(c, s) && OnlyMoved(s, s', w) && s'.log == s.log && s'.cache == s.cache
    requires PastRecheck(s'.workers[w].pc) ==> PastRecheck(s.workers[w].pc)
    ensures Cleared(c, s')
  {
    forall v | v in s'.workers && PastRecheck(s'.workers[v].pc)
      ensures PastRecheck(s.workers[v].pc) && s'.workers[v].key == s.workers[v].key && (Live(s', s'.workers[v].key) <==> Live(s, s'.workers[v].key))
    {
    }
  }

  lemma RepliesFrame(s: State, s': State, w: WorkerId)
    requires RepliesGenuine(s) && OnlyMoved(s, s', w) && s'.log == s.log && s'.cache == s.cache
    requires Genuine(s, s.workers[w].key, s'.workers[w].pc)
    ensures RepliesGenuine(s')
  {
    forall v | v in s'.workers ensures Genuine(s', s'.workers[v].key, s'.workers[v].pc) {
      assert Genuine(s, s.workers[v].key, s'.workers[v].pc);
    }
    assert forall k :: Live(s', k) <==> Live(s, k);
  }

  // ---- Every step keeps it: what a step changes ----

  lemma StartKeeps(c: Config, s: State, w: WorkerId, key: Key, request: Request)
    requires Inv(c, s)
    ensures Inv(c, StepStart(s, w, key, request))
  {
    var s' := StepStart(s, w, key, request);
    hide LocksOwned, RowsLocked, Spaced, Past, AllCovered, Cleared, RepliesGenuine;
    assert OnlyStarted(s, s');
    StartKeepsLocks(s, s');
    StartKeepsRows(s, s');
    StartKeepsCover(c, s, s');
    StartKeepsReplies(s, s');
    PastFrame(s, s');
  }

  lemma StartKeepsLocks(s: State, s': State)
    requires LocksOwned(s) && OnlyStarted(s, s')
    ensures LocksOwned(s')
  {
  }

  lemma StartKeepsRows(s: State, s': State)
    requires RowsLocked(s) && OnlyStarted(s, s')
    ensures RowsLocked(s')
  {
  }

  lemma PastFrame(s: State, s': State)
    requires Past(s) && s'.log == s.log && s.now <= s'.now
    ensures Past(s')
  {
  }

  ghost predicate OnlyStarted(s: State, s': State) {
    && s'.log == s.log && s'.cache == s.cache && s'.locks == s.locks && s'.now == s.now
    && s'.rowLocks == s.rowLocks && s'.balances == s.balances
    && (forall v | v in s.workers :: v in s'.workers && s'.workers[v] == s.workers[v])
    && (forall v | v in s'.workers && v !in s.workers :: s'.workers[v].pc == Lookup)
  }

  lemma StartKeepsCover(c: Config, s: State, s': State)
    requires AllCovered(c, s) && Cleared(c, s) && OnlyStarted(s, s')
    ensures AllCovered(c, s') && Cleared(c, s')
  {
    assert forall i | 0 <= i < |s.log| && Covered(c, s, s.log[i]) :: Covered(c, s', s'.log[i]);
    forall v | v in s'.workers && PastRecheck(s'.workers[v].pc)
      ensures v in s.workers && (Live(s', s'.workers[v].key) <==> Live(s, s.workers[v].key))
    {
    }
  }

  lemma StartKeepsReplies(s: State, s': State)
    requires RepliesGenuine(s) && OnlyStarted(s, s')
    ensures RepliesGenuine(s')
  {
    forall v | v in s'.workers ensures Genuine(s', s'.workers[v].key, s'.workers[v].pc) {
      assert v in s.workers ==> Genuine(s, s.workers[v].key, s.workers[v].pc);
    }
    assert forall k :: Live(s', k) <==> Live(s, k);
  }

  lemma GetKeeps(c: Config, s: State, w: WorkerId)
    requires Inv(c, s) && w in s.workers
    ensures Inv(c, StepGet(s, w))
  {
    hide LocksOwned, RowsLocked, Spaced, Past, AllCovered, Cleared, RepliesGenuine, Live;
    var s' := StepGet(s, w);
    if s.workers[w].pc.Lookup? || s.workers[w].pc.LostRace? || s.workers[w].pc.Recheck? {
      HitIsGenuine(s, w);
      assert s' == Move(s, w, s'.workers[w].pc);
      assert GetMoves(s.workers[w].pc, s'.workers[w].pc);
      if s'.workers[w].pc.Callback? {
        RecheckClears(c, s, w);
      } else {
        ClearFrame(c, s, s', w);
      }
      hide StepGet, Genuine;
      LocksFrame(s, s', w);
      RowsFrame(s, s', w);
      CoverFrame(c, s, s', w);
      RepliesFrame(s, s', w);
      PastFrame(s, s');
    }
  }

  predicate GetMoves(pc: Pc, next: Pc) {
    if pc.Recheck? then next.Release? || next.Callback? else next.Done? || next.Acquire?
  }

  lemma HitIsGenuine(s: State, w: WorkerId)
    requires RepliesGenuine(s) && w in s.workers
    ensures Genuine(s, s.workers[w].key, StepGet(s, w).workers[w].pc)
  {
    var k, pc := s.workers[w].key, s.workers[w].pc;
    var next := StepGet(s, w).workers[w].pc;
    assert Genuine(s, k, pc);
    assert Live(s, k) ==> s.cache[k].result.key == k && s.cache[k].result in s.log;
    GetTells(s, w);
    hide Latest, RepliesGenuine, StepGet, Live;
  }

  /** After a GET the worker is where it was, or has heard the cached result or a miss. */
  lemma GetTells(s: State, w: WorkerId)
    requires w in s.workers
    ensures var k, next := s.workers[w].key, StepGet(s, w).workers[w].pc;
            || next == s.workers[w].pc || next in {Acquire, Done(InProgress), Callback}
            || (Live(s, k) && next in {Done(Returned(s.cache[k].result)), Release(Returned(s.cache[k].result))})
  {
  }

  /** A miss under the lock means that no commit of the key is younger than the TTL. */
  lemma RecheckClears(c: Config, s: State, w: WorkerId)
    requires Inv(c, s) && w in s.workers && s.workers[w].pc == Recheck && !Live(s, s.workers[w].key)
    ensures Cleared(c, Move(s, w, Callback))
  {
    var k, s' := s.workers[w].key, Move(s, w, Callback);
    forall i | 0 <= i < |s.log| && s.log[i].key == k ensures s.log[i].at + c.ttl <= s.now {
      assert Covered(c, s, s.log[i]);
    }
    forall v | v in s'.workers ensures Live(s', s'.workers[v].key) <==> Live(s, s.workers[v].key) {
    }
  }

  lemma TryLockKeeps(c: Config, s: State, w: WorkerId, replied: bool)
    requires Inv(c, s) && w in s.workers
    ensures Inv(c, StepTryLock(s, w, replied))
  {
    var s' := StepTryLock(s, w, replied);
    TryLockMoves(s, w, replied);
    hide LocksOwned, RowsLocked, Spaced, Past, AllCovered, Cleared, RepliesGenuine, Live, StepTryLock;
    if s.workers[w].pc == Acquire && s.workers[w].key !in s.locks {
      LockTakenKeepsLocks(s, w, s'.workers[w].pc);
      LockTakenKeepsCover(c, s, w, s'.workers[w].pc);
    } else {
      LocksFrame(s, s', w);
      CoverFrame(c, s, s', w);
    }
    RowsFrame(s, s', w);
    RepliesFrame(s, s', w);
    PastFrame(s, s');
    ClearFrame(c, s, s', w);
  }

  /** An attempt at the lock takes it if it is free; a lost reply stops the worker. */
  lemma TryLockMoves(s: State, w: WorkerId, replied: bool)
    requires w in s.workers
    ensures var k, s' := s.workers[w].key, StepTryLock(s, w, replied);
            && OnlyMoved(s, s', w)
            && (s.workers[w].pc != Acquire ==> s' == s)
            && (s.workers[w].pc == Acquire ==>
                 && s'.workers[w].pc == (if !replied then Stopped else if k in s.locks then LostRace else Recheck)
                 && s' == Move(if k in s.locks then s else s.(locks := s.locks[k := w]), w, s'.workers[w].pc))
  {
    if s.workers[w].pc != Acquire {
      assert s.workers == s.workers[w := s.workers[w].(pc := s.workers[w].pc)];
    }
  }

  lemma LockTakenKeepsCover(c: Config, s: State, w: WorkerId, pc: Pc)
    requires AllCovered(c, s) && LocksOwned(s) && w in s.workers && s.workers[w].pc == Acquire && s.workers[w].key !in s.locks
    ensures AllCovered(c, Move(s.(locks := s.locks[s.workers[w].key := w]), w, pc))
  {
    var s' := Move(s.(locks := s.locks[s.workers[w].key := w]), w, pc);
    assert forall i | 0 <= i < |s.log| && Covered(c, s, s.log[i]) :: Covered(c, s', s'.log[i]);
  }

  lemma LockTakenKeepsLocks(s: State, w: WorkerId, pc: Pc)
    requires LocksOwned(s) && w in s.workers && s.workers[w].pc == Acquire && s.workers[w].key !in s.locks
    requires pc == Recheck || pc == Stopped
    ensures LocksOwned(Move(s.(locks := s.locks[s.workers[w].key := w]), w, pc))
  {
  }

  lemma AbandonKeeps(c: Config, s: State, w: WorkerId)
    requires Inv(c, s) && w in s.workers
    ensures Inv(c, StepAbandon(s, w))
  {
    var s' := StepAbandon(s, w);
    hide LocksOwned, RowsLocked, Spaced, Past, AllCovered, Cleared, RepliesGenuine, Live;
    LocksFrame(s, s', w);
    CoverFrame(c, s, s', w);
    RowsFrame(s, s', w);
    RepliesFrame(s, s', w);
    PastFrame(s, s');
    ClearFrame(c, s, s', w);
  }

  /** Rolling back, by a refusal or a failure. */
  lemma RollbackKeepsRows(s: State, w: WorkerId, pc: Pc)
    requires RowsLocked(s) && w in s.workers && !Open(pc)
    ensures RowsLocked(Move(RolledBack(s, w), w, pc))
  {
  }

  lemma RefuseKeeps(c: Config, s: State, w: WorkerId)
    requires Inv(c, s) && w in s.workers
    ensures Inv(c, StepRefuse(c, s, w))
  {
    if Refusable(c, s, w) {
      var s' := StepRefuse(c, s, w);
      hide LocksOwned, RowsLocked, Spaced, Past, AllCovered, Cleared, RepliesGenuine, Live;
      RollbackKeepsRows(s, w, Release(Rejected));
      LocksFrame(s, s', w);
      CoverFrame(c, s, s', w);
      RepliesFrame(s, s', w);
      PastFrame(s, s');
      ClearFrame(c, s, s', w);
    }
  }

  lemma FailKeeps(c: Config, s: State, w: WorkerId)
    requires Inv(c, s) && w in s.workers
    ensures Inv(c, StepFail(s, w))
  {
    var s' := StepFail(s, w);
    hide LocksOwned, RowsLocked, Spaced, Past, AllCovered, Cleared, RepliesGenuine, Live;
    if s' != s {
      RollbackKeepsRows(s, w, Stopped);
      LocksFrame(s, s', w);
      CoverFrame(c, s, s', w);
      RepliesFrame(s, s', w);
      PastFrame(s, s');
      ClearFrame(c, s, s', w);
    }
  }

  lemma SelectKeeps(c: Config, s: State, w: WorkerId)
    requires Inv(c, s) && w in s.workers
    ensures Inv(c, StepSelect(s, w))
  {
    var s' := StepSelect(s, w);
    if s' != s {
      assert RowsLocked(s');
    }
    hide LocksOwned, RowsLocked, Spaced, Past, AllCovered, Cleared, RepliesGenuine, Live;
    if s' != s {
      LocksFrame(s, s', w);
      CoverFrame(c, s, s', w);
      RepliesFrame(s, s', w);
      PastFrame(s, s');
      ClearFrame(c, s, s', w);
    }
  }

  // ---- Commit, save, unlock and time ----

  lemma CommitKeeps(c: Config, s: State, w: WorkerId, replied: bool)
    requires Inv(c, s) && w in s.workers
    ensures Inv(c, StepCommit(c, s, w, replied))
  {
    hide LocksOwned, RowsLocked, Spaced, Past, AllCovered, Cleared, RepliesGenuine, Live;
    if Committable(c, s, w) {
      var s' := StepCommit(c, s, w, replied);
      assert s' == Move(Committed(s, w), w, s'.workers[w].pc);
      LocksFrame(s, s', w);
      CommitKeepsRows(s, w, s'.workers[w].pc);
      CommitKeepsSpacing(c, s, w);
      PastFrame(Committed(s, w), s');
      CommitKeepsCover(c, s, w, s'.workers[w].pc);
      CommitKeepsClear(c, s, w, s'.workers[w].pc);
      CommitKeepsReplies(c, s, w, s'.workers[w].pc);
    }
  }

  lemma CommitKeepsRows(s: State, w: WorkerId, pc: Pc)
    requires RowsLocked(s) && w in s.workers && Open(s.workers[w].pc) && !Open(pc) && s.workers[w].request.row in s.balances
    ensures RowsLocked(Move(Committed(s, w), w, pc))
  {
  }

  lemma CommitKeepsSpacing(c: Config, s: State, w: WorkerId)
    requires Spaced(c, s.log) && Past(s) && Cleared(c, s)
    requires w in s.workers && Open(s.workers[w].pc) && s.workers[w].request.row in s.balances
    ensures Spaced(c, Committed(s, w).log) && Past(Committed(s, w))
  {
  }

  lemma CommitKeepsCover(c: Config, s: State, w: WorkerId, pc: Pc)
    requires AllCovered(c, s) && LocksOwned(s)
    requires w in s.workers && Open(s.workers[w].pc) && s.workers[w].request.row in s.balances
    requires pc.Store? || pc.Stopped?
    ensures AllCovered(c, Move(Committed(s, w), w, pc))
  {
    var s' := Move(Committed(s, w), w, pc);
    assert Covered(c, s', MovementOf(s, w));
    assert forall i | 0 <= i < |s.log| && Covered(c, s, s.log[i]) :: Covered(c, s', s.log[i]);
  }

  /** No other worker of this key is past its recheck: they would hold the same lock. */
  lemma CommitKeepsClear(c: Config, s: State, w: WorkerId, pc: Pc)
    requires Cleared(c, s) && LocksOwned(s)
    requires w in s.workers && Open(s.workers[w].pc) && s.workers[w].request.row in s.balances
    requires !PastRecheck(pc)
    ensures Cleared(c, Move(Committed(s, w), w, pc))
  {
    var s' := Move(Committed(s, w), w, pc);
    forall v | v in s'.workers && PastRecheck(s'.workers[v].pc)
      ensures s'.workers[v] == s.workers[v] && s.workers[v].key != s.workers[w].key
      ensures Live(s', s'.workers[v].key) <==> Live(s, s.workers[v].key)
    {
      assert Holds(s.workers[v].pc) && Holds(s.workers[w].pc);
    }
  }

  lemma CommitKeepsReplies(c: Config, s: State, w: WorkerId, pc: Pc)
    requires RepliesGenuine(s) && LocksOwned(s) && Past(s) && Cleared(c, s)
    requires w in s.workers && Open(s.workers[w].pc) && s.workers[w].request.row in s.balances
    requires pc == Store(MovementOf(s, w)) || pc == Stopped
    ensures RepliesGenuine(Move(Committed(s, w), w, pc))
  {
    var s', m := Move(Committed(s, w), w, pc), MovementOf(s, w);
    assert s'.log[|s.log|] == m;
    assert forall x | x in s.log :: x in s'.log;
    assert forall x | Latest(s.log, x) && x.key != m.key :: Latest(s'.log, x);
    forall v | v in s'.workers ensures Genuine(s', s'.workers[v].key, s'.workers[v].pc) {
      assert Genuine(s, s.workers[v].key, s.workers[v].pc);
      if v != w && s.workers[v].pc.Store? {
        assert Holds(s.workers[v].pc) && Holds(s.workers[w].pc);
      }
    }
    forall k | Live(s', k) ensures Latest(s'.log, s'.cache[k].result) {
      assert Live(s, k);
    }
  }

  lemma SaveKeeps(c: Config, s: State, w: WorkerId, replied: bool)
    requires Inv(c, s) && w in s.workers
    ensures Inv(c, StepSave(c, s, w, replied))
  {
    hide LocksOwned, RowsLocked, Spaced, Past, AllCovered, Cleared, RepliesGenuine, Live;
    if s.workers[w].pc.Store? {
      var s' := StepSave(c, s, w, replied);
      LocksFrame(s, s', w);
      RowsFrame(s, s', w);
      PastFrame(s, s');
      SaveKeepsCover(c, s, s', w);
      SaveKeepsClear(c, s, s', w);
      SaveKeepsReplies(c, s, s', w);
    }
  }

  ghost predicate Saved(c: Config, s: State, s': State, w: WorkerId) {
    && OnlyMoved(s, s', w) && s'.log == s.log && s'.locks == s.locks && s.workers[w].pc.Store?
    && s'.cache == s.cache[s.workers[w].key := Cached(s.workers[w].pc.result, s.now + c.ttl)]
    && (s'.workers[w].pc == Release(Returned(s.workers[w].pc.result)) || s'.workers[w].pc == Stopped)
  }

  lemma SaveKeepsCover(c: Config, s: State, s': State, w: WorkerId)
    requires AllCovered(c, s) && LocksOwned(s) && Past(s) && Saved(c, s, s', w)
    ensures AllCovered(c, s')
  {
    forall i | 0 <= i < |s.log| ensures Covered(c, s', s.log[i]) {
      assert Covered(c, s, s.log[i]);
    }
  }

  lemma SaveKeepsClear(c: Config, s: State, s': State, w: WorkerId)
    requires Cleared(c, s) && LocksOwned(s) && Saved(c, s, s', w)
    ensures Cleared(c, s')
  {
    forall v | v in s'.workers && PastRecheck(s'.workers[v].pc)
      ensures s'.workers[v] == s.workers[v] && s.workers[v].key != s.workers[w].key
      ensures Live(s', s'.workers[v].key) <==> Live(s, s.workers[v].key)
    {
      assert Holds(s.workers[v].pc) && Holds(s.workers[w].pc);
    }
  }

  lemma SaveKeepsReplies(c: Config, s: State, s': State, w: WorkerId)
    requires RepliesGenuine(s) && Saved(c, s, s', w)
    ensures RepliesGenuine(s')
  {
    assert Genuine(s, s.workers[w].key, s.workers[w].pc);
    forall v | v in s'.workers ensures Genuine(s', s'.workers[v].key, s'.workers[v].pc) {
      assert Genuine(s, s.workers[v].key, s.workers[v].pc);
    }
    forall k | Live(s', k) ensures Latest(s'.log, s'.cache[k].result) {
      assert k != s.workers[w].key ==> Live(s, k);
    }
  }

  lemma UnlockKeeps(c: Config, s: State, w: WorkerId, replied: bool)
    requires Inv(c, s) && w in s.workers
    ensures Inv(c, StepUnlock(s, w, replied))
  {
    hide LocksOwned, RowsLocked, Spaced, Past, AllCovered, Cleared, RepliesGenuine, Live;
    if s.workers[w].pc.Release? {
      var s' := StepUnlock(s, w, replied);
      UnlockKeepsLocks(s, w, s'.workers[w].pc);
      UnlockKeepsCover(c, s, w, s'.workers[w].pc);
      RowsFrame(s, s', w);
      RepliesFrame(s, s', w) by {
        assert Genuine(s, s.workers[w].key, s.workers[w].pc) by { WorkerGenuine(s, w); }
      }
      PastFrame(s, s');
      ClearFrame(c, s, s', w);
    }
  }

  lemma WorkerGenuine(s: State, w: WorkerId)
    requires RepliesGenuine(s) && w in s.workers
    ensures Genuine(s, s.workers[w].key, s.workers[w].pc)
  {
  }

  function Unlocked(s: State, w: WorkerId): State
    requires w in s.workers
  {
    var k := s.workers[w].key;
    if k in s.locks && s.locks[k] == w then s.(locks := s.locks - {k}) else s
  }

  lemma UnlockKeepsLocks(s: State, w: WorkerId, pc: Pc)
    requires LocksOwned(s) && w in s.workers && s.workers[w].pc.Release? && !Holds(pc)
    ensures LocksOwned(Move(Unlocked(s, w), w, pc))
  {
  }

  lemma UnlockKeepsCover(c: Config, s: State, w: WorkerId, pc: Pc)
    requires AllCovered(c, s) && LocksOwned(s) && w in s.workers && s.workers[w].pc.Release? && !Holds(pc)
    ensures AllCovered(c, Move(Unlocked(s, w), w, pc))
  {
    var s' := Move(Unlocked(s, w), w, pc);
    assert forall i | 0 <= i < |s.log| && Covered(c, s, s.log[i]) :: Covered(c, s', s.log[i]);
  }

  lemma TickKeeps(c: Config, s: State, elapsed: nat)
    requires Inv(c, s)
    ensures Inv(c, s.(now := s.now + elapsed))
  {
    var s' := s.(now := s.now + elapsed);
    assert LocksOwned(s') && RowsLocked(s') && Past(s');
    assert forall i | 0 <= i < |s.log| && Covered(c, s, s.log[i]) :: Covered(c, s', s.log[i]);
    assert forall k | Live(s', k) :: Live(s, k);
    assert Cleared(c, s');
    forall v | v in s'.workers ensures Genuine(s', s'.workers[v].key, s'.workers[v].pc) {
      assert Genuine(s, s.workers[v].key, s.workers[v].pc);
    }
  }

  lemma {:induction false} StepKeeps(c: Config, s: State, a: Action)
    requires Inv(c, s)
    ensures Inv(c, Step(c, s, a))
  {
    hide Inv, StepStart, StepGet, StepTryLock, StepRefuse, StepSelect, StepCommit, StepSave, StepUnlock, StepAbandon, StepFail;
    match a
    case Start(w, company, user, client, request) =>
      StartKeeps(c, s, w, ScopedKey(company, user, client, request), request);
    case Tick(elapsed) => TickKeeps(c, s, elapsed);
    case Act(w, op) =>
      if w in s.workers {
        match op
        case Get => GetKeeps(c, s, w);
        case TryLock(replied) => TryLockKeeps(c, s, w, replied);
        case Refuse => RefuseKeeps(c, s, w);
        case Select => SelectKeeps(c, s, w);
        case Commit(replied) => CommitKeeps(c, s, w, replied);
        case Save(replied) => SaveKeeps(c, s, w, replied);
        case Unlock(replied) => UnlockKeeps(c, s, w, replied);
        case Abandon => AbandonKeeps(c, s, w);
        case Fail => FailKeeps(c, s, w);
      }
  }
}
