/** The stock ledger behind the write protocol: conservation, the disposal ceiling over
    runs, and refinement of a ledger that applies each key once per TTL. */
module Ledger {
  import opened WriteProtocol
  import opened WriteSafety
  import opened WriteTheorems
  import opened Wrappers

  // ---- Conservation ----

  /** Total received by, and total discarded from, a row. */
  function Received(log: seq<Movement>, row: RowId): real {
    if log == [] then 0.0 else
      var m := log[|log| - 1];
      Received(log[..|log| - 1], row) + if m.request.row == row && m.request.Receive? then m.request.quantity else 0.0
  }

  function Discarded(log: seq<Movement>, row: RowId): real {
    if log == [] then 0.0 else
      var m := log[|log| - 1];
      Discarded(log[..|log| - 1], row) + if m.request.row == row && m.request.Discard? then m.request.quantity else 0.0
  }

  function ItemTotal(items: seq<DisposalItem>, row: RowId): real {
    if items == [] then 0.0 else
      var d := items[|items| - 1];
      ItemTotal(items[..|items| - 1], row) + if d.row == row then d.quantity else 0.0
  }

  /** Each movement moved its row by its own quantity, from a balance that allowed it. */
  ghost predicate Lawful(c: Config, m: Movement) {
    && m.request.quantity > 0.0
    && !ExceedsCeiling(c, m.request, m.before)
    && m.after == m.before + Delta(m.request) && m.after >= 0.0
  }

  ghost predicate Balanced(c: Config, s: State) {
    && s.balances.Keys == c.initial.Keys
    && (forall row | row in s.balances ::
          && s.balances[row] == c.initial[row] + Received(s.log, row) - Discarded(s.log, row)
          && ItemTotal(s.items, row) == Discarded(s.log, row))
    && (forall i | 0 <= i < |s.log| :: Lawful(c, s.log[i]))
  }

  /** What one step does to the ledger: nothing, or one lawful movement from the stored balance. */
  ghost predicate Moved(c: Config, s: State, s': State, m: Movement) {
    && m.request.row in s.balances && m.before == s.balances[m.request.row] && Lawful(c, m)
    && s'.log == s.log + [m]
    && s'.balances == s.balances[m.request.row := m.after]
    && s'.items == s.items + if m.request.Discard? then [DisposalItem(m.request.row, m.request.quantity)] else []
  }

  ghost predicate Still(s: State, s': State) {
    s'.log == s.log && s'.balances == s.balances && s'.items == s.items
  }

  lemma StillUnlessCommit(c: Config, s: State, w: WorkerId, op: Op)
    requires w in s.workers && !(op.Commit? && Committable(c, s, w))
    ensures Still(s, StepWorker(c, s, w, op))
  {
    hide Committable, Refusable, Live;
  }

  lemma StepMoves(c: Config, s: State, a: Action)
    requires Inv(c, s)
    ensures Still(s, Step(c, s, a)) ||
            (a.Act? && a.w in s.workers && Committable(c, s, a.w) && a.op.Commit? &&
             Moved(c, s, Step(c, s, a), MovementOf(s, a.w)))
  {
    if a.Act? && a.w in s.workers {
      if a.op.Commit? && Committable(c, s, a.w) {
        // the row lock: the balance checked is the balance decremented
        assert RowsLocked(s);
      } else {
        StillUnlessCommit(c, s, a.w, a.op);
      }
    }
  }

  lemma AppendTotals(log: seq<Movement>, m: Movement, items: seq<DisposalItem>, d: DisposalItem, row: RowId)
    ensures Received(log + [m], row) == Received(log, row) + if m.request.row == row && m.request.Receive? then m.request.quantity else 0.0
    ensures Discarded(log + [m], row) == Discarded(log, row) + if m.request.row == row && m.request.Discard? then m.request.quantity else 0.0
    ensures ItemTotal(items + [d], row) == ItemTotal(items, row) + if d.row == row then d.quantity else 0.0
  {
    assert (log + [m])[..|log|] == log && (items + [d])[..|items|] == items;
  }

  lemma MoveKeepsBalanced(c: Config, s: State, s': State, m: Movement)
    requires Balanced(c, s) && Moved(c, s, s', m)
    ensures Balanced(c, s')
  {
    forall row | row in s'.balances
      ensures s'.balances[row] == c.initial[row] + Received(s'.log, row) - Discarded(s'.log, row)
      ensures ItemTotal(s'.items, row) == Discarded(s'.log, row)
    {
      AppendTotals(s.log, m, s.items, DisposalItem(m.request.row, m.request.quantity), row);
      assert s.items + [] == s.items;
    }
  }

  /** In every reachable state a row's balance is its initial balance plus the committed
      receipts minus the committed disposals, and the disposal items total the disposals. */
  lemma {:induction false} StockIsConserved(c: Config, now: int, actions: seq<Action>)
    ensures Balanced(c, Run(c, Initial(c, now), actions))
  {
    if actions != [] {
      var before := actions[..|actions| - 1];
      var s, a := Run(c, Initial(c, now), before), actions[|actions| - 1];
      StockIsConserved(c, now, before);
      InitialInv(c, now);
      RunKeeps(c, Initial(c, now), before);
      StepMoves(c, s, a);
      if !Still(s, Step(c, s, a)) {
        MoveKeepsBalanced(c, s, Step(c, s, a), MovementOf(s, a.w));
      }
    }
  }

  // ---- The disposal ceiling, over runs ----

  function Power(f: real, n: nat): real {
    if n == 0 then 1.0 else f * Power(f, n - 1)
  }

  lemma {:induction false} PowerPositive(f: real, n: nat)
    requires f > 0.0
    ensures Power(f, n) > 0.0
  {
    if n > 0 {
      PowerPositive(f, n - 1);
    }
  }

  /** How many of the movements are on the row. */
  function CountOn(log: seq<Movement>, row: RowId): nat {
    if log == [] then 0 else
      CountOn(log[..|log| - 1], row) + if log[|log| - 1].request.row == row then 1 else 0
  }

  /** From n on, only stock clerks' disposals touched the row. */
  ghost predicate ClerkDisposalsOnly(log: seq<Movement>, n: nat, row: RowId) {
    forall i | n <= i < |log| && log[i].request.row == row :: log[i].request.Discard? && log[i].request.role == Estoquista
  }

  /** One accepted clerk's disposal keeps at least (100 - p)% of what was there. */
  lemma ClerkKeepsShare(c: Config, m: Movement)
    requires Lawful(c, m) && m.request.Discard? && m.request.role == Estoquista
    ensures m.before > 0.0 && m.after >= m.before * (1.0 - c.ceilingPercent / 100.0)
  {
    var q, b, p := m.request.quantity, m.before, c.ceilingPercent;
    assert b > 0.0;
    assert (q / b) * 100.0 <= p;
    assert q == (q / b) * b;
    ScaleUp(q / b, p / 100.0, b);
    assert b * (1.0 - p / 100.0) == b - (p / 100.0) * b;
  }

  lemma ScaleUp(x: real, y: real, b: real)
    requires x <= y && b >= 0.0
    ensures x * b <= y * b
  {
  }

  /** The least that n clerk disposals can leave of an initial balance. */
  function Floor(c: Config, initial: real, n: nat): real {
    initial * Power(1.0 - c.ceilingPercent / 100.0, n)
  }

  lemma FloorStep(c: Config, initial: real, n: nat, m: Movement)
    requires c.ceilingPercent <= 100.0 && m.before >= Floor(c, initial, n)
    requires Lawful(c, m) && m.request.Discard? && m.request.role == Estoquista
    ensures m.after >= Floor(c, initial, n + 1)
  {
    ClerkKeepsShare(c, m);
    hide Lawful;
    var f := 1.0 - c.ceilingPercent / 100.0;
    PowerStep(initial, f, n);
    ScaleUp(initial * Power(f, n), m.before, f);
  }

  lemma PowerStep(initial: real, f: real, n: nat)
    ensures initial * Power(f, n + 1) == (initial * Power(f, n)) * f
  {
    Reassociate(initial, f, Power(f, n));
  }

  lemma Reassociate(x: real, y: real, z: real)
    ensures x * (y * z) == (x * z) * y
  {
  }

  /** After any n accepted clerk disposals of a row and no other movement of it, by any
      concurrent workers, at least initial * (1 - p/100)^n is left. */
  lemma {:induction false} CeilingOverRuns(c: Config, s: State, actions: seq<Action>, row: RowId)
    requires Inv(c, s) && row in s.balances && s.balances[row] >= 0.0
    requires c.ceilingPercent <= 100.0
    requires ClerkDisposalsOnly(Run(c, s, actions).log, |s.log|, row)
    ensures var t := Run(c, s, actions);
            && row in t.balances && s.log <= t.log
            && t.balances[row] >= Floor(c, s.balances[row], CountOn(t.log[|s.log|..], row))
  {
    RunAppends(c, s, actions);
    if actions != [] {
      var before := actions[..|actions| - 1];
      var u, a := Run(c, s, before), actions[|actions| - 1];
      var t := Step(c, u, a);
      RunAppends(c, s, before);
      RunKeeps(c, s, before);
      StepMoves(c, u, a);
      assert forall i | 0 <= i < |u.log| :: u.log[i] == t.log[i];
      hide Inv, Step, Moved, CountOn, Floor;
      CeilingOverRuns(c, s, before, row);
      if !Still(u, t) {
        CeilingStep(c, s, u, t, MovementOf(u, a.w), row);
      }
    }
  }

  lemma CeilingStep(c: Config, s: State, u: State, t: State, m: Movement, row: RowId)
    requires s.log <= u.log && Moved(c, u, t, m) && row in u.balances && row in s.balances
    requires c.ceilingPercent <= 100.0 && ClerkDisposalsOnly(t.log, |s.log|, row)
    requires u.balances[row] >= Floor(c, s.balances[row], CountOn(u.log[|s.log|..], row))
    ensures t.balances[row] >= Floor(c, s.balances[row], CountOn(t.log[|s.log|..], row))
  {
    hide Floor, CountOn;
    CountAppend(u.log, |s.log|, m, row);
    if m.request.row == row {
      assert t.log[|u.log|] == m;
      FloorStep(c, s.balances[row], CountOn(u.log[|s.log|..], row), m);
    }
  }

  lemma CountAppend(log: seq<Movement>, n: nat, m: Movement, row: RowId)
    requires n <= |log|
    ensures CountOn((log + [m])[n..], row) == CountOn(log[n..], row) + if m.request.row == row then 1 else 0
  {
    var t := (log + [m])[n..];
    assert t[..|t| - 1] == log[n..] && t[|t| - 1] == m;
  }

  /** With p below 100, clerks alone never empty a row. */
  lemma {:induction false} ClerksNeverEmptyARow(c: Config, s: State, actions: seq<Action>, row: RowId)
    requires Inv(c, s) && row in s.balances && s.balances[row] > 0.0
    requires c.ceilingPercent < 100.0
    requires ClerkDisposalsOnly(Run(c, s, actions).log, |s.log|, row)
    ensures row in Run(c, s, actions).balances && Run(c, s, actions).balances[row] > 0.0
  {
    CeilingOverRuns(c, s, actions, row);
    var t := Run(c, s, actions);
    var p := Power(1.0 - c.ceilingPercent / 100.0, CountOn(t.log[|s.log|..], row));
    PowerPositive(1.0 - c.ceilingPercent / 100.0, CountOn(t.log[|s.log|..], row));
    PositiveProduct(s.balances[row], p);
  }

  lemma PositiveProduct(x: real, y: real)
    requires x > 0.0 && y > 0.0
    ensures x * y > 0.0
  {
  }

  // ---- Refinement ----

  /** The ledger a caller imagines: balances, disposal items, and when each key was last applied. */
  datatype Spec = Spec(now: int, balances: map<RowId, real>, items: seq<DisposalItem>, applied: map<Key, int>)

  datatype SpecAction = Wait(elapsed: nat) | Apply(key: Key, request: Request)

  predicate SpecEnabled(c: Config, l: Spec, a: SpecAction) {
    match a
    case Wait(_) => true
    case Apply(key, r) =>
      && (key in l.applied ==> l.applied[key] + c.ttl <= l.now)
      && r.row in l.balances && r.quantity > 0.0
      && !ExceedsCeiling(c, r, l.balances[r.row])
      && l.balances[r.row] + Delta(r) >= 0.0
  }

  function SpecStep(c: Config, l: Spec, a: SpecAction): Spec
    requires SpecEnabled(c, l, a)
  {
    match a
    case Wait(elapsed) => l.(now := l.now + elapsed)
    case Apply(key, r) =>
      Spec(l.now, l.balances[r.row := l.balances[r.row] + Delta(r)],
           l.items + (if r.Discard? then [DisposalItem(r.row, r.quantity)] else []),
           l.applied[key := l.now])
  }

  /** Where a run of the imagined ledger ends; None if an action was not enabled where it happened. */
  function SpecRun(c: Config, l: Spec, actions: seq<SpecAction>): Option<Spec> {
    if actions == [] then Some(l) else
      match SpecRun(c, l, actions[..|actions| - 1])
      case None => None
      case Some(mid) =>
        var a := actions[|actions| - 1];
        if SpecEnabled(c, mid, a) then Some(SpecStep(c, mid, a)) else None
  }

  function LastApplied(log: seq<Movement>): map<Key, int> {
    if log == [] then map[] else
      LastApplied(log[..|log| - 1])[log[|log| - 1].key := log[|log| - 1].at]
  }

  lemma {:induction false} LastAppliedIsInLog(log: seq<Movement>, k: Key)
    ensures k in LastApplied(log) ==> exists i :: 0 <= i < |log| && log[i].key == k && log[i].at == LastApplied(log)[k]
  {
    if log != [] && log[|log| - 1].key != k {
      LastAppliedIsInLog(log[..|log| - 1], k);
      if k in LastApplied(log) {
        var i :| 0 <= i < |log| - 1 && log[..|log| - 1][i].key == k && log[..|log| - 1][i].at == LastApplied(log[..|log| - 1])[k];
        assert log[i].key == k;
      }
    }
  }

  function Abs(s: State): Spec {
    Spec(s.now, s.balances, s.items, LastApplied(s.log))
  }

  /** Each protocol step is invisible, waits, or applies one key that was not applied within the TTL. */
  lemma {:induction false} StepRefines(c: Config, s: State, a: Action) returns (b: seq<SpecAction>)
    requires Inv(c, s)
    ensures b == [] ==> Abs(Step(c, s, a)) == Abs(s)
    ensures |b| <= 1
    ensures b != [] ==> SpecEnabled(c, Abs(s), b[0]) && Abs(Step(c, s, a)) == SpecStep(c, Abs(s), b[0])
  {
    var s' := Step(c, s, a);
    StepMoves(c, s, a);
    if a.Tick? {
      b := [Wait(a.elapsed)];
    } else {
      StepKeepsTime(c, s, a);
      if Still(s, s') {
        b := [];
      } else {
        CommitRefines(c, s, s', a.w);
        b := [Apply(s.workers[a.w].key, s.workers[a.w].request)];
      }
    }
  }

  lemma CommitRefines(c: Config, s: State, s': State, w: WorkerId)
    requires Inv(c, s) && w in s.workers && Committable(c, s, w) && Moved(c, s, s', MovementOf(s, w)) && s'.now == s.now
    ensures var a := Apply(s.workers[w].key, s.workers[w].request);
            SpecEnabled(c, Abs(s), a) && Abs(s') == SpecStep(c, Abs(s), a)
  {
    assert Cleared(c, s);
    LastAppliedIsInLog(s.log, s.workers[w].key);
    assert s'.log[..|s.log|] == s.log;
  }

  lemma StepKeepsTime(c: Config, s: State, a: Action)
    requires !a.Tick?
    ensures Step(c, s, a).now == s.now
  {
    if a.Act? && a.w in s.workers {
      OnlyOneMoves(c, s, a.w, a.op);
    }
  }

  /** Every run of the protocol is, seen from the ledger, a run of the imagined ledger. */
  lemma {:induction false} ProtocolRefinesLedger(c: Config, now: int, actions: seq<Action>) returns (b: seq<SpecAction>)
    ensures SpecRun(c, Abs(Initial(c, now)), b) == Some(Abs(Run(c, Initial(c, now), actions)))
  {
    if actions == [] {
      b := [];
    } else {
      var before := actions[..|actions| - 1];
      var u := Run(c, Initial(c, now), before);
      InitialInv(c, now);
      RunKeeps(c, Initial(c, now), before);
      var b0 := ProtocolRefinesLedger(c, now, before);
      var d := StepRefines(c, u, actions[|actions| - 1]);
      b := b0 + d;
      hide Inv, Step, Abs, SpecEnabled;
      assert if d == [] then b == b0 else b[..|b| - 1] == b0;
    }
  }
}
