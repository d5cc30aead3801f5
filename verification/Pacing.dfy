/** Pacing of the language-model calls: ProviderRunnable.ainvoke (app/agents/runtime.py). */
module Pacing {
  import opened Wrappers

  /** llm_provider == "groq", llm_tokens_per_minute, llm_max_retries. */
  datatype Config = Config(groq: bool, tokensPerMinute: nat, maxRetries: int)

  datatype Usage = Usage(total: nat, input: nat, output: nat)

  function Tokens(u: Usage): nat {
    if u.total != 0 then u.total else u.input + u.output
  }

  /** Seconds of quota the tokens use up. */
  function Seconds(c: Config, tokens: nat): real
    requires c.tokensPerMinute > 0
  {
    60.0 * tokens as real / c.tokensPerMinute as real
  }

  /** Attempts per call: the first one always happens. */
  function MaxAttempts(c: Config): nat {
    if c.maxRetries < 1 then 1 else c.maxRetries
  }

  /** Retry-After; None stands for a value that is not a number. */
  function Delay(retryAfter: Option<real>): real {
    match retryAfter
    case Some(x) => if x < 0.0 then 0.0 else x
    case None => 1.0
  }

  // ---- The shared clock as a state machine over every task's steps ----

  /** Where a call stands; a task without a phase has none under way. */
  datatype Phase =
    | Ready(attempt: nat)
    | Asleep(attempt: nat, until: real)
    | InFlight(attempt: nat, started: real)
    | BackingOff(attempt: nat)

  datatype Event =
    | Sent(task: nat, at: real)
    | Answered(task: nat, started: real, tokens: nat)
    | Limited(task: nat, until: real)

  datatype State = State(
    now: real, readyAt: real, holder: Option<nat>, phase: map<nat, Phase>, events: seq<Event>)

  datatype Action =
    | Wait(seconds: real)
    | Begin(task: nat)
    | Measure(task: nat)
    | Send(task: nat)
    | Answer(task: nat, usage: Usage)
    | Limit(task: nat, retryAfter: Option<real>)
    | Fail(task: nat, transient: bool)
    | Resume(task: nat)
    | Cancel(task: nat)

  function Initial(now: real): State {
    State(now, 0.0, None, map[], [])
  }

  /** The call ends; `async with` gives the lock back. */
  function Finish(s: State, t: nat): State {
    s.(phase := s.phase - {t}, holder := if s.holder == Some(t) then None else s.holder)
  }

  /** A retryable failure of attempt a. */
  function Retry(c: Config, s: State, t: nat, a: nat): State {
    if a < MaxAttempts(c) then s.(phase := s.phase[t := BackingOff(a + 1)]) else Finish(s, t)
  }

  function At(s: State, t: nat): Option<Phase> {
    if t in s.phase then Some(s.phase[t]) else None
  }

  /** One step; None when the action is not possible. */
  function Step(c: Config, s: State, a: Action): Option<State> {
    match a
    case Wait(seconds) => if seconds >= 0.0 then Some(s.(now := s.now + seconds)) else None
    case Begin(t) =>
      if t in s.phase || (c.groq && s.holder.Some?) then None
      else Some(s.(phase := s.phase[t := Ready(1)], holder := if c.groq then Some(t) else s.holder))
    case Measure(t) =>
      (match At(s, t)
       case Some(Ready(n)) => Some(s.(phase := s.phase[t := Asleep(n, if s.readyAt > s.now then s.readyAt else s.now)]))
       case _ => None)
    case Send(t) =>
      (match At(s, t)
       case Some(Asleep(n, until)) =>
         if s.now < until then None
         else Some(s.(phase := s.phase[t := InFlight(n, s.now)], events := s.events + [Sent(t, s.now)]))
       case _ => None)
    case Answer(t, usage) =>
      (match At(s, t)
       case Some(InFlight(n, started)) =>
         var ready := if c.groq && c.tokensPerMinute > 0 then started + Seconds(c, Tokens(usage)) else s.readyAt;
         Some(Finish(s.(readyAt := ready, events := s.events + [Answered(t, started, Tokens(usage))]), t))
       case _ => None)
    case Limit(t, retryAfter) =>
      (match At(s, t)
       case Some(InFlight(n, _)) =>
         var ready := s.now + Delay(retryAfter);
         Some(Retry(c, s.(readyAt := ready, events := s.events + [Limited(t, ready)]), t, n))
       case _ => None)
    case Fail(t, transient) =>
      (match At(s, t)
       case Some(InFlight(n, _)) => Some(if transient then Retry(c, s, t, n) else Finish(s, t))
       case _ => None)
    case Resume(t) =>
      (match At(s, t)
       case Some(BackingOff(n)) => Some(s.(phase := s.phase[t := Ready(n)]))
       case _ => None)
    case Cancel(t) => if t in s.phase then Some(Finish(s, t)) else None
  }

  function Run(c: Config, s: State, actions: seq<Action>): Option<State>
    decreases |actions|
  {
    if actions == [] then Some(s) else
      match Step(c, s, actions[0])
      case Some(next) => Run(c, next, actions[1..])
      case None => None
  }

  // ---- What the lock buys ----

  /** The earliest start an event leaves to later attempts, if it holds them back. */
  function Bound(c: Config, e: Event): Option<real> {
    match e
    case Sent(_, _) => None
    case Answered(_, started, tokens) => if c.tokensPerMinute > 0 then Some(started + Seconds(c, tokens)) else None
    case Limited(_, until) => Some(until)
  }

  function Start(e: Event): Option<real> {
    match e
    case Sent(_, at) => Some(at)
    case Answered(_, started, _) => Some(started)
    case Limited(_, _) => None
  }

  /** Everything an earlier answer or refusal demands, every later start obeys. */
  predicate Spaced(c: Config, events: seq<Event>) {
    forall i, j | 0 <= i < j < |events| && Bound(c, events[i]).Some? && Start(events[j]).Some? ::
      Bound(c, events[i]).value <= Start(events[j]).value
  }

  predicate ReadyCovers(c: Config, s: State) {
    forall i | 0 <= i < |s.events| && Bound(c, s.events[i]).Some? :: Bound(c, s.events[i]).value <= s.readyAt
  }

  predicate PhaseOk(c: Config, s: State, p: Phase) {
    && 1 <= p.attempt <= MaxAttempts(c)
    && match p
       case Asleep(_, until) => s.readyAt <= until
       case InFlight(_, started) => s.readyAt <= started <= s.now
       case _ => true
  }

  predicate Inv(c: Config, s: State) {
    && (forall t | t in s.phase :: s.holder == Some(t) && PhaseOk(c, s, s.phase[t]))
    && ReadyCovers(c, s)
    && Spaced(c, s.events)
  }

  lemma SpacedMore(c: Config, s: State, e: Event)
    requires ReadyCovers(c, s) && Spaced(c, s.events)
    requires Start(e).Some? ==> s.readyAt <= Start(e).value
    ensures Spaced(c, s.events + [e])
  {
  }

  lemma SecondsNonNegative(c: Config, tokens: nat)
    requires c.tokensPerMinute > 0
    ensures Seconds(c, tokens) >= 0.0
  {
    DivisionKeepsSign(60.0 * tokens as real, c.tokensPerMinute as real);
  }

  lemma DivisionKeepsSign(x: real, y: real)
    requires x >= 0.0 && y > 0.0
    ensures x / y >= 0.0
  {
  }

  /** With groq, one step keeps the invariant and never lowers the ready time. */
  lemma {:induction false} StepKeeps(c: Config, s: State, a: Action)
    requires c.groq && Inv(c, s) && Step(c, s, a).Some?
    ensures Inv(c, Step(c, s, a).value)
    ensures s.readyAt <= Step(c, s, a).value.readyAt
    ensures s.now <= Step(c, s, a).value.now && s.events <= Step(c, s, a).value.events
  {
    hide Spaced, Seconds;
    match a
    case Send(t) =>
      SpacedMore(c, s, Sent(t, s.now));
    case Answer(t, usage) =>
      SpacedMore(c, s, Answered(t, s.phase[t].started, Tokens(usage)));
      if c.tokensPerMinute > 0 {
        SecondsNonNegative(c, Tokens(usage));
      }
    case Limit(t, retryAfter) =>
      SpacedMore(c, s, Limited(t, s.now + Delay(retryAfter)));
    case _ =>
  }

  /** In every run with groq: the ready time never decreases, and later starts obey earlier events. */
  lemma {:induction false} RunKeeps(c: Config, s: State, actions: seq<Action>)
    requires c.groq && Inv(c, s) && Run(c, s, actions).Some?
    ensures Inv(c, Run(c, s, actions).value)
    ensures s.readyAt <= Run(c, s, actions).value.readyAt
    decreases |actions|
  {
    hide Inv, Step;
    if actions != [] {
      StepKeeps(c, s, actions[0]);
      RunKeeps(c, Step(c, s, actions[0]).value, actions[1..]);
    }
  }

  // ---- The token rate ----

  /** Tokens of the answers among events[i..j]. */
  function Spent(events: seq<Event>, i: nat, j: nat): nat
    requires i <= j <= |events|
  {
    if i == j then 0 else Spent(events, i, j - 1) + if events[j - 1].Answered? then events[j - 1].tokens else 0
  }

  lemma SecondsAdd(c: Config, a: nat, b: nat)
    requires c.tokensPerMinute > 0
    ensures Seconds(c, a + b) == Seconds(c, a) + Seconds(c, b)
  {
    var r := c.tokensPerMinute as real;
    DivideSum(60.0 * a as real, 60.0 * b as real, r);
  }

  lemma DivideSum(x: real, y: real, r: real)
    requires r > 0.0
    ensures (x + y) / r == x / r + y / r
  {
  }

  lemma {:induction false} SpacedSums(c: Config, events: seq<Event>, i: nat, j: nat, x: real)
    requires c.tokensPerMinute > 0 && Spaced(c, events)
    requires i < j <= |events| && events[i].Answered?
    requires forall k | i <= k < j && events[k].Answered? :: Bound(c, events[k]).value <= x
    ensures events[i].started + Seconds(c, Spent(events, i, j)) <= x
  {
    hide Seconds;
    var e := events[j - 1];
    if j - 1 == i {
      assert Spent(events, i, i) == 0;
      assert Bound(c, e).value <= x;
    } else if e.Answered? {
      SpacedSums(c, events, i, j - 1, e.started);
      SecondsAdd(c, Spent(events, i, j - 1), e.tokens);
      assert Bound(c, e).value <= x;
    } else {
      SpacedSums(c, events, i, j - 1, x);
    }
  }

  /** With groq and a rate, two answered calls start at least 60/R seconds apart for every token
      answered from the first up to the second, whatever fails, is refused, retried or cancelled meanwhile. */
  lemma {:induction false} TokenRateIsKept(c: Config, now: real, actions: seq<Action>, i: nat, j: nat)
    requires c.groq && c.tokensPerMinute > 0 && Run(c, Initial(now), actions).Some?
    requires var events := Run(c, Initial(now), actions).value.events;
             i < j < |events| && events[i].Answered? && events[j].Answered?
    ensures var events := Run(c, Initial(now), actions).value.events;
            events[j].started - events[i].started >= 60.0 * Spent(events, i, j) as real / c.tokensPerMinute as real
  {
    RunKeeps(c, Initial(now), actions);
    var events := Run(c, Initial(now), actions).value.events;
    SpacedSums(c, events, i, j, events[j].started);
  }

  /** No attempt, of any task, starts before an earlier refusal's Retry-After has passed. */
  predicate RetryAfterKept(events: seq<Event>) {
    forall i, j | 0 <= i < j < |events| && events[i].Limited? && events[j].Sent? :: events[i].until <= events[j].at
  }

  ghost predicate AlwaysKeepsRetryAfter(c: Config) {
    forall now, actions | Run(c, Initial(now), actions).Some? ::
      RetryAfterKept(Run(c, Initial(now), actions).value.events)
  }

  lemma RunCons(c: Config, s: State, a: Action, rest: seq<Action>)
    requires Step(c, s, a).Some?
    ensures Run(c, s, [a] + rest) == Run(c, Step(c, s, a).value, rest)
  {
  }

  lemma Two(c: Config, s: State, a: Action, b: Action, rest: seq<Action>)
    requires Step(c, s, a).Some? && Step(c, Step(c, s, a).value, b).Some?
    ensures Run(c, s, [a] + ([b] + rest)) == Run(c, Step(c, Step(c, s, a).value, b).value, rest)
  {
    RunCons(c, s, a, [b] + rest);
    RunCons(c, Step(c, s, a).value, b, rest);
  }

  /** Without a lock tasks 1 and 2 are on their way at once. */
  function BothSent(): State {
    State(0.0, 0.0, None, map[1 := InFlight(1, 0.0), 2 := InFlight(1, 0.0)], [Sent(1, 0.0), Sent(2, 0.0)])
  }

  function Overlap(rest: seq<Action>): seq<Action> {
    [Begin(1)] + ([Begin(2)] + ([Measure(1)] + ([Measure(2)] + ([Send(1)] + ([Send(2)] + rest)))))
  }

  lemma OverlapRuns(c: Config, rest: seq<Action>)
    requires !c.groq
    ensures Run(c, Initial(0.0), Overlap(rest)) == Run(c, BothSent(), rest)
  {
    hide Run;
    var begun := State(0.0, 0.0, None, map[1 := Ready(1), 2 := Ready(1)], []);
    var asleep := State(0.0, 0.0, None, map[1 := Asleep(1, 0.0), 2 := Asleep(1, 0.0)], []);
    Two(c, Initial(0.0), Begin(1), Begin(2), [Measure(1)] + ([Measure(2)] + ([Send(1)] + ([Send(2)] + rest))));
    assert Step(c, Step(c, Initial(0.0), Begin(1)).value, Begin(2)).value == begun;
    Two(c, begun, Measure(1), Measure(2), [Send(1)] + ([Send(2)] + rest));
    assert Step(c, Step(c, begun, Measure(1)).value, Measure(2)).value == asleep;
    Two(c, asleep, Send(1), Send(2), rest);
    assert Step(c, Step(c, asleep, Send(1)).value, Send(2)).value == BothSent();
  }

  /** A short refusal overwrites a long one: task 3 starts after one second, not sixty. */
  lemma ShortRefusalWins(c: Config) returns (actions: seq<Action>)
    requires !c.groq
    ensures Run(c, BothSent(), actions).Some? && !RetryAfterKept(Run(c, BothSent(), actions).value.events)
  {
    hide Run;
    var finish := [Wait(1.0)] + ([Send(3)] + []);
    var begin := [Begin(3)] + ([Measure(3)] + finish);
    actions := [Limit(1, Some(60.0))] + ([Limit(2, Some(1.0))] + begin);
    var first := Step(c, BothSent(), Limit(1, Some(60.0))).value;
    var limited := Step(c, first, Limit(2, Some(1.0))).value;
    Two(c, BothSent(), Limit(1, Some(60.0)), Limit(2, Some(1.0)), begin);
    assert 3 !in first.phase && 3 !in limited.phase && limited.readyAt == 1.0 && limited.now == 0.0;
    assert limited.events == BothSent().events + [Limited(1, 60.0)] + [Limited(2, 1.0)];
    var asleep := limited.(phase := limited.phase[3 := Ready(1)][3 := Asleep(1, 1.0)]);
    Two(c, limited, Begin(3), Measure(3), finish);
    assert Step(c, Step(c, limited, Begin(3)).value, Measure(3)).value == asleep;
    Two(c, asleep, Wait(1.0), Send(3), []);
    var last := Step(c, Step(c, asleep, Wait(1.0)).value, Send(3)).value;
    assert last.events == limited.events + [Sent(3, 1.0)];
    assert last.events[2] == Limited(1, 60.0) && last.events[4] == Sent(3, 1.0);
    EmptyRun(c, last);
  }

  lemma EmptyRun(c: Config, s: State)
    ensures Run(c, s, []) == Some(s)
  {
  }

  /** Without the lock the refusals of overlapping calls overwrite each other. */
  lemma {:induction false} OtherProvidersForget(c: Config)
    requires !c.groq
    ensures !AlwaysKeepsRetryAfter(c)
  {
    var rest := ShortRefusalWins(c);
    OverlapRuns(c, rest);
    hide Run, RetryAfterKept;
    assert !RetryAfterKept(Run(c, Initial(0.0), Overlap(rest)).value.events);
  }

  /** Retry-After binds every later attempt exactly when the provider is the locked one. */
  lemma {:induction false} RetryAfterIsKeptIffGroq(c: Config)
    ensures AlwaysKeepsRetryAfter(c) <==> c.groq
  {
    if c.groq {
      forall now, actions | Run(c, Initial(now), actions).Some?
        ensures RetryAfterKept(Run(c, Initial(now), actions).value.events)
      {
        RunKeeps(c, Initial(now), actions);
        SpacedKeepsRetryAfter(c, Run(c, Initial(now), actions).value.events);
      }
    } else {
      OtherProvidersForget(c);
    }
  }

  lemma SpacedKeepsRetryAfter(c: Config, events: seq<Event>)
    requires Spaced(c, events)
    ensures RetryAfterKept(events)
  {
  }

  // ---- The same, said of the actions ----

  lemma {:induction false} RunConcat(c: Config, s: State, a: seq<Action>, b: seq<Action>)
    requires Run(c, s, a).Some?
    ensures Run(c, s, a + b) == Run(c, Run(c, s, a).value, b)
    decreases |a|
  {
    hide Step;
    if a == [] {
      assert a + b == b;
    } else {
      assert (a + b)[1..] == a[1..] + b;
      RunConcat(c, Step(c, s, a[0]).value, a[1..], b);
    }
  }

  lemma {:induction false} PrefixRuns(c: Config, s: State, a: seq<Action>, b: seq<Action>)
    requires Run(c, s, a + b).Some?
    ensures Run(c, s, a).Some?
    decreases |a|
  {
    hide Step;
    if a != [] {
      assert (a + b)[1..] == a[1..] + b && (a + b)[0] == a[0];
      PrefixRuns(c, Step(c, s, a[0]).value, a[1..], b);
    }
  }

  /** The state before the i-th action of a run. */
  function Before(c: Config, now: real, actions: seq<Action>, i: nat): State
    requires i < |actions| && Run(c, Initial(now), actions).Some?
  {
    assert actions == actions[..i] + actions[i..];
    PrefixRuns(c, Initial(now), actions[..i], actions[i..]);
    Run(c, Initial(now), actions[..i]).value
  }

  /** The i-th action leads to the rest of the run. */
  lemma ActionAt(c: Config, now: real, actions: seq<Action>, i: nat)
    requires i < |actions| && Run(c, Initial(now), actions).Some?
    ensures Step(c, Before(c, now, actions, i), actions[i]).Some?
    ensures Run(c, Initial(now), actions) == Run(c, Step(c, Before(c, now, actions, i), actions[i]).value, actions[i + 1..])
  {
    var s := Before(c, now, actions, i);
    assert actions == actions[..i] + actions[i..];
    PrefixRuns(c, Initial(now), actions[..i], actions[i..]);
    hide Step;
    RunConcat(c, Initial(now), actions[..i], actions[i..]);
    assert actions[i..][0] == actions[i] && actions[i..][1..] == actions[i + 1..];
  }

  /** The state before a later action is reached from the state after an earlier one. */
  lemma LaterBefore(c: Config, now: real, actions: seq<Action>, i: nat, j: nat)
    requires i < j < |actions| && Run(c, Initial(now), actions).Some?
    ensures Step(c, Before(c, now, actions, i), actions[i]).Some?
    ensures Run(c, Step(c, Before(c, now, actions, i), actions[i]).value, actions[i + 1..j]) == Some(Before(c, now, actions, j))
  {
    var head := actions[..j];
    assert actions == head + actions[j..];
    PrefixRuns(c, Initial(now), head, actions[j..]);
    assert head[..i] == actions[..i] && head[i] == actions[i] && head[i + 1..] == actions[i + 1..j];
    ActionAt(c, now, head, i);
    hide Step;
  }

  /** Before any action of a run the invariant holds. */
  lemma InvBefore(c: Config, now: real, actions: seq<Action>, i: nat)
    requires c.groq && i < |actions| && Run(c, Initial(now), actions).Some?
    ensures Inv(c, Before(c, now, actions, i))
  {
    assert actions == actions[..i] + actions[i..];
    PrefixRuns(c, Initial(now), actions[..i], actions[i..]);
    RunKeeps(c, Initial(now), actions[..i]);
    hide Run;
  }

  /** With groq, whatever happens between: a request sent after a 429 leaves at least the seconds of its
      Retry-After later, none if they are negative, one if the header is no number. */
  lemma {:induction false} RetryAfterIsHonoured(c: Config, now: real, actions: seq<Action>, i: nat, j: nat)
    requires c.groq && i < j < |actions| && Run(c, Initial(now), actions).Some?
    requires actions[i].Limit? && actions[j].Send?
    ensures Before(c, now, actions, j).now >= Before(c, now, actions, i).now +
            match actions[i].retryAfter
            case Some(x) => if x >= 0.0 then x else 0.0
            case None => 1.0
  {
    var s, t := Before(c, now, actions, i), Before(c, now, actions, j);
    InvBefore(c, now, actions, i);
    LaterBefore(c, now, actions, i, j);
    ActionAt(c, now, actions, j);
    StepKeeps(c, s, actions[i]);
    RunKeeps(c, Step(c, s, actions[i]).value, actions[i + 1..j]);
    ReadyTimeAfter(c, s, actions[i]);
    SendIsReady(c, t, actions[j].task);
    hide Inv, Step, Run;
  }

  lemma SendIsReady(c: Config, t: State, task: nat)
    requires c.groq && Inv(c, t) && Step(c, t, Send(task)).Some?
    ensures t.readyAt <= t.now
  {
  }

  /** What each action does to the ready time: an answer under groq and a rate R sets it 60/R seconds per
      token after the call started, counting the total if the provider gives one and input plus output
      otherwise; a refusal sets it by its header; nothing else moves it. */
  lemma {:induction false} ReadyTimeAfter(c: Config, s: State, a: Action)
    requires Step(c, s, a).Some?
    ensures var t := Step(c, s, a).value;
            match a
            case Limit(_, Some(x)) => t.readyAt == s.now + (if x >= 0.0 then x else 0.0)
            case Limit(_, None) => t.readyAt == s.now + 1.0
            case Answer(task, u) =>
              && task in s.phase && s.phase[task].InFlight?
              && (c.groq && c.tokensPerMinute > 0 && u.total > 0 ==>
                    t.readyAt == s.phase[task].started + 60.0 * u.total as real / c.tokensPerMinute as real)
              && (c.groq && c.tokensPerMinute > 0 && u.total == 0 ==>
                    t.readyAt == s.phase[task].started + 60.0 * (u.input + u.output) as real / c.tokensPerMinute as real)
              && (!c.groq || c.tokensPerMinute == 0 ==> t.readyAt == s.readyAt)
            case _ => t.readyAt == s.readyAt
    ensures var t := Step(c, s, a).value;
            a.Answer? ==>
              && |t.events| == |s.events| + 1
              && t.events[|s.events|] == Answered(a.task, s.phase[a.task].started,
                                                  if a.usage.total > 0 then a.usage.total else a.usage.input + a.usage.output)
  {
  }

  /** And it is not waited for longer than that: a task that measures can send from the ready time on, or at once. */
  lemma {:induction false} NoLongerThanReady(c: Config, s: State, t: nat, wait: real)
    requires wait >= 0.0 && Step(c, s, Measure(t)).Some?
    ensures var asleep := Step(c, s, Measure(t)).value;
            Step(c, Step(c, asleep, Wait(wait)).value, Send(t)).Some? <==> s.now + wait >= s.readyAt
  {
  }

  // ---- One call, as the code makes it ----

  datatype Outcome =
    | Success(usage: Usage)
    | RateLimited(retryAfter: Option<real>)
    | TransientError
    | OtherError
    | TimedOutInFlight
    | TimedOutWaiting

  /** What one attempt meets: how late the sleep ends, how long the provider takes, how it ends,
      and how long the back-off after it lasts. */
  datatype Attempt = Attempt(late: real, took: real, outcome: Outcome, pause: real)

  predicate Realistic(a: Attempt) {
    a.late >= 0.0 && a.took >= 0.0 && a.pause >= 0.0
  }

  /** What surrounds one call: its attempts, what other tasks do at the k-th point of its n-th attempt,
      and how many times they act while it waits for the lock. */
  datatype Scene = Scene(attempts: seq<Attempt>, others: (nat, nat) -> seq<Action>, patience: nat)

  datatype Reply = Response(usage: Usage) | Raised | TimedOut

  predicate Retryable(o: Outcome) {
    o.RateLimited? || o.TransientError?
  }

  /** What an attempt that settles the call replies. */
  function ReplyOf(o: Outcome): Reply {
    match o
    case Success(usage) => Response(usage)
    case TimedOutInFlight => TimedOut
    case TimedOutWaiting => TimedOut
    case _ => Raised
  }

  /** Attempt k settles the call: the first one not worth retrying, or the last allowed one. A call
      whose attempts end earlier meets its deadline while backing off. */
  predicate Settles(c: Config, attempts: seq<Attempt>, k: nat, reply: Reply) {
    && k < MaxAttempts(c) && k <= |attempts|
    && (forall i | 0 <= i < k :: Retryable(attempts[i].outcome))
    && if k == |attempts| then reply == TimedOut
       else reply == ReplyOf(attempts[k].outcome) && (Retryable(attempts[k].outcome) ==> k == MaxAttempts(c) - 1)
  }

  /** The task an action belongs to; the passing of time is nobody's. */
  function Owner(a: Action): Option<nat> {
    match a
    case Wait(_) => None
    case Begin(u) => Some(u)
    case Measure(u) => Some(u)
    case Send(u) => Some(u)
    case Answer(u, _) => Some(u)
    case Limit(u, _) => Some(u)
    case Fail(u, _) => Some(u)
    case Resume(u) => Some(u)
    case Cancel(u) => Some(u)
  }

  /** A task's own actions in a run. */
  function Own(t: nat, actions: seq<Action>): seq<Action> {
    if actions == [] then [] else
      var last := actions[|actions| - 1];
      Own(t, actions[..|actions| - 1]) + if Owner(last) == Some(t) then [last] else []
  }

  predicate NoneBy(t: nat, actions: seq<Action>) {
    forall i | 0 <= i < |actions| :: Owner(actions[i]) != Some(t)
  }

  ghost predicate Elsewhere(t: nat, scene: Scene) {
    && (forall n, k :: NoneBy(t, scene.others(n, k)))
    && (forall i | 0 <= i < |scene.attempts| :: Realistic(scene.attempts[i]))
  }

  /** What the task itself does in attempt n. */
  function AttemptStory(c: Config, t: nat, n: nat, o: Outcome): seq<Action> {
    [Measure(t)] + if o.TimedOutWaiting? then [Cancel(t)] else [Send(t)] + Ending(c, t, n, o)
  }

  function Ending(c: Config, t: nat, n: nat, o: Outcome): seq<Action> {
    var again := if n == MaxAttempts(c) then [] else [Resume(t)];
    match o
    case Success(usage) => [Answer(t, usage)]
    case RateLimited(retryAfter) => [Limit(t, retryAfter)] + again
    case TransientError => [Fail(t, true)] + again
    case OtherError => [Fail(t, false)]
    case TimedOutInFlight => [Cancel(t)]
    case TimedOutWaiting => [Cancel(t)]
  }

  /** What it does in its first n attempts. */
  function CallStory(c: Config, t: nat, attempts: seq<Attempt>, n: nat): seq<Action>
    requires n <= |attempts|
  {
    if n == 0 then [Begin(t)] else CallStory(c, t, attempts, n - 1) + AttemptStory(c, t, n, attempts[n - 1].outcome)
  }

  /** What it does in a call that attempt k settles, or that is cut off before it. */
  function Told(c: Config, t: nat, attempts: seq<Attempt>, k: nat): seq<Action>
    requires k <= |attempts|
  {
    if k < |attempts| then CallStory(c, t, attempts, k + 1) else CallStory(c, t, attempts, k) + [Cancel(t)]
  }

  // ---- Following the machine ----

  lemma {:induction false} OwnConcat(t: nat, a: seq<Action>, b: seq<Action>)
    ensures Own(t, a + b) == Own(t, a) + Own(t, b)
  {
    if b == [] {
      assert a + b == a;
    } else {
      assert (a + b)[..|a + b| - 1] == a + b[..|b| - 1];
      OwnConcat(t, a, b[..|b| - 1]);
    }
  }

  lemma {:induction false} NoneOwn(t: nat, actions: seq<Action>)
    requires NoneBy(t, actions)
    ensures Own(t, actions) == []
  {
    if actions != [] {
      NoneOwn(t, actions[..|actions| - 1]);
    }
  }

  /** A run from the call's start to where it is now, in which the task did exactly this. */
  ghost predicate Followed(c: Config, t: nat, start: State, script: seq<Action>, story: seq<Action>, s: State) {
    Run(c, start, script) == Some(s) && Own(t, script) == story
  }

  /** The task's next step. */
  lemma Follow(c: Config, t: nat, start: State, script: seq<Action>, story: seq<Action>, s: State, a: Action, next: State)
    requires Followed(c, t, start, script, story, s) && Step(c, s, a) == Some(next)
    ensures Followed(c, t, start, script + [a], if Owner(a) == Some(t) then story + [a] else story, next)
  {
    hide Step;
    RunConcat(c, start, script, [a]);
    RunCons(c, s, a, []);
    EmptyRun(c, next);
    assert [a] + [] == [a];
    assert (script + [a])[..|script|] == script;
  }

  /** Steps of other tasks. */
  lemma FollowOthers(c: Config, t: nat, start: State, script: seq<Action>, story: seq<Action>, s: State, actions: seq<Action>)
    requires Followed(c, t, start, script, story, s) && NoneBy(t, actions) && Run(c, s, actions).Some?
    ensures Followed(c, t, start, script + actions, story, Run(c, s, actions).value)
  {
    hide Run;
    RunConcat(c, start, script, actions);
    OwnConcat(t, script, actions);
    NoneOwn(t, actions);
    assert story + [] == story;
  }

  lemma StartFollowing(c: Config, t: nat, s: State)
    ensures Followed(c, t, s, [], [], s)
  {
  }

  /** The task holds the lock if there is one to hold. */
  predicate HoldsLock(c: Config, s: State, t: nat) {
    s.holder == if c.groq then Some(t) else None
  }

  /** Others leave a task's place and its lock alone, and never turn back time. */
  lemma {:induction false} OthersLeaveIt(c: Config, s: State, actions: seq<Action>, t: nat)
    requires NoneBy(t, actions) && Run(c, s, actions).Some?
    ensures var r := Run(c, s, actions).value;
            && At(r, t) == At(s, t) && s.now <= r.now
            && (HoldsLock(c, s, t) ==> HoldsLock(c, r, t))
            && (!c.groq && s.holder == None ==> r.holder == None)
            && (c.groq ==> (r.holder == Some(t) ==> s.holder == Some(t)))
    decreases |actions|
  {
    if actions != [] {
      OtherLeavesIt(c, s, actions[0], t);
      hide Step;
      OthersLeaveIt(c, Step(c, s, actions[0]).value, actions[1..], t);
    }
  }

  lemma OtherLeavesIt(c: Config, s: State, a: Action, t: nat)
    requires Owner(a) != Some(t) && Step(c, s, a).Some?
    ensures var r := Step(c, s, a).value;
            && At(r, t) == At(s, t) && s.now <= r.now
            && (HoldsLock(c, s, t) ==> HoldsLock(c, r, t))
            && (!c.groq && s.holder == None ==> r.holder == None)
            && (c.groq ==> (r.holder == Some(t) ==> s.holder == Some(t)))
  {
    hide Seconds, MaxAttempts;
  }

  /** The process-wide pacing state: the clock, the ready time and the lock. */
  class Quota {
    const c: Config
    var now: real
    var readyAt: real
    var holder: Option<nat>
    var phase: map<nat, Phase>
    var events: seq<Event>

    constructor (c: Config, now: real)
      ensures this.c == c && View() == Initial(now)
    {
      this.c := c;
      this.now := now;
      readyAt := 0.0;
      holder := None;
      phase := map[];
      events := [];
    }

    function View(): State
      reads this
    {
      State(now, readyAt, holder, phase, events)
    }

    /** The task is under way at this place. */
    predicate Here(t: nat, p: Phase)
      reads this
    {
      At(View(), t) == Some(p) && HoldsLock(c, View(), t)
    }

    /** Whatever the others can do at this point. */
    method Interlude(n: nat, k: nat, t: nat, scene: Scene, ghost start: State, ghost script: seq<Action>, ghost story: seq<Action>)
      returns (ghost longer: seq<Action>)
      requires Elsewhere(t, scene) && Followed(c, t, start, script, story, View())
      modifies this
      ensures Followed(c, t, start, longer, story, View())
      ensures At(View(), t) == At(old(View()), t) && old(now) <= now
      ensures HoldsLock(c, old(View()), t) ==> HoldsLock(c, View(), t)
      ensures !c.groq && old(holder) == None ==> holder == None
      ensures c.groq && holder == Some(t) ==> old(holder) == Some(t)
    {
      longer := script;
      var after := Run(c, View(), scene.others(n, k));
      if after.Some? {
        OthersLeaveIt(c, View(), scene.others(n, k), t);
        FollowOthers(c, t, start, script, story, View(), scene.others(n, k));
        longer := script + scene.others(n, k);
        var s := after.value;
        now, readyAt, holder, phase, events := s.now, s.readyAt, s.holder, s.phase, s.events;
      }
    }

    /** Time passes. */
    method Pass(seconds: real, t: nat, ghost start: State, ghost script: seq<Action>, ghost story: seq<Action>)
      returns (ghost longer: seq<Action>)
      requires seconds >= 0.0 && Followed(c, t, start, script, story, View())
      modifies this`now
      ensures now == old(now) + seconds
      ensures Followed(c, t, start, longer, story, View())
    {
      hide Followed;
      ghost var s := View();
      now := now + seconds;
      longer := script + [Wait(seconds)];
      Follow(c, t, start, script, story, s, Wait(seconds), View());
    }

    /** The deadline cancels the call: nothing is recorded, the lock is given back. */
    method Abandon(t: nat, p: Phase, ghost start: State, ghost script: seq<Action>, ghost story: seq<Action>)
      returns (ghost longer: seq<Action>)
      requires Here(t, p) && Followed(c, t, start, script, story, View())
      modifies this
      ensures holder == None && t !in phase
      ensures Followed(c, t, start, longer, story + [Cancel(t)], View())
    {
      hide Followed;
      ghost var s := View();
      holder := None;
      phase := phase - {t};
      longer := script + [Cancel(t)];
      Follow(c, t, start, script, story, s, Cancel(t), View());
    }

    /** One attempt: wait for the ready time, send, take the provider's answer. */
    method TryOnce(t: nat, n: nat, attempt: Attempt, scene: Scene, ghost start: State, ghost script: seq<Action>, ghost story: seq<Action>)
      returns (done: bool, ghost longer: seq<Action>)
      requires Elsewhere(t, scene) && Realistic(attempt) && 1 <= n <= MaxAttempts(c)
      requires Here(t, Ready(n)) && Followed(c, t, start, script, story, View())
      modifies this
      ensures done <==> !Retryable(attempt.outcome) || n == MaxAttempts(c)
      ensures done ==> holder == None && t !in phase
      ensures !done ==> Here(t, Ready(n + 1))
      ensures Followed(c, t, start, longer, story + AttemptStory(c, t, n, attempt.outcome), View())
    {
      hide Followed, Ending, Step, Elsewhere;
      var until;
      until, longer := MeasureDelay(t, n, scene, start, script, story);
      ghost var told := story + [Measure(t)];
      longer := Interlude(n, 1, t, scene, start, longer, told);
      if attempt.outcome.TimedOutWaiting? {
        done := true;
        longer := Abandon(t, Asleep(n, until), start, longer, told);
        assert told + [Cancel(t)] == story + AttemptStory(c, t, n, attempt.outcome);
        return;
      }
      var started;
      started, longer := WakeAndSend(t, n, until, attempt.late, start, longer, told);
      told := told + [Send(t)];
      longer := Pass(attempt.took, t, start, longer, told);
      longer := Interlude(n, 2, t, scene, start, longer, told);
      done, longer := Finish(t, n, started, attempt, scene, start, longer, told);
      assert told + Ending(c, t, n, attempt.outcome) == story + AttemptStory(c, t, n, attempt.outcome);
    }

    /** max(0, ready - now), as an instant. */
    method MeasureDelay(t: nat, n: nat, scene: Scene, ghost start: State, ghost script: seq<Action>, ghost story: seq<Action>)
      returns (until: real, ghost longer: seq<Action>)
      requires Elsewhere(t, scene)
      requires Here(t, Ready(n)) && Followed(c, t, start, script, story, View())
      modifies this
      ensures Here(t, Asleep(n, until)) && Followed(c, t, start, longer, story + [Measure(t)], View())
    {
      hide Followed, Elsewhere;
      longer := Interlude(n, 0, t, scene, start, script, story);
      ghost var s := View();
      var delay := if readyAt - now > 0.0 then readyAt - now else 0.0;
      until := now + delay;
      phase := phase[t := Asleep(n, until)];
      Follow(c, t, start, longer, story, s, Measure(t), View());
      longer := longer + [Measure(t)];
    }

    /** The sleep lasts at least until the measured instant. */
    method WakeAndSend(t: nat, n: nat, until: real, late: real, ghost start: State, ghost script: seq<Action>, ghost story: seq<Action>)
      returns (started: real, ghost longer: seq<Action>)
      requires late >= 0.0 && Here(t, Asleep(n, until)) && Followed(c, t, start, script, story, View())
      modifies this
      ensures started == now >= until && Here(t, InFlight(n, started))
      ensures Followed(c, t, start, longer, story + [Send(t)], View())
    {
      hide Followed;
      longer := Pass((if until > now then until - now else 0.0) + late, t, start, script, story);
      ghost var s := View();
      started := now;
      phase, events := phase[t := InFlight(n, started)], events + [Sent(t, started)];
      Follow(c, t, start, longer, story, s, Send(t), View());
      longer := longer + [Send(t)];
    }

    /** What the provider's outcome leads to. */
    method Finish(t: nat, n: nat, started: real, attempt: Attempt, scene: Scene, ghost start: State, ghost script: seq<Action>, ghost story: seq<Action>)
      returns (done: bool, ghost longer: seq<Action>)
      requires Elsewhere(t, scene) && Realistic(attempt) && !attempt.outcome.TimedOutWaiting? && 1 <= n <= MaxAttempts(c)
      requires Here(t, InFlight(n, started)) && Followed(c, t, start, script, story, View())
      modifies this
      ensures done <==> !Retryable(attempt.outcome) || n == MaxAttempts(c)
      ensures done ==> holder == None && t !in phase
      ensures !done ==> Here(t, Ready(n + 1))
      ensures Followed(c, t, start, longer, story + Ending(c, t, n, attempt.outcome), View())
    {
      hide Followed, Step, Elsewhere;
      if attempt.outcome.TimedOutInFlight? {
        done := true;
        longer := Abandon(t, InFlight(n, started), start, script, story);
      } else if Retryable(attempt.outcome) {
        done, longer := Retry(t, n, started, attempt, scene, start, script, story);
      } else {
        done := true;
        longer := Complete(t, n, started, attempt.outcome, start, script, story);
      }
    }

    /** An answer, or an error not worth retrying. */
    method Complete(t: nat, n: nat, started: real, outcome: Outcome, ghost start: State, ghost script: seq<Action>, ghost story: seq<Action>)
      returns (ghost longer: seq<Action>)
      requires outcome.Success? || outcome.OtherError?
      requires Here(t, InFlight(n, started)) && Followed(c, t, start, script, story, View())
      modifies this
      ensures holder == None && t !in phase
      ensures Followed(c, t, start, longer, story + Ending(c, t, n, outcome), View())
    {
      hide Followed, Seconds;
      ghost var s := View();
      ghost var a := if outcome.Success? then Answer(t, outcome.usage) else Fail(t, false);
      if outcome.Success? {
        if c.groq && c.tokensPerMinute > 0 {
          readyAt := started + Seconds(c, Tokens(outcome.usage));
        }
        events := events + [Answered(t, started, Tokens(outcome.usage))];
      }
      holder, phase := None, phase - {t};
      Follow(c, t, start, script, story, s, a, View());
      longer := script + [a];
    }

    /** A refusal or a transient error: give up after the last attempt, otherwise back off. */
    method Retry(t: nat, n: nat, started: real, attempt: Attempt, scene: Scene, ghost start: State, ghost script: seq<Action>, ghost story: seq<Action>)
      returns (done: bool, ghost longer: seq<Action>)
      requires Elsewhere(t, scene) && Retryable(attempt.outcome) && attempt.pause >= 0.0 && n <= MaxAttempts(c)
      requires Here(t, InFlight(n, started)) && Followed(c, t, start, script, story, View())
      modifies this
      ensures done <==> n == MaxAttempts(c)
      ensures done ==> holder == None && t !in phase
      ensures !done ==> Here(t, Ready(n + 1))
      ensures Followed(c, t, start, longer, story + Ending(c, t, n, attempt.outcome), View())
    {
      hide Followed, Seconds, Elsewhere;
      ghost var s := View();
      ghost var a := if attempt.outcome.RateLimited? then Limit(t, attempt.outcome.retryAfter) else Fail(t, true);
      if attempt.outcome.RateLimited? {
        readyAt := now + Delay(attempt.outcome.retryAfter);
        events := events + [Limited(t, readyAt)];
      }
      done := n == MaxAttempts(c);
      if done {
        holder, phase := None, phase - {t};
      } else {
        phase := phase[t := BackingOff(n + 1)];
      }
      Follow(c, t, start, script, story, s, a, View());
      longer := script + [a];
      if done {
        assert story + [a] == story + Ending(c, t, n, attempt.outcome);
      } else {
        longer := BackOff(t, n, attempt.pause, scene, start, longer, story + [a]);
        assert story + [a] + [Resume(t)] == story + Ending(c, t, n, attempt.outcome);
      }
    }

    method BackOff(t: nat, n: nat, pause: real, scene: Scene, ghost start: State, ghost script: seq<Action>, ghost story: seq<Action>)
      returns (ghost longer: seq<Action>)
      requires Elsewhere(t, scene) && pause >= 0.0
      requires Here(t, BackingOff(n + 1)) && Followed(c, t, start, script, story, View())
      modifies this
      ensures Here(t, Ready(n + 1)) && Followed(c, t, start, longer, story + [Resume(t)], View())
    {
      hide Followed, Elsewhere;
      longer := Pass(pause, t, start, script, story);
      longer := Interlude(n, 3, t, scene, start, longer, story);
      ghost var s := View();
      phase := phase[t := Ready(n + 1)];
      Follow(c, t, start, longer, story, s, Resume(t), View());
      longer := longer + [Resume(t)];
    }

    /** One call from start to end, with other tasks acting throughout: a run of the machine in which
        this task does exactly what its attempts call for. It may also wait for the lock in vain. */
    method Ainvoke(t: nat, scene: Scene)
      returns (reply: Reply, entered: bool, ghost script: seq<Action>, k: nat)
      requires t !in phase && (!c.groq ==> holder == None) && holder != Some(t)
      requires Elsewhere(t, scene)
      modifies this
      ensures Run(c, old(View()), script) == Some(View()) && t !in phase
      ensures !entered ==> c.groq && holder.Some? && holder != Some(t) && reply == TimedOut && Own(t, script) == []
      ensures entered ==> holder == None && k <= |scene.attempts| && Settles(c, scene.attempts, k, reply)
      ensures entered ==> Own(t, script) == Told(c, t, scene.attempts, k)
    {
      hide Run, Own, Elsewhere, AttemptStory;
      ghost var start := View();
      k := 0;
      entered, script := AcquireLock(t, scene, start);
      if !entered {
        return TimedOut, entered, script, k;
      }
      ghost var story := [Begin(t)];
      for i := 0 to |scene.attempts|
        invariant k == i < MaxAttempts(c)
        invariant forall j | 0 <= j < i :: Retryable(scene.attempts[j].outcome)
        invariant story == CallStory(c, t, scene.attempts, i)
        invariant Here(t, Ready(i + 1)) && Followed(c, t, start, script, story, View())
      {
        AttemptIsRealistic(t, scene, i);
        var done;
        done, script := TryOnce(t, i + 1, scene.attempts[i], scene, start, script, story);
        if done {
          return ReplyOf(scene.attempts[i].outcome), entered, script, k;
        }
        story := CallStory(c, t, scene.attempts, i + 1);
        k := k + 1;
      }
      script := Abandon(t, Ready(k + 1), start, script, story);
      reply := TimedOut;
    }

    /** `async with _provider_lock`, for groq only; the deadline can end the wait. */
    method AcquireLock(t: nat, scene: Scene, ghost start: State) returns (entered: bool, ghost script: seq<Action>)
      requires t !in phase && (!c.groq ==> holder == None) && holder != Some(t) && start == View()
      requires Elsewhere(t, scene)
      modifies this
      ensures !entered ==> c.groq && holder.Some? && holder != Some(t) && t !in phase && Followed(c, t, start, script, [], View())
      ensures entered ==> Here(t, Ready(1)) && Followed(c, t, start, script, [Begin(t)], View())
    {
      hide Followed, Elsewhere;
      StartFollowing(c, t, start);
      script := Interlude(0, 0, t, scene, start, [], []);
      var n := 0;
      while n < scene.patience && c.groq && holder.Some?
        invariant t !in phase && (!c.groq ==> holder == None) && holder != Some(t)
        invariant Followed(c, t, start, script, [], View())
      {
        n := n + 1;
        script := Interlude(0, n, t, scene, start, script, []);
      }
      entered := !c.groq || holder.None?;
      if entered {
        ghost var s := View();
        holder := if c.groq then Some(t) else holder;
        phase := phase[t := Ready(1)];
        Follow(c, t, start, script, [], s, Begin(t), View());
        assert [] + [Begin(t)] == [Begin(t)];
        script := script + [Begin(t)];
      }
    }
  }

  /** A call that meets nothing but refusals and transient errors makes max(1, llm_max_retries) attempts,
      and any other outcome ends it at once. */
  lemma {:induction false} AttemptsAreCounted(c: Config, attempts: seq<Attempt>, k: nat, reply: Reply)
    requires Settles(c, attempts, k, reply) && k < |attempts|
    ensures k + 1 <= if c.maxRetries > 1 then c.maxRetries else 1
    ensures forall i | 0 <= i < k :: attempts[i].outcome.RateLimited? || attempts[i].outcome.TransientError?
    ensures attempts[k].outcome.RateLimited? || attempts[k].outcome.TransientError? ==>
              k + 1 == (if c.maxRetries > 1 then c.maxRetries else 1) && reply == Raised
    ensures attempts[k].outcome.Success? ==> reply == Response(attempts[k].outcome.usage)
    ensures attempts[k].outcome.OtherError? ==> reply == Raised
    ensures attempts[k].outcome.TimedOutInFlight? || attempts[k].outcome.TimedOutWaiting? ==> reply == TimedOut
  {
  }

  /** The attempts it makes are sent: one Send each, unless the deadline came first. */
  lemma {:induction false} SendsAreCounted(c: Config, t: nat, attempts: seq<Attempt>, n: nat)
    requires n <= |attempts| && forall i | 0 <= i < n :: !attempts[i].outcome.TimedOutWaiting?
    ensures Sends(CallStory(c, t, attempts, n)) == n
  {
    hide *;
    CallStoryIs(c, t, attempts, n);
    if n > 0 {
      SendsAreCounted(c, t, attempts, n - 1);
      AttemptSendsOnce(c, t, n, attempts[n - 1].outcome);
      SendsConcat(CallStory(c, t, attempts, n - 1), AttemptStory(c, t, n, attempts[n - 1].outcome));
    }
  }

  lemma CallStoryIs(c: Config, t: nat, attempts: seq<Attempt>, n: nat)
    requires n <= |attempts|
    ensures n > 0 ==>
      CallStory(c, t, attempts, n) == CallStory(c, t, attempts, n - 1) + AttemptStory(c, t, n, attempts[n - 1].outcome)
    ensures n == 0 ==> Sends(CallStory(c, t, attempts, n)) == 0
  {
    assert [Begin(t)][..0] == [];
    hide AttemptStory;
  }

  lemma AttemptSendsOnce(c: Config, t: nat, n: nat, o: Outcome)
    requires !o.TimedOutWaiting?
    ensures Sends(AttemptStory(c, t, n, o)) == 1
  {
    var head := [Measure(t), Send(t)];
    assert AttemptStory(c, t, n, o) == head + Ending(c, t, n, o);
    EndingSendsNothing(c, t, n, o);
    assert head[..1] == [Measure(t)] && [Measure(t)][..0] == [];
    assert Sends([Measure(t)]) == 0 && Sends(head) == 1;
    hide AttemptStory, Ending, Sends;
    SendsConcat(head, Ending(c, t, n, o));
  }

  function Sends(actions: seq<Action>): nat {
    if actions == [] then 0 else Sends(actions[..|actions| - 1]) + if actions[|actions| - 1].Send? then 1 else 0
  }

  lemma {:induction false} SendsConcat(a: seq<Action>, b: seq<Action>)
    ensures Sends(a + b) == Sends(a) + Sends(b)
  {
    if b == [] {
      assert a + b == a;
    } else {
      assert (a + b)[..|a + b| - 1] == a + b[..|b| - 1];
      SendsConcat(a, b[..|b| - 1]);
    }
  }

  lemma EndingSendsNothing(c: Config, t: nat, n: nat, o: Outcome)
    ensures Sends(Ending(c, t, n, o)) == 0
  {
    var e := Ending(c, t, n, o);
    assert |e| <= 2 && (forall i | 0 <= i < |e| :: !e[i].Send?);
    if |e| == 2 {
      assert e[..1] == [e[0]] && [e[0]][..0] == [];
      assert Sends([e[0]]) == 0;
    } else {
      assert e[..0] == [];
    }
  }

  lemma AttemptIsRealistic(t: nat, scene: Scene, i: nat)
    requires Elsewhere(t, scene) && i < |scene.attempts|
    ensures Realistic(scene.attempts[i])
  {
  }
}
