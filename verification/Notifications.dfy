/** One user's notifications: the two scripts over three expiring keys (app/cache/notifications.py). */
module Notifications {
  import opened Wrappers

  datatype Entry = Entry(title: string, body: string, priority: int, createdAt: int, unread: bool, expires: real)

  /** A Redis key with its expiry; gone from that instant on. */
  datatype Key<T> = Missing | Stored(value: T, expires: real)

  datatype State = State(
    now: real,
    data: map<string, Entry>,
    inbox: Key<map<string, int>>,
    counter: Key<int>)

  predicate Present<T>(k: Key<T>, now: real) {
    k.Stored? && now < k.expires
  }

  predicate Live(s: State, id: string) {
    id in s.data && s.now < s.data[id].expires
  }

  predicate LiveUnread(s: State, id: string) {
    Live(s, id) && s.data[id].unread
  }

  function Unread(s: State): set<string> {
    set id | id in s.data && LiveUnread(s, id)
  }

  /** get_unread_count */
  function Counter(s: State): int {
    if Present(s.counter, s.now) then s.counter.value else 0
  }

  function InboxScores(s: State): map<string, int> {
    if Present(s.inbox, s.now) then s.inbox.value else map[]
  }

  /** priority * 10_000_000_000 + created_at */
  function Score(priority: int, createdAt: int): int {
    priority * 10000000000 + createdAt
  }

  datatype Action =
    | Pass(seconds: real)
    | Create(id: string, title: string, body: string, priority: int, createdAt: int)
    | MarkRead(id: string)

  /** A key that lives ttl seconds from now. */
  function Keep<T>(value: T, now: real, ttl: int): Key<T> {
    Stored(value, now + ttl as real)
  }

  function Step(ttl: int, s: State, a: Action): State {
    match a
    case Pass(seconds) => if seconds >= 0.0 then s.(now := s.now + seconds) else s
    case Create(id, title, body, priority, createdAt) =>
      var counter := if !Live(s, id) then Keep(Counter(s) + 1, s.now, ttl)
                     else if Present(s.counter, s.now) then Keep(s.counter.value, s.now, ttl) else s.counter;
      s.(data := s.data[id := Entry(title, body, priority, createdAt, true, s.now + ttl as real)],
         inbox := Keep(InboxScores(s)[id := Score(priority, createdAt)], s.now, ttl),
         counter := counter)
    case MarkRead(id) =>
      if Marks(s, id) then
        s.(data := s.data[id := s.data[id].(unread := false)],
           counter := if Counter(s) > 0 then s.counter.(value := s.counter.value - 1) else s.counter)
      else s
  }

  /** _MARK_READ_SCRIPT gets as far as HSET. */
  predicate Marks(s: State, id: string) {
    id in InboxScores(s) && LiveUnread(s, id)
  }

  function Empty(now: real): State {
    State(now, map[], Missing, Missing)
  }

  // ---- Listing ----

  /** One listed notification. */
  datatype Shown = Shown(id: string, entry: Entry)

  /** All ids by falling score; ties may come either way. */
  predicate Ranking(ids: seq<string>, scores: map<string, int>) {
    && (forall i | 0 <= i < |ids| :: ids[i] in scores)
    && (forall id | id in scores :: id in ids)
    && (forall i, j | 0 <= i < j < |ids| ::
          ids[i] != ids[j] && ids[i] in scores && ids[j] in scores && scores[ids[i]] >= scores[ids[j]])
  }

  /** The hashes that still exist, in the order of the ids. */
  function Page(s: State, ids: seq<string>): seq<Shown> {
    if ids == [] then [] else
      var last := ids[|ids| - 1];
      Page(s, ids[..|ids| - 1]) + if Live(s, last) then [Shown(last, s.data[last])] else []
  }

  // ---- The keys as they are updated ----

  datatype Outcome = Done | Unchanged | Invalid

  predicate ValidId(id: string) {
    id != "" && ':' !in id && |id| <= 128
  }

  class Inbox {
    const ttl: int
    var now: real
    var data: map<string, Entry>
    var inbox: Key<map<string, int>>
    var counter: Key<int>

    constructor (ttl: int, now: real)
      ensures this.ttl == ttl && View() == Empty(now)
    {
      this.ttl := ttl;
      this.now := now;
      data, inbox, counter := map[], Missing, Missing;
    }

    function View(): State
      reads this
    {
      State(now, data, inbox, counter)
    }

    /** create_notification; a missing id is replaced by a fresh one. */
    method Create(requested: Option<string>, uuid: string, title: string, body: string, priority: int, createdAt: int)
      returns (id: string, outcome: Outcome)
      requires ValidId(uuid)
      modifies this
      ensures id == if requested.Some? && requested.value != "" then requested.value else uuid
      ensures outcome == if (priority == 1 || priority == 2 || priority == 3) && id != "" && ':' !in id && |id| <= 128
                         then Done else Invalid
      ensures outcome == Invalid ==> View() == old(View())
      ensures outcome == Done ==> View() == Step(ttl, old(View()), Action.Create(id, title, body, priority, createdAt))
    {
      id := if requested.Some? && requested.value != "" then requested.value else uuid;
      if priority != 1 && priority != 2 && priority != 3 {
        return id, Invalid;
      }
      if !ValidId(id) {
        return id, Invalid;
      }
      var expires := now + ttl as real;
      var isNew := !(id in data && now < data[id].expires);
      data := data[id := Entry(title, body, priority, createdAt, true, expires)];
      var scores := if inbox.Stored? && now < inbox.expires then inbox.value else map[];
      inbox := Stored(scores[id := Score(priority, createdAt)], expires);
      var present := counter.Stored? && now < counter.expires;
      if isNew {
        counter := Stored((if present then counter.value else 0) + 1, expires);
      } else if present {
        counter := Stored(counter.value, expires);
      }
      outcome := Done;
    }

    /** mark_as_read */
    method MarkRead(id: string) returns (changed: bool, outcome: Outcome)
      modifies this
      ensures outcome.Invalid? <==> id == "" || ':' in id || |id| > 128
      ensures changed <==> outcome.Done?
      ensures ValidId(id) ==> (changed <==> Marks(old(View()), id))
      ensures View() == if ValidId(id) then Step(ttl, old(View()), Action.MarkRead(id)) else old(View())
    {
      if !ValidId(id) {
        return false, Invalid;
      }
      var scores := if inbox.Stored? && now < inbox.expires then inbox.value else map[];
      if id !in scores {
        return false, Unchanged;
      }
      if !(id in data && now < data[id].expires) || !data[id].unread {
        return false, Unchanged;
      }
      data := data[id := data[id].(unread := false)];
      var current := if counter.Stored? && now < counter.expires then counter.value else 0;
      if current > 0 {
        counter := Stored(current - 1, counter.expires);
      }
      return true, Done;
    }

    /** get_inbox; zrevrange hands the ids over in some ranking of the scores. */
    method GetInbox(ranking: seq<string>, limit: int) returns (page: seq<Shown>, outcome: Outcome)
      requires Ranking(ranking, InboxScores(View()))
      ensures outcome == if 1 <= limit <= 100 then Done else Invalid
      ensures outcome == Done ==> page == Page(View(), ranking[..if limit < |ranking| then limit else |ranking|])
      ensures outcome == Invalid ==> page == []
    {
      page := [];
      if limit < 1 || limit > 100 {
        return page, Invalid;
      }
      var ids := ranking[..if limit < |ranking| then limit else |ranking|];
      for i := 0 to |ids|
        invariant page == Page(View(), ids[..i])
      {
        assert ids[..i + 1][..i] == ids[..i];
        if ids[i] in data && now < data[ids[i]].expires {
          page := page + [Shown(ids[i], data[ids[i]])];
        }
      }
      assert ids[..|ids|] == ids;
      outcome := Done;
    }

    method Pass(seconds: real)
      requires seconds >= 0.0
      modifies this`now
      ensures View() == Step(ttl, old(View()), Action.Pass(seconds))
    {
      now := now + seconds;
    }
  }

  // ---- What creating and marking store ----

  /** A created notification is stored unread, with its own fields and its full lifetime, and ranked by ten
      thousand million times its priority plus its time; the counter goes up by one unless it was live. */
  lemma {:induction false} CreateStores(ttl: int, s: State, id: string, title: string, body: string, priority: int, createdAt: int)
    ensures var t := Step(ttl, s, Action.Create(id, title, body, priority, createdAt));
            && t.now == s.now
            && t.data == s.data[id := Entry(title, body, priority, createdAt, true, s.now + ttl as real)]
            && t.inbox == Key.Stored(InboxScores(s)[id := 10000000000 * priority + createdAt], s.now + ttl as real)
            && (!(id in s.data && s.now < s.data[id].expires) ==> t.counter == Key.Stored(Counter(s) + 1, s.now + ttl as real))
            && (id in s.data && s.now < s.data[id].expires && s.counter.Stored? && s.now < s.counter.expires ==>
                  t.counter == Key.Stored(s.counter.value, s.now + ttl as real))
  {
  }

  /** Marking a listed, live, unread notification makes it read, keeps its other fields and its lifetime, and
      takes one off a positive counter; marking anything else changes nothing. */
  lemma {:induction false} MarkStores(ttl: int, s: State, id: string)
    ensures var t := Step(ttl, s, Action.MarkRead(id));
            if s.inbox.Stored? && s.now < s.inbox.expires && id in s.inbox.value
               && id in s.data && s.now < s.data[id].expires && s.data[id].unread then
              var e := s.data[id];
              && t.now == s.now && t.inbox == s.inbox
              && t.data == s.data[id := Entry(e.title, e.body, e.priority, e.createdAt, false, e.expires)]
              && t.counter == if s.counter.Stored? && s.now < s.counter.expires && s.counter.value > 0
                              then Key.Stored(s.counter.value - 1, s.counter.expires) else s.counter
            else t == s
  {
  }

  /** What get_unread_count reads: the counter while its key lives, and zero otherwise. */
  lemma {:induction false} CountRead(s: State)
    ensures s.counter.Stored? && s.now < s.counter.expires ==> Counter(s) == s.counter.value
    ensures s.counter.Missing? || s.now >= s.counter.expires ==> Counter(s) == 0
  {
  }

  /** Nobody creates or marks this notification. */
  predicate LeftAlone(actions: seq<Action>, id: string) {
    forall i | 0 <= i < |actions| :: actions[i].Pass? || (actions[i].Create? && actions[i].id != id) || (actions[i].MarkRead? && actions[i].id != id)
  }

  /** A created notification reads back with its own fields, unread, in every page that reaches its rank, until
      its lifetime is over, whatever else happens to other notifications. */
  lemma {:induction false} CreatedReadsBack(
    ttl: int, s: State, id: string, title: string, body: string, priority: int, createdAt: int,
    actions: seq<Action>, ids: seq<string>)
    requires LeftAlone(actions, id) && id in ids
    requires After(ttl, Step(ttl, s, Action.Create(id, title, body, priority, createdAt)), actions).now < s.now + ttl as real
    ensures var t := After(ttl, Step(ttl, s, Action.Create(id, title, body, priority, createdAt)), actions);
            Shown(id, Entry(title, body, priority, createdAt, true, s.now + ttl as real)) in Page(t, ids)
  {
    var first := Step(ttl, s, Action.Create(id, title, body, priority, createdAt));
    DataStays(ttl, first, actions, id);
    PageIs(After(ttl, first, actions), ids);
  }

  lemma {:induction false} DataStays(ttl: int, s: State, actions: seq<Action>, id: string)
    requires LeftAlone(actions, id) && id in s.data
    ensures id in After(ttl, s, actions).data && After(ttl, s, actions).data[id] == s.data[id]
  {
    if actions != [] {
      DataStays(ttl, s, actions[..|actions| - 1], id);
    }
  }

  // ---- What the three keys keep ----

  /** A live notification is listed under its score, and both shared keys outlive it. */
  ghost predicate Inv(ttl: int, s: State) {
    && (forall id | Live(s, id) ::
          && s.inbox.Stored? && id in s.inbox.value && s.data[id].expires <= s.inbox.expires
          && s.inbox.value[id] == Score(s.data[id].priority, s.data[id].createdAt)
          && s.counter.Stored? && s.data[id].expires <= s.counter.expires
          && s.data[id].expires <= s.now + ttl as real)
    && (s.counter.Stored? ==> s.counter.value >= 0 && s.counter.expires <= s.now + ttl as real)
    && (s.inbox.Stored? ==> s.inbox.expires <= s.now + ttl as real)
  }

  lemma {:induction false} StepKeeps(ttl: int, s: State, a: Action)
    requires Inv(ttl, s)
    ensures Inv(ttl, Step(ttl, s, a))
  {
  }

  /** When the counter key is gone, no notification is live. */
  lemma {:induction false} CounterGoesLast(ttl: int, s: State)
    requires Inv(ttl, s) && !Present(s.counter, s.now)
    ensures forall id :: !Live(s, id)
    ensures Unread(s) == {}
  {
  }

  // ---- The exact drift of the counter ----

  /** Since the counter key was last absent: unread notifications that expired, live read ones that
      were created again, and marks that found the counter at zero. */
  datatype Tally = Tally(expired: nat, revived: nat, saturated: nat)

  function Count(ttl: int, s: State, a: Action, tally: Tally): Tally {
    var next := Step(ttl, s, a);
    if !Present(next.counter, next.now) then Tally(0, 0, 0)
    else match a
         case Pass(_) => tally.(expired := tally.expired + |Unread(s) - Unread(next)|)
         case Create(id, _, _, _, _) =>
           if Live(s, id) && !LiveUnread(s, id) then tally.(revived := tally.revived + 1) else tally
         case MarkRead(id) =>
           if Marks(s, id) && Counter(s) == 0 then tally.(saturated := tally.saturated + 1) else tally
  }

  /** The state and the tally after a run. */
  function Run(ttl: int, now: real, actions: seq<Action>): (State, Tally) {
    if actions == [] then (Empty(now), Tally(0, 0, 0)) else
      var (s, tally) := Run(ttl, now, actions[..|actions| - 1]);
      (Step(ttl, s, actions[|actions| - 1]), Count(ttl, s, actions[|actions| - 1], tally))
  }

  ghost predicate Balanced(s: State, tally: Tally) {
    && Counter(s) - |Unread(s)| == tally.expired - tally.revived + tally.saturated
    && (tally.revived == 0 ==> tally.saturated == 0)
    && (tally.expired == 0 ==> tally.saturated <= tally.revived)
  }

  lemma PassBalance(ttl: int, s: State, seconds: real, tally: Tally)
    requires Inv(ttl, s) && Balanced(s, tally)
    ensures Balanced(Step(ttl, s, Pass(seconds)), Count(ttl, s, Pass(seconds), tally))
  {
    var next := Step(ttl, s, Pass(seconds));
    StepKeeps(ttl, s, Pass(seconds));
    if Present(next.counter, next.now) {
      assert Unread(next) <= Unread(s);
      assert Unread(s) == Unread(next) + (Unread(s) - Unread(next));
    } else {
      CounterGoesLast(ttl, next);
    }
  }

  lemma CreateBalance(ttl: int, s: State, a: Action, tally: Tally)
    requires a.Create? && Inv(ttl, s) && Balanced(s, tally)
    requires !Present(s.counter, s.now) ==> tally == Tally(0, 0, 0)
    ensures Balanced(Step(ttl, s, a), Count(ttl, s, a, tally))
  {
    var next := Step(ttl, s, a);
    StepKeeps(ttl, s, a);
    if Present(next.counter, next.now) {
      assert Unread(next) == Unread(s) + {a.id};
      if !Present(s.counter, s.now) {
        CounterGoesLast(ttl, s);
      }
    } else {
      CounterGoesLast(ttl, next);
    }
  }

  lemma MarkBalance(ttl: int, s: State, id: string, tally: Tally)
    requires Inv(ttl, s) && Balanced(s, tally)
    requires !Present(s.counter, s.now) ==> tally == Tally(0, 0, 0)
    ensures Balanced(Step(ttl, s, MarkRead(id)), Count(ttl, s, MarkRead(id), tally))
  {
    var next := Step(ttl, s, MarkRead(id));
    if Marks(s, id) {
      assert Unread(next) == Unread(s) - {id};
    }
  }

  lemma {:induction false} RunBalances(ttl: int, now: real, actions: seq<Action>)
    ensures var (s, tally) := Run(ttl, now, actions);
            Inv(ttl, s) && Balanced(s, tally) && (!Present(s.counter, s.now) ==> tally == Tally(0, 0, 0))
  {
    if actions != [] {
      var (s, tally) := Run(ttl, now, actions[..|actions| - 1]);
      RunBalances(ttl, now, actions[..|actions| - 1]);
      var a := actions[|actions| - 1];
      StepKeeps(ttl, s, a);
      hide Inv, Balanced, Step;
      match a
      case Pass(seconds) => PassBalance(ttl, s, seconds, tally);
      case Create(_, _, _, _, _) => CreateBalance(ttl, s, a, tally);
      case MarkRead(id) => MarkBalance(ttl, s, id, tally);
    } else {
      assert Unread(Empty(now)) == {};
    }
  }

  /** The counter is off by exactly what expired unread, minus what was revived, plus what saturated. */
  lemma {:induction false} CounterIsUnreadPlusDrift(ttl: int, now: real, actions: seq<Action>)
    ensures var (s, tally) := Run(ttl, now, actions);
            && Counter(s) == |Unread(s)| + tally.expired - tally.revived + tally.saturated
            && Counter(s) >= 0
  {
    RunBalances(ttl, now, actions);
  }

  /** With no live read notification created again, the counter covers the unread ones, exactly so until one expires. */
  lemma {:induction false} CounterCoversUnread(ttl: int, now: real, actions: seq<Action>)
    requires Run(ttl, now, actions).1.revived == 0
    ensures var (s, tally) := Run(ttl, now, actions);
            Counter(s) >= |Unread(s)| && (Counter(s) == |Unread(s)| <==> tally.expired == 0)
  {
    RunBalances(ttl, now, actions);
  }

  /** As long as nothing unread expires, the counter never exceeds the unread ones. */
  lemma {:induction false} CounterNeverExceedsUnread(ttl: int, now: real, actions: seq<Action>)
    requires Run(ttl, now, actions).1.expired == 0
    ensures var (s, _) := Run(ttl, now, actions); 0 <= Counter(s) <= |Unread(s)|
  {
    RunBalances(ttl, now, actions);
  }

  /** Creating a live, already read notification again shows zero for one unread. */
  lemma {:induction false} RevivedIsNotCounted(ttl: int, now: real)
    requires ttl > 0
    ensures var a := Create("a", "t", "b", 1, 0);
            var (s, _) := Run(ttl, now, [a, MarkRead("a"), a]);
            Unread(s) == {"a"} && Counter(s) == 0
  {
    var a := Create("a", "t", "b", 1, 0);
    var actions := [a, MarkRead("a"), a];
    assert actions[..2] == [a, MarkRead("a")] && actions[..2][..1] == [a] && [a][..0] == [];
    var s1 := Step(ttl, Empty(now), a);
    assert Run(ttl, now, [a]).0 == s1;
    var s2 := Step(ttl, s1, MarkRead("a"));
    assert Run(ttl, now, actions[..2]).0 == s2;
    assert Counter(s1) == 1 && Marks(s1, "a") && Counter(s2) == 0 && Live(s2, "a");
  }

  /** A notification is marked exactly once: it answers yes while unread, then no until created again. */
  lemma {:induction false} MarkedOnce(ttl: int, s: State, id: string, actions: seq<Action>)
    requires Inv(ttl, s)
    requires forall i | 0 <= i < |actions| :: actions[i].Create? ==> actions[i].id != id
    ensures Marks(s, id) <==> LiveUnread(s, id)
    ensures !Marks(After(ttl, Step(ttl, s, MarkRead(id)), actions), id)
  {
    NotUnreadStays(ttl, Step(ttl, s, MarkRead(id)), id, actions);
  }

  function After(ttl: int, s: State, actions: seq<Action>): State {
    if actions == [] then s else Step(ttl, After(ttl, s, actions[..|actions| - 1]), actions[|actions| - 1])
  }

  lemma {:induction false} NotUnreadStays(ttl: int, s: State, id: string, actions: seq<Action>)
    requires !LiveUnread(s, id)
    requires forall i | 0 <= i < |actions| :: actions[i].Create? ==> actions[i].id != id
    ensures !LiveUnread(After(ttl, s, actions), id)
  {
    if actions != [] {
      NotUnreadStays(ttl, s, id, actions[..|actions| - 1]);
    }
  }

  // ---- What the listing shows ----

  /** The score compares priorities first and times second, for times before the year 2286. */
  lemma ScoresOrder(p: int, t: int, q: int, u: int)
    requires 0 <= t < 10000000000 && 0 <= u < 10000000000
    ensures Score(p, t) >= Score(q, u) <==> p > q || (p == q && t >= u)
  {
  }

  predicate Timely(e: Entry) {
    0 <= e.createdAt < 10000000000
  }

  /** x is no less important than y: a higher priority, or the same and no older. */
  predicate NoLess(x: Entry, y: Entry) {
    x.priority > y.priority || (x.priority == y.priority && x.createdAt >= y.createdAt)
  }

  lemma {:induction false} PageIs(s: State, ids: seq<string>)
    ensures forall x :: x in Page(s, ids) <==> x.id in ids && Live(s, x.id) && x.entry == s.data[x.id]
  {
    if ids != [] {
      PageIs(s, ids[..|ids| - 1]);
      assert forall id :: id in ids <==> id in ids[..|ids| - 1] || id == ids[|ids| - 1];
      hide Live;
    }
  }

  /** The listing shows exactly the live ones among the ids it is given, most important first. */
  lemma {:induction false} InboxIsOrdered(ttl: int, s: State, ranking: seq<string>, n: nat)
    requires Inv(ttl, s) && Ranking(ranking, InboxScores(s)) && n <= |ranking|
    requires forall id | Live(s, id) :: Timely(s.data[id])
    ensures forall x :: x in Page(s, ranking[..n]) <==> x.id in ranking[..n] && Live(s, x.id) && x.entry == s.data[x.id]
    ensures forall i, j | 0 <= i < j < |Page(s, ranking[..n])| ::
              NoLess(Page(s, ranking[..n])[i].entry, Page(s, ranking[..n])[j].entry)
  {
    PageIs(s, ranking[..n]);
    if n > 0 {
      InboxIsOrdered(ttl, s, ranking, n - 1);
      assert ranking[..n][..n - 1] == ranking[..n - 1];
      var last, page := ranking[n - 1], Page(s, ranking[..n - 1]);
      if Live(s, last) {
        forall i | 0 <= i < |page| ensures NoLess(page[i].entry, s.data[last]) {
          assert page[i] in page;
          EarlierIsNoLess(ttl, s, ranking, n - 1, page[i].id);
        }
      }
    }
  }

  lemma EarlierIsNoLess(ttl: int, s: State, ranking: seq<string>, n: nat, id: string)
    requires Inv(ttl, s) && Ranking(ranking, InboxScores(s)) && n < |ranking|
    requires id in ranking[..n] && Live(s, id) && Live(s, ranking[n])
    requires Timely(s.data[id]) && Timely(s.data[ranking[n]])
    ensures NoLess(s.data[id], s.data[ranking[n]])
  {
    var k :| 0 <= k < n && ranking[k] == id;
    var x, y := s.data[id], s.data[ranking[n]];
    assert InboxScores(s)[ranking[k]] >= InboxScores(s)[ranking[n]];
    ScoresOrder(x.priority, x.createdAt, y.priority, y.createdAt);
  }

  predicate ShowsAll(s: State, page: seq<Shown>) {
    forall id | id in s.data && Live(s, id) :: Shown(id, s.data[id]) in page
  }

  /** The first n places show every live notification exactly when none ranks behind them. */
  lemma {:induction false} ShowsAllIff(ttl: int, s: State, ranking: seq<string>, n: nat)
    requires Inv(ttl, s) && Ranking(ranking, InboxScores(s)) && n <= |ranking|
    ensures ShowsAll(s, Page(s, ranking[..n])) <==>
            forall k | n <= k < |ranking| :: !Live(s, ranking[k])
  {
    PageIs(s, ranking[..n]);
    forall id | Live(s, id) ensures id in ranking {
      assert id in InboxScores(s);
    }
    assert forall k | n <= k < |ranking| :: ranking[k] !in ranking[..n];
    if forall k | n <= k < |ranking| :: !Live(s, ranking[k]) {
      forall id | id in s.data && Live(s, id) ensures id in ranking[..n] {
        var k :| 0 <= k < |ranking| && ranking[k] == id;
        assert k < n ==> ranking[..n][k] == id;
      }
    }
  }

  /** Expired notifications keep their place: the one live notification can be missing from a page of one. */
  lemma {:induction false} ExpiredHideLive(ttl: int, now: real)
    requires ttl > 0
    ensures var half := Pass(ttl as real / 2.0);
            var (s, _) := Run(ttl, now, [Create("a", "t", "b", 3, 0), half, Create("b", "t", "b", 1, 0), half]);
            && Unread(s) == {"b"} && Ranking(["a", "b"], InboxScores(s)) && Page(s, ["a", "b"][..1]) == []
  {
    var a, b, half := Create("a", "t", "b", 3, 0), Create("b", "t", "b", 1, 0), Pass(ttl as real / 2.0);
    RunFour(ttl, now, a, half, b, half);
    var s1 := Step(ttl, Empty(now), a);
    var s2 := Step(ttl, s1, half);
    var s3 := Step(ttl, s2, b);
    var s := Step(ttl, s3, half);
    assert s1.inbox.value == map["a" := Score(3, 0)] && Present(s2.inbox, s2.now);
    assert s.inbox.value == map["a" := Score(3, 0), "b" := Score(1, 0)] && Present(s.inbox, s.now);
    assert !Live(s, "a") && Live(s, "b") && s.data.Keys == {"a", "b"};
    assert ["a", "b"][..1] == ["a"] && ["a"][..0] == [];
    var ids := ["a", "b"];
    assert ids[0] == "a" && ids[1] == "b";
  }

  lemma RunFour(ttl: int, now: real, a: Action, b: Action, c: Action, d: Action)
    ensures Run(ttl, now, [a, b, c, d]).0 == Step(ttl, Step(ttl, Step(ttl, Step(ttl, Empty(now), a), b), c), d)
  {
    hide Step, Count;
    assert [a, b, c, d][..3] == [a, b, c] && [a, b, c][..2] == [a, b] && [a, b][..1] == [a] && [a][..0] == [];
    assert Run(ttl, now, [a]).0 == Step(ttl, Empty(now), a);
    assert Run(ttl, now, [a, b]).0 == Step(ttl, Run(ttl, now, [a]).0, b);
    assert Run(ttl, now, [a, b, c]).0 == Step(ttl, Run(ttl, now, [a, b]).0, c);
  }
}
