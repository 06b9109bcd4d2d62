/**
 Overlapping calls of the response saga, which looks up the guest, compares the
 number of guests with the limit and records the guest in three separate steps.
 */
module GuestRaces {
  import opened Base
  import opened GuestList

  type Caller = nat

  /** A call that did not find its guest recorded, and then one that found room left. */
  datatype Call = Checked(id: Uuid) | Passed(id: Uuid)

  datatype Racing = Racing(saga: Saga, calls: map<Caller, Call>)

  datatype Action = Lookup(w: Caller, id: Uuid) | Compare(w: Caller) | Insert(w: Caller)

  function Init(): Racing {
    Racing(Saga({}, []), map[])
  }

  function Issue(s: Saga, o: Order): Saga {
    s.(orders := s.orders + [o])
  }

  function DoCompare(r: Racing, limit: int, w: Caller): Racing
    requires w in r.calls
  {
    if |r.saga.guests| >= limit then Racing(Issue(r.saga, Deny(r.calls[w].id)), r.calls - {w})
    else r.(calls := r.calls[w := Passed(r.calls[w].id)])
  }

  function DoInsert(r: Racing, w: Caller): Racing
    requires w in r.calls
  {
    var id := r.calls[w].id;
    Racing(Issue(r.saga.(guests := r.saga.guests + {id}), Confirm(id)), r.calls - {w})
  }

  function Do(r: Racing, limit: int, a: Action): Racing {
    match a
    case Lookup(w, id) => if w in r.calls || id in r.saga.guests then r else r.(calls := r.calls[w := Checked(id)])
    case Compare(w) => if w in r.calls && r.calls[w].Checked? then DoCompare(r, limit, w) else r
    case Insert(w) => if w in r.calls && r.calls[w].Passed? then DoInsert(r, w) else r
  }

  function Exec(limit: int, actions: seq<Action>): Racing {
    if actions == [] then Init() else Do(Exec(limit, actions[..|actions| - 1]), limit, actions[|actions| - 1])
  }

  /** Without overlap, the three steps together are one call. */
  lemma UndividedCallIsReact(s: Saga, limit: int, w: Caller, id: Uuid)
    ensures Do(Do(Do(Racing(s, map[]), limit, Lookup(w, id)), limit, Compare(w)), limit, Insert(w)).saga
         == React(s, limit, Notice(true, id))
  {
  }

  /** A property of every state of a run. */
  ghost predicate Throughout(limit: int, actions: seq<Action>, p: Racing -> bool) {
    p(Exec(limit, actions)) && (actions != [] ==> Throughout(limit, actions[..|actions| - 1], p))
  }

  lemma ExecNext(limit: int, actions: seq<Action>, a: Action, p: Racing -> bool)
    requires Throughout(limit, actions, p) && p(Do(Exec(limit, actions), limit, a))
    ensures Exec(limit, actions + [a]) == Do(Exec(limit, actions), limit, a)
    ensures Throughout(limit, actions + [a], p)
  {
    assert (actions + [a])[..|actions|] == actions;
  }

  // ----- The guest limit -----

  /** At most m calls are under way. */
  ghost function AtMost(m: nat): Racing -> bool {
    (r: Racing) => |r.calls| <= m
  }

  ghost function PassedCalls(r: Racing): set<Caller> {
    set w <- r.calls | r.calls[w].Passed?
  }

  /** Nobody is let in, or fewer guests than this, counting the calls that found room. */
  ghost predicate FewerThan(r: Racing, n: int) {
    (r.saga.guests == {} && PassedCalls(r) == {}) || |r.saga.guests| + |PassedCalls(r)| < n
  }

  lemma PassedAreCalls(r: Racing)
    ensures |PassedCalls(r)| <= |r.calls|
  {
    SubsetSize(PassedCalls(r), r.calls.Keys);
    assert |r.calls.Keys| == |r.calls|;
  }

  /** Only a comparison that finds room adds to the calls that did; only an insertion takes one away. */
  lemma PassedStep(r: Racing, limit: int, a: Action)
    ensures var t := Do(r, limit, a);
            && (a.Lookup? || t == r || (a.Compare? && |r.saga.guests| >= limit) ==> PassedCalls(t) == PassedCalls(r))
            && (a.Insert? && t != r ==> a.w !in PassedCalls(t) && PassedCalls(r) == PassedCalls(t) + {a.w})
  {
  }

  lemma StepIsBounded(r: Racing, limit: int, a: Action, m: nat)
    requires FewerThan(r, limit + m) && AtMost(m)(Do(r, limit, a))
    ensures FewerThan(Do(r, limit, a), limit + m)
  {
    PassedStep(r, limit, a);
    PassedAreCalls(Do(r, limit, a));
  }

  /** With at most m calls overlapping, fewer than limit + m guests are let in, over every run. */
  lemma {:induction false} OverlapIsBounded(limit: int, actions: seq<Action>, m: nat)
    requires Throughout(limit, actions, AtMost(m))
    ensures FewerThan(Exec(limit, actions), limit + m)
  {
    if actions == [] {
      assert PassedCalls(Init()) == {};
    } else {
      var n := |actions| - 1;
      OverlapIsBounded(limit, actions[..n], m);
      StepIsBounded(Exec(limit, actions[..n]), limit, actions[n], m);
    }
  }

  ghost predicate FirstGuests(guests: set<Uuid>, n: nat) {
    |guests| == n && forall id: Uuid :: id in guests <==> id < n
  }

  /** Callers from lo to hi are under way and found room, caller w for guest k + w. */
  ghost predicate Passing(calls: map<Caller, Call>, k: int, lo: nat, hi: nat) {
    && |calls| == hi - lo && (forall w: Caller :: w in calls <==> lo <= w < hi)
    && (forall w: Caller :: w in calls ==> calls[w].Passed? && calls[w].id == k + w)
  }

  ghost predicate Crowd(r: Racing, n: nat, k: int, lo: nat, hi: nat) {
    FirstGuests(r.saga.guests, n) && Passing(r.calls, k, lo, hi)
  }

  lemma CallsGrow(calls: map<Caller, Call>, w: Caller, call: Call)
    requires w !in calls
    ensures |calls[w := call]| == |calls| + 1
  {
    assert calls[w := call].Keys == calls.Keys + {w};
    assert |calls[w := call].Keys| == |calls[w := call]| && |calls.Keys| == |calls|;
  }

  lemma OneMorePasses(calls: map<Caller, Call>, k: nat, j: nat)
    requires Passing(calls, k, 0, j)
    ensures Passing(calls[j := Passed(k + j)], k, 0, j + 1) && |calls[j := Checked(k + j)]| == j + 1
  {
    assert j !in calls;
    CallsGrow(calls, j, Passed(k + j));
    CallsGrow(calls, j, Checked(k + j));
  }

  lemma OneLessPasses(calls: map<Caller, Call>, k: nat, j: nat, m: nat)
    requires Passing(calls, k, j, m) && j < m
    ensures Passing(calls - {j}, k, j + 1, m)
  {
    var now := calls - {j};
    assert j in calls;
    CallsGrow(now, j, calls[j]);
    assert now[j := calls[j]] == calls;
  }

  /** A call begins and finds room. */
  lemma CrowdPasses(r: Racing, limit: int, k: nat, j: nat)
    requires Crowd(r, k, k, 0, j) && k < limit
    ensures var t := Do(r, limit, Lookup(j, k + j));
            |t.calls| == j + 1 && Crowd(Do(t, limit, Compare(j)), k, k, 0, j + 1)
  {
    OneMorePasses(r.calls, k, j);
    assert j !in r.calls && k + j !in r.saga.guests;
    var t := Do(r, limit, Lookup(j, k + j));
    assert t.calls[j := Passed(k + j)] == r.calls[j := Passed(k + j)];
  }

  lemma CrowdInserts(r: Racing, limit: int, k: nat, j: nat, m: nat)
    requires Crowd(r, k + j, k, j, m) && j < m
    ensures Crowd(Do(r, limit, Insert(j)), k + j + 1, k, j + 1, m)
  {
    OneLessPasses(r.calls, k, j, m);
    assert j in r.calls && r.calls[j].id == k + j;
    assert FirstGuests(r.saga.guests + {k + j}, k + j + 1);
  }

  /** Appends the steps that bring a call to the point where it found room. */
  lemma PassNext(limit: int, actions: seq<Action>, k: nat, j: nat, m: nat) returns (more: seq<Action>)
    requires Throughout(limit, actions, AtMost(m)) && Crowd(Exec(limit, actions), k, k, 0, j) && k < limit && j < m
    ensures Throughout(limit, more, AtMost(m)) && Crowd(Exec(limit, more), k, k, 0, j + 1)
  {
    CrowdPasses(Exec(limit, actions), limit, k, j);
    ExecNext(limit, actions, Lookup(j, k + j), AtMost(m));
    more := actions + [Lookup(j, k + j)];
    ExecNext(limit, more, Compare(j), AtMost(m));
    more := more + [Compare(j)];
  }

  /** First k guests, one after another. */
  lemma {:induction false} LetIn(limit: int, k: nat, m: nat) returns (actions: seq<Action>)
    requires k < limit && 1 <= m
    ensures Throughout(limit, actions, AtMost(m)) && Crowd(Exec(limit, actions), k, k, 0, 0)
  {
    actions := [];
    if k > 0 {
      actions := LetIn(limit, k - 1, m);
      actions := PassNext(limit, actions, k - 1, 0, m);
      CrowdInserts(Exec(limit, actions), limit, k - 1, 0, 1);
      ExecNext(limit, actions, Insert(0), AtMost(m));
      actions := actions + [Insert(0)];
    }
  }

  /** Then j calls that find room together. */
  lemma {:induction false} PassTogether(limit: int, k: nat, j: nat, m: nat) returns (actions: seq<Action>)
    requires k < limit && j <= m && 1 <= m
    ensures Throughout(limit, actions, AtMost(m)) && Crowd(Exec(limit, actions), k, k, 0, j)
  {
    if j == 0 {
      actions := LetIn(limit, k, m);
    } else {
      actions := PassTogether(limit, k, j - 1, m);
      actions := PassNext(limit, actions, k, j - 1, m);
    }
  }

  lemma InsertNext(limit: int, actions: seq<Action>, k: nat, j: nat, m: nat) returns (more: seq<Action>)
    requires Throughout(limit, actions, AtMost(m)) && Crowd(Exec(limit, actions), k + j, k, j, m) && j < m
    ensures Throughout(limit, more, AtMost(m)) && Crowd(Exec(limit, more), k + j + 1, k, j + 1, m)
  {
    CrowdInserts(Exec(limit, actions), limit, k, j, m);
    ExecNext(limit, actions, Insert(j), AtMost(m));
    more := actions + [Insert(j)];
  }

  /** Then their insertions: m overlapping calls can let in limit + m - 1 guests. */
  lemma {:induction false} OverlapReachesBound(limit: int, j: nat, m: nat) returns (actions: seq<Action>)
    requires 1 <= limit && j <= m && 1 <= m
    ensures Throughout(limit, actions, AtMost(m)) && Crowd(Exec(limit, actions), limit - 1 + j, limit - 1, j, m)
  {
    if j == 0 {
      actions := PassTogether(limit, limit - 1, m, m);
    } else {
      actions := OverlapReachesBound(limit, j - 1, m);
      actions := InsertNext(limit, actions, limit - 1, j - 1, m);
    }
  }

  ghost predicate WithinLimit(limit: int, s: Saga) {
    s.guests == {} || |s.guests| <= limit
  }

  /** The limit holds over every run with at most m overlapping calls if and only if no two overlap or nobody is let in. */
  lemma LimitHoldsIff(limit: int, m: nat)
    ensures (forall actions :: Throughout(limit, actions, AtMost(m)) ==> WithinLimit(limit, Exec(limit, actions).saga))
       <==> m <= 1 || limit <= 0
  {
    if m <= 1 || limit <= 0 {
      forall actions | Throughout(limit, actions, AtMost(m))
        ensures WithinLimit(limit, Exec(limit, actions).saga)
      {
        if limit <= 0 {
          NobodyIsLetIn(limit, actions);
        } else {
          OverlapIsBounded(limit, actions, m);
        }
      }
    } else {
      var actions := OverlapReachesBound(limit, m, m);
      assert |Exec(limit, actions).saga.guests| == limit - 1 + m;
    }
  }

  ghost predicate NobodyIn(r: Racing) {
    && r.saga.guests == {} && (forall w <- r.calls :: r.calls[w].Checked?)
    && (forall i :: 0 <= i < |r.saga.orders| ==> r.saga.orders[i].Deny?)
  }

  lemma {:induction false} NobodyIsLetIn(limit: int, actions: seq<Action>)
    requires limit <= 0
    ensures NobodyIn(Exec(limit, actions))
  {
    if actions != [] {
      NobodyIsLetIn(limit, actions[..|actions| - 1]);
    }
  }

  // ----- One answer per guest -----

  ghost predicate ConfirmedOnce(s: Saga) {
    forall i, j :: 0 <= i < j < |s.orders| && s.orders[i].Confirm? ==> s.orders[i] != s.orders[j]
  }

  ghost predicate NeverBoth(s: Saga) {
    forall id: Uuid :: !(Ordered(s, Confirm(id)) && Ordered(s, Deny(id)))
  }

  ghost function CallsFor(r: Racing, id: Uuid): set<Caller> {
    set w <- r.calls | r.calls[w].id == id
  }

  /** At most m calls are under way for any one guest; calls for different guests may overlap freely. */
  ghost function PerGuest(m: nat): Racing -> bool {
    (r: Racing) => forall id: Uuid :: |CallsFor(r, id)| <= m
  }

  ghost predicate OwnGuest(r: Racing) {
    forall v, w | v in r.calls && w in r.calls && v != w :: r.calls[v].id != r.calls[w].id
  }

  lemma OnePerGuest(r: Racing)
    requires PerGuest(1)(r)
    ensures OwnGuest(r)
  {
    forall v, w | v in r.calls && w in r.calls && v != w
      ensures r.calls[v].id != r.calls[w].id
    {
      if r.calls[v].id == r.calls[w].id {
        var both := {v, w};
        assert |both| == 2;
        SubsetSize(both, CallsFor(r, r.calls[v].id));
      }
    }
  }

  ghost predicate Answers(r: Racing, limit: int) {
    && (forall id: Uuid :: Ordered(r.saga, Confirm(id)) <==> id in r.saga.guests)
    && ConfirmedOnce(r.saga)
    && (forall id: Uuid :: Ordered(r.saga, Deny(id)) ==> id !in r.saga.guests && |r.saga.guests| >= limit)
    && (forall w <- r.calls :: r.calls[w].id !in r.saga.guests)
    && (forall w <- r.calls :: r.calls[w].Passed? ==> !Ordered(r.saga, Deny(r.calls[w].id)))
  }

  lemma DenyKeepsAnswers(r: Racing, limit: int, w: Caller)
    requires Answers(r, limit) && OwnGuest(r) && w in r.calls && |r.saga.guests| >= limit
    ensures Answers(DoCompare(r, limit, w), limit)
  {
    var t, o := DoCompare(r, limit, w), Deny(r.calls[w].id);
    forall id: Uuid
      ensures Ordered(t.saga, Confirm(id)) <==> Ordered(r.saga, Confirm(id))
      ensures Ordered(t.saga, Deny(id)) <==> Ordered(r.saga, Deny(id)) || id == r.calls[w].id
    {
      OrderedNext(r.saga, t.saga, o, Confirm(id));
      OrderedNext(r.saga, t.saga, o, Deny(id));
    }
  }

  lemma InsertKeepsAnswers(r: Racing, limit: int, w: Caller)
    requires Answers(r, limit) && OwnGuest(r) && w in r.calls && r.calls[w].Passed?
    ensures Answers(DoInsert(r, w), limit)
  {
    var t, o := DoInsert(r, w), Confirm(r.calls[w].id);
    forall id: Uuid
      ensures Ordered(t.saga, Confirm(id)) <==> Ordered(r.saga, Confirm(id)) || id == r.calls[w].id
      ensures Ordered(t.saga, Deny(id)) <==> Ordered(r.saga, Deny(id))
    {
      OrderedNext(r.saga, t.saga, o, Confirm(id));
      OrderedNext(r.saga, t.saga, o, Deny(id));
    }
    forall i, j | 0 <= i < j < |t.saga.orders| && t.saga.orders[i].Confirm?
      ensures t.saga.orders[i] != t.saga.orders[j]
    {
      if j == |r.saga.orders| {
        assert Ordered(r.saga, r.saga.orders[i]);
      }
    }
  }

  lemma StepKeepsAnswers(r: Racing, limit: int, a: Action)
    requires Answers(r, limit) && OwnGuest(r)
    ensures Answers(Do(r, limit, a), limit)
  {
    if a.w in r.calls {
      if a.Compare? && r.calls[a.w].Checked? && |r.saga.guests| >= limit {
        DenyKeepsAnswers(r, limit, a.w);
      } else if a.Insert? && r.calls[a.w].Passed? {
        InsertKeepsAnswers(r, limit, a.w);
      }
    }
  }

  /** If calls for one guest do not overlap, each guest is confirmed once, and never both confirmed and denied. */
  lemma {:induction false} OwnCallsAnswerOnce(limit: int, actions: seq<Action>)
    requires Throughout(limit, actions, PerGuest(1))
    ensures Answers(Exec(limit, actions), limit)
  {
    if actions != [] {
      var n := |actions| - 1;
      OwnCallsAnswerOnce(limit, actions[..n]);
      assert Throughout(limit, actions[..n], PerGuest(1));
      OnePerGuest(Exec(limit, actions[..n]));
      StepKeepsAnswers(Exec(limit, actions[..n]), limit, actions[n]);
    }
  }

  lemma {:induction false} FewCallsPerGuest(limit: int, actions: seq<Action>, k: nat, m: nat)
    requires Throughout(limit, actions, AtMost(k)) && k <= m
    ensures Throughout(limit, actions, PerGuest(m))
  {
    var r := Exec(limit, actions);
    forall id: Uuid
      ensures |CallsFor(r, id)| <= m
    {
      SubsetSize(CallsFor(r, id), r.calls.Keys);
      assert |r.calls.Keys| == |r.calls|;
    }
    if actions != [] {
      FewCallsPerGuest(limit, actions[..|actions| - 1], k, m);
    }
  }

  /** Two calls for a guest who takes the last place: both find room, or one does and the other is too late. */
  lemma TwoCallsForOne(r: Racing, limit: int, g: Uuid)
    requires r.calls == map[] && g !in r.saga.guests && |r.saga.guests| == limit - 1
    ensures var r2 := Do(Do(r, limit, Lookup(0, g)), limit, Lookup(1, g));
            var room := Do(r2, limit, Compare(0));
            && |Do(r, limit, Lookup(0, g)).calls| <= 2 && |r2.calls| <= 2 && |room.calls| <= 2
            && r2.saga == r.saga && room.saga == r.saga
            && r2.calls == map[0 := Checked(g), 1 := Checked(g)] && room.calls == map[0 := Passed(g), 1 := Checked(g)]
  {
    var r1 := Do(r, limit, Lookup(0, g));
    assert r1.calls == map[0 := Checked(g)];
    CallsGrow(map[], 0, Checked(g));
    CallsGrow(r1.calls, 1, Checked(g));
    CallsGrow(map[], 0, Passed(g));
    CallsGrow(map[0 := Passed(g)], 1, Checked(g));
  }

  lemma BothFindRoom(r: Racing, limit: int, g: Uuid)
    requires r.calls == map[0 := Passed(g), 1 := Checked(g)] && |r.saga.guests| == limit - 1
    ensures var r1 := Do(r, limit, Compare(1));
            var r2 := Do(r1, limit, Insert(0));
            var r3 := Do(r2, limit, Insert(1));
            && |r1.calls| <= 2 && |r2.calls| <= 2 && |r3.calls| <= 2
            && r3.saga.orders == r.saga.orders + [Confirm(g), Confirm(g)]
  {
    var r1 := Do(r, limit, Compare(1));
    assert r1.calls == map[0 := Passed(g), 1 := Passed(g)];
    CallsGrow(map[], 0, Passed(g));
    CallsGrow(map[0 := Passed(g)], 1, Passed(g));
    var r2 := Do(r1, limit, Insert(0));
    CallsGrow(map[], 1, Passed(g));
    assert r2.calls == map[1 := Passed(g)];
    assert Do(r2, limit, Insert(1)).calls == map[];
  }

  lemma OneIsTooLate(r: Racing, limit: int, g: Uuid)
    requires r.calls == map[0 := Passed(g), 1 := Checked(g)] && g !in r.saga.guests && |r.saga.guests| == limit - 1
    ensures var r1 := Do(r, limit, Insert(0));
            var r2 := Do(r1, limit, Compare(1));
            |r1.calls| <= 2 && |r2.calls| <= 2 && r2.saga.orders == r.saga.orders + [Confirm(g), Deny(g)]
  {
    var r1 := Do(r, limit, Insert(0));
    assert r1.calls == map[1 := Checked(g)];
    CallsGrow(map[], 1, Checked(g));
    assert Do(r1, limit, Compare(1)).calls == map[];
  }

  /** A run to the point where a guest's first call found room and the second was looked up. */
  lemma LastPlace(limit: int) returns (actions: seq<Action>, g: Uuid)
    requires 1 <= limit
    ensures Throughout(limit, actions, AtMost(2))
    ensures var r := Exec(limit, actions);
            r.calls == map[0 := Passed(g), 1 := Checked(g)] && g !in r.saga.guests && |r.saga.guests| == limit - 1
  {
    actions := LetIn(limit, limit - 1, 2);
    g := limit - 1;
    assert Exec(limit, actions).calls.Keys == {};
    assert Exec(limit, actions).calls == map[];
    TwoCallsForOne(Exec(limit, actions), limit, g);
    ExecNext(limit, actions, Lookup(0, g), AtMost(2));
    actions := actions + [Lookup(0, g)];
    ExecNext(limit, actions, Lookup(1, g), AtMost(2));
    actions := actions + [Lookup(1, g)];
    ExecNext(limit, actions, Compare(0), AtMost(2));
    actions := actions + [Compare(0)];
  }

  lemma ConfirmedTwice(limit: int) returns (actions: seq<Action>)
    requires 1 <= limit
    ensures Throughout(limit, actions, AtMost(2)) && !ConfirmedOnce(Exec(limit, actions).saga)
  {
    var g: Uuid;
    actions, g := LastPlace(limit);
    var n := |Exec(limit, actions).saga.orders|;
    BothFindRoom(Exec(limit, actions), limit, g);
    ExecNext(limit, actions, Compare(1), AtMost(2));
    actions := actions + [Compare(1)];
    ExecNext(limit, actions, Insert(0), AtMost(2));
    actions := actions + [Insert(0)];
    ExecNext(limit, actions, Insert(1), AtMost(2));
    actions := actions + [Insert(1)];
    var orders := Exec(limit, actions).saga.orders;
    assert orders[n] == orders[n + 1] == Confirm(g);
  }

  lemma ConfirmedAndDenied(limit: int) returns (actions: seq<Action>)
    requires 1 <= limit
    ensures Throughout(limit, actions, AtMost(2)) && !NeverBoth(Exec(limit, actions).saga)
  {
    var g: Uuid;
    actions, g := LastPlace(limit);
    var n := |Exec(limit, actions).saga.orders|;
    OneIsTooLate(Exec(limit, actions), limit, g);
    ExecNext(limit, actions, Insert(0), AtMost(2));
    actions := actions + [Insert(0)];
    ExecNext(limit, actions, Compare(1), AtMost(2));
    actions := actions + [Compare(1)];
    var s := Exec(limit, actions).saga;
    assert s.orders[n] == Confirm(g) && s.orders[n + 1] == Deny(g);
    assert Ordered(s, Confirm(g)) && Ordered(s, Deny(g));
  }

  /** Each guest is confirmed once over every run with at most m calls per guest, if and only if m is at most one or nobody is let in. */
  lemma ConfirmedOnceIff(limit: int, m: nat)
    ensures (forall actions :: Throughout(limit, actions, PerGuest(m)) ==> ConfirmedOnce(Exec(limit, actions).saga))
       <==> m <= 1 || limit <= 0
  {
    if m <= 1 || limit <= 0 {
      forall actions | Throughout(limit, actions, PerGuest(m))
        ensures ConfirmedOnce(Exec(limit, actions).saga)
      {
        AnsweredWhen(limit, actions, m);
      }
    } else {
      var actions := ConfirmedTwice(limit);
      FewCallsPerGuest(limit, actions, 2, m);
    }
  }

  /** And the same for nobody being both confirmed and denied. */
  lemma NeverBothIff(limit: int, m: nat)
    ensures (forall actions :: Throughout(limit, actions, PerGuest(m)) ==> NeverBoth(Exec(limit, actions).saga))
       <==> m <= 1 || limit <= 0
  {
    if m <= 1 || limit <= 0 {
      forall actions | Throughout(limit, actions, PerGuest(m))
        ensures NeverBoth(Exec(limit, actions).saga)
      {
        AnsweredWhen(limit, actions, m);
      }
    } else {
      var actions := ConfirmedAndDenied(limit);
      FewCallsPerGuest(limit, actions, 2, m);
    }
  }

  lemma AnsweredWhen(limit: int, actions: seq<Action>, m: nat)
    requires Throughout(limit, actions, PerGuest(m)) && (m <= 1 || limit <= 0)
    ensures ConfirmedOnce(Exec(limit, actions).saga) && NeverBoth(Exec(limit, actions).saga)
  {
    if limit <= 0 {
      NobodyIsLetIn(limit, actions);
    } else {
      PerGuestWeakens(limit, actions, m);
      OwnCallsAnswerOnce(limit, actions);
    }
  }

  lemma {:induction false} PerGuestWeakens(limit: int, actions: seq<Action>, m: nat)
    requires Throughout(limit, actions, PerGuest(m)) && m <= 1
    ensures Throughout(limit, actions, PerGuest(1))
  {
    if actions != [] {
      PerGuestWeakens(limit, actions[..|actions| - 1], m);
    }
  }
}
