/**
 Global positions over whole runs: what each position strategy promises about
 order, and exactly when a commit keeps positions increasing within an aggregate.
 */
module Positions {
  import opened Base
  import opened EventLog

  // ----- Both strategies -----

  /**
   `$all` counts the committed events and the positions reserved but not committed;
   the ranges that saves in progress hold are among the latter, and disjoint.
   */
  lemma AllIsConserved<K>(actions: seq<Action<K>>)
    ensures var s := Exec(Init(), actions);
            && s.store.all == |s.store.events| + |s.outstanding|
            && (forall c <- s.saves :: Holds(s.saves[c], s.outstanding))
            && (forall c, d | c in s.saves && d in s.saves && c != d :: Apart(s.saves[c], s.saves[d]))
  {
    RunKeepsInv(actions);
    var s := Exec(Init(), actions);
    assert |EventLog.Positions(s.store.events) + s.outstanding| == s.store.all;
  }

  // ----- Positions inside the transaction -----

  /** No client reserves outside its transaction. */
  ghost predicate AllInTransaction<K>(actions: seq<Action<K>>) {
    forall i :: 0 <= i < |actions| && actions[i].StartSave? ==> !actions[i].outside
  }

  ghost predicate Gapless<K>(s: State<K>) {
    && s.store.all == |s.store.events|
    && (forall i :: 0 <= i < |s.store.events| ==> s.store.events[i].position == i + 1)
    && (forall c <- s.saves :: !s.saves[c].outside)
  }

  /** Whatever attempts abort and rerun, committed positions are exactly 1..`$all`, in commit order. */
  lemma {:induction false} PositionsFollowCommitOrder<K>(actions: seq<Action<K>>)
    requires AllInTransaction(actions)
    ensures Gapless(Exec(Init(), actions))
    ensures Recorded(Exec(Init(), actions).store.events)
  {
    RunKeepsInv(actions);
    if actions != [] {
      var before := actions[..|actions| - 1];
      assert AllInTransaction(before);
      PositionsFollowCommitOrder(before);
      GaplessStep(Exec(Init(), before), actions[|actions| - 1]);
    }
  }

  lemma GaplessStep<K>(s: State<K>, a: Action<K>)
    requires Gapless(s) && !(a.StartSave? && a.outside)
    ensures Gapless(Do(s, a))
  {
  }

  // ----- Positions reserved before the transaction -----

  /** Within one aggregate, versions and positions grow together. */
  ghost predicate Increasing<K>(events: seq<Record<K>>) {
    forall i, j :: 0 <= i < j < |events| && events[i].id == events[j].id ==>
      events[i].version < events[j].version && events[i].position < events[j].position
  }

  ghost predicate NoLater<K>(events: seq<Record<K>>, id: Uuid, version: int, position: int) {
    forall i :: 0 <= i < |events| && events[i].id == id && events[i].version <= version ==>
      events[i].position <= position
  }

  /** A read of version `version` of an aggregate, at a moment when `$all` was `all`. */
  ghost predicate Read<K>(store: Store<K>, id: Uuid, version: int, all: int) {
    all <= store.all && version <= Version(store.streams, id) && NoLater(store.events, id, version, all)
  }

  ghost predicate SaveFollowsRead<K>(store: Store<K>, sv: Save<K>) {
    && sv.events != []
    && sv.seen.Some?
    && Read(store, sv.events[0].id, sv.originalVersion, sv.seen.value)
    && (sv.reserved.Some? ==> sv.seen.value <= sv.reserved.value)
  }

  ghost predicate Ordered<K>(s: State<K>) {
    && Increasing(s.store.events)
    && (forall c <- s.marks :: Read(s.store, s.marks[c].id, s.marks[c].version, s.marks[c].all))
    && (forall c <- s.saves :: SaveFollowsRead(s.store, s.saves[c]))
  }

  /** The save starts from the version that the same client loaded. */
  ghost predicate FromLoad<K>(s: State<K>, a: Action<K>) {
    a.StartSave? ==>
      && a.events != []
      && a.c in s.marks
      && s.marks[a.c].id == a.events[0].id
      && s.marks[a.c].version == a.originalVersion
  }

  ghost predicate LoadsFirst<K>(actions: seq<Action<K>>) {
    forall i :: 0 <= i < |actions| ==> FromLoad(Exec(Init(), actions[..i]), actions[i])
  }

  /** What is known of the stored events: bounded by `$all` and by the stream document. */
  lemma StoredBounds<K>(s: State<K>, i: nat)
    requires Inv(s) && i < |s.store.events|
    ensures var r := s.store.events[i];
            && 1 <= r.position <= s.store.all
            && 1 <= r.version <= Version(s.store.streams, r.id)
  {
    var r := s.store.events[i];
    assert r.position in EventLog.Positions(s.store.events);
    assert ShapeOf(s.store, r.id);
    LogMembers(s.store.events, r.id);
  }

  lemma BatchFollows<K>(s: State<K>, c: Client)
    requires LogShape(s.store) && SavesAreValid(s.saves) && Commits(s, c)
    ensures var sv, batch := s.saves[c], Batch(s, c);
            && sv.originalVersion == Version(s.store.streams, sv.events[0].id)
            && |batch| == |sv.events|
            && forall k :: 0 <= k < |batch| ==>
                 && batch[k].id == sv.events[0].id
                 && batch[k].version == sv.originalVersion + k + 1
                 && batch[k].position == PreviousPosition(sv) + k + 1
  {
    var sv, batch := s.saves[c], Batch(s, c);
    assert ShapeOf(s.store, sv.events[0].id);
    forall k | 0 <= k < |batch|
      ensures batch[k].id == sv.events[0].id && batch[k].version == sv.originalVersion + k + 1
    {
      assert CheckEvent(sv.events[0], sv.events[k], sv.originalVersion + k + 1) == None;
    }
  }

  /** The last event of an aggregate is the one its stream document points at. */
  lemma LastEvent<K>(s: State<K>, id: Uuid) returns (k: nat)
    requires Inv(s) && id in s.store.streams
    ensures k < |s.store.events| && s.store.events[k].id == id
    ensures s.store.events[k].position == s.store.streams[id].position
    ensures s.store.events[k].version == s.store.streams[id].version
  {
    assert ShapeOf(s.store, id);
    var log := Log(s.store.events, id);
    LogMembers(s.store.events, id);
    k :| k < |s.store.events| && s.store.events[k] == log[|log| - 1];
  }

  /** Whether the batch is placed after everything its aggregate already has. */
  predicate PlacedAfter<K>(s: State<K>, c: Client)
    requires InTransaction(s, c)
  {
    var sv := s.saves[c];
    var id := sv.events[0].id;
    id in s.store.streams ==> s.store.streams[id].position <= PreviousPosition(sv)
  }

  lemma LastIsHighest<K>(s: State<K>, i: nat)
    requires Inv(s) && Increasing(s.store.events) && i < |s.store.events|
    ensures s.store.events[i].id in s.store.streams
    ensures s.store.events[i].position <= s.store.streams[s.store.events[i].id].position
  {
    StoredBounds(s, i);
    var k := LastEvent(s, s.store.events[i].id);
    assert i <= k;
  }

  lemma PlacedAfterKeepsOrder<K>(s: State<K>, c: Client)
    requires Inv(s) && Increasing(s.store.events) && Commits(s, c) && PlacedAfter(s, c)
    ensures Increasing(Committed(s, c).store.events)
  {
    var was, now := s.store.events, Committed(s, c).store.events;
    BatchFollows(s, c);
    forall i, j | 0 <= i < j < |now| && now[i].id == now[j].id
      ensures now[i].version < now[j].version && now[i].position < now[j].position
    {
      if i < |was| <= j {
        StoredBounds(s, i);
        LastIsHighest(s, i);
      }
    }
  }

  lemma PlacedBeforeBreaksOrder<K>(s: State<K>, c: Client)
    requires Inv(s) && Commits(s, c) && !PlacedAfter(s, c)
    ensures !Increasing(Committed(s, c).store.events)
  {
    var was, now := s.store.events, Committed(s, c).store.events;
    BatchFollows(s, c);
    var k := LastEvent(s, s.saves[c].events[0].id);
    assert now[k] == was[k] && now[|was|] == Batch(s, c)[0];
  }

  /**
   A commit keeps positions increasing within the aggregate if and only if the
   position in the stream document precedes the batch.
   */
  lemma CommitKeepsOrderIff<K>(s: State<K>, c: Client)
    requires Inv(s) && Increasing(s.store.events) && Commits(s, c)
    ensures Increasing(Committed(s, c).store.events) <==> PlacedAfter(s, c)
  {
    if PlacedAfter(s, c) {
      PlacedAfterKeepsOrder(s, c);
    } else {
      PlacedBeforeBreaksOrder(s, c);
    }
  }

  lemma ReadSurvivesCommit<K>(s: State<K>, c: Client, id: Uuid, version: int, all: int)
    requires Inv(s) && Commits(s, c) && Read(s.store, id, version, all)
    ensures Read(Committed(s, c).store, id, version, all)
  {
    BatchFollows(s, c);
  }

  lemma CommitKeepsOrdered<K>(s: State<K>, c: Client)
    requires Inv(s) && Ordered(s) && Commits(s, c)
    ensures Ordered(Committed(s, c))
  {
    var sv, t := s.saves[c], Committed(s, c);
    var id := sv.events[0].id;
    if id in s.store.streams {
      BatchFollows(s, c);
      var k := LastEvent(s, id);
      StoredBounds(s, k);
      assert Holds(sv, s.outstanding);
    }
    CommitKeepsOrderIff(s, c);
    forall d <- t.marks
      ensures Read(t.store, t.marks[d].id, t.marks[d].version, t.marks[d].all)
    {
      ReadSurvivesCommit(s, c, t.marks[d].id, t.marks[d].version, t.marks[d].all);
    }
    forall d <- t.saves
      ensures SaveFollowsRead(t.store, t.saves[d])
    {
      ReadSurvivesCommit(s, c, t.saves[d].events[0].id, t.saves[d].originalVersion, t.saves[d].seen.value);
    }
  }

  lemma ReserveKeepsOrdered<K>(s: State<K>, c: Client)
    requires Ordered(s) && CanReserve(s, c)
    ensures Ordered(DoReserve(s, c))
  {
    var t := DoReserve(s, c);
    forall d <- t.saves
      ensures SaveFollowsRead(t.store, t.saves[d])
    {
      assert SaveFollowsRead(s.store, s.saves[d]);
    }
  }

  lemma LocalStepKeepsOrdered<K>(s: State<K>, a: Action<K>)
    requires Ordered(s) && FromLoad(s, a) && !a.Reserve? && !a.Load?
    requires !(a.EndAttempt? && Commits(s, a.c))
    ensures Ordered(Do(s, a))
  {
    var t := Do(s, a);
    assert t.store == s.store && t.marks == s.marks;
    forall d <- t.saves
      ensures SaveFollowsRead(t.store, t.saves[d])
    {
      assert d in s.saves ==> SaveFollowsRead(s.store, s.saves[d]);
    }
  }

  lemma LoadKeepsOrdered<K>(s: State<K>, c: Client, id: Uuid)
    requires Inv(s) && Ordered(s)
    ensures Ordered(Do(s, Load(c, id)))
  {
    forall i: nat | i < |s.store.events|
      ensures s.store.events[i].position <= s.store.all
    {
      StoredBounds(s, i);
    }
  }

  lemma StepKeepsOrdered<K>(s: State<K>, a: Action<K>)
    requires Inv(s) && Ordered(s) && FromLoad(s, a)
    ensures Ordered(Do(s, a))
  {
    if a.EndAttempt? && Commits(s, a.c) {
      CommitKeepsOrdered(s, a.c);
    } else if a.Load? {
      LoadKeepsOrdered(s, a.c, a.id);
    } else if a.Reserve? {
      if CanReserve(s, a.c) { ReserveKeepsOrdered(s, a.c); }
    } else {
      LocalStepKeepsOrdered(s, a);
    }
  }

  /**
   If every client loads the version it saves against before it saves, positions
   within one aggregate strictly increase with version, over every run.
   */
  lemma {:induction false} PositionsFollowVersions<K>(actions: seq<Action<K>>)
    requires LoadsFirst(actions)
    ensures Ordered(Exec(Init(), actions))
  {
    if actions != [] {
      var n := |actions| - 1;
      var before := actions[..n];
      forall i | 0 <= i < n
        ensures FromLoad(Exec(Init(), before[..i]), before[i])
      {
        assert before[..i] == actions[..i];
        assert FromLoad(Exec(Init(), actions[..i]), actions[i]);
      }
      PositionsFollowVersions(before);
      RunKeepsInv(before);
      assert FromLoad(Exec(Init(), actions[..n]), actions[n]);
      StepKeepsOrdered(Exec(Init(), before), actions[n]);
    }
  }

  // ----- Without loading first -----

  /** Client 0 reserves position 1 for a guessed version 2; client 1 then saves version 1 at position 2. */
  function BackwardsRun(): seq<Action<int>> {
    var first := Event(0, "list", 7, 1, map[]);
    var second := Event(0, "list", 7, 2, map[]);
    [ StartSave(0, [second], 1, true), Reserve(0),
      StartSave(1, [first], 0, true), Reserve(1), BeginAttempt(1), EndAttempt(1),
      BeginAttempt(0), EndAttempt(0) ]
  }

  /** An undisturbed attempt to save one event at a reserved position. */
  lemma SaveOne(s: State<int>, c: Client, e: Event<int>, originalVersion: int, previous: int)
    requires c in s.saves && s.saves[c] == Save([e], originalVersion, true, None, Some(previous), None)
    requires e.version == originalVersion + 1
    requires Version(s.store.streams, e.id) == originalVersion
    requires originalVersion == 0 ==> e.id !in s.store.streams
    ensures var t := Do(Do(s, BeginAttempt(c)), EndAttempt(c));
            && t.store.events == s.store.events + [Placed(NewRecord(e), previous + 1)]
            && t.store.streams.Keys == s.store.streams.Keys + {e.id}
            && t.store.streams[e.id].version == e.version
            && t.saves == s.saves - {c}
  {
    var u := Do(s, BeginAttempt(c));
    assert Batch(u, c) == [Placed(NewRecord(e), previous + 1)];
    assert Commits(u, c);
  }

  /** Starting a save of one event that was not loaded for, and reserving its position. */
  lemma ReserveOne(s: State<int>, c: Client, e: Event<int>, originalVersion: int)
    requires c !in s.saves && s.marks == map[] && e.version == originalVersion + 1
    ensures var t := Do(Do(s, StartSave(c, [e], originalVersion, true)), Reserve(c));
            && t.store == s.store.(all := s.store.all + 1) && t.marks == map[]
            && t.saves == s.saves[c := Save([e], originalVersion, true, None, Some(s.store.all), None)]
  {
    assert ValidBatch([e], originalVersion);
  }

  lemma BackwardsHalfReserved()
    ensures var s := Exec(Init(), BackwardsRun()[..2]);
            && s.store == Store(1, map[], []) && s.marks == map[]
            && s.saves == map[0 := Save([Event(0, "list", 7, 2, map[])], 1, true, None, Some(0), None)]
  {
    var run := BackwardsRun();
    ReserveOne(Init(), 0, Event(0, "list", 7, 2, map[]), 1);
    ExecNext(run, 0); ExecNext(run, 1);
  }

  lemma BackwardsReserved()
    ensures var s := Exec(Init(), BackwardsRun()[..4]);
            && s.store == Store(2, map[], [])
            && s.saves == map[
                 0 := Save([Event(0, "list", 7, 2, map[])], 1, true, None, Some(0), None),
                 1 := Save([Event(0, "list", 7, 1, map[])], 0, true, None, Some(1), None)]
  {
    var run := BackwardsRun();
    BackwardsHalfReserved();
    ReserveOne(Exec(Init(), run[..2]), 1, Event(0, "list", 7, 1, map[]), 0);
    ExecNext(run, 2); ExecNext(run, 3);
  }

  lemma FirstSaved(s: State<int>, t: State<int>)
    requires s.store == Store(2, map[], [])
    requires s.saves == map[
               0 := Save([Event(0, "list", 7, 2, map[])], 1, true, None, Some(0), None),
               1 := Save([Event(0, "list", 7, 1, map[])], 0, true, None, Some(1), None)]
    requires t == Do(Do(s, BeginAttempt(1)), EndAttempt(1))
    ensures t.store.events == [Placed(NewRecord(Event(0, "list", 7, 1, map[])), 2)]
    ensures 7 in t.store.streams && t.store.streams[7].version == 1
    ensures 0 in t.saves && t.saves[0] == Save([Event(0, "list", 7, 2, map[])], 1, true, None, Some(0), None)
  {
    SaveOne(s, 1, Event(0, "list", 7, 1, map[]), 0, 1);
  }

  /** The save of the second event appends it, at the position reserved earlier. */
  lemma SecondSaved(t: State<int>, u: State<int>, first: Record<int>, e: Event<int>)
    requires t.store.events == [first] && e.version == 2
    requires e.id in t.store.streams && t.store.streams[e.id].version == 1
    requires 0 in t.saves && t.saves[0] == Save([e], 1, true, None, Some(0), None)
    requires u == Do(Do(t, BeginAttempt(0)), EndAttempt(0))
    ensures u.store.events == [first, Placed(NewRecord(e), 1)]
  {
    SaveOne(t, 0, e, 1, 0);
  }

  lemma BothSaved(s: State<int>, t: State<int>, u: State<int>)
    requires s.store == Store(2, map[], [])
    requires s.saves == map[
               0 := Save([Event(0, "list", 7, 2, map[])], 1, true, None, Some(0), None),
               1 := Save([Event(0, "list", 7, 1, map[])], 0, true, None, Some(1), None)]
    requires t == Do(Do(s, BeginAttempt(1)), EndAttempt(1)) && u == Do(Do(t, BeginAttempt(0)), EndAttempt(0))
    ensures u.store.events == [
              Placed(NewRecord(Event(0, "list", 7, 1, map[])), 2),
              Placed(NewRecord(Event(0, "list", 7, 2, map[])), 1)]
  {
    FirstSaved(s, t);
    SecondSaved(t, u, Placed(NewRecord(Event(0, "list", 7, 1, map[])), 2), Event(0, "list", 7, 2, map[]));
  }

  lemma ExecLastFour(run: seq<Action<int>>)
    requires |run| == 8
    ensures Exec(Init(), run) == Do(Do(Do(Do(Exec(Init(), run[..4]), run[4]), run[5]), run[6]), run[7])
  {
    ExecTwoMore(run, 4);
    ExecTwoMore(run, 6);
    assert run[..8] == run;
  }

  lemma ExecTwoMore(run: seq<Action<int>>, n: nat)
    requires n + 2 <= |run|
    ensures Exec(Init(), run[..n + 2]) == Do(Do(Exec(Init(), run[..n]), run[n]), run[n + 1])
  {
    ExecNext(run, n);
    ExecNext(run, n + 1);
  }

  /** Saving against a version that was not loaded first can put positions in the wrong order. */
  lemma UnloadedSaveReorders()
    ensures var events := Exec(Init(), BackwardsRun()).store.events;
            && |events| == 2 && events[0].version == 1 && events[1].version == 2
            && events[0].position == 2 && events[1].position == 1
            && !Increasing(events)
  {
    var run := BackwardsRun();
    BackwardsReserved();
    var s := Exec(Init(), run[..4]);
    var t := Do(Do(s, BeginAttempt(1)), EndAttempt(1));
    BothSaved(s, t, Do(Do(t, BeginAttempt(0)), EndAttempt(0)));
    ExecLastFour(run);
    var events := Exec(Init(), run).store.events;
    assert events[0].id == events[1].id;
  }

  lemma ExecNext<K>(actions: seq<Action<K>>, n: nat)
    requires n < |actions|
    ensures Exec(Init(), actions[..n + 1]) == Do(Exec(Init(), actions[..n]), actions[n])
  {
    assert actions[..n + 1][..n] == actions[..n];
  }
}
