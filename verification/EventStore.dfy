/**
 The event store itself: the loops that validate a batch, assign positions in
 place and read events back, and the maintenance operations.
 */
module EventStore {
  import opened Base
  import opened EventLog

  // ----- Reading -----

  function EventOf<K>(r: Record<K>): Event<K> {
    Event(r.kind, r.at, r.id, r.version, r.metadata)
  }

  /** An event as it was stored, with everything that was stored. */
  ghost predicate Reads<K>(e: Event<K>, r: Record<K>) {
    e.kind == r.kind && e.at == r.at && e.id == r.id && e.version == r.version && e.metadata == r.metadata
  }

  ghost predicate AreEvents<K>(events: seq<Event<K>>, records: seq<Record<K>>) {
    |events| == |records| && forall i :: 0 <= i < |records| ==> Reads(events[i], records[i])
  }

  /** The query of LoadFrom: one aggregate's records from a version on, in stored order. */
  function From<K>(events: seq<Record<K>>, id: Uuid, version: int): seq<Record<K>> {
    if events == [] then []
    else
      var last := events[|events| - 1];
      var rest := From(events[..|events| - 1], id, version);
      if last.id == id && last.version >= version then rest + [last] else rest
  }

  ghost predicate Consecutive<K>(log: seq<Record<K>>) {
    forall i :: 0 <= i < |log| ==> log[i].version == i + 1
  }

  /** Where the tail from a version on begins in a log of versions 1..n. */
  function Start(version: int): (k: nat) {
    if version < 1 then 0 else version - 1
  }

  lemma {:induction false} FromIsTail<K>(events: seq<Record<K>>, id: Uuid, version: int)
    requires Consecutive(Log(events, id))
    ensures var log := Log(events, id);
            From(events, id, version) == if Start(version) <= |log| then log[Start(version)..] else []
  {
    if events != [] {
      var n := |events| - 1;
      var log, rest := Log(events, id), Log(events[..n], id);
      assert forall i :: 0 <= i < |rest| ==> rest[i] == log[i];
      FromIsTail(events[..n], id, version);
      if events[n].id == id {
        assert log == rest + [events[n]] && log[|rest|].version == |log|;
        assert Start(version) <= |rest| ==> log[Start(version)..] == rest[Start(version)..] + [events[n]];
      }
    }
  }

  // ----- Maintenance -----

  /** Two collections that agree on everything the log's shape speaks of. */
  ghost predicate SameHeaders<K>(a: seq<Record<K>>, b: seq<Record<K>>) {
    |a| == |b| && forall i :: 0 <= i < |a| ==>
      a[i].id == b[i].id && a[i].version == b[i].version && a[i].position == b[i].position
  }

  lemma {:induction false} LogSameHeaders<K>(a: seq<Record<K>>, b: seq<Record<K>>, id: Uuid)
    requires SameHeaders(a, b)
    ensures SameHeaders(Log(a, id), Log(b, id))
  {
    if a != [] {
      LogSameHeaders(a[..|a| - 1], b[..|b| - 1], id);
    }
  }

  lemma SameHeadersSamePositions<K>(a: seq<Record<K>>, b: seq<Record<K>>)
    requires SameHeaders(a, b)
    ensures Positions(a) == Positions(b)
  {
    assert forall i :: 0 <= i < |a| ==> a[i].position == b[i].position;
  }

  /** What maintenance must not break: the log's shape and the accounting of positions. */
  lemma HeadersCarryShape<K>(store: Store<K>, events: seq<Record<K>>, outstanding: set<int>)
    requires LogShape(store) && Tally(store, outstanding) && SameHeaders(store.events, events)
    ensures LogShape(store.(events := events)) && Tally(store.(events := events), outstanding)
  {
    forall id: Uuid
      ensures ShapeOf(store.(events := events), id)
    {
      assert ShapeOf(store, id);
      LogSameHeaders(store.events, events, id);
    }
    SameHeadersSamePositions(store.events, events);
  }

  datatype ReplaceError = AggregateNotFound | EventNotFound

  /** The first record of an aggregate at a version. */
  function Find<K>(events: seq<Record<K>>, id: Uuid, version: int): (found: Option<nat>)
    ensures found.Some? ==> found.value < |events| && events[found.value].id == id && events[found.value].version == version
    ensures found.None? ==> forall i :: 0 <= i < |events| && events[i].id == id ==> events[i].version != version
  {
    if events == [] then None
    else
      var before := Find(events[..|events| - 1], id, version);
      if before.Some? then before
      else if events[|events| - 1].id == id && events[|events| - 1].version == version then Some(|events| - 1)
      else None
  }

  function Replaced<K>(store: Store<K>, event: Event<K>): Result<Store<K>, ReplaceError> {
    if Log(store.events, event.id) == [] then Err(AggregateNotFound)
    else
      var found := Find(store.events, event.id, event.version);
      if found.None? then Err(EventNotFound)
      else
        var record := Placed(NewRecord(event), store.events[found.value].position);
        Ok(store.(events := store.events[found.value := record]))
  }

  /** Replace succeeds exactly for the versions 1..n of a stored aggregate. */
  lemma ReplaceOutcome<K>(store: Store<K>, event: Event<K>)
    requires LogShape(store)
    ensures var n, r := |Log(store.events, event.id)|, Replaced(store, event);
            && (r.Ok? <==> 1 <= event.version <= n)
            && (r.Err? ==> r.error == if n == 0 then AggregateNotFound else EventNotFound)
  {
    var log := Log(store.events, event.id);
    assert ShapeOf(store, event.id);
    LogMembers(store.events, event.id);
    if 1 <= event.version <= |log| {
      assert log[event.version - 1] in store.events;
    }
    assert forall e <- store.events :: e.id == event.id ==> 1 <= e.version <= |log|;
  }

  /** Replace changes that one event, keeps its position, and keeps every log invariant. */
  lemma ReplaceKeepsLog<K>(store: Store<K>, event: Event<K>, outstanding: set<int>)
    requires LogShape(store) && Tally(store, outstanding) && Recorded(store.events)
    requires Replaced(store, event).Ok?
    ensures var r := Replaced(store, event).value;
            && LogShape(r) && Tally(r, outstanding) && Recorded(r.events)
            && r.all == store.all && r.streams == store.streams && |r.events| == |store.events|
            && exists k :: 0 <= k < |r.events|
                 && store.events[k].id == event.id && store.events[k].version == event.version
                 && IsStored(event, r.events[k]) && r.events[k].position == store.events[k].position
                 && forall i :: 0 <= i < |r.events| && i != k ==> r.events[i] == store.events[i]
  {
    var r := Replaced(store, event).value;
    HeadersCarryShape(store, r.events, outstanding);
    var k := Find(store.events, event.id, event.version).value;
    assert IsStored(event, r.events[k]) && r.events[k].position == store.events[k].position;
  }

  /** An event type with its data, for the operation that changes only the type. */
  datatype Kind<T, D> = Kind(etype: T, data: D)

  function Renamed<T(==), D>(store: Store<Kind<T, D>>, from: T, to: T): (r: Store<Kind<T, D>>)
    ensures |r.events| == |store.events| && r.all == store.all && r.streams == store.streams
  {
    store.(events := seq(|store.events|, i requires 0 <= i < |store.events| =>
      var e := store.events[i];
      if e.kind.etype == from then e.(kind := e.kind.(etype := to)) else e))
  }

  /** RenameEvent leaves no event of the old type, touches nothing but types, and keeps the log invariants. */
  lemma RenameKeepsLog<T, D>(store: Store<Kind<T, D>>, from: T, to: T, outstanding: set<int>)
    requires LogShape(store) && Tally(store, outstanding) && Recorded(store.events)
    ensures var r := Renamed(store, from, to);
            && LogShape(r) && Tally(r, outstanding) && Recorded(r.events)
            && (from != to ==> forall i :: 0 <= i < |r.events| ==> r.events[i].kind.etype != from)
            && (forall i :: 0 <= i < |r.events| ==>
                && r.events[i].(kind := store.events[i].kind) == store.events[i]
                && r.events[i].kind.data == store.events[i].kind.data
                && (r.events[i].kind.etype == store.events[i].kind.etype
                    || (store.events[i].kind.etype == from && r.events[i].kind.etype == to)))
  {
    HeadersCarryShape(store, Renamed(store, from, to).events, outstanding);
  }

  // ----- Saving -----

  /** The records of a batch before any position is assigned. */
  function Records<K>(events: seq<Event<K>>): (records: seq<Record<K>>)
    ensures |records| == |events|
    ensures forall i :: 0 <= i < |events| ==> records[i] == NewRecord(events[i])
  {
    seq(|events|, i requires 0 <= i < |events| => NewRecord(events[i]))
  }

  /** The error is that of the first event with a fault. */
  ghost predicate IsFirstFault<K>(events: seq<Event<K>>, originalVersion: int, error: Option<SaveError>)
    requires events != []
  {
    exists k :: 0 <= k < |events|
      && error.Some? && CheckEvent(events[0], events[k], originalVersion + k + 1) == error
      && forall j :: 0 <= j < k ==> CheckEvent(events[0], events[j], originalVersion + j + 1) == None
  }

  /** The first loop of Save: it accepts exactly the valid batches, and reports the first fault otherwise. */
  method BuildRecords<K>(events: seq<Event<K>>, originalVersion: int)
    returns (r: Result<seq<Record<K>>, SaveError>)
    ensures r.Ok? <==> ValidBatch(events, originalVersion)
    ensures r.Ok? ==> r.value == Records(events)
    ensures r.Err? && events == [] ==> r.error == MissingEvents
    ensures r.Err? && events != [] ==> IsFirstFault(events, originalVersion, Some(r.error))
  {
    if |events| == 0 {
      return Err(MissingEvents);
    }
    var records: seq<Record<K>> := [];
    for i := 0 to |events|
      invariant |records| == i
      invariant forall j :: 0 <= j < i ==> records[j] == NewRecord(events[j])
      invariant forall j :: 0 <= j < i ==> CheckEvent(events[0], events[j], originalVersion + j + 1) == None
    {
      var event := events[i];
      if event.id != events[0].id {
        return Err(MismatchedIds);
      }
      if event.at != events[0].at {
        return Err(MismatchedTypes);
      }
      if event.version != originalVersion + i + 1 {
        return Err(IncorrectVersion);
      }
      records := records + [NewRecord(event)];
    }
    return Ok(records);
  }

  /** Assigns positions in place; a record keeps nothing of a position assigned before. */
  method AssignPositions<K>(dbEvents: array<Record<K>>, previous: int)
    modifies dbEvents
    ensures forall i :: 0 <= i < dbEvents.Length ==> dbEvents[i] == Placed(old(dbEvents[i]), previous + i + 1)
  {
    for i := 0 to dbEvents.Length
      invariant forall j :: 0 <= j < i ==> dbEvents[j] == Placed(old(dbEvents[j]), previous + j + 1)
      invariant forall j :: i <= j < dbEvents.Length ==> dbEvents[j] == old(dbEvents[j])
    {
      dbEvents[i] := Placed(dbEvents[i], previous + i + 1);
    }
  }

  /** Checks that every record was inserted under its own position. */
  method VerifyInsertedPositions<K>(dbEvents: seq<Record<K>>, insertedIds: seq<int>) returns (ok: bool)
    ensures ok <==> forall i :: 0 <= i < |dbEvents| ==> dbEvents[i].position in insertedIds
  {
    for i := 0 to |dbEvents|
      invariant forall j :: 0 <= j < i ==> dbEvents[j].position in insertedIds
    {
      var found := false;
      for k := 0 to |insertedIds|
        invariant !found
        invariant dbEvents[i].position !in insertedIds[..k]
      {
        found := dbEvents[i].position == insertedIds[k];
        if found {
          break;
        }
      }
      if !found {
        return false;
      }
    }
    return true;
  }

  /** What a save that nobody disturbs leaves behind; None is a conflict. */
  function Saved<K>(store: Store<K>, events: seq<Event<K>>, originalVersion: int): Option<Store<K>>
    requires events != []
  {
    var batch, id := Place(events, store.all), events[0].id;
    var stream := UpdateStream(StreamOf(store.streams, id), batch[|batch| - 1], originalVersion, |batch|);
    if stream.None? then None
    else Some(Store(store.all + |batch|, store.streams[id := stream.value], store.events + batch))
  }

  /** A client alone brings its save to the point where the transaction ends. */
  function Prepared<K>(s: State<K>, c: Client, events: seq<Event<K>>, originalVersion: int, outside: bool): State<K> {
    Do(Do(Do(s, StartSave(c, events, originalVersion, outside)), Reserve(c)), BeginAttempt(c))
  }

  lemma PreparedKeepsInv<K>(s: State<K>, c: Client, events: seq<Event<K>>, originalVersion: int, outside: bool)
    requires Inv(s)
    ensures Inv(Prepared(s, c, events, originalVersion, outside))
  {
    var t := Do(s, StartSave(c, events, originalVersion, outside));
    var r := Do(t, Reserve(c));
    StepKeepsInv(s, StartSave(c, events, originalVersion, outside));
    StepKeepsInv(t, Reserve(c));
    StepKeepsInv(r, BeginAttempt(c));
  }

  lemma PreparedSave<K>(s: State<K>, c: Client, events: seq<Event<K>>, originalVersion: int, outside: bool)
    requires c !in s.saves && ValidBatch(events, originalVersion)
    ensures var b := Prepared(s, c, events, originalVersion, outside);
            && c in b.saves && b.saves.Keys == s.saves.Keys + {c}
            && b.saves[c].events == events && b.saves[c].originalVersion == originalVersion
            && b.saves[c].outside == outside
            && b.saves[c].attempt == Some(Attempt(b.store.all, StreamOf(s.store.streams, events[0].id)))
            && PreviousPosition(b.saves[c]) == s.store.all
            && b.store == s.store.(all := s.store.all + if outside then |events| else 0)
  {
  }

  /** An undisturbed save, under either strategy, is exactly one pass through the protocol. */
  lemma UndisturbedSave<K>(s: State<K>, c: Client, events: seq<Event<K>>, originalVersion: int, outside: bool)
    requires Inv(s) && c !in s.saves && ValidBatch(events, originalVersion)
    ensures var u := Do(Prepared(s, c, events, originalVersion, outside), EndAttempt(c));
            var saved := Saved(s.store, events, originalVersion);
            && Inv(u) && c !in u.saves
            && (saved.Some? ==> u.store == saved.value)
            && (saved.None? ==> u.store == s.store.(all := s.store.all + if outside then |events| else 0))
            && u.store == Outcome(s.store, events, originalVersion, outside)
  {
    var b := Prepared(s, c, events, originalVersion, outside);
    PreparedKeepsInv(s, c, events, originalVersion, outside);
    PreparedSave(s, c, events, originalVersion, outside);
    EndUndisturbed(b, c, s.store);
    StepKeepsInv(b, EndAttempt(c));
  }

  /** The end of an undisturbed attempt; `before` is the store before any reservation. */
  lemma EndUndisturbed<K>(b: State<K>, c: Client, before: Store<K>)
    requires InTransaction(b, c) && Undisturbed(b, c)
    requires PreviousPosition(b.saves[c]) == before.all
    requires b.store == before.(all := before.all + if b.saves[c].outside then |b.saves[c].events| else 0)
    ensures var u, sv := Do(b, EndAttempt(c)), b.saves[c];
            var saved := Saved(before, sv.events, sv.originalVersion);
            && c !in u.saves
            && u.store == if saved.Some? then saved.value else b.store
  {
  }

  /**
   Runs the part of the transaction body that assigns positions once for every
   attempt, always on the same records; `aborted` lists the values of `$all` that
   the aborted attempts read.  Only the last attempt's positions remain.
   */
  method PlaceBatch<K>(events: seq<Event<K>>, records: seq<Record<K>>, aborted: seq<int>, previous: int)
    returns (batch: seq<Record<K>>)
    requires records == Records(events)
    ensures batch == Place(events, previous)
  {
    var dbEvents := new Record<K>[|records|](i requires 0 <= i < |records| => records[i]);
    for k := 0 to |aborted|
      invariant forall i :: 0 <= i < |events| ==> Placed(dbEvents[i], 0) == Placed(NewRecord(events[i]), 0)
    {
      label attempt:
      AssignPositions(dbEvents, aborted[k]);
      assert forall i :: 0 <= i < |events| ==> Placed(dbEvents[i], 0) == Placed(old@attempt(dbEvents[i]), 0);
    }
    label last:
    AssignPositions(dbEvents, previous);
    forall i | 0 <= i < |events|
      ensures dbEvents[i] == Placed(NewRecord(events[i]), previous + i + 1)
    {
      var r := old@last(dbEvents[i]);
      assert r.metadata["position" := previous + i + 1]
          == r.metadata["position" := 0]["position" := previous + i + 1];
    }
    return dbEvents[..];
  }

  /** What every save keeps of the stored data. */
  ghost predicate Sound<K>(store: Store<K>) {
    && LogShape(store)
    && Recorded(store.events)
    && 0 <= store.all
    && Positions(store.events) <= Range(0, store.all)
    && |Positions(store.events)| == |store.events|
  }

  lemma SavedIsSound<K>(store: Store<K>, events: seq<Event<K>>, originalVersion: int)
    requires Sound(store) && ValidBatch(events, originalVersion)
    ensures var saved := Saved(store, events, originalVersion); saved.Some? ==> Sound(saved.value)
  {
    var s: State<K> := State(store, map[], map[], Range(0, store.all) - Positions(store.events));
    assert Positions(store.events) + s.outstanding == Range(0, store.all);
    UndisturbedSave(s, 0, events, originalVersion, false);
    var u := Do(Prepared(s, 0, events, originalVersion, false), EndAttempt(0));
  }

  lemma SkippedIsSound<K>(store: Store<K>, count: nat)
    requires Sound(store)
    ensures Sound(store.(all := store.all + count))
  {
    var t := store.(all := store.all + count);
    forall id: Uuid
      ensures ShapeOf(t, id)
    {
      assert ShapeOf(store, id);
    }
  }

  /** The store after a save that nobody disturbs, whether or not it meets a conflict. */
  function Outcome<K>(store: Store<K>, events: seq<Event<K>>, originalVersion: int, outside: bool): Store<K>
    requires events != []
  {
    var saved := Saved(store, events, originalVersion);
    if saved.Some? then saved.value else store.(all := store.all + if outside then |events| else 0)
  }

  lemma OutcomeIsSound<K>(store: Store<K>, events: seq<Event<K>>, originalVersion: int, outside: bool)
    requires Sound(store) && ValidBatch(events, originalVersion)
    ensures Sound(Outcome(store, events, originalVersion, outside))
  {
    SavedIsSound(store, events, originalVersion);
    SkippedIsSound(store, if outside then |events| else 0);
  }

  /**
   Saving and loading: what LoadFrom reads after a save is the batch, event by
   event with every field, and its metadata with the stored position added.
   */
  lemma SaveLoadRoundTrip<K>(store: Store<K>, events: seq<Event<K>>, originalVersion: int, loaded: seq<Event<K>>)
    requires LogShape(store) && ValidBatch(events, originalVersion)
    requires var saved := Saved(store, events, originalVersion);
             saved.Some? && AreEvents(loaded, From(saved.value.events, events[0].id, originalVersion + 1))
    ensures |loaded| == |events| && forall i :: 0 <= i < |events| ==>
              && loaded[i].kind == events[i].kind && loaded[i].at == events[i].at
              && loaded[i].id == events[i].id && loaded[i].version == events[i].version
              && loaded[i].metadata == events[i].metadata["position" := store.all + i + 1]
  {
    SavedTail(store, events, originalVersion);
    forall i | 0 <= i < |events|
      ensures loaded[i].metadata == events[i].metadata["position" := store.all + i + 1]
    {
      assert Reads(loaded[i], Place(events, store.all)[i]);
    }
  }

  lemma ConsecutiveAppend<K>(log: seq<Record<K>>, batch: seq<Record<K>>)
    requires Consecutive(log) && forall i :: 0 <= i < |batch| ==> batch[i].version == |log| + i + 1
    ensures Consecutive(log + batch) && (log + batch)[|log|..] == batch
  {
  }

  lemma TailAfterBatch<K>(events: seq<Record<K>>, log: seq<Record<K>>, batch: seq<Record<K>>, id: Uuid)
    requires log == Log(events, id) && Consecutive(log)
    requires forall i :: 0 <= i < |batch| ==> batch[i].id == id && batch[i].version == |log| + i + 1
    ensures From(events + batch, id, |log| + 1) == batch
  {
    LogAppendBatch(events, batch, id, id);
    ConsecutiveAppend(log, batch);
    FromIsTail(events + batch, id, |log| + 1);
  }

  /** A save succeeds only against the version that the log has. */
  lemma SavedVersion<K>(store: Store<K>, events: seq<Event<K>>, originalVersion: int)
    requires LogShape(store) && events != [] && Saved(store, events, originalVersion).Some?
    ensures originalVersion == |Log(store.events, events[0].id)| && Consecutive(Log(store.events, events[0].id))
    ensures Saved(store, events, originalVersion).value.events == store.events + Place(events, store.all)
  {
    assert ShapeOf(store, events[0].id);
  }

  /** What follows the original version after a save is the batch. */
  lemma SavedTail<K>(store: Store<K>, events: seq<Event<K>>, originalVersion: int)
    requires LogShape(store) && ValidBatch(events, originalVersion) && Saved(store, events, originalVersion).Some?
    ensures From(Saved(store, events, originalVersion).value.events, events[0].id, originalVersion + 1) == Place(events, store.all)
  {
    SavedVersion(store, events, originalVersion);
    ValidBatchIff(events, originalVersion);
    TailAfterBatch(store.events, Log(store.events, events[0].id), Place(events, store.all), events[0].id);
  }

  /** Replacing and loading: the event at that version is the new one, with the old position. */
  lemma ReplaceLoadRoundTrip<K>(store: Store<K>, event: Event<K>, loaded: seq<Event<K>>)
    requires LogShape(store) && Replaced(store, event).Ok?
    requires AreEvents(loaded, From(Replaced(store, event).value.events, event.id, event.version))
    ensures loaded != [] && loaded[0].kind == event.kind && loaded[0].at == event.at
    ensures loaded[0].id == event.id && loaded[0].version == event.version
    ensures exists k :: 0 <= k < |store.events| && store.events[k].id == event.id && store.events[k].version == event.version
              && loaded[0].metadata == event.metadata["position" := store.events[k].position]
  {
    var r := Replaced(store, event).value;
    var k := Find(store.events, event.id, event.version).value;
    var log, was := Log(r.events, event.id), Log(store.events, event.id);
    assert ShapeOf(store, event.id);
    ReplaceOutcome(store, event);
    LogSameHeaders(store.events, r.events, event.id);
    FromIsTail(r.events, event.id, event.version);
    LogMembers(r.events, event.id);
    assert r.events[k] in log;
    var j :| 0 <= j < |log| && log[j] == r.events[k];
    assert j == event.version - 1;
    assert Reads(loaded[0], log[event.version - 1..][0]);
  }

  class EventStore<K> {
    var store: Store<K>
    const outside: bool

    constructor (outside: bool)
      ensures Sound(store) && store == Store(0, map[], []) && this.outside == outside
    {
      store := Store(0, map[], []);
      this.outside := outside;
      new;
      assert Positions(store.events) == {};
    }

    /**
     The transaction, when every attempt but the last was aborted after its body
     ran.  Under either strategy the batch is placed after the current `$all`.
     */
    method SaveBatch(events: seq<Event<K>>, records: seq<Record<K>>, originalVersion: int, aborted: seq<int>)
      returns (ok: bool)
      requires ValidBatch(events, originalVersion) && records == Records(events)
      modifies this
      ensures ok <==> Saved(old(store), events, originalVersion).Some?
      ensures store == Outcome(old(store), events, originalVersion, outside)
    {
      var previous := store.all;
      var batch := PlaceBatch(events, records, if outside then [] else aborted, previous);
      var last := batch[|batch| - 1];
      assert CheckEvent(events[0], events[|events| - 1], originalVersion + |events|) == None;
      var stream := UpdateStream(StreamOf(store.streams, last.id), last, originalVersion, |batch|);
      if stream.None? {
        store := store.(all := if outside then previous + |batch| else previous);
        return false;
      }
      store := Store(previous + |batch|, store.streams[last.id := stream.value], store.events + batch);
      return true;
    }

    /** Save commits exactly the valid batches that apply to the current version, and keeps the log sound. */
    method Save(events: seq<Event<K>>, originalVersion: int, aborted: seq<int>) returns (error: Option<SaveError>)
      requires Sound(store)
      modifies this
      ensures Sound(store)
      ensures error.None? <==>
                ValidBatch(events, originalVersion) && Saved(old(store), events, originalVersion).Some?
      ensures ValidBatch(events, originalVersion) && error.Some? ==> error == Some(Conflict)
      ensures events == [] ==> error == Some(MissingEvents)
      ensures events != [] && !ValidBatch(events, originalVersion) ==> IsFirstFault(events, originalVersion, error)
      ensures store == if ValidBatch(events, originalVersion)
                       then Outcome(old(store), events, originalVersion, outside) else old(store)
    {
      var built := BuildRecords(events, originalVersion);
      if built.Err? {
        return Some(built.error);
      }
      OutcomeIsSound(store, events, originalVersion, outside);
      var ok := SaveBatch(events, built.value, originalVersion, aborted);
      return if ok then None else Some(Conflict);
    }

    /** LoadFrom returns exactly the tail of the log, and not-found exactly when that tail is empty. */
    method LoadFrom(id: Uuid, version: int) returns (r: Result<seq<Event<K>>, ReplaceError>)
      requires LogShape(store)
      ensures var log := Log(store.events, id);
              && (r.Ok? <==> Start(version) < |log|)
              && (r.Err? ==> r.error == AggregateNotFound)
              && (r.Ok? ==> |r.value| == |log| - Start(version))
              && (r.Ok? ==> forall i :: 0 <= i < |r.value| ==> Reads(r.value[i], log[Start(version) + i]))
      ensures AreEvents(if r.Ok? then r.value else [], From(store.events, id, version))
    {
      var cursor := From(store.events, id, version);
      FromIsTail(store.events, id, version) by {
        assert ShapeOf(store, id);
      }
      var events: seq<Event<K>> := [];
      for i := 0 to |cursor|
        invariant |events| == i
        invariant forall j :: 0 <= j < i ==> events[j] == EventOf(cursor[j])
      {
        events := events + [EventOf(cursor[i])];
      }
      if |events| == 0 {
        return Err(AggregateNotFound);
      }
      return Ok(events);
    }
  }
}
