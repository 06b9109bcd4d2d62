/**
 The save protocol of the MongoDB event store, with any number of clients.

 Every database operation is one action: reading a version, reserving global
 positions with an increment of `$all`, opening a transaction attempt on a
 snapshot, ending it.  A run is any sequence of actions, so every interleaving,
 abort, rerun and lost client is covered.
 */
module EventLog {
  import opened Base

  type Client = nat

  /** A stream document: the version and last position of one aggregate. */
  datatype Stream = Stream(position: int, at: string, version: int)

  /** The database: the `$all` counter, the stream documents and the events. */
  datatype Store<+K> = Store(all: int, streams: map<Uuid, Stream>, events: seq<Record<K>>)

  datatype SaveError = MissingEvents | MismatchedIds | MismatchedTypes | IncorrectVersion | Conflict

  /** What a transaction attempt has read of the documents it writes. */
  datatype Attempt = Attempt(all: int, stream: Option<Stream>)

  /**
   A Save in progress.  `seen` is history: the value of `$all` when the client
   read the version it now saves against, if it did.
   */
  datatype Save<+K> = Save(
    events: seq<Event<K>>, originalVersion: int, outside: bool,
    seen: Option<int>, reserved: Option<int>, attempt: Option<Attempt>)

  /** What a client read last: the version of an aggregate, and `$all` at that moment. */
  datatype Mark = Mark(id: Uuid, version: int, all: int)

  /** `outstanding` is history: positions reserved and not (yet, or ever) committed. */
  datatype State<+K> = State(
    store: Store<K>, saves: map<Client, Save<K>>, marks: map<Client, Mark>, outstanding: set<int>)

  datatype Action<+K> =
    | Load(c: Client, id: Uuid)
    | StartSave(c: Client, events: seq<Event<K>>, originalVersion: int, outside: bool)
    | Reserve(c: Client)
    | BeginAttempt(c: Client)
    | AbortAttempt(c: Client)
    | EndAttempt(c: Client)
    | Fail(c: Client)

  // ----- The records of a batch -----

  /** The check of one event of a batch, in the order in which Save makes its tests. */
  function CheckEvent<K>(first: Event<K>, e: Event<K>, expected: int): Option<SaveError> {
    if e.id != first.id then Some(MismatchedIds)
    else if e.at != first.at then Some(MismatchedTypes)
    else if e.version != expected then Some(IncorrectVersion)
    else None
  }

  /** A batch that Save accepts. */
  predicate ValidBatch<K>(events: seq<Event<K>>, originalVersion: int) {
    && events != []
    && forall i :: 0 <= i < |events| ==> CheckEvent(events[0], events[i], originalVersion + i + 1) == None
  }

  /** The database record of an event, before a position is assigned. */
  function NewRecord<K>(e: Event<K>): Record<K> {
    Record(0, e.kind, e.at, e.id, e.version, e.metadata)
  }

  /** A record at a position, which its metadata repeats. */
  function Placed<K>(r: Record<K>, position: int): Record<K> {
    r.(position := position, metadata := r.metadata["position" := position])
  }

  /** The records of a batch at the positions that follow `previous`. */
  function Place<K>(events: seq<Event<K>>, previous: int): (records: seq<Record<K>>)
    ensures |records| == |events|
    ensures forall i :: 0 <= i < |events| ==> records[i] == Placed(NewRecord(events[i]), previous + i + 1)
  {
    seq(|events|, i requires 0 <= i < |events| => Placed(NewRecord(events[i]), previous + i + 1))
  }

  /** A record keeps every field of an event, and its metadata with the position added. */
  ghost predicate IsStored<K>(e: Event<K>, r: Record<K>) {
    && r.kind == e.kind && r.at == e.at && r.id == e.id && r.version == e.version
    && r.metadata.Keys == e.metadata.Keys + {"position"} && r.metadata["position"] == r.position
    && forall key <- e.metadata :: key != "position" ==> r.metadata[key] == e.metadata[key]
  }

  /** Placing a batch loses nothing of it. */
  lemma PlaceStores<K>(events: seq<Event<K>>, previous: int)
    ensures var records := Place(events, previous);
            |records| == |events| && forall i :: 0 <= i < |events| ==>
              IsStored(events[i], records[i]) && records[i].position == previous + i + 1
  {
  }

  /** In field terms: one aggregate, one type, versions that continue the original one. */
  lemma ValidBatchIff<K>(events: seq<Event<K>>, originalVersion: int)
    ensures ValidBatch(events, originalVersion) <==>
              events != [] && forall i :: 0 <= i < |events| ==>
                events[i].id == events[0].id && events[i].at == events[0].at && events[i].version == originalVersion + i + 1
  {
    if events != [] && forall i :: 0 <= i < |events| ==>
         events[i].id == events[0].id && events[i].at == events[0].at && events[i].version == originalVersion + i + 1 {
      assert forall i :: 0 <= i < |events| ==> CheckEvent(events[0], events[i], originalVersion + i + 1) == None;
    }
    if ValidBatch(events, originalVersion) {
      forall i | 0 <= i < |events|
        ensures events[i].id == events[0].id && events[i].at == events[0].at && events[i].version == originalVersion + i + 1
      {
        assert CheckEvent(events[0], events[i], originalVersion + i + 1) == None;
      }
    }
  }

  /** The error tells the fault: the aggregate first, then its type, then the version. */
  lemma CheckEventTells<K>(first: Event<K>, e: Event<K>, expected: int)
    ensures var fault := CheckEvent(first, e, expected);
            && (fault == Some(MismatchedIds) <==> e.id != first.id)
            && (fault == Some(MismatchedTypes) <==> e.id == first.id && e.at != first.at)
            && (fault == Some(IncorrectVersion) <==> e.id == first.id && e.at == first.at && e.version != expected)
            && fault != Some(MissingEvents) && fault != Some(Conflict)
  {
  }

  function Positions<K>(events: seq<Record<K>>): set<int> {
    set i | 0 <= i < |events| :: events[i].position
  }

  /** The positions previous + 1 .. previous + count. */
  function Range(previous: int, count: nat): (range: set<int>)
    ensures forall p :: p in range <==> previous < p <= previous + count
    ensures |range| == count
  {
    if count == 0 then {} else Range(previous, count - 1) + {previous + count}
  }

  // ----- The stream document -----

  function StreamOf(streams: map<Uuid, Stream>, id: Uuid): Option<Stream> {
    if id in streams then Some(streams[id]) else None
  }

  /**
   The compare-and-set on the stream document: an insert when saving against
   version 0, otherwise an update of the document at exactly that version.
   None is a conflict with another save.
   */
  function UpdateStream<K>(stream: Option<Stream>, last: Record<K>, originalVersion: int, count: nat): Option<Stream> {
    if originalVersion == 0 then
      if stream.None? then Some(Stream(last.position, last.at, last.version)) else None
    else if stream.Some? && stream.value.version == originalVersion then
      Some(stream.value.(position := last.position, version := stream.value.version + count))
    else None
  }

  // ----- The protocol -----

  function Init<K>(): State<K> {
    State(Store(0, map[], []), map[], map[], {})
  }

  predicate InTransaction<K>(s: State<K>, c: Client) {
    c in s.saves && s.saves[c].attempt.Some? && s.saves[c].events != []
  }

  /** The position that precedes the batch: reserved beforehand, or read in the attempt. */
  function PreviousPosition<K>(sv: Save<K>): int
    requires sv.attempt.Some?
  {
    if sv.outside && sv.reserved.Some? then sv.reserved.value else sv.attempt.value.all
  }

  function Batch<K>(s: State<K>, c: Client): seq<Record<K>>
    requires InTransaction(s, c)
  {
    Place(s.saves[c].events, PreviousPosition(s.saves[c]))
  }

  /** What the transaction body computes for the stream document, on the attempt's snapshot. */
  function NewStream<K>(s: State<K>, c: Client): Option<Stream>
    requires InTransaction(s, c)
  {
    var sv, batch := s.saves[c], Batch(s, c);
    UpdateStream(sv.attempt.value.stream, batch[|batch| - 1], sv.originalVersion, |batch|)
  }

  /** Whether every document the attempt wrote is still as it read it. */
  predicate Undisturbed<K>(s: State<K>, c: Client)
    requires InTransaction(s, c)
  {
    var sv := s.saves[c];
    && StreamOf(s.store.streams, sv.events[0].id) == sv.attempt.value.stream
    && (sv.outside || s.store.all == sv.attempt.value.all)
  }

  predicate Commits<K>(s: State<K>, c: Client) {
    InTransaction(s, c) && NewStream(s, c).Some? && Undisturbed(s, c)
  }

  function Committed<K>(s: State<K>, c: Client): State<K>
    requires Commits(s, c)
  {
    var sv, batch := s.saves[c], Batch(s, c);
    var store := Store(
      if sv.outside then s.store.all else s.store.all + |batch|,
      s.store.streams[sv.events[0].id := NewStream(s, c).value],
      s.store.events + batch);
    s.(store := store, saves := s.saves - {c},
       outstanding := if sv.outside then s.outstanding - Range(PreviousPosition(sv), |batch|) else s.outstanding)
  }

  function Version(streams: map<Uuid, Stream>, id: Uuid): int {
    if id in streams then streams[id].version else 0
  }

  function DoStartSave<K>(s: State<K>, c: Client, events: seq<Event<K>>, originalVersion: int, outside: bool): State<K> {
    if c in s.saves || !ValidBatch(events, originalVersion) then s
    else
      var loaded := c in s.marks && s.marks[c].id == events[0].id && s.marks[c].version == originalVersion;
      var seen := if loaded then Some(s.marks[c].all) else None;
      s.(saves := s.saves[c := Save(events, originalVersion, outside, seen, None, None)])
  }

  predicate CanReserve<K>(s: State<K>, c: Client) {
    c in s.saves && s.saves[c].outside && s.saves[c].reserved.None?
  }

  function DoReserve<K>(s: State<K>, c: Client): State<K>
    requires CanReserve(s, c)
  {
    var n := |s.saves[c].events|;
    s.(store := s.store.(all := s.store.all + n),
       saves := s.saves[c := s.saves[c].(reserved := Some(s.store.all))],
       outstanding := s.outstanding + Range(s.store.all, n))
  }

  function DoBeginAttempt<K>(s: State<K>, c: Client): State<K> {
    if c !in s.saves || s.saves[c].events == [] || (s.saves[c].outside && s.saves[c].reserved.None?) then s
    else
      var attempt := Attempt(s.store.all, StreamOf(s.store.streams, s.saves[c].events[0].id));
      s.(saves := s.saves[c := s.saves[c].(attempt := Some(attempt))])
  }

  function DoAbortAttempt<K>(s: State<K>, c: Client): State<K> {
    if c !in s.saves then s else s.(saves := s.saves[c := s.saves[c].(attempt := None)])
  }

  /** The attempt ends: it commits, or meets a conflict, or was disturbed and is to be rerun. */
  function DoEndAttempt<K>(s: State<K>, c: Client): State<K> {
    if !InTransaction(s, c) then s
    else if Commits(s, c) then Committed(s, c)
    else if NewStream(s, c).None? then s.(saves := s.saves - {c})
    else DoAbortAttempt(s, c)
  }

  /** One action; an action that is not enabled changes nothing. */
  function Do<K>(s: State<K>, a: Action<K>): State<K> {
    match a
    case Load(c, id) => s.(marks := s.marks[c := Mark(id, Version(s.store.streams, id), s.store.all)])
    case StartSave(c, events, originalVersion, outside) => DoStartSave(s, c, events, originalVersion, outside)
    case Reserve(c) => if CanReserve(s, c) then DoReserve(s, c) else s
    case BeginAttempt(c) => DoBeginAttempt(s, c)
    case AbortAttempt(c) => DoAbortAttempt(s, c)
    case EndAttempt(c) => DoEndAttempt(s, c)
    case Fail(c) => s.(saves := s.saves - {c})
  }

  function Exec<K>(s: State<K>, actions: seq<Action<K>>): State<K> {
    if actions == [] then s
    else Do(Exec(s, actions[..|actions| - 1]), actions[|actions| - 1])
  }

  // ----- Invariant: the log of every aggregate -----

  ghost predicate ShapeOf<K>(store: Store<K>, id: Uuid) {
    var log := Log(store.events, id);
    && (forall i :: 0 <= i < |log| ==> log[i].version == i + 1)
    && (log == [] ==> id !in store.streams)
    && (log != [] ==>
        && id in store.streams
        && store.streams[id].version == |log|
        && store.streams[id].position == log[|log| - 1].position)
  }

  /** Versions are exactly 1..n, and the stream document says n and the position of event n. */
  ghost predicate LogShape<K>(store: Store<K>) {
    forall id: Uuid :: ShapeOf(store, id)
  }

  // ----- Invariant: global positions -----

  /**
   Committed positions are distinct; together with the outstanding ones they are
   exactly 1..`$all`, and no position is both.
   */
  ghost predicate Partition(committed: set<int>, outstanding: set<int>, all: int) {
    0 <= all && committed !! outstanding && committed + outstanding == Range(0, all)
  }

  ghost predicate Tally<K>(store: Store<K>, outstanding: set<int>) {
    && |Positions(store.events)| == |store.events|
    && Partition(Positions(store.events), outstanding, store.all)
  }

  /** Every stored record repeats its position in its metadata. */
  ghost predicate Recorded<K>(events: seq<Record<K>>) {
    forall i :: 0 <= i < |events| ==>
      "position" in events[i].metadata && events[i].metadata["position"] == events[i].position
  }

  ghost predicate Holds<K>(sv: Save<K>, positions: set<int>) {
    sv.reserved.Some? ==> sv.outside && Range(sv.reserved.value, |sv.events|) <= positions
  }

  ghost predicate Apart<K>(a: Save<K>, b: Save<K>) {
    a.reserved.Some? && b.reserved.Some? ==>
      Range(a.reserved.value, |a.events|) !! Range(b.reserved.value, |b.events|)
  }

  /** The ranges held by saves in progress are outstanding and disjoint. */
  ghost predicate Reservations<K>(saves: map<Client, Save<K>>, outstanding: set<int>) {
    && (forall c <- saves :: Holds(saves[c], outstanding))
    && (forall c, d | c in saves && d in saves && c != d :: Apart(saves[c], saves[d]))
  }

  ghost predicate SavesAreValid<K>(saves: map<Client, Save<K>>) {
    forall c <- saves ::
      && ValidBatch(saves[c].events, saves[c].originalVersion)
      && (saves[c].outside && saves[c].attempt.Some? ==> saves[c].reserved.Some?)
  }

  ghost predicate Inv<K>(s: State<K>) {
    && LogShape(s.store)
    && Tally(s.store, s.outstanding)
    && Recorded(s.store.events)
    && Reservations(s.saves, s.outstanding)
    && SavesAreValid(s.saves)
  }

  // ----- The invariant is kept -----

  lemma PlacePositions<K>(events: seq<Event<K>>, previous: int)
    ensures Positions(Place(events, previous)) == Range(previous, |events|)
  {
    var records := Place(events, previous);
    forall p | p in Range(previous, |events|)
      ensures p in Positions(records)
    {
      assert records[p - previous - 1].position == p;
    }
  }

  lemma PositionsAppend<K>(a: seq<Record<K>>, b: seq<Record<K>>)
    ensures Positions(a + b) == Positions(a) + Positions(b)
  {
    forall p | p in Positions(a) + Positions(b)
      ensures p in Positions(a + b)
    {
      if p in Positions(a) {
        var i :| 0 <= i < |a| && a[i].position == p;
        assert (a + b)[i].position == p;
      } else {
        var i :| 0 <= i < |b| && b[i].position == p;
        assert (a + b)[|a| + i].position == p;
      }
    }
  }

  lemma BatchHeaders<K>(s: State<K>, c: Client)
    requires Commits(s, c) && ValidBatch(s.saves[c].events, s.saves[c].originalVersion)
    ensures var sv, batch := s.saves[c], Batch(s, c);
            forall i :: 0 <= i < |batch| ==>
              batch[i].id == sv.events[0].id && batch[i].version == sv.originalVersion + i + 1
  {
    var sv, batch := s.saves[c], Batch(s, c);
    forall i | 0 <= i < |batch|
      ensures batch[i].id == sv.events[0].id && batch[i].version == sv.originalVersion + i + 1
    {
      assert CheckEvent(sv.events[0], sv.events[i], sv.originalVersion + i + 1) == None;
    }
  }

  lemma CommitKeepsOtherShape<K>(s: State<K>, c: Client, id: Uuid)
    requires ShapeOf(s.store, id) && Commits(s, c) && id != s.saves[c].events[0].id
    requires ValidBatch(s.saves[c].events, s.saves[c].originalVersion)
    ensures ShapeOf(Committed(s, c).store, id)
  {
    BatchHeaders(s, c);
    LogAppendBatch(s.store.events, Batch(s, c), s.saves[c].events[0].id, id);
    assert StreamOf(Committed(s, c).store.streams, id) == StreamOf(s.store.streams, id);
  }

  /** A log that grows by a batch, with a stream document that says so. */
  lemma LongerShape<K>(store: Store<K>, id: Uuid, log: seq<Record<K>>, batch: seq<Record<K>>)
    requires Log(store.events, id) == log + batch && batch != []
    requires forall i :: 0 <= i < |log| ==> log[i].version == i + 1
    requires forall i :: 0 <= i < |batch| ==> batch[i].version == |log| + i + 1
    requires id in store.streams && store.streams[id].version == |log| + |batch|
    requires store.streams[id].position == batch[|batch| - 1].position
    ensures ShapeOf(store, id)
  {
  }

  lemma CommitKeepsShapeOf<K>(s: State<K>, c: Client, id: Uuid)
    requires ShapeOf(s.store, id) && Commits(s, c)
    requires ValidBatch(s.saves[c].events, s.saves[c].originalVersion)
    ensures ShapeOf(Committed(s, c).store, id)
  {
    if id == s.saves[c].events[0].id {
      BatchHeaders(s, c);
      LogAppendBatch(s.store.events, Batch(s, c), id, id);
      assert |Log(s.store.events, id)| == s.saves[c].originalVersion;
      LongerShape(Committed(s, c).store, id, Log(s.store.events, id), Batch(s, c));
    } else {
      CommitKeepsOtherShape(s, c, id);
    }
  }

  /** Whether the events collection has room for the batch: positions are its primary key. */
  ghost predicate KeysAreFree<K>(s: State<K>, c: Client)
    requires InTransaction(s, c)
  {
    Positions(Batch(s, c)) !! Positions(s.store.events)
  }

  /** No insert can hit a duplicate key, so the insert itself never fails a transaction. */
  lemma KeysAlwaysFree<K>(s: State<K>, c: Client)
    requires Tally(s.store, s.outstanding) && InTransaction(s, c) && Undisturbed(s, c)
    requires Holds(s.saves[c], s.outstanding)
    requires s.saves[c].outside ==> s.saves[c].reserved.Some?
    ensures KeysAreFree(s, c)
    ensures Positions(Batch(s, c)) == Range(PreviousPosition(s.saves[c]), |s.saves[c].events|)
  {
    PlacePositions(s.saves[c].events, PreviousPosition(s.saves[c]));
  }

  lemma CommittedPositions<K>(s: State<K>, c: Client)
    requires Tally(s.store, s.outstanding) && Commits(s, c) && Holds(s.saves[c], s.outstanding)
    requires s.saves[c].outside ==> s.saves[c].reserved.Some?
    ensures var range := Range(PreviousPosition(s.saves[c]), |s.saves[c].events|);
            && Positions(Committed(s, c).store.events) == Positions(s.store.events) + range
            && Positions(s.store.events) !! range
  {
    KeysAlwaysFree(s, c);
    PositionsAppend(s.store.events, Batch(s, c));
  }

  lemma CommitKeepsTally<K>(s: State<K>, c: Client)
    requires Tally(s.store, s.outstanding) && Commits(s, c) && Holds(s.saves[c], s.outstanding)
    requires s.saves[c].outside ==> s.saves[c].reserved.Some?
    ensures Tally(Committed(s, c).store, Committed(s, c).outstanding)
  {
    var sv, before := s.saves[c], Positions(s.store.events);
    CommittedPositions(s, c);
    var range := Range(PreviousPosition(sv), |sv.events|);
    assert |before + range| == |before| + |range|;
    if sv.outside {
      CommitReserved(before, s.outstanding, s.store.all, range);
    } else {
      CommitFresh(before, s.outstanding, s.store.all, |sv.events|);
    }
  }

  lemma CommitReserved(committed: set<int>, outstanding: set<int>, all: int, range: set<int>)
    requires Partition(committed, outstanding, all) && range <= outstanding
    ensures Partition(committed + range, outstanding - range, all)
  {
  }

  lemma CommitFresh(committed: set<int>, outstanding: set<int>, all: int, count: nat)
    requires Partition(committed, outstanding, all)
    ensures Partition(committed + Range(all, count), outstanding, all + count)
  {
    assert Range(0, all + count) == Range(0, all) + Range(all, count);
  }

  lemma CommitKeepsRecorded<K>(s: State<K>, c: Client)
    requires Recorded(s.store.events) && Commits(s, c)
    ensures Recorded(Committed(s, c).store.events)
  {
  }

  lemma CommitKeepsReservations<K>(s: State<K>, c: Client)
    requires Reservations(s.saves, s.outstanding) && Commits(s, c)
    requires s.saves[c].outside ==> s.saves[c].reserved.Some?
    ensures Reservations(Committed(s, c).saves, Committed(s, c).outstanding)
  {
    var t := Committed(s, c);
    forall d <- t.saves
      ensures Holds(t.saves[d], t.outstanding)
    {
      assert Holds(s.saves[d], s.outstanding) && Apart(s.saves[c], s.saves[d]);
    }
  }

  lemma CommitKeepsInv<K>(s: State<K>, c: Client)
    requires Inv(s) && Commits(s, c)
    ensures Inv(Committed(s, c))
  {
    forall id: Uuid
      ensures ShapeOf(Committed(s, c).store, id)
    {
      CommitKeepsShapeOf(s, c, id);
    }
    CommitKeepsTally(s, c);
    CommitKeepsRecorded(s, c);
    CommitKeepsReservations(s, c);
  }

  lemma ReserveKeepsReservations<K>(s: State<K>, c: Client)
    requires Reservations(s.saves, s.outstanding) && Tally(s.store, s.outstanding) && CanReserve(s, c)
    ensures Reservations(DoReserve(s, c).saves, DoReserve(s, c).outstanding)
  {
    var t := DoReserve(s, c);
    forall d <- t.saves
      ensures Holds(t.saves[d], t.outstanding)
      ensures d != c ==> Apart(t.saves[c], t.saves[d]) && Apart(t.saves[d], t.saves[c])
    {
      assert Holds(s.saves[d], s.outstanding);
    }
  }

  lemma ReserveFresh(committed: set<int>, outstanding: set<int>, all: int, count: nat)
    requires Partition(committed, outstanding, all)
    ensures Partition(committed, outstanding + Range(all, count), all + count)
  {
    assert Range(0, all + count) == Range(0, all) + Range(all, count);
  }

  lemma ReserveKeepsTally<K>(s: State<K>, c: Client)
    requires Tally(s.store, s.outstanding) && CanReserve(s, c)
    ensures Tally(DoReserve(s, c).store, DoReserve(s, c).outstanding)
  {
    ReserveFresh(Positions(s.store.events), s.outstanding, s.store.all, |s.saves[c].events|);
  }

  lemma ReserveKeepsInv<K>(s: State<K>, c: Client)
    requires Inv(s) && CanReserve(s, c)
    ensures Inv(DoReserve(s, c))
  {
    ReserveKeepsReservations(s, c);
    ReserveKeepsTally(s, c);
    forall id: Uuid
      ensures ShapeOf(DoReserve(s, c).store, id)
    {
      assert ShapeOf(s.store, id);
    }
  }

  /** A save may change in anything but its batch and its reservation. */
  lemma UpdateKeepsSaves<K>(saves: map<Client, Save<K>>, outstanding: set<int>, c: Client, sv: Save<K>)
    requires Reservations(saves, outstanding) && SavesAreValid(saves)
    requires ValidBatch(sv.events, sv.originalVersion)
    requires sv.outside && sv.attempt.Some? ==> sv.reserved.Some?
    requires sv.reserved.None? || (c in saves && saves[c].events == sv.events
               && saves[c].reserved == sv.reserved && saves[c].outside == sv.outside)
    ensures Reservations(saves[c := sv], outstanding) && SavesAreValid(saves[c := sv])
  {
    var t := saves[c := sv];
    forall d <- t
      ensures Holds(t[d], outstanding)
      ensures d != c ==> Apart(t[c], t[d]) && Apart(t[d], t[c])
    {
      assert d in saves ==> Holds(saves[d], outstanding);
      assert c in saves && d in saves && c != d ==> Apart(saves[c], saves[d]) && Apart(saves[d], saves[c]);
    }
  }

  lemma RemoveKeepsSaves<K>(saves: map<Client, Save<K>>, outstanding: set<int>, c: Client)
    requires Reservations(saves, outstanding) && SavesAreValid(saves)
    ensures Reservations(saves - {c}, outstanding) && SavesAreValid(saves - {c})
  {
  }

  /** The actions that touch only the saves in progress keep the two conditions on them. */
  lemma LocalStepKeepsSaves<K>(s: State<K>, a: Action<K>)
    requires Reservations(s.saves, s.outstanding) && SavesAreValid(s.saves)
    requires !a.Reserve? && !(a.EndAttempt? && Commits(s, a.c))
    ensures Reservations(Do(s, a).saves, s.outstanding) && SavesAreValid(Do(s, a).saves)
    ensures Do(s, a).store == s.store && Do(s, a).outstanding == s.outstanding
  {
    RemoveKeepsSaves(s.saves, s.outstanding, a.c);
    var t := Do(s, a);
    if a.c in t.saves && t.saves != s.saves {
      assert t.saves == s.saves[a.c := t.saves[a.c]];
      UpdateKeepsSaves(s.saves, s.outstanding, a.c, t.saves[a.c]);
    }
  }

  lemma StepKeepsInv<K>(s: State<K>, a: Action<K>)
    requires Inv(s)
    ensures Inv(Do(s, a))
  {
    if a.Reserve? {
      if CanReserve(s, a.c) { ReserveKeepsInv(s, a.c); }
    } else if a.EndAttempt? && Commits(s, a.c) {
      CommitKeepsInv(s, a.c);
    } else {
      LocalStepKeepsSaves(s, a);
    }
  }

  /** In every reachable state, under both position strategies and any mix of them. */
  lemma {:induction false} RunKeepsInv<K>(actions: seq<Action<K>>)
    ensures Inv(Exec(Init<K>(), actions))
  {
    if actions == [] {
      assert Positions<K>([]) == {};
    } else {
      RunKeepsInv(actions[..|actions| - 1]);
      StepKeepsInv(Exec(Init<K>(), actions[..|actions| - 1]), actions[|actions| - 1]);
    }
  }

  // ----- Further facts about runs -----

  /** The stream document carries the type of the aggregate's first event. */
  ghost predicate TypedStream<K>(store: Store<K>, id: Uuid) {
    var log := Log(store.events, id);
    id in store.streams ==> log != [] && store.streams[id].at == log[0].at
  }

  lemma CommitKeepsTypedStream<K>(s: State<K>, c: Client, id: Uuid)
    requires ShapeOf(s.store, id) && TypedStream(s.store, id) && Commits(s, c)
    requires ValidBatch(s.saves[c].events, s.saves[c].originalVersion)
    ensures TypedStream(Committed(s, c).store, id)
  {
    var sv, batch := s.saves[c], Batch(s, c);
    BatchHeaders(s, c);
    ValidBatchIff(sv.events, sv.originalVersion);
    LogAppendBatch(s.store.events, batch, sv.events[0].id, id);
    assert batch[0].at == sv.events[0].at && batch[|batch| - 1].at == sv.events[0].at;
  }

  lemma {:induction false} StreamsAreTyped<K>(actions: seq<Action<K>>, id: Uuid)
    ensures TypedStream(Exec(Init<K>(), actions).store, id)
  {
    if actions != [] {
      var s, a := Exec(Init<K>(), actions[..|actions| - 1]), actions[|actions| - 1];
      StreamsAreTyped(actions[..|actions| - 1], id);
      RunKeepsInv(actions[..|actions| - 1]);
      if a.EndAttempt? && Commits(s, a.c) {
        assert ShapeOf(s.store, id);
        CommitKeepsTypedStream(s, a.c, id);
      } else if a.Reserve? && CanReserve(s, a.c) {
        assert Do(s, a).store.events == s.store.events && Do(s, a).store.streams == s.store.streams;
      } else {
        StoreStays(s, a);
      }
    }
  }

  lemma StoreStays<K>(s: State<K>, a: Action<K>)
    requires !(a.EndAttempt? && Commits(s, a.c)) && !(a.Reserve? && CanReserve(s, a.c))
    ensures Do(s, a).store == s.store
  {
  }

  /** An aborted attempt leaves the save where it was before, so that the body can be run again; a failed save is over. */
  lemma AbortAndFail<K>(s: State<K>, c: Client)
    requires c in s.saves
    ensures var t := Do(s, AbortAttempt(c));
            t.store == s.store && c in t.saves && t.saves[c] == s.saves[c].(attempt := None)
            && (s.saves[c].events != [] && (s.saves[c].outside ==> s.saves[c].reserved.Some?) ==> InTransaction(Do(t, BeginAttempt(c)), c))
    ensures var t := Do(s, Fail(c)); t.store == s.store && t.saves == s.saves - {c}
  {
  }

  /** A disturbed attempt is neither a commit nor a conflict: the save stays, to be tried again. */
  lemma DisturbedIsRetried<K>(s: State<K>, c: Client)
    requires InTransaction(s, c) && NewStream(s, c).Some? && !Undisturbed(s, c)
    ensures Do(s, EndAttempt(c)) == s.(saves := s.saves[c := s.saves[c].(attempt := None)])
  {
  }

  /** A conflict ends the save and leaves the store. */
  lemma ConflictEndsSave<K>(s: State<K>, c: Client)
    requires InTransaction(s, c) && NewStream(s, c).None?
    ensures Do(s, EndAttempt(c)) == s.(saves := s.saves - {c})
  {
  }
}
