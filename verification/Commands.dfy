/**
 The command loop over the event store: any number of clients, each reading a
 snapshot, reading the events after it, deciding, saving and taking snapshots,
 one database operation at a time.
 */
module Commands {
  import opened Base
  import L = EventLog
  import P = Positions
  import opened EventStore
  import opened Aggregates

  type Client = L.Client

  datatype Request<+C> = Request(at: string, id: Uuid, cmd: C)

  datatype Taken<+S> = Taken(id: Uuid, snapshot: Snapshot<S>)

  /** Where a client stands in handling its command. */
  datatype Phase<+S, +C> =
    | Idle
    | Begun(req: Request<C>)
    | GotSnapshot(req: Request<C>, found: Option<Snapshot<S>>)
    | Saving(req: Request<C>, base: Loaded<S>)
    | Saved(req: Request<C>, now: Loaded<S>)
    | TakingSnapshot(req: Request<C>, now: Loaded<S>)
    | Done(req: Request<C>, version: int)

  /** The application, and when to take a snapshot: last snapshot version, event version, clock. */
  datatype Config<!S, !C, !K> = Config(dom: Domain<S, C, K>, due: (int, int, int) -> bool)

  /** `history` records the committed commands in commit order. */
  datatype State<+S, +C, +K> = State(
    log: L.State<K>, snapshots: seq<Taken<S>>, phases: map<Client, Phase<S, C>>, history: seq<Request<C>>)

  datatype Action<+C> =
    | Begin(c: Client, req: Request<C>)
    | ReadSnapshot(c: Client)
    | ReadEvents(c: Client, outside: bool)
    | Reserve(c: Client)
    | BeginAttempt(c: Client)
    | AbortAttempt(c: Client)
    | EndAttempt(c: Client)
    | CheckSnapshot(c: Client, clock: int)
    | SaveSnapshot(c: Client)
    | Crash(c: Client)

  // ----- Snapshots -----

  /** The snapshot of an aggregate with the highest version. */
  function Newest<S>(snapshots: seq<Taken<S>>, id: Uuid): (best: Option<Snapshot<S>>)
    ensures best.Some? ==> exists i :: 0 <= i < |snapshots| && snapshots[i] == Taken(id, best.value)
    ensures forall i :: 0 <= i < |snapshots| && snapshots[i].id == id ==>
              best.Some? && snapshots[i].snapshot.version <= best.value.version
  {
    if snapshots == [] then None
    else
      var n := |snapshots| - 1;
      var before := Newest(snapshots[..n], id);
      assert before.Some? ==> exists i :: 0 <= i < n && snapshots[i] == Taken(id, before.value) by {
        if before.Some? {
          var i :| 0 <= i < n && snapshots[..n][i] == Taken(id, before.value);
          assert snapshots[i] == Taken(id, before.value);
        }
      }
      assert forall i :: 0 <= i < n ==> snapshots[i] == snapshots[..n][i];
      if snapshots[n].id == id && (before.None? || before.value.version <= snapshots[n].snapshot.version)
      then Some(snapshots[n].snapshot) else before
  }

  function NewestVersion<S>(snapshots: seq<Taken<S>>, id: Uuid): int {
    var best := Newest(snapshots, id);
    if best.Some? then best.value.version else 0
  }

  // ----- Steps -----

  function Init<S, C, K>(): State<S, C, K> {
    State(L.Init(), [], map[], [])
  }

  function PhaseOf<S, C, K>(s: State<S, C, K>, c: Client): Phase<S, C> {
    if c in s.phases then s.phases[c] else Idle
  }

  function At<S, C, K>(s: State<S, C, K>, c: Client, phase: Phase<S, C>): State<S, C, K> {
    s.(phases := s.phases[c := phase])
  }

  function Events<S, C, K>(s: State<S, C, K>): seq<Record<K>> {
    s.log.store.events
  }

  /** What the client emits once it has read the events, if anything. */
  function Decision<S, C, K>(cfg: Config<S, C, K>, s: State<S, C, K>, c: Client): Option<(Loaded<S>, seq<K>)>
    requires PhaseOf(s, c).GotSnapshot?
  {
    var GotSnapshot(req, found) := PhaseOf(s, c);
    var loaded := Load(cfg.dom, req.at, found, Events(s), req.id);
    if loaded.None? then None
    else
      var kinds := cfg.dom.decide(req.at, loaded.value.state, req.cmd);
      if kinds.None? || kinds.value == [] then None else Some((loaded.value, kinds.value))
  }

  function DoReadEvents<S, C, K>(cfg: Config<S, C, K>, s: State<S, C, K>, c: Client, outside: bool): State<S, C, K>
    requires PhaseOf(s, c).GotSnapshot?
  {
    var req, decision := PhaseOf(s, c).req, Decision(cfg, s, c);
    if decision.None? then At(s, c, Idle)
    else
      var (loaded, kinds) := decision.value;
      var read := L.Do(s.log, L.Load(c, req.id));
      var started := L.Do(read, L.StartSave(c, Stamp(req.at, req.id, loaded.version, kinds), loaded.version, outside));
      At(s.(log := started), c, Saving(req, loaded))
  }

  /** The commit, after which the aggregate in memory applies its own events. */
  function DoCommit<S, C, K>(cfg: Config<S, C, K>, s: State<S, C, K>, c: Client): State<S, C, K>
    requires PhaseOf(s, c).Saving? && L.Commits(s.log, c)
  {
    var Saving(req, base) := PhaseOf(s, c);
    var batch := L.Batch(s.log, c);
    var state := Replay(cfg.dom, req.at, base.state, batch);
    var t := s.(log := L.Do(s.log, L.EndAttempt(c)), history := s.history + [req]);
    At(t, c, if state.None? then Idle else Saved(req, Loaded(state.value, base.version + |batch|)))
  }

  function DoCheckSnapshot<S, C, K>(cfg: Config<S, C, K>, s: State<S, C, K>, c: Client, clock: int): State<S, C, K>
    requires PhaseOf(s, c).Saved?
  {
    var Saved(req, now) := PhaseOf(s, c);
    var due := cfg.due(NewestVersion(s.snapshots, req.id), now.version, clock);
    At(s, c, if due then TakingSnapshot(req, now) else Done(req, now.version))
  }

  function DoSaveSnapshot<S, C, K>(s: State<S, C, K>, c: Client): State<S, C, K>
    requires PhaseOf(s, c).TakingSnapshot?
  {
    var TakingSnapshot(req, now) := PhaseOf(s, c);
    var taken := Taken(req.id, Snapshot(now.version, req.at, now.state));
    At(s.(snapshots := s.snapshots + [taken]), c, Done(req, now.version))
  }

  function DoBegin<S, C, K>(s: State<S, C, K>, c: Client, req: Request<C>): State<S, C, K> {
    if PhaseOf(s, c).Idle? || PhaseOf(s, c).Done? then At(s, c, Begun(req)) else s
  }

  function DoReadSnapshot<S, C, K>(s: State<S, C, K>, c: Client): State<S, C, K>
    requires PhaseOf(s, c).Begun?
  {
    var req := PhaseOf(s, c).req;
    At(s, c, GotSnapshot(req, Newest(s.snapshots, req.id)))
  }

  /** A step of the save in progress; a save that has ended leaves its client idle. */
  function DoSaveStep<S, C, K>(s: State<S, C, K>, a: L.Action<K>): State<S, C, K> {
    var t := s.(log := L.Do(s.log, a));
    if a.c in t.log.saves then t else At(t, a.c, Idle)
  }

  function Do<S, C, K>(cfg: Config<S, C, K>, s: State<S, C, K>, a: Action<C>): State<S, C, K> {
    var phase := PhaseOf(s, a.c);
    match a
    case Begin(c, req) => DoBegin(s, c, req)
    case ReadSnapshot(c) => if phase.Begun? then DoReadSnapshot(s, c) else s
    case ReadEvents(c, outside) => if phase.GotSnapshot? then DoReadEvents(cfg, s, c, outside) else s
    case Reserve(c) => if phase.Saving? then DoSaveStep(s, L.Reserve(c)) else s
    case BeginAttempt(c) => if phase.Saving? then DoSaveStep(s, L.BeginAttempt(c)) else s
    case AbortAttempt(c) => if phase.Saving? then DoSaveStep(s, L.AbortAttempt(c)) else s
    case EndAttempt(c) =>
      if !phase.Saving? then s
      else if L.Commits(s.log, c) then DoCommit(cfg, s, c)
      else DoSaveStep(s, L.EndAttempt(c))
    case CheckSnapshot(c, clock) => if phase.Saved? then DoCheckSnapshot(cfg, s, c, clock) else s
    case SaveSnapshot(c) => if phase.TakingSnapshot? then DoSaveSnapshot(s, c) else s
    case Crash(c) => DoSaveStep(s, L.Fail(c))
  }

  function Exec<S, C, K>(cfg: Config<S, C, K>, actions: seq<Action<C>>): State<S, C, K> {
    if actions == [] then Init()
    else Do(cfg, Exec(cfg, actions[..|actions| - 1]), actions[|actions| - 1])
  }

  // ----- The sequential specification -----

  /** The answer to a request on a given log: what HandleCommand emits on the fold of all of it. */
  function Respond<S, C, K>(dom: Domain<S, C, K>, log: seq<Record<K>>, req: Request<C>): seq<Record<K>> {
    var own := Log(log, req.id);
    var state := Fold(dom, req.at, own);
    if state.None? then []
    else
      var kinds := dom.decide(req.at, state.value, req.cmd);
      if kinds.None? then [] else Records(Stamp(req.at, req.id, |own|, kinds.value))
  }

  /** The log of a single client that handles requests one after another, undisturbed. */
  function Serial<S, C, K>(dom: Domain<S, C, K>, requests: seq<Request<C>>): seq<Record<K>> {
    if requests == [] then []
    else
      var before := Serial(dom, requests[..|requests| - 1]);
      before + Respond(dom, before, requests[|requests| - 1])
  }

  /** A record without what the store adds to it. */
  function Bare<K>(records: seq<Record<K>>): (bare: seq<Record<K>>)
    ensures |bare| == |records|
    ensures forall i :: 0 <= i < |records| ==> bare[i] == records[i].(position := 0, metadata := map[])
  {
    seq(|records|, i requires 0 <= i < |records| => records[i].(position := 0, metadata := map[]))
  }

  lemma {:induction false} LogOfBare<K>(records: seq<Record<K>>, id: Uuid)
    ensures Log(Bare(records), id) == Bare(Log(records, id))
  {
    if records != [] {
      var n := |records| - 1;
      assert Bare(records)[..n] == Bare(records[..n]);
      LogOfBare(records[..n], id);
    }
  }

  lemma {:induction false} ReplayOfBare<S, C, K>(dom: Domain<S, C, K>, at: string, s: S, records: seq<Record<K>>)
    ensures Replay(dom, at, s, Bare(records)) == Replay(dom, at, s, records)
  {
    if records != [] {
      var n := |records| - 1;
      assert Bare(records)[..n] == Bare(records[..n]);
      ReplayOfBare(dom, at, s, records[..n]);
    }
  }

  // ----- The invariant -----

  ghost predicate OneTypedLog<K>(log: seq<Record<K>>) {
    log == [] || OfType(log, log[0].at)
  }

  /** Every aggregate has events of one aggregate type only. */
  ghost predicate OneTyped<K>(events: seq<Record<K>>) {
    forall id: Uuid :: OneTypedLog(Log(events, id))
  }

  /**
   A state of an aggregate at a version that the log has reached.  As long as the
   log has no other type, the state is the replay of the log up to that version.
   */
  ghost predicate Reached<S, C, K>(dom: Domain<S, C, K>, events: seq<Record<K>>, at: string, id: Uuid, version: int, state: S) {
    var log := Log(events, id);
    0 <= version <= |log| && (OfType(log, at) ==> IsPrefixState(dom, events, at, id, version, state))
  }

  /** The save in progress is the decision on such a state. */
  ghost predicate SaveIsDecision<S, C, K>(cfg: Config<S, C, K>, s: State<S, C, K>, c: Client, req: Request<C>, base: Loaded<S>) {
    var kinds := cfg.dom.decide(req.at, base.state, req.cmd);
    && Reached(cfg.dom, Events(s), req.at, req.id, base.version, base.state)
    && kinds.Some? && kinds.value != []
    && c in s.log.saves
    && s.log.saves[c].events == Stamp(req.at, req.id, base.version, kinds.value)
    && s.log.saves[c].originalVersion == base.version
  }

  /** A snapshot was taken right after an event of its own type. */
  ghost predicate SoundSnapshot<S, C, K>(cfg: Config<S, C, K>, events: seq<Record<K>>, id: Uuid, sn: Snapshot<S>) {
    && 1 <= sn.version
    && Reached(cfg.dom, events, sn.at, id, sn.version, sn.state)
    && Log(events, id)[sn.version - 1].at == sn.at
  }

  ghost predicate PhaseIsSound<S, C, K>(cfg: Config<S, C, K>, s: State<S, C, K>, c: Client, phase: Phase<S, C>) {
    match phase
    case GotSnapshot(req, found) => found.Some? ==> SoundSnapshot(cfg, Events(s), req.id, found.value)
    case Saving(req, base) => SaveIsDecision(cfg, s, c, req, base)
    case Saved(req, now) => SoundSnapshot(cfg, Events(s), req.id, Snapshot(now.version, req.at, now.state))
    case TakingSnapshot(req, now) => SoundSnapshot(cfg, Events(s), req.id, Snapshot(now.version, req.at, now.state))
    case _ => true
  }

  ghost predicate SnapshotsAreSound<S, C, K>(cfg: Config<S, C, K>, events: seq<Record<K>>, snapshots: seq<Taken<S>>) {
    forall i :: 0 <= i < |snapshots| ==> SoundSnapshot(cfg, events, snapshots[i].id, snapshots[i].snapshot)
  }

  /** Committed events are, in commit order, what a sequential client would have produced. */
  ghost predicate Serialized<S, C, K>(cfg: Config<S, C, K>, s: State<S, C, K>) {
    Bare(Events(s)) == Serial(cfg.dom, s.history)
  }

  ghost predicate StoreInv<K>(log: L.State<K>) {
    L.Inv(log) && P.Ordered(log)
  }

  ghost predicate ClientInv<S, C, K>(cfg: Config<S, C, K>, s: State<S, C, K>) {
    && (forall c <- s.log.saves :: PhaseOf(s, c).Saving?)
    && (forall c <- s.phases :: PhaseIsSound(cfg, s, c, s.phases[c]))
    && SnapshotsAreSound(cfg, Events(s), s.snapshots)
  }

  ghost predicate Inv<S, C, K>(cfg: Config<S, C, K>, s: State<S, C, K>) {
    && StoreInv(s.log)
    && ClientInv(cfg, s)
    && (OneTyped(Events(s)) ==> Serialized(cfg, s))
  }

  // ----- Reading -----

  lemma LogsAreConsecutive<K>(s: L.State<K>, id: Uuid)
    requires L.LogShape(s.store)
    ensures Consecutive(Log(s.store.events, id))
    ensures L.Version(s.store.streams, id) == |Log(s.store.events, id)|
  {
    assert L.ShapeOf(s.store, id);
  }

  /**
   What is loaded, through whichever snapshot was found, is at the log's last
   version; without a snapshot, or on a log of the requested type, it is the fold.
   */
  lemma LoadIsFold<S, C, K>(cfg: Config<S, C, K>, events: seq<Record<K>>, at: string, id: Uuid, found: Option<Snapshot<S>>)
    requires Consecutive(Log(events, id)) && (found.Some? ==> SoundSnapshot(cfg, events, id, found.value))
    ensures var log := Log(events, id);
            var loaded, state := Load(cfg.dom, at, found, events, id), Fold(cfg.dom, at, log);
            && (loaded.Some? ==> loaded.value.version == |log|)
            && (found.None? || OfType(log, at) ==>
                loaded == if state.None? then None else Some(Loaded(state.value, |log|)))
  {
    FullLoad(cfg.dom, at, events, id);
    if found.Some? {
      TailReplay(cfg.dom, at, found.value, events, id);
      if OfType(Log(events, id), at) {
        SnapshotLoad(cfg.dom, found.value, events, id);
      }
    }
  }

  /** Loading and then starting the save, seen from the store. */
  lemma LoadThenStart<K>(log: L.State<K>, c: Client, id: Uuid, events: seq<Event<K>>, version: int, outside: bool)
    requires c !in log.saves && L.ValidBatch(events, version)
    ensures var t := L.Do(L.Do(log, L.Load(c, id)), L.StartSave(c, events, version, outside));
            && t.store == log.store
            && t.saves.Keys == log.saves.Keys + {c}
            && t.saves[c].events == events && t.saves[c].originalVersion == version
            && forall d <- log.saves :: t.saves[d] == log.saves[d]
  {
  }

  lemma LoadThenStartKeepsStore<K>(log: L.State<K>, c: Client, id: Uuid, events: seq<Event<K>>, version: int, outside: bool)
    requires StoreInv(log) && events != [] && events[0].id == id && version == |Log(log.store.events, id)|
    ensures StoreInv(L.Do(L.Do(log, L.Load(c, id)), L.StartSave(c, events, version, outside)))
  {
    var read := L.Do(log, L.Load(c, id));
    LogsAreConsecutive(log, id);
    StoreStep(log, L.Load(c, id));
    StoreStep(read, L.StartSave(c, events, version, outside));
  }

  lemma StoreStep<K>(log: L.State<K>, a: L.Action<K>)
    requires StoreInv(log) && P.FromLoad(log, a)
    ensures StoreInv(L.Do(log, a))
  {
    L.StepKeepsInv(log, a);
    P.StepKeepsOrdered(log, a);
  }

  lemma DecisionIsCurrent<S, C, K>(cfg: Config<S, C, K>, s: State<S, C, K>, c: Client)
    requires L.LogShape(s.log.store) && ClientInv(cfg, s) && PhaseOf(s, c).GotSnapshot?
    requires Decision(cfg, s, c).Some?
    ensures var req, (loaded, kinds) := PhaseOf(s, c).req, Decision(cfg, s, c).value;
            && loaded.version == |Log(Events(s), req.id)|
            && Reached(cfg.dom, Events(s), req.at, req.id, loaded.version, loaded.state)
            && cfg.dom.decide(req.at, loaded.state, req.cmd) == Some(kinds) && kinds != []
  {
    var GotSnapshot(req, found) := PhaseOf(s, c);
    assert PhaseIsSound(cfg, s, c, s.phases[c]);
    LogsAreConsecutive(s.log, req.id);
    LoadIsFold(cfg, Events(s), req.at, req.id, found);
    ReachedAtEnd(cfg.dom, Events(s), req.at, req.id, Decision(cfg, s, c).value.0.state);
  }

  /** If only client c moves and the events stay, the other clients stay sound. */
  lemma OthersStaySound<S, C, K>(cfg: Config<S, C, K>, s: State<S, C, K>, t: State<S, C, K>, c: Client)
    requires ClientInv(cfg, s)
    requires t.phases.Keys <= s.phases.Keys + {c} && Events(t) == Events(s) && SnapshotsAreSound(cfg, Events(t), t.snapshots)
    requires forall d <- s.phases :: d != c ==> d in t.phases && t.phases[d] == s.phases[d]
    requires forall d <- s.log.saves :: d != c ==>
               d in t.log.saves && t.log.saves[d].events == s.log.saves[d].events
               && t.log.saves[d].originalVersion == s.log.saves[d].originalVersion
    requires t.log.saves.Keys <= s.log.saves.Keys + {c}
    requires c in t.phases ==> PhaseIsSound(cfg, t, c, t.phases[c])
    requires c in t.log.saves ==> PhaseOf(t, c).Saving?
    ensures ClientInv(cfg, t)
  {
    forall d <- t.phases
      ensures PhaseIsSound(cfg, t, d, t.phases[d])
    {
      if d != c {
        assert PhaseIsSound(cfg, s, d, s.phases[d]);
      }
    }
  }

  lemma ReadEventsKeepsClients<S, C, K>(cfg: Config<S, C, K>, s: State<S, C, K>, c: Client, outside: bool)
    requires L.LogShape(s.log.store) && ClientInv(cfg, s) && PhaseOf(s, c).GotSnapshot?
    ensures ClientInv(cfg, DoReadEvents(cfg, s, c, outside))
  {
    assert c !in s.log.saves;
    if Decision(cfg, s, c).Some? {
      var req := PhaseOf(s, c).req;
      var (loaded, kinds) := Decision(cfg, s, c).value;
      DecisionIsCurrent(cfg, s, c);
      LoadThenStart(s.log, c, req.id, Stamp(req.at, req.id, loaded.version, kinds), loaded.version, outside);
    }
    OthersStaySound(cfg, s, DoReadEvents(cfg, s, c, outside), c);
  }

  lemma ReadEventsKeepsStore<S, C, K>(cfg: Config<S, C, K>, s: State<S, C, K>, c: Client, outside: bool)
    requires StoreInv(s.log) && ClientInv(cfg, s) && PhaseOf(s, c).GotSnapshot?
    ensures StoreInv(DoReadEvents(cfg, s, c, outside).log)
  {
    if Decision(cfg, s, c).Some? {
      var req := PhaseOf(s, c).req;
      var (loaded, kinds) := Decision(cfg, s, c).value;
      DecisionIsCurrent(cfg, s, c);
      LoadThenStartKeepsStore(s.log, c, req.id, Stamp(req.at, req.id, loaded.version, kinds), loaded.version, outside);
    }
  }

  // ----- Committing -----

  lemma ReachedSurvives<S, C, K>(dom: Domain<S, C, K>, events: seq<Record<K>>, batch: seq<Record<K>>, at: string, id: Uuid, version: int, state: S)
    requires Reached(dom, events, at, id, version, state)
    ensures Reached(dom, events + batch, at, id, version, state)
    ensures Log(events + batch, id)[..version] == Log(events, id)[..version]
  {
    var log, longer := Log(events, id), Log(events + batch, id);
    LogAppend(events, batch, id);
    assert longer[..version] == log[..version];
    assert forall i :: 0 <= i < |log| ==> longer[i] == log[i];
  }

  lemma SnapshotSurvives<S, C, K>(cfg: Config<S, C, K>, events: seq<Record<K>>, batch: seq<Record<K>>, id: Uuid, sn: Snapshot<S>)
    requires SoundSnapshot(cfg, events, id, sn)
    ensures SoundSnapshot(cfg, events + batch, id, sn)
  {
    ReachedSurvives(cfg.dom, events, batch, sn.at, id, sn.version, sn.state);
    assert Log(events + batch, id)[sn.version - 1] == Log(events + batch, id)[..sn.version][sn.version - 1];
    assert Log(events, id)[sn.version - 1] == Log(events, id)[..sn.version][sn.version - 1];
  }

  /** At the commit, the version decided on is still the last one, and the state the fold of a log of its type. */
  lemma CommitIsCurrent<S, C, K>(cfg: Config<S, C, K>, s: State<S, C, K>, c: Client)
    requires L.LogShape(s.log.store) && L.SavesAreValid(s.log.saves) && PhaseOf(s, c).Saving? && L.Commits(s.log, c)
    requires PhaseIsSound(cfg, s, c, PhaseOf(s, c))
    ensures var Saving(req, base) := PhaseOf(s, c);
            var log := Log(Events(s), req.id);
            && base.version == |log|
            && (OfType(log, req.at) ==> Fold(cfg.dom, req.at, log) == Some(base.state))
  {
    var Saving(req, base) := PhaseOf(s, c);
    P.BatchFollows(s.log, c);
    LogsAreConsecutive(s.log, req.id);
    var log := Log(Events(s), req.id);
    assert log[..|log|] == log;
  }

  lemma BareBatch<K>(events: seq<Event<K>>, previous: int)
    requires forall i :: 0 <= i < |events| ==> events[i].metadata == map[]
    ensures Bare(L.Place(events, previous)) == Records(events)
  {
  }

  lemma RespondToBare<S, C, K>(dom: Domain<S, C, K>, events: seq<Record<K>>, req: Request<C>)
    ensures Respond(dom, Bare(events), req) == Respond(dom, events, req)
  {
    LogOfBare(events, req.id);
    ReplayOfBare(dom, req.at, dom.initial(req.at), Log(events, req.id));
  }

  lemma SerialUnfolds<S, C, K>(dom: Domain<S, C, K>, history: seq<Request<C>>, req: Request<C>)
    ensures Serial(dom, history + [req]) == Serial(dom, history) + Respond(dom, Serial(dom, history), req)
  {
    assert (history + [req])[..|history|] == history;
  }

  lemma BareAppend<K>(a: seq<Record<K>>, b: seq<Record<K>>)
    ensures Bare(a + b) == Bare(a) + Bare(b)
  {
  }

  /** One more committed command is one more step of the sequential client. */
  lemma SerialNext<S, C, K>(dom: Domain<S, C, K>, events: seq<Record<K>>, batch: seq<Record<K>>, history: seq<Request<C>>, req: Request<C>)
    requires Bare(events) == Serial(dom, history)
    requires Bare(batch) == Respond(dom, events, req)
    ensures Bare(events + batch) == Serial(dom, history + [req])
  {
    SerialUnfolds(dom, history, req);
    RespondToBare(dom, events, req);
    BareAppend(events, batch);
  }

  /** Applying a batch to the fold of a log gives the fold of the longer log. */
  lemma FoldAppend<S, C, K>(dom: Domain<S, C, K>, at: string, log: seq<Record<K>>, batch: seq<Record<K>>, state: S)
    requires OfType(log, at) ==> Fold(dom, at, log) == Some(state)
    ensures OfType(log + batch, at) ==> Fold(dom, at, log + batch) == Replay(dom, at, state, batch)
  {
    if OfType(log + batch, at) {
      OfTypeBefore(log, batch, at);
      ReplaySplit(dom, at, dom.initial(at), log, batch);
    }
  }

  /** The state after a batch on a log of its type, as a snapshot of the longer log. */
  lemma FoldNext<S, C, K>(cfg: Config<S, C, K>, events: seq<Record<K>>, log: seq<Record<K>>, batch: seq<Record<K>>, at: string, id: Uuid, state: S, next: S)
    requires Log(events, id) == log + batch && batch != [] && batch[|batch| - 1].at == at
    requires OfType(log, at) ==> Fold(cfg.dom, at, log) == Some(state)
    requires Replay(cfg.dom, at, state, batch) == Some(next)
    ensures SoundSnapshot(cfg, events, id, Snapshot(|log| + |batch|, at, next))
  {
    FoldAppend(cfg.dom, at, log, batch, state);
    SnapshotAtEnd(cfg, events, log + batch, at, id, next);
  }

  lemma SnapshotAtEnd<S, C, K>(cfg: Config<S, C, K>, events: seq<Record<K>>, log: seq<Record<K>>, at: string, id: Uuid, state: S)
    requires Log(events, id) == log && log != [] && log[|log| - 1].at == at
    requires OfType(log, at) ==> Fold(cfg.dom, at, log) == Some(state)
    ensures SoundSnapshot(cfg, events, id, Snapshot(|log|, at, state))
  {
    ReachedAtEnd(cfg.dom, events, at, id, state);
  }

  lemma ReachedAtEnd<S, C, K>(dom: Domain<S, C, K>, events: seq<Record<K>>, at: string, id: Uuid, state: S)
    requires var log := Log(events, id); OfType(log, at) ==> Fold(dom, at, log) == Some(state)
    ensures Reached(dom, events, at, id, |Log(events, id)|, state)
  {
    var log := Log(events, id);
    assert log[..|log|] == log;
  }

  lemma OfTypeBefore<K>(log: seq<Record<K>>, batch: seq<Record<K>>, at: string)
    requires OfType(log + batch, at)
    ensures OfType(log, at)
  {
    assert forall i :: 0 <= i < |log| ==> (log + batch)[i] == log[i];
  }

  lemma PhaseSurvives<S, C, K>(cfg: Config<S, C, K>, s: State<S, C, K>, t: State<S, C, K>, d: Client, batch: seq<Record<K>>)
    requires d in s.phases && PhaseIsSound(cfg, s, d, s.phases[d])
    requires Events(t) == Events(s) + batch
    requires d in s.log.saves ==> d in t.log.saves && t.log.saves[d] == s.log.saves[d]
    ensures PhaseIsSound(cfg, t, d, s.phases[d])
  {
    match s.phases[d]
    case GotSnapshot(req, found) =>
      if found.Some? {
        SnapshotSurvives(cfg, Events(s), batch, req.id, found.value);
      }
    case Saving(req, base) =>
      ReachedSurvives(cfg.dom, Events(s), batch, req.at, req.id, base.version, base.state);
    case Saved(req, now) =>
      SnapshotSurvives(cfg, Events(s), batch, req.id, Snapshot(now.version, req.at, now.state));
    case TakingSnapshot(req, now) =>
      SnapshotSurvives(cfg, Events(s), batch, req.id, Snapshot(now.version, req.at, now.state));
    case _ =>
  }

  /** Appending a batch for client c, whose save ends, keeps every other client sound. */
  lemma ClientsSurvive<S, C, K>(cfg: Config<S, C, K>, s: State<S, C, K>, t: State<S, C, K>, c: Client, batch: seq<Record<K>>)
    requires ClientInv(cfg, s) && c in s.phases
    requires Events(t) == Events(s) + batch && t.snapshots == s.snapshots && t.log.saves == s.log.saves - {c}
    requires c in t.phases && t.phases == s.phases[c := t.phases[c]] && PhaseIsSound(cfg, t, c, t.phases[c])
    ensures ClientInv(cfg, t)
  {
    forall d <- t.phases
      ensures PhaseIsSound(cfg, t, d, t.phases[d])
    {
      if d != c {
        PhaseSurvives(cfg, s, t, d, batch);
      }
    }
    forall i | 0 <= i < |t.snapshots|
      ensures SoundSnapshot(cfg, Events(t), t.snapshots[i].id, t.snapshots[i].snapshot)
    {
      SnapshotSurvives(cfg, Events(s), batch, s.snapshots[i].id, s.snapshots[i].snapshot);
    }
  }

  /** On a log of its type, the batch is the answer to the request on everything committed so far. */
  lemma BatchIsResponse<S, C, K>(cfg: Config<S, C, K>, s: State<S, C, K>, c: Client)
    requires L.LogShape(s.log.store) && L.SavesAreValid(s.log.saves) && PhaseOf(s, c).Saving? && L.Commits(s.log, c)
    requires PhaseIsSound(cfg, s, c, PhaseOf(s, c))
    requires var req := PhaseOf(s, c).req; OfType(Log(Events(s), req.id), req.at)
    ensures Bare(L.Batch(s.log, c)) == Respond(cfg.dom, Events(s), PhaseOf(s, c).req)
  {
    CommitIsCurrent(cfg, s, c);
    BareBatch(s.log.saves[c].events, L.PreviousPosition(s.log.saves[c]));
  }

  lemma CommitAppends<S, C, K>(cfg: Config<S, C, K>, s: State<S, C, K>, c: Client)
    requires PhaseOf(s, c).Saving? && L.Commits(s.log, c)
    ensures var t := DoCommit(cfg, s, c);
            Events(t) == Events(s) + L.Batch(s.log, c) && t.history == s.history + [PhaseOf(s, c).req]
  {
  }

  lemma OneTypedBefore<K>(events: seq<Record<K>>, batch: seq<Record<K>>)
    requires OneTyped(events + batch)
    ensures OneTyped(events)
  {
    forall id: Uuid
      ensures OneTypedLog(Log(events, id))
    {
      LogAppend(events, batch, id);
      var log, longer := Log(events, id), Log(events + batch, id);
      assert OneTypedLog(longer) && forall i :: 0 <= i < |log| ==> longer[i] == log[i];
    }
  }

  /** A batch that leaves a log with one type found it with that type. */
  lemma OneTypedBatch<K>(events: seq<Record<K>>, batch: seq<Record<K>>, at: string, id: Uuid)
    requires OneTypedLog(Log(events + batch, id)) && batch != []
    requires forall i :: 0 <= i < |batch| ==> batch[i].id == id && batch[i].at == at
    ensures OfType(Log(events, id), at)
  {
    LogAppendBatch(events, batch, id, id);
    var log, longer := Log(events, id), Log(events + batch, id);
    assert longer[|log|] == batch[0] && forall i :: 0 <= i < |log| ==> longer[i] == log[i];
  }

  lemma CommitKeepsSerialized<S, C, K>(cfg: Config<S, C, K>, s: State<S, C, K>, c: Client)
    requires L.LogShape(s.log.store) && L.SavesAreValid(s.log.saves) && PhaseOf(s, c).Saving? && L.Commits(s.log, c)
    requires PhaseIsSound(cfg, s, c, PhaseOf(s, c)) && (OneTyped(Events(s)) ==> Serialized(cfg, s))
    ensures var t := DoCommit(cfg, s, c); OneTyped(Events(t)) ==> Serialized(cfg, t)
  {
    var batch, req := L.Batch(s.log, c), PhaseOf(s, c).req;
    CommitAppends(cfg, s, c);
    if OneTyped(Events(s) + batch) {
      OneTypedBefore(Events(s), batch);
      BatchIsOwn(cfg, s, c);
      assert OneTypedLog(Log(Events(s) + batch, req.id));
      OneTypedBatch(Events(s), batch, req.at, req.id);
      BatchIsResponse(cfg, s, c);
      SerialNext(cfg.dom, Events(s), batch, s.history, req);
    }
  }

  lemma BatchIsOwn<S, C, K>(cfg: Config<S, C, K>, s: State<S, C, K>, c: Client)
    requires PhaseOf(s, c).Saving? && L.Commits(s.log, c) && PhaseIsSound(cfg, s, c, PhaseOf(s, c))
    ensures var batch := L.Batch(s.log, c);
            && Events(DoCommit(cfg, s, c)) == Events(s) + batch && batch != []
            && forall i :: 0 <= i < |batch| ==> batch[i].id == PhaseOf(s, c).req.id && batch[i].at == PhaseOf(s, c).req.at
  {
  }

  lemma BatchExtendsLog<S, C, K>(cfg: Config<S, C, K>, s: State<S, C, K>, c: Client)
    requires PhaseOf(s, c).Saving? && L.Commits(s.log, c) && PhaseIsSound(cfg, s, c, PhaseOf(s, c))
    ensures var batch, req := L.Batch(s.log, c), PhaseOf(s, c).req;
            && Log(Events(s) + batch, req.id) == Log(Events(s), req.id) + batch
            && batch != [] && batch[|batch| - 1].at == req.at
  {
    BatchIsOwn(cfg, s, c);
    LogAppendBatch(Events(s), L.Batch(s.log, c), PhaseOf(s, c).req.id, PhaseOf(s, c).req.id);
  }

  /** What makes a commit sound: the state decided on is current, and its batch extends the log. */
  ghost predicate CommitsTo<S, C, K>(cfg: Config<S, C, K>, s: State<S, C, K>, c: Client, t: State<S, C, K>) {
    && PhaseOf(s, c).Saving? && L.InTransaction(s.log, c)
    && var Saving(req, base) := PhaseOf(s, c);
       var batch, log := L.Batch(s.log, c), Log(Events(s), req.id);
       var next := Replay(cfg.dom, req.at, base.state, batch);
       && base.version == |log| && (OfType(log, req.at) ==> Fold(cfg.dom, req.at, log) == Some(base.state))
       && Log(Events(t), req.id) == log + batch && batch != [] && batch[|batch| - 1].at == req.at
       && PhaseOf(t, c) == if next.None? then Idle else Saved(req, Loaded(next.value, base.version + |batch|))
  }

  lemma CommitIsSound<S, C, K>(cfg: Config<S, C, K>, s: State<S, C, K>, c: Client)
    requires L.LogShape(s.log.store) && L.SavesAreValid(s.log.saves) && PhaseOf(s, c).Saving? && L.Commits(s.log, c)
    requires PhaseIsSound(cfg, s, c, PhaseOf(s, c))
    ensures CommitsTo(cfg, s, c, DoCommit(cfg, s, c))
  {
    CommitIsCurrent(cfg, s, c);
    BatchExtendsLog(cfg, s, c);
    CommitAppends(cfg, s, c);
  }

  /** The committed aggregate in memory is a replayed prefix of the new log. */
  lemma CommittedPhaseIsSound<S, C, K>(cfg: Config<S, C, K>, s: State<S, C, K>, c: Client, t: State<S, C, K>)
    requires CommitsTo(cfg, s, c, t)
    ensures PhaseIsSound(cfg, t, c, PhaseOf(t, c))
  {
    var Saving(req, base) := PhaseOf(s, c);
    var batch := L.Batch(s.log, c);
    var next := Replay(cfg.dom, req.at, base.state, batch);
    if next.Some? {
      NextIsSound(cfg, Events(t), Log(Events(s), req.id), batch, req, base, next.value);
    }
  }

  lemma NextIsSound<S, C, K>(cfg: Config<S, C, K>, events: seq<Record<K>>, log: seq<Record<K>>, batch: seq<Record<K>>, req: Request<C>, base: Loaded<S>, next: S)
    requires Log(events, req.id) == log + batch && batch != [] && batch[|batch| - 1].at == req.at && base.version == |log|
    requires OfType(log, req.at) ==> Fold(cfg.dom, req.at, log) == Some(base.state)
    requires Replay(cfg.dom, req.at, base.state, batch) == Some(next)
    ensures SoundSnapshot(cfg, events, req.id, Snapshot(base.version + |batch|, req.at, next))
  {
    FoldNext(cfg, events, log, batch, req.at, req.id, base.state, next);
  }

  lemma CommitFrame<S, C, K>(cfg: Config<S, C, K>, s: State<S, C, K>, c: Client)
    requires PhaseOf(s, c).Saving? && L.Commits(s.log, c)
    ensures var t := DoCommit(cfg, s, c);
            && t.snapshots == s.snapshots && t.log.saves == s.log.saves - {c}
            && c in t.phases && t.phases == s.phases[c := t.phases[c]] && t.phases[c] == PhaseOf(t, c)
  {
  }

  lemma CommitKeepsClients<S, C, K>(cfg: Config<S, C, K>, s: State<S, C, K>, c: Client)
    requires L.LogShape(s.log.store) && L.SavesAreValid(s.log.saves) && ClientInv(cfg, s)
    requires PhaseOf(s, c).Saving? && L.Commits(s.log, c)
    ensures ClientInv(cfg, DoCommit(cfg, s, c))
  {
    assert PhaseIsSound(cfg, s, c, s.phases[c]);
    CommitIsSound(cfg, s, c);
    CommittedPhaseIsSound(cfg, s, c, DoCommit(cfg, s, c));
    CommitAppends(cfg, s, c);
    CommitFrame(cfg, s, c);
    ClientsSurvive(cfg, s, DoCommit(cfg, s, c), c, L.Batch(s.log, c));
  }

  // ----- The other steps -----

  /** The steps of a save that change neither the events nor any batch. */
  predicate Quiet<K>(log: L.State<K>, a: L.Action<K>) {
    a.Reserve? || a.BeginAttempt? || a.AbortAttempt? || a.Fail? || (a.EndAttempt? && !L.Commits(log, a.c))
  }

  lemma QuietStoreStep<K>(log: L.State<K>, a: L.Action<K>)
    requires Quiet(log, a)
    ensures var t := L.Do(log, a);
            && t.store.events == log.store.events
            && t.saves.Keys <= log.saves.Keys
            && (forall d <- log.saves :: d != a.c ==> d in t.saves && t.saves[d] == log.saves[d])
            && (a.c in t.saves ==> t.saves[a.c].events == log.saves[a.c].events)
            && (a.c in t.saves ==> t.saves[a.c].originalVersion == log.saves[a.c].originalVersion)
  {
  }

  lemma SaveStepKeepsClients<S, C, K>(cfg: Config<S, C, K>, s: State<S, C, K>, a: L.Action<K>)
    requires ClientInv(cfg, s) && Quiet(s.log, a)
    ensures ClientInv(cfg, DoSaveStep(s, a)) && Events(DoSaveStep(s, a)) == Events(s)
  {
    QuietStoreStep(s.log, a);
    if a.c in s.log.saves {
      assert PhaseIsSound(cfg, s, a.c, s.phases[a.c]);
    }
    OthersStaySound(cfg, s, DoSaveStep(s, a), a.c);
  }

  lemma SnapshotStepKeepsClients<S, C, K>(cfg: Config<S, C, K>, s: State<S, C, K>, c: Client, clock: int)
    requires ClientInv(cfg, s) && c !in s.log.saves
    ensures PhaseOf(s, c).Saved? ==> ClientInv(cfg, DoCheckSnapshot(cfg, s, c, clock))
    ensures PhaseOf(s, c).TakingSnapshot? ==> ClientInv(cfg, DoSaveSnapshot(s, c))
  {
    assert c in s.phases ==> PhaseIsSound(cfg, s, c, s.phases[c]);
    if PhaseOf(s, c).Saved? {
      OthersStaySound(cfg, s, DoCheckSnapshot(cfg, s, c, clock), c);
    } else if PhaseOf(s, c).TakingSnapshot? {
      OthersStaySound(cfg, s, DoSaveSnapshot(s, c), c);
    }
  }

  lemma BeginKeepsClients<S, C, K>(cfg: Config<S, C, K>, s: State<S, C, K>, c: Client, req: Request<C>)
    requires ClientInv(cfg, s)
    ensures ClientInv(cfg, DoBegin(s, c, req))
  {
    if PhaseOf(s, c).Idle? || PhaseOf(s, c).Done? {
      OthersStaySound(cfg, s, DoBegin(s, c, req), c);
    }
  }

  /** The newest snapshot is one of those stored, and so sound. */
  lemma NewestIsGood<S, C, K>(cfg: Config<S, C, K>, events: seq<Record<K>>, snapshots: seq<Taken<S>>, id: Uuid)
    requires SnapshotsAreSound(cfg, events, snapshots)
    ensures var found := Newest(snapshots, id);
            found.Some? ==> SoundSnapshot(cfg, events, id, found.value) && Taken(id, found.value) in snapshots
  {
    var found := Newest(snapshots, id);
    if found.Some? {
      var i :| 0 <= i < |snapshots| && snapshots[i] == Taken(id, found.value);
      assert SoundSnapshot(cfg, events, snapshots[i].id, snapshots[i].snapshot);
    }
  }

  lemma ReadSnapshotKeepsClients<S, C, K>(cfg: Config<S, C, K>, s: State<S, C, K>, c: Client)
    requires ClientInv(cfg, s) && PhaseOf(s, c).Begun?
    ensures ClientInv(cfg, DoReadSnapshot(s, c))
  {
    NewestIsGood(cfg, Events(s), s.snapshots, PhaseOf(s, c).req.id);
    OthersStaySound(cfg, s, DoReadSnapshot(s, c), c);
  }

  lemma StepKeepsClients<S, C, K>(cfg: Config<S, C, K>, s: State<S, C, K>, a: Action<C>)
    requires StoreInv(s.log) && ClientInv(cfg, s)
    ensures ClientInv(cfg, Do(cfg, s, a))
  {
    var phase := PhaseOf(s, a.c);
    match a
    case Begin(c, req) => BeginKeepsClients(cfg, s, c, req);
    case ReadSnapshot(c) => if phase.Begun? { ReadSnapshotKeepsClients(cfg, s, c); }
    case ReadEvents(c, outside) => if phase.GotSnapshot? { ReadEventsKeepsClients(cfg, s, c, outside); }
    case Reserve(c) => SaveStepKeepsClients(cfg, s, L.Reserve(c));
    case BeginAttempt(c) => SaveStepKeepsClients(cfg, s, L.BeginAttempt(c));
    case AbortAttempt(c) => SaveStepKeepsClients(cfg, s, L.AbortAttempt(c));
    case EndAttempt(c) =>
      if phase.Saving? && L.Commits(s.log, c) { CommitKeepsClients(cfg, s, c); }
      else if phase.Saving? { SaveStepKeepsClients(cfg, s, L.EndAttempt(c)); }
    case CheckSnapshot(c, clock) => if phase.Saved? { SnapshotStepKeepsClients(cfg, s, c, clock); }
    case SaveSnapshot(c) => if phase.TakingSnapshot? { SnapshotStepKeepsClients(cfg, s, c, 0); }
    case Crash(c) => SaveStepKeepsClients(cfg, s, L.Fail(c));
  }

  /** What a step does to the store: at most a load and the start of a save, or one step of a save. */
  function StoreActions<S, C, K>(cfg: Config<S, C, K>, s: State<S, C, K>, a: Action<C>): seq<L.Action<K>> {
    var phase := PhaseOf(s, a.c);
    match a
    case ReadEvents(c, outside) =>
      if !phase.GotSnapshot? || Decision(cfg, s, c).None? then []
      else
        var (loaded, kinds) := Decision(cfg, s, c).value;
        var batch := Stamp(phase.req.at, phase.req.id, loaded.version, kinds);
        [L.Load(c, phase.req.id), L.StartSave(c, batch, loaded.version, outside)]
    case Reserve(c) => if phase.Saving? then [L.Reserve(c)] else []
    case BeginAttempt(c) => if phase.Saving? then [L.BeginAttempt(c)] else []
    case AbortAttempt(c) => if phase.Saving? then [L.AbortAttempt(c)] else []
    case EndAttempt(c) => if phase.Saving? then [L.EndAttempt(c)] else []
    case Crash(c) => [L.Fail(c)]
    case _ => []
  }

  /** Every run of the command loop is a run of the save protocol. */
  lemma StepIsStoreRun<S, C, K>(cfg: Config<S, C, K>, s: State<S, C, K>, a: Action<C>)
    ensures Do(cfg, s, a).log == L.Exec(s.log, StoreActions(cfg, s, a))
  {
    var run := StoreActions(cfg, s, a);
    if |run| == 1 {
      assert L.Exec(s.log, run[..0]) == s.log;
    } else if |run| == 2 {
      assert run[..1][..0] == [] && run[..1][0] == run[0];
      assert L.Exec(s.log, run[..1]) == L.Do(s.log, run[0]);
    }
  }

  lemma StepKeepsStore<S, C, K>(cfg: Config<S, C, K>, s: State<S, C, K>, a: Action<C>)
    requires StoreInv(s.log) && ClientInv(cfg, s)
    ensures StoreInv(Do(cfg, s, a).log)
  {
    var run := StoreActions(cfg, s, a);
    if a.ReadEvents? {
      if PhaseOf(s, a.c).GotSnapshot? { ReadEventsKeepsStore(cfg, s, a.c, a.outside); }
    } else {
      StepIsStoreRun(cfg, s, a);
      assert |run| == 1 ==> L.Exec(s.log, run[..0]) == s.log;
      if run != [] { StoreStep(s.log, run[0]); }
    }
  }

  predicate Committing<S, C, K>(s: State<S, C, K>, a: Action<C>) {
    a.EndAttempt? && PhaseOf(s, a.c).Saving? && L.Commits(s.log, a.c)
  }

  /** Only a commit adds events. */
  lemma EventsGrowAtCommits<S, C, K>(cfg: Config<S, C, K>, s: State<S, C, K>, a: Action<C>)
    requires !Committing(s, a)
    ensures Events(Do(cfg, s, a)) == Events(s) && Do(cfg, s, a).history == s.history
  {
  }

  lemma StepKeepsSerialized<S, C, K>(cfg: Config<S, C, K>, s: State<S, C, K>, a: Action<C>)
    requires L.LogShape(s.log.store) && L.SavesAreValid(s.log.saves) && ClientInv(cfg, s)
    requires OneTyped(Events(s)) ==> Serialized(cfg, s)
    ensures OneTyped(Events(Do(cfg, s, a))) ==> Serialized(cfg, Do(cfg, s, a))
  {
    if Committing(s, a) {
      assert PhaseIsSound(cfg, s, a.c, s.phases[a.c]);
      CommitKeepsSerialized(cfg, s, a.c);
    } else {
      EventsGrowAtCommits(cfg, s, a);
    }
  }

  lemma StepKeepsInv<S, C, K>(cfg: Config<S, C, K>, s: State<S, C, K>, a: Action<C>)
    requires Inv(cfg, s)
    ensures Inv(cfg, Do(cfg, s, a))
  {
    StepKeepsStore(cfg, s, a);
    StepKeepsClients(cfg, s, a);
    StepKeepsSerialized(cfg, s, a);
  }

  lemma {:induction false} RunKeepsInv<S, C, K>(cfg: Config<S, C, K>, actions: seq<Action<C>>)
    ensures Inv(cfg, Exec(cfg, actions))
  {
    if actions == [] {
      L.RunKeepsInv<K>([]);
    } else {
      var n := |actions| - 1;
      RunKeepsInv(cfg, actions[..n]);
      StepKeepsInv(cfg, Exec(cfg, actions[..n]), actions[n]);
    }
  }

  lemma RunKeepsClients<S, C, K>(cfg: Config<S, C, K>, actions: seq<Action<C>>)
    ensures ClientInv(cfg, Exec(cfg, actions))
  {
    RunKeepsInv(cfg, actions);
  }

  // ----- What every run promises -----

  lemma RespondIsTyped<S, C, K>(dom: Domain<S, C, K>, log: seq<Record<K>>, req: Request<C>)
    ensures var batch := Respond(dom, log, req);
            && (batch != [] ==> OfType(Log(log, req.id), req.at))
            && forall i :: 0 <= i < |batch| ==> batch[i].id == req.id && batch[i].at == req.at
  {
    if Fold(dom, req.at, Log(log, req.id)).Some? {
      ReplayChecksTypes(dom, req.at, dom.initial(req.at), Log(log, req.id));
    }
  }

  /** A sequential client never mixes types: it cannot load an aggregate of another type. */
  lemma {:induction false} SerialIsOneTyped<S, C, K>(dom: Domain<S, C, K>, requests: seq<Request<C>>)
    ensures OneTyped(Serial(dom, requests))
  {
    if requests != [] {
      var n := |requests| - 1;
      var before, req := Serial(dom, requests[..n]), requests[n];
      var batch := Respond(dom, before, req);
      SerialIsOneTyped(dom, requests[..n]);
      RespondIsTyped(dom, before, req);
      forall id: Uuid
        ensures OneTypedLog(Log(before + batch, id))
      {
        assert OneTypedLog(Log(before, id));
        LogAppendBatch(before, batch, req.id, id);
      }
    }
  }

  lemma OneTypedBare<K>(events: seq<Record<K>>)
    requires OneTyped(Bare(events))
    ensures OneTyped(events)
  {
    forall id: Uuid
      ensures OneTypedLog(Log(events, id))
    {
      LogOfBare(events, id);
      var log := Log(events, id);
      assert OneTypedLog(Bare(log)) && forall i :: 0 <= i < |log| ==> log[i].at == Bare(log)[i].at;
    }
  }

  /**
   Serializability.  However clients interleave, crash, abort and retry, the
   committed events are, in commit order, exactly those of one client that
   handles the committed commands one after another, if and only if no aggregate
   has events of two types.
   */
  lemma Serializability<S, C, K>(cfg: Config<S, C, K>, actions: seq<Action<C>>)
    ensures var s := Exec(cfg, actions);
            Bare(Events(s)) == Serial(cfg.dom, s.history) <==> OneTyped(Events(s))
  {
    RunKeepsInv(cfg, actions);
    var s := Exec(cfg, actions);
    SerialIsOneTyped(cfg.dom, s.history);
    if Serialized(cfg, s) {
      OneTypedBare(Events(s));
    }
  }

  /** Commands always load before they reserve, so positions follow versions under both strategies. */
  lemma CommandPositions<S, C, K>(cfg: Config<S, C, K>, actions: seq<Action<C>>)
    ensures var s := Exec(cfg, actions);
            L.LogShape(s.log.store) && L.Tally(s.log.store, s.log.outstanding) && P.Increasing(Events(s))
  {
    RunKeepsInv(cfg, actions);
  }

  /**
   In every reachable state, loading through the newest snapshot is the same as
   full replay if and only if the aggregate has only events of the requested type,
   or there is no snapshot, or the events after it have another type or cannot be
   applied to its state.
   */
  lemma SnapshotRefinement<S, C, K>(cfg: Config<S, C, K>, actions: seq<Action<C>>, at: string, id: Uuid)
    ensures var s := Exec(cfg, actions);
            var log, found := Log(Events(s), id), Newest(s.snapshots, id);
            && (found.Some? ==> 1 <= found.value.version <= |log|)
            && (Load(cfg.dom, at, found, Events(s), id) == Load(cfg.dom, at, None, Events(s), id) <==>
                OfType(log, at) || found.None? || TailFails(cfg.dom, at, found.value.state, log[found.value.version..]))
  {
    var s := Exec(cfg, actions);
    RunKeepsSnapshots(cfg, actions);
    LogsAreConsecutive(s.log, id);
    NewestIsGood(cfg, Events(s), s.snapshots, id);
    if Newest(s.snapshots, id).Some? {
      SoundLoadIff(cfg, Events(s), at, id, Newest(s.snapshots, id).value);
    }
  }

  ghost predicate TailFails<S, C, K>(dom: Domain<S, C, K>, at: string, state: S, tail: seq<Record<K>>) {
    !OfType(tail, at) || ApplyKinds(dom, at, state, Kinds(tail)).None?
  }

  lemma SoundLoadIff<S, C, K>(cfg: Config<S, C, K>, events: seq<Record<K>>, at: string, id: Uuid, sn: Snapshot<S>)
    requires Consecutive(Log(events, id)) && SoundSnapshot(cfg, events, id, sn)
    ensures var log := Log(events, id);
            Load(cfg.dom, at, Some(sn), events, id) == Load(cfg.dom, at, None, events, id) <==>
              OfType(log, at) || TailFails(cfg.dom, at, sn.state, log[sn.version..])
  {
    var log := Log(events, id);
    LoadIsFold(cfg, events, at, id, Some(sn));
    FullLoad(cfg.dom, at, events, id);
    if !OfType(log, at) {
      ReplaysIff(cfg.dom, at, cfg.dom.initial(at), log);
      TailReplay(cfg.dom, at, sn, events, id);
      ReplaysIff(cfg.dom, at, sn.state, log[sn.version..]);
    }
  }

  // ----- How much a load replays -----

  /** The strategy that takes a snapshot every n events. */
  ghost predicate EveryNumber<S, C, K>(cfg: Config<S, C, K>, n: int) {
    forall last, version, clock :: cfg.due(last, version, clock) <==> version - last >= n
  }

  ghost predicate Recent<S, C, K>(s: State<S, C, K>, n: int) {
    forall c <- s.phases :: s.phases[c].Done? ==>
      s.phases[c].version - NewestVersion(s.snapshots, s.phases[c].req.id) < n
  }

  lemma NewestGrows<S>(snapshots: seq<Taken<S>>, taken: Taken<S>, id: Uuid)
    requires forall i :: 0 <= i < |snapshots| ==> 0 <= snapshots[i].snapshot.version
    requires 0 <= taken.snapshot.version
    ensures NewestVersion(snapshots, id) <= NewestVersion(snapshots + [taken], id)
    ensures taken.id == id ==> taken.snapshot.version <= NewestVersion(snapshots + [taken], id)
  {
    assert (snapshots + [taken])[..|snapshots|] == snapshots;
  }

  lemma SaveSnapshotKeepsRecent<S, C, K>(s: State<S, C, K>, c: Client, n: int)
    requires Recent(s, n) && PhaseOf(s, c).TakingSnapshot? && 1 <= n && 0 <= PhaseOf(s, c).now.version
    requires forall i :: 0 <= i < |s.snapshots| ==> 0 <= s.snapshots[i].snapshot.version
    ensures Recent(DoSaveSnapshot(s, c), n)
  {
    var t := DoSaveSnapshot(s, c);
    var taken := t.snapshots[|s.snapshots|];
    forall d <- t.phases
      ensures t.phases[d].Done? ==> t.phases[d].version - NewestVersion(t.snapshots, t.phases[d].req.id) < n
    {
      if t.phases[d].Done? {
        NewestGrows(s.snapshots, taken, t.phases[d].req.id);
      }
    }
  }

  lemma StepKeepsRecent<S, C, K>(cfg: Config<S, C, K>, s: State<S, C, K>, a: Action<C>, n: int)
    requires ClientInv(cfg, s) && Recent(s, n) && EveryNumber(cfg, n) && 1 <= n
    ensures Recent(Do(cfg, s, a), n)
  {
    if a.SaveSnapshot? && PhaseOf(s, a.c).TakingSnapshot? {
      assert PhaseIsSound(cfg, s, a.c, s.phases[a.c]);
      assert forall i :: 0 <= i < |s.snapshots| ==>
        SoundSnapshot(cfg, Events(s), s.snapshots[i].id, s.snapshots[i].snapshot);
      SaveSnapshotKeepsRecent(s, a.c, n);
    } else {
      NoSnapshotKeepsRecent(cfg, s, a, n);
    }
  }

  lemma NoSnapshotKeepsRecent<S, C, K>(cfg: Config<S, C, K>, s: State<S, C, K>, a: Action<C>, n: int)
    requires Recent(s, n) && EveryNumber(cfg, n) && !(a.SaveSnapshot? && PhaseOf(s, a.c).TakingSnapshot?)
    ensures Recent(Do(cfg, s, a), n)
  {
    assert Do(cfg, s, a).snapshots == s.snapshots;
  }

  lemma {:induction false} RunKeepsRecent<S, C, K>(cfg: Config<S, C, K>, actions: seq<Action<C>>, n: int)
    requires EveryNumber(cfg, n) && 1 <= n
    ensures Recent(Exec(cfg, actions), n)
  {
    if actions != [] {
      var k := |actions| - 1;
      RunKeepsInv(cfg, actions[..k]);
      RunKeepsRecent(cfg, actions[..k], n);
      StepKeepsRecent(cfg, Exec(cfg, actions[..k]), actions[k], n);
    }
  }

  lemma TailLength<S, C, K>(cfg: Config<S, C, K>, s: State<S, C, K>, id: Uuid)
    requires L.LogShape(s.log.store) && SnapshotsAreSound(cfg, Events(s), s.snapshots)
    ensures |From(Events(s), id, NewestVersion(s.snapshots, id) + 1)|
         == |Log(Events(s), id)| - NewestVersion(s.snapshots, id)
  {
    NewestIsGood(cfg, Events(s), s.snapshots, id);
    LogsAreConsecutive(s.log, id);
    FromIsTail(Events(s), id, NewestVersion(s.snapshots, id) + 1);
  }

  lemma RunKeepsSnapshots<S, C, K>(cfg: Config<S, C, K>, actions: seq<Action<C>>)
    ensures var s := Exec(cfg, actions);
            L.LogShape(s.log.store) && SnapshotsAreSound(cfg, Events(s), s.snapshots)
  {
    RunKeepsInv(cfg, actions);
  }

  /** What a load now would replay, not counting what was committed after the client's own save. */
  ghost predicate ReplaysFewerThan<S, C, K>(s: State<S, C, K>, n: int, c: Client)
    requires PhaseOf(s, c).Done?
  {
    var Done(req, version) := PhaseOf(s, c);
    |From(Events(s), req.id, NewestVersion(s.snapshots, req.id) + 1)| - (|Log(Events(s), req.id)| - version) < n
  }

  lemma RecentReplay<S, C, K>(cfg: Config<S, C, K>, s: State<S, C, K>, n: int, c: Client)
    requires L.LogShape(s.log.store) && SnapshotsAreSound(cfg, Events(s), s.snapshots) && Recent(s, n) && PhaseOf(s, c).Done?
    ensures ReplaysFewerThan(s, n, c)
  {
    TailLength(cfg, s, PhaseOf(s, c).req.id);
  }

  /**
   With a snapshot every n events, a load after a successful Save replays fewer
   than n events, plus those that other clients committed since.
   */
  lemma ReplayIsBounded<S, C, K>(cfg: Config<S, C, K>, actions: seq<Action<C>>, n: int, c: Client)
    requires EveryNumber(cfg, n) && 1 <= n
    requires PhaseOf(Exec(cfg, actions), c).Done?
    ensures ReplaysFewerThan(Exec(cfg, actions), n, c)
  {
    RunKeepsSnapshots(cfg, actions);
    RunKeepsRecent(cfg, actions, n);
    RecentReplay(cfg, Exec(cfg, actions), n, c);
  }

  // ----- Where committed commands come from -----

  ghost predicate RequestsSatisfy<S, C, K>(s: State<S, C, K>, p: Request<C> -> bool) {
    && (forall c <- s.phases :: s.phases[c].Idle? || p(s.phases[c].req))
    && (forall i :: 0 <= i < |s.history| ==> p(s.history[i]))
  }

  /** Every committed command was begun by some client. */
  lemma {:induction false} HistoryWasBegun<S, C, K>(cfg: Config<S, C, K>, actions: seq<Action<C>>, p: Request<C> -> bool)
    requires forall i :: 0 <= i < |actions| && actions[i].Begin? ==> p(actions[i].req)
    ensures RequestsSatisfy(Exec(cfg, actions), p)
  {
    if actions != [] {
      HistoryWasBegun(cfg, actions[..|actions| - 1], p);
      StepKeepsRequests(cfg, Exec(cfg, actions[..|actions| - 1]), actions[|actions| - 1], p);
    }
  }

  lemma StepKeepsRequests<S, C, K>(cfg: Config<S, C, K>, s: State<S, C, K>, a: Action<C>, p: Request<C> -> bool)
    requires RequestsSatisfy(s, p) && (a.Begin? ==> p(a.req))
    ensures RequestsSatisfy(Do(cfg, s, a), p)
  {
  }

  /** The event is one that HandleCommand emits for the request, on some state. */
  ghost predicate Emits<S(!new), C, K>(dom: Domain<S, C, K>, req: Request<C>, r: Record<K>) {
    req.id == r.id && exists state: S :: EmitsOn(dom, req, state, r.kind)
  }

  ghost predicate EmitsOn<S, C, K>(dom: Domain<S, C, K>, req: Request<C>, state: S, kind: K) {
    var kinds := dom.decide(req.at, state, req.cmd);
    kinds.Some? && kind in kinds.value
  }

  ghost predicate Caused<S(!new), C, K>(dom: Domain<S, C, K>, history: seq<Request<C>>, r: Record<K>) {
    exists k :: 0 <= k < |history| && Emits(dom, history[k], r)
  }

  ghost predicate AllCaused<S(!new), C, K>(dom: Domain<S, C, K>, history: seq<Request<C>>, events: seq<Record<K>>) {
    forall i :: 0 <= i < |events| ==> Caused(dom, history, events[i])
  }

  lemma CausedNext<S(!new), C, K>(dom: Domain<S, C, K>, history: seq<Request<C>>, req: Request<C>, events: seq<Record<K>>, batch: seq<Record<K>>)
    requires AllCaused(dom, history, events) && forall i :: 0 <= i < |batch| ==> Emits(dom, req, batch[i])
    ensures AllCaused(dom, history + [req], events + batch)
  {
    var longer := history + [req];
    forall i | 0 <= i < |events + batch|
      ensures Caused(dom, longer, (events + batch)[i])
    {
      if i < |events| {
        var k :| 0 <= k < |history| && Emits(dom, history[k], events[i]);
        assert longer[k] == history[k];
      } else {
        assert longer[|history|] == req && Emits(dom, req, batch[i - |events|]);
      }
    }
  }

  lemma CommitKeepsCaused<S(!new), C, K>(cfg: Config<S, C, K>, s: State<S, C, K>, c: Client)
    requires PhaseOf(s, c).Saving? && L.Commits(s.log, c) && PhaseIsSound(cfg, s, c, PhaseOf(s, c))
    requires AllCaused(cfg.dom, s.history, Events(s))
    ensures var t := DoCommit(cfg, s, c); AllCaused(cfg.dom, t.history, Events(t))
  {
    var Saving(req, base) := PhaseOf(s, c);
    var batch := L.Batch(s.log, c);
    CommitAppends(cfg, s, c);
    forall i | 0 <= i < |batch|
      ensures Emits(cfg.dom, req, batch[i])
    {
      assert EmitsOn(cfg.dom, req, base.state, batch[i].kind);
    }
    CausedNext(cfg.dom, s.history, req, Events(s), batch);
  }

  /** Every committed event was emitted for a committed command on its aggregate. */
  lemma {:induction false} EventsWereEmitted<S(!new), C, K>(cfg: Config<S, C, K>, actions: seq<Action<C>>)
    ensures var s := Exec(cfg, actions); AllCaused(cfg.dom, s.history, Events(s))
  {
    if actions != [] {
      var n := |actions| - 1;
      var s, a := Exec(cfg, actions[..n]), actions[n];
      EventsWereEmitted(cfg, actions[..n]);
      RunKeepsInv(cfg, actions[..n]);
      if Committing(s, a) {
        assert PhaseIsSound(cfg, s, a.c, s.phases[a.c]);
        CommitKeepsCaused(cfg, s, a.c);
      } else {
        EventsGrowAtCommits(cfg, s, a);
      }
    }
  }

  // ----- Invariants of an application -----

  /** One command, on a log of the given kinds with the given state, keeps a property of both. */
  ghost predicate KeptByCommand<S, C, K>(dom: Domain<S, C, K>, at: string, inv: (seq<K>, S) -> bool, kinds: seq<K>, s: S, cmd: C) {
    var emitted := dom.decide(at, s, cmd);
    emitted.Some? ==>
      var t := ApplyKinds(dom, at, s, emitted.value);
      t.Some? && inv(kinds + emitted.value, t.value)
  }

  /** A property of logs and states that holds at first and that every command keeps. */
  ghost predicate Inductive<S(!new), C(!new), K(!new)>(dom: Domain<S, C, K>, at: string, inv: (seq<K>, S) -> bool) {
    && inv([], dom.initial(at))
    && forall kinds, s, cmd :: inv(kinds, s) ==> KeptByCommand(dom, at, inv, kinds, s, cmd)
  }

  ghost predicate LogHas<S, C, K>(dom: Domain<S, C, K>, at: string, log: seq<Record<K>>, inv: (seq<K>, S) -> bool) {
    var state := ApplyKinds(dom, at, dom.initial(at), Kinds(log));
    && (forall i :: 0 <= i < |log| ==> log[i].at == at)
    && state.Some? && inv(Kinds(log), state.value)
  }

  lemma ResponseKeeps<S(!new), C(!new), K(!new)>(dom: Domain<S, C, K>, at: string, events: seq<Record<K>>, req: Request<C>, inv: (seq<K>, S) -> bool)
    requires Inductive(dom, at, inv) && LogHas(dom, at, Log(events, req.id), inv) && req.at == at
    ensures LogHas(dom, at, Log(events, req.id) + Respond(dom, events, req), inv)
  {
    var log, batch := Log(events, req.id), Respond(dom, events, req);
    var state := ApplyKinds(dom, at, dom.initial(at), Kinds(log)).value;
    ReplayIsApply(dom, at, dom.initial(at), log);
    assert KeptByCommand(dom, at, inv, Kinds(log), state, req.cmd);
    assert Kinds(log + batch) == Kinds(log) + Kinds(batch);
    ApplySplit(dom, at, dom.initial(at), Kinds(log), Kinds(batch));
    var emitted := dom.decide(at, state, req.cmd);
    if emitted.Some? {
      assert Kinds(batch) == emitted.value;
    } else {
      assert log + batch == log;
    }
  }

  /** Whatever every command keeps holds of every log that commands produce, one after another. */
  lemma {:induction false} SerialLogs<S(!new), C(!new), K(!new)>(
    dom: Domain<S, C, K>, requests: seq<Request<C>>, at: string, id: Uuid, inv: (seq<K>, S) -> bool)
    requires Inductive(dom, at, inv)
    requires forall i :: 0 <= i < |requests| && requests[i].id == id ==> requests[i].at == at
    ensures LogHas(dom, at, Log(Serial(dom, requests), id), inv)
  {
    if requests == [] {
      assert Kinds(Log(Serial(dom, requests), id)) == [];
    } else {
      var n := |requests| - 1;
      var before, req := Serial(dom, requests[..n]), requests[n];
      SerialLogs(dom, requests[..n], at, id, inv);
      LogAppendBatch(before, Respond(dom, before, req), req.id, id);
      if req.id == id {
        ResponseKeeps(dom, at, before, req, inv);
      }
    }
  }

  lemma CommitKeepsLogs<S(!new), C(!new), K(!new)>(cfg: Config<S, C, K>, s: State<S, C, K>, c: Client, at: string, id: Uuid, inv: (seq<K>, S) -> bool)
    requires L.LogShape(s.log.store) && L.SavesAreValid(s.log.saves) && PhaseOf(s, c).Saving? && L.Commits(s.log, c)
    requires PhaseIsSound(cfg, s, c, PhaseOf(s, c)) && Inductive(cfg.dom, at, inv)
    requires OfType(Log(Events(s), id), at) ==> LogHas(cfg.dom, at, Log(Events(s), id), inv)
    ensures var log := Log(Events(DoCommit(cfg, s, c)), id);
            OfType(log, at) ==> LogHas(cfg.dom, at, log, inv)
  {
    var req, batch := PhaseOf(s, c).req, L.Batch(s.log, c);
    var log, longer := Log(Events(s), id), Log(Events(s) + batch, id);
    CommitAppends(cfg, s, c);
    BatchIsOwn(cfg, s, c);
    LogAppendBatch(Events(s), batch, req.id, id);
    if req.id == id && OfType(longer, at) {
      assert forall i :: 0 <= i < |log| ==> longer[i] == log[i];
      assert longer[|log|] == batch[0];
      BatchIsResponse(cfg, s, c);
      ResponseKeeps(cfg.dom, at, Events(s), req, inv);
      LogHasBare(cfg.dom, at, log, batch, inv);
    }
  }

  lemma LogHasBare<S, C, K>(dom: Domain<S, C, K>, at: string, log: seq<Record<K>>, batch: seq<Record<K>>, inv: (seq<K>, S) -> bool)
    requires LogHas(dom, at, log + Bare(batch), inv) && OfType(log + batch, at)
    ensures LogHas(dom, at, log + batch, inv)
  {
    assert Kinds(log + Bare(batch)) == Kinds(log + batch);
  }

  /**
   And so of every log in every reachable state of the concurrent system, as long
   as it has no event of another type.
   */
  lemma {:induction false} CommandLogs<S(!new), C(!new), K(!new)>(
    cfg: Config<S, C, K>, actions: seq<Action<C>>, at: string, id: Uuid, inv: (seq<K>, S) -> bool)
    requires Inductive(cfg.dom, at, inv)
    ensures var log := Log(Events(Exec(cfg, actions)), id);
            OfType(log, at) ==> LogHas(cfg.dom, at, log, inv)
  {
    if actions == [] {
      assert Kinds(Log(Events(Exec(cfg, actions)), id)) == [];
    } else {
      var n := |actions| - 1;
      var s, a := Exec(cfg, actions[..n]), actions[n];
      CommandLogs(cfg, actions[..n], at, id, inv);
      RunKeepsInv(cfg, actions[..n]);
      if Committing(s, a) {
        assert PhaseIsSound(cfg, s, a.c, s.phases[a.c]);
        CommitKeepsLogs(cfg, s, a.c, at, id, inv);
      } else {
        EventsGrowAtCommits(cfg, s, a);
      }
    }
  }
}
