/**
 Snapshots and aggregate types: ways of using the store that keep the events of
 an aggregate to one type, and a run in which a snapshot mixes two.
 */
module AggregateTypes {
  import opened Base
  import L = EventLog
  import opened Aggregates
  import opened Commands

  // ----- Runs that keep types apart -----

  datatype Discipline =
    | OneTypePerId(typeOf: Uuid -> string)
    | NoSnapshots

  /** Every command addresses an aggregate by its one type; or else no snapshot is ever due. */
  ghost predicate Disciplined<S, C, K>(cfg: Config<S, C, K>, actions: seq<Action<C>>, how: Discipline) {
    match how
    case OneTypePerId(typeOf) =>
      forall i :: 0 <= i < |actions| && actions[i].Begin? ==> actions[i].req.at == typeOf(actions[i].req.id)
    case NoSnapshots =>
      forall last, version, clock :: !cfg.due(last, version, clock)
  }

  ghost predicate TypesAreGiven<K>(events: seq<Record<K>>, typeOf: Uuid -> string) {
    forall i :: 0 <= i < |events| ==> events[i].at == typeOf(events[i].id)
  }

  lemma {:induction false} GivenTypesStay<S, C, K>(cfg: Config<S, C, K>, actions: seq<Action<C>>, typeOf: Uuid -> string)
    requires Disciplined(cfg, actions, OneTypePerId(typeOf))
    ensures TypesAreGiven(Events(Exec(cfg, actions)), typeOf)
  {
    if actions != [] {
      var n := |actions| - 1;
      var s, a := Exec(cfg, actions[..n]), actions[n];
      GivenTypesStay(cfg, actions[..n], typeOf);
      HistoryWasBegun(cfg, actions[..n], (req: Request<C>) => req.at == typeOf(req.id));
      RunKeepsClients(cfg, actions[..n]);
      StepKeepsGivenTypes(cfg, s, a, typeOf);
    }
  }

  lemma StepKeepsGivenTypes<S, C, K>(cfg: Config<S, C, K>, s: State<S, C, K>, a: Action<C>, typeOf: Uuid -> string)
    requires ClientInv(cfg, s) && TypesAreGiven(Events(s), typeOf)
    requires PhaseOf(s, a.c).Saving? ==> PhaseOf(s, a.c).req.at == typeOf(PhaseOf(s, a.c).req.id)
    ensures TypesAreGiven(Events(Do(cfg, s, a)), typeOf)
  {
    if Committing(s, a) {
      assert PhaseIsSound(cfg, s, a.c, s.phases[a.c]);
      BatchIsOwn(cfg, s, a.c);
    } else {
      EventsGrowAtCommits(cfg, s, a);
    }
  }

  lemma GivenIsOneTyped<K>(events: seq<Record<K>>, typeOf: Uuid -> string)
    requires TypesAreGiven(events, typeOf)
    ensures OneTyped(events)
  {
    forall id: Uuid
      ensures OneTypedLog(Log(events, id))
    {
      LogMembers(events, id);
    }
  }

  /** A save in progress was decided on the fold of a prefix of the log. */
  ghost predicate WasFolded<S, C, K>(dom: Domain<S, C, K>, events: seq<Record<K>>, phase: Phase<S, C>) {
    phase.Saving? ==>
      IsPrefixState(dom, events, phase.req.at, phase.req.id, phase.base.version, phase.base.state)
  }

  ghost predicate NothingTaken<S, C, K>(cfg: Config<S, C, K>, s: State<S, C, K>) {
    && s.snapshots == []
    && (forall c <- s.phases :: !s.phases[c].TakingSnapshot? && (s.phases[c].GotSnapshot? ==> s.phases[c].found.None?))
    && (forall c <- s.phases :: WasFolded(cfg.dom, Events(s), s.phases[c]))
    && OneTyped(Events(s))
  }

  lemma ReadIsFolded<S, C, K>(cfg: Config<S, C, K>, s: State<S, C, K>, c: Client, outside: bool)
    requires L.LogShape(s.log.store) && PhaseOf(s, c).GotSnapshot? && PhaseOf(s, c).found.None?
    ensures WasFolded(cfg.dom, Events(s), PhaseOf(DoReadEvents(cfg, s, c, outside), c))
  {
    var req := PhaseOf(s, c).req;
    LogsAreConsecutive(s.log, req.id);
    LoadIsFold(cfg, Events(s), req.at, req.id, None);
    var log := Log(Events(s), req.id);
    assert log[..|log|] == log;
  }

  lemma ReadEventsTakesNothing<S, C, K>(cfg: Config<S, C, K>, s: State<S, C, K>, c: Client, outside: bool)
    requires L.LogShape(s.log.store) && NothingTaken(cfg, s) && PhaseOf(s, c).GotSnapshot?
    ensures NothingTaken(cfg, DoReadEvents(cfg, s, c, outside))
  {
    ReadIsFolded(cfg, s, c, outside);
    EventsGrowAtCommits(cfg, s, ReadEvents(c, outside));
  }

  lemma FoldedSurvives<S, C, K>(dom: Domain<S, C, K>, events: seq<Record<K>>, batch: seq<Record<K>>, phase: Phase<S, C>)
    requires WasFolded(dom, events, phase)
    ensures WasFolded(dom, events + batch, phase)
  {
    if phase.Saving? {
      LogAppend(events, batch, phase.req.id);
      var log, v := Log(events, phase.req.id), phase.base.version;
      assert Log(events + batch, phase.req.id)[..v] == log[..v];
    }
  }

  lemma CommitIsOneTyped<S, C, K>(cfg: Config<S, C, K>, s: State<S, C, K>, c: Client)
    requires L.LogShape(s.log.store) && L.SavesAreValid(s.log.saves) && PhaseOf(s, c).Saving? && L.Commits(s.log, c)
    requires PhaseIsSound(cfg, s, c, PhaseOf(s, c)) && WasFolded(cfg.dom, Events(s), PhaseOf(s, c)) && OneTyped(Events(s))
    ensures OneTyped(Events(DoCommit(cfg, s, c)))
  {
    var Saving(req, base) := PhaseOf(s, c);
    var batch, own := L.Batch(s.log, c), Log(Events(s), req.id);
    CommitIsCurrent(cfg, s, c);
    BatchIsOwn(cfg, s, c);
    assert own[..|own|] == own;
    ReplayChecksTypes(cfg.dom, req.at, cfg.dom.initial(req.at), own);
    forall id: Uuid
      ensures OneTypedLog(Log(Events(s) + batch, id))
    {
      assert OneTypedLog(Log(Events(s), id));
      LogAppendBatch(Events(s), batch, req.id, id);
    }
  }

  lemma CommitKeepsNothingTaken<S, C, K>(cfg: Config<S, C, K>, s: State<S, C, K>, c: Client)
    requires L.LogShape(s.log.store) && L.SavesAreValid(s.log.saves) && ClientInv(cfg, s) && NothingTaken(cfg, s)
    requires PhaseOf(s, c).Saving? && L.Commits(s.log, c)
    ensures NothingTaken(cfg, DoCommit(cfg, s, c))
  {
    var t := DoCommit(cfg, s, c);
    assert PhaseIsSound(cfg, s, c, s.phases[c]);
    CommitIsOneTyped(cfg, s, c);
    CommitAppends(cfg, s, c);
    PhasesStayFolded(cfg.dom, Events(s), L.Batch(s.log, c), s.phases, t.phases, c);
  }

  lemma PhasesStayFolded<S, C, K>(dom: Domain<S, C, K>, events: seq<Record<K>>, batch: seq<Record<K>>, was: map<Client, Phase<S, C>>, now: map<Client, Phase<S, C>>, c: Client)
    requires forall d <- was :: WasFolded(dom, events, was[d])
    requires c in now && now == was[c := now[c]] && !now[c].Saving?
    ensures forall d <- now :: WasFolded(dom, events + batch, now[d])
  {
    forall d <- now
      ensures WasFolded(dom, events + batch, now[d])
    {
      if d != c {
        FoldedSurvives(dom, events, batch, was[d]);
      }
    }
  }

  lemma OtherStepsTakeNothing<S, C, K>(cfg: Config<S, C, K>, s: State<S, C, K>, a: Action<C>)
    requires NothingTaken(cfg, s) && Disciplined(cfg, [], NoSnapshots)
    requires !Committing(s, a) && !(a.ReadEvents? && PhaseOf(s, a.c).GotSnapshot?)
    ensures NothingTaken(cfg, Do(cfg, s, a))
  {
    EventsGrowAtCommits(cfg, s, a);
  }

  lemma {:induction false} NothingIsTaken<S, C, K>(cfg: Config<S, C, K>, actions: seq<Action<C>>)
    requires Disciplined(cfg, actions, NoSnapshots)
    ensures NothingTaken(cfg, Exec(cfg, actions))
  {
    if actions != [] {
      var n := |actions| - 1;
      var s, a := Exec(cfg, actions[..n]), actions[n];
      NothingIsTaken(cfg, actions[..n]);
      RunKeepsInv(cfg, actions[..n]);
      if Committing(s, a) {
        CommitKeepsNothingTaken(cfg, s, a.c);
      } else if a.ReadEvents? && PhaseOf(s, a.c).GotSnapshot? {
        ReadEventsTakesNothing(cfg, s, a.c, a.outside);
      } else {
        OtherStepsTakeNothing(cfg, s, a);
      }
    }
  }

  /** Either discipline keeps every aggregate to one type, so such runs are serializable. */
  lemma DisciplinedIsOneTyped<S, C, K>(cfg: Config<S, C, K>, actions: seq<Action<C>>, how: Discipline)
    requires Disciplined(cfg, actions, how)
    ensures OneTyped(Events(Exec(cfg, actions))) && Serialized(cfg, Exec(cfg, actions))
  {
    match how {
      case OneTypePerId(typeOf) =>
        GivenTypesStay(cfg, actions, typeOf);
        GivenIsOneTyped(Events(Exec(cfg, actions)), typeOf);
      case NoSnapshots =>
        NothingIsTaken(cfg, actions);
    }
    Serializability(cfg, actions);
  }

  // ----- Commands that are disturbed -----

  /** A client that is lost in the middle of a save commits nothing and is free again; an aborted attempt can be begun again. */
  lemma LostOrAborted<S, C, K>(cfg: Config<S, C, K>, s: State<S, C, K>, c: Client)
    requires PhaseOf(s, c).Saving? && c in s.log.saves
    ensures var t := Do(cfg, s, Crash(c));
            PhaseOf(t, c).Idle? && c !in t.log.saves && Events(t) == Events(s) && t.snapshots == s.snapshots && t.history == s.history
    ensures var t := Do(cfg, s, AbortAttempt(c));
            && PhaseOf(t, c) == PhaseOf(s, c) && c in t.log.saves && t.log.saves[c] == s.log.saves[c].(attempt := None)
            && Events(t) == Events(s) && t.history == s.history
  {
  }

  /** After a save, a snapshot is taken exactly when it is due, given the newest one, the version and the time. */
  lemma SnapshotWhenDue<S, C, K>(cfg: Config<S, C, K>, s: State<S, C, K>, c: Client, clock: int)
    requires PhaseOf(s, c).Saved?
    ensures var Saved(req, now) := PhaseOf(s, c);
            var t := Do(cfg, Do(cfg, s, CheckSnapshot(c, clock)), SaveSnapshot(c));
            && PhaseOf(t, c) == Done(req, now.version) && t.log == s.log && t.history == s.history
            && t.snapshots == if cfg.due(NewestVersion(s.snapshots, req.id), now.version, clock)
                              then s.snapshots + [Taken(req.id, Snapshot(now.version, req.at, now.state))] else s.snapshots
  {
  }

  /** A save that meets a conflict commits nothing and leaves its client free to begin again. */
  lemma ConflictFreesClient<S, C, K>(cfg: Config<S, C, K>, s: State<S, C, K>, c: Client)
    requires PhaseOf(s, c).Saving? && L.InTransaction(s.log, c) && L.NewStream(s.log, c).None?
    ensures var t := Do(cfg, s, EndAttempt(c));
            PhaseOf(t, c).Idle? && c !in t.log.saves && Events(t) == Events(s) && t.history == s.history
  {
  }

  /** A command that cannot be loaded or is refused or emits nothing ends without a save. */
  lemma UndecidedEnds<S, C, K>(cfg: Config<S, C, K>, s: State<S, C, K>, c: Client, outside: bool)
    requires PhaseOf(s, c).GotSnapshot?
    requires var GotSnapshot(req, found) := PhaseOf(s, c);
             var now := Load(cfg.dom, req.at, found, Events(s), req.id);
             now.None? || cfg.dom.decide(req.at, now.value.state, req.cmd) == None
             || cfg.dom.decide(req.at, now.value.state, req.cmd) == Some([])
    ensures var t := Do(cfg, s, ReadEvents(c, outside)); PhaseOf(t, c).Idle? && t.log == s.log && t.history == s.history
  {
  }

  // ----- A run that mixes types -----

  function After<S, C, K>(cfg: Config<S, C, K>, s: State<S, C, K>, actions: seq<Action<C>>): State<S, C, K> {
    if actions == [] then s
    else Do(cfg, After(cfg, s, actions[..|actions| - 1]), actions[|actions| - 1])
  }

  lemma {:induction false} ExecAppend<S, C, K>(cfg: Config<S, C, K>, first: seq<Action<C>>, rest: seq<Action<C>>)
    ensures Exec(cfg, first + rest) == After(cfg, Exec(cfg, first), rest)
  {
    if rest == [] {
      assert first + rest == first;
    } else {
      var n := |rest| - 1;
      assert (first + rest)[..|first + rest| - 1] == first + rest[..n];
      ExecAppend(cfg, first, rest[..n]);
    }
  }

  /** The steps of one command that nobody disturbs, up to the commit, under either position strategy. */
  function Handling<C>(c: Client, req: Request<C>, outside: bool): seq<Action<C>> {
    [Begin(c, req), ReadSnapshot(c), ReadEvents(c, outside), Reserve(c), BeginAttempt(c), EndAttempt(c)]
  }

  /** What the command loads in a state in which nobody disturbs it. */
  function Current<S, C, K>(cfg: Config<S, C, K>, s: State<S, C, K>, req: Request<C>): Option<Loaded<S>> {
    Load(cfg.dom, req.at, Newest(s.snapshots, req.id), Events(s), req.id)
  }

  ghost predicate CanHandle<S, C, K>(cfg: Config<S, C, K>, s: State<S, C, K>, c: Client, req: Request<C>, now: Loaded<S>, kinds: seq<K>) {
    && L.LogShape(s.log.store) && c !in s.log.saves && (PhaseOf(s, c).Idle? || PhaseOf(s, c).Done?)
    && Current(cfg, s, req) == Some(now) && now.version == |Log(Events(s), req.id)|
    && cfg.dom.decide(req.at, now.state, req.cmd) == Some(kinds) && kinds != []
  }

  lemma StartedSave<S, C, K>(cfg: Config<S, C, K>, s: State<S, C, K>, c: Client, req: Request<C>, outside: bool, now: Loaded<S>, kinds: seq<K>)
    requires CanHandle(cfg, s, c, req, now, kinds)
    ensures var t := Do(cfg, Do(cfg, Do(cfg, s, Begin(c, req)), ReadSnapshot(c)), ReadEvents(c, outside));
            && t.log.store == s.log.store && t.snapshots == s.snapshots && t.history == s.history
            && PhaseOf(t, c) == Saving(req, now) && c in t.log.saves
            && t.log.saves[c].(seen := None) == L.Save(Stamp(req.at, req.id, now.version, kinds), now.version, outside, None, None, None)
  {
    LoadThenStart(s.log, c, req.id, Stamp(req.at, req.id, now.version, kinds), now.version, outside);
  }

  /** Positions are reserved exactly under the strategy that reserves them. */
  lemma ReservedSave<S, C, K>(cfg: Config<S, C, K>, s: State<S, C, K>, c: Client, events: seq<Event<K>>, v: int, outside: bool)
    requires L.LogShape(s.log.store) && PhaseOf(s, c).Saving? && c in s.log.saves
    requires s.log.saves[c].(seen := None) == L.Save(events, v, outside, None, None, None)
    ensures var t := Do(cfg, s, Reserve(c));
            && L.LogShape(t.log.store) && Events(t) == Events(s) && t.log.store.streams == s.log.store.streams
            && t.log.store.all == s.log.store.all + (if outside then |events| else 0)
            && t.snapshots == s.snapshots && t.history == s.history && PhaseOf(t, c) == PhaseOf(s, c) && c in t.log.saves
            && t.log.saves[c].(seen := None) == L.Save(events, v, outside, None, if outside then Some(s.log.store.all) else None, None)
  {
    var t := Do(cfg, s, Reserve(c));
    forall id: Uuid
      ensures L.ShapeOf(t.log.store, id)
    {
      assert L.ShapeOf(s.log.store, id);
    }
  }

  lemma EndedSave<S, C, K>(cfg: Config<S, C, K>, s: State<S, C, K>, c: Client, events: seq<Event<K>>, v: int, outside: bool, previous: int)
    requires L.LogShape(s.log.store) && PhaseOf(s, c).Saving? && c in s.log.saves && events != []
    requires s.log.saves[c].(seen := None) == L.Save(events, v, outside, None, if outside then Some(previous) else None, None)
    requires v == |Log(Events(s), events[0].id)| && (outside || previous == s.log.store.all)
    ensures var t := Do(cfg, Do(cfg, s, BeginAttempt(c)), EndAttempt(c));
            var Saving(req, base) := PhaseOf(s, c);
            var batch := L.Place(events, previous);
            var state := Replay(cfg.dom, req.at, base.state, batch);
            && Events(t) == Events(s) + batch && t.snapshots == s.snapshots && t.history == s.history + [req]
            && c !in t.log.saves
            && PhaseOf(t, c) == if state.None? then Idle else Saved(req, Loaded(state.value, base.version + |batch|))
  {
    AttemptCommits(s.log, c, events, v, outside, previous);
  }

  lemma AttemptCommits<K>(log: L.State<K>, c: Client, events: seq<Event<K>>, v: int, outside: bool, previous: int)
    requires L.LogShape(log.store) && c in log.saves && events != []
    requires log.saves[c].(seen := None) == L.Save(events, v, outside, None, if outside then Some(previous) else None, None)
    requires v == |Log(log.store.events, events[0].id)| && (outside || previous == log.store.all)
    ensures var t := L.Do(log, L.BeginAttempt(c));
            && L.Commits(t, c) && L.Batch(t, c) == L.Place(events, previous) && t.store == log.store
            && c !in L.Do(t, L.EndAttempt(c)).saves && L.Do(t, L.EndAttempt(c)).store.events == log.store.events + L.Place(events, previous)
  {
    assert L.ShapeOf(log.store, events[0].id);
  }

  /** The state after a command that nobody disturbed: its decision is committed. */
  ghost predicate Handled<S, C, K>(cfg: Config<S, C, K>, s: State<S, C, K>, t: State<S, C, K>, c: Client, req: Request<C>, now: Loaded<S>, kinds: seq<K>) {
    var batch := L.Place(Stamp(req.at, req.id, now.version, kinds), s.log.store.all);
    var state := Replay(cfg.dom, req.at, now.state, batch);
    && Events(t) == Events(s) + batch && t.snapshots == s.snapshots && t.history == s.history + [req]
    && c !in t.log.saves
    && PhaseOf(t, c) == if state.None? then Idle else Saved(req, Loaded(state.value, now.version + |batch|))
  }

  lemma SavedInTurn<S, C, K>(
    cfg: Config<S, C, K>, s: State<S, C, K>, s3: State<S, C, K>, s4: State<S, C, K>,
    c: Client, req: Request<C>, outside: bool, now: Loaded<S>, kinds: seq<K>)
    requires CanHandle(cfg, s, c, req, now, kinds)
    requires s3 == Do(cfg, Do(cfg, Do(cfg, s, Begin(c, req)), ReadSnapshot(c)), ReadEvents(c, outside))
    requires s4 == Do(cfg, s3, Reserve(c))
    ensures Handled(cfg, s, Do(cfg, Do(cfg, s4, BeginAttempt(c)), EndAttempt(c)), c, req, now, kinds)
  {
    var events := Stamp(req.at, req.id, now.version, kinds);
    StartedSave(cfg, s, c, req, outside, now, kinds);
    ReservedSave(cfg, s3, c, events, now.version, outside);
    EndedSave(cfg, s4, c, events, now.version, outside, s.log.store.all);
  }

  /** A command that nobody disturbs commits its decision on what it loads, under either strategy. */
  lemma UndisturbedCommand<S, C, K>(cfg: Config<S, C, K>, s: State<S, C, K>, c: Client, req: Request<C>, outside: bool, now: Loaded<S>, kinds: seq<K>)
    requires CanHandle(cfg, s, c, req, now, kinds)
    ensures Handled(cfg, s, After(cfg, s, Handling(c, req, outside)), c, req, now, kinds)
  {
    var a: seq<Action<C>> := Handling(c, req, outside);
    var s1 := Do(cfg, s, a[0]);
    var s2 := Do(cfg, s1, a[1]);
    var s3 := Do(cfg, s2, a[2]);
    var s4 := Do(cfg, s3, a[3]);
    var s5 := Do(cfg, s4, a[4]);
    AfterSix(cfg, a, s, s1, s2, s3, s4, s5, Do(cfg, s5, a[5]));
    SavedInTurn(cfg, s, s3, s4, c, req, outside, now, kinds);
  }

  lemma AfterSix<S, C, K>(
    cfg: Config<S, C, K>, a: seq<Action<C>>, s: State<S, C, K>,
    s1: State<S, C, K>, s2: State<S, C, K>, s3: State<S, C, K>, s4: State<S, C, K>, s5: State<S, C, K>, s6: State<S, C, K>)
    requires |a| == 6 && s1 == Do(cfg, s, a[0]) && s2 == Do(cfg, s1, a[1]) && s3 == Do(cfg, s2, a[2])
    requires s4 == Do(cfg, s3, a[3]) && s5 == Do(cfg, s4, a[4]) && s6 == Do(cfg, s5, a[5])
    ensures After(cfg, s, a) == s6
  {
    assert After(cfg, s, a[..0]) == s;
    AfterNext(cfg, s, a, 0);
    AfterNext(cfg, s, a, 1);
    AfterNext(cfg, s, a, 2);
    AfterNext(cfg, s, a, 3);
    AfterNext(cfg, s, a, 4);
    AfterNext(cfg, s, a, 5);
    assert a[..6] == a;
  }

  lemma AfterNext<S, C, K>(cfg: Config<S, C, K>, s: State<S, C, K>, a: seq<Action<C>>, k: nat)
    requires k < |a|
    ensures After(cfg, s, a[..k + 1]) == Do(cfg, After(cfg, s, a[..k]), a[k])
  {
    assert a[..k + 1][..k] == a[..k];
  }

  function Snapshotting<C>(c: Client): seq<Action<C>> {
    [CheckSnapshot(c, 0), SaveSnapshot(c)]
  }

  lemma SnapshotIsTaken<S, C, K>(cfg: Config<S, C, K>, s: State<S, C, K>, c: Client)
    requires PhaseOf(s, c).Saved? && cfg.due(NewestVersion(s.snapshots, PhaseOf(s, c).req.id), PhaseOf(s, c).now.version, 0)
    ensures var t := After(cfg, s, Snapshotting(c));
            var Saved(req, now) := PhaseOf(s, c);
            && t.log == s.log && t.history == s.history && PhaseOf(t, c).Done?
            && t.snapshots == s.snapshots + [Taken(req.id, Snapshot(now.version, req.at, now.state))]
  {
    var a: seq<Action<C>> := Snapshotting(c);
    AfterNext(cfg, s, a, 1); AfterNext(cfg, s, a, 0);
    assert a[..2] == a && a[..0] == [];
  }

  /** Client 0 handles a command of one type, takes a snapshot, and handles one of another type on the same ID. */
  function MixingRun<C>(first: Request<C>, second: Request<C>): seq<Action<C>> {
    Handling(0, first, false) + Snapshotting(0) + Handling(0, second, false)
  }

  /** Two types that a snapshot can mix: the second accepts a command on the state of the first. */
  ghost predicate Confusable<S, C, K>(cfg: Config<S, C, K>, first: Request<C>, second: Request<C>, one: seq<K>, two: seq<K>) {
    var start := cfg.dom.initial(first.at);
    var state := ApplyKinds(cfg.dom, first.at, start, one);
    && first.id == second.id && first.at != second.at && one != [] && two != []
    && cfg.dom.decide(first.at, start, first.cmd) == Some(one)
    && state.Some? && cfg.due(0, |one|, 0)
    && cfg.dom.decide(second.at, state.value, second.cmd) == Some(two)
  }

  lemma PlacedReplay<S, C, K>(dom: Domain<S, C, K>, req: Request<C>, start: S, kinds: seq<K>)
    ensures Replay(dom, req.at, start, L.Place(Stamp(req.at, req.id, 0, kinds), 0)) == ApplyKinds(dom, req.at, start, kinds)
  {
    var batch := L.Place(Stamp(req.at, req.id, 0, kinds), 0);
    assert Kinds(batch) == kinds;
    ReplayIsApply(dom, req.at, start, batch);
  }

  lemma FirstCanBeHandled<S, C, K>(cfg: Config<S, C, K>, first: Request<C>, one: seq<K>)
    requires one != [] && cfg.dom.decide(first.at, cfg.dom.initial(first.at), first.cmd) == Some(one)
    ensures CanHandle(cfg, Init(), 0, first, Loaded(cfg.dom.initial(first.at), 0), one)
  {
    RunKeepsSnapshots(cfg, []);
  }

  /** The first command is committed, and its state kept for a snapshot. */
  ghost predicate OnlyFirst<S, C, K>(s: State<S, C, K>, first: Request<C>, one: seq<K>, state: S) {
    && Events(s) == L.Place(Stamp(first.at, first.id, 0, one), 0) && s.history == [first] && 0 !in s.log.saves
    && s.snapshots == [] && PhaseOf(s, 0) == Saved(first, Loaded(state, |one|))
  }

  lemma FirstIsHandled<S, C, K>(cfg: Config<S, C, K>, s: State<S, C, K>, first: Request<C>, one: seq<K>, state: S)
    requires Handled(cfg, Init(), s, 0, first, Loaded(cfg.dom.initial(first.at), 0), one)
    requires ApplyKinds(cfg.dom, first.at, cfg.dom.initial(first.at), one) == Some(state)
    ensures OnlyFirst(s, first, one, state)
  {
    PlacedReplay(cfg.dom, first, cfg.dom.initial(first.at), one);
    var batch := L.Place(Stamp(first.at, first.id, 0, one), 0);
    assert [] + batch == batch;
  }

  /** What the second command finds: the snapshot of the other type, and no event after it. */
  lemma SecondLoads<S, C, K>(cfg: Config<S, C, K>, s: State<S, C, K>, first: Request<C>, at: string, one: seq<K>, state: S)
    requires Events(s) == L.Place(Stamp(first.at, first.id, 0, one), 0) && L.LogShape(s.log.store)
    requires s.snapshots == [Taken(first.id, Snapshot(|one|, first.at, state))]
    ensures Log(Events(s), first.id) == Events(s)
    ensures Load(cfg.dom, at, Newest(s.snapshots, first.id), Events(s), first.id) == Some(Loaded(state, |one|))
  {
    LogOfBatch(Events(s), first.id, first.id);
    LogsAreConsecutive(s.log, first.id);
    assert s.snapshots[0].id == first.id;
    TailReplay(cfg.dom, at, Newest(s.snapshots, first.id).value, Events(s), first.id);
    assert Events(s)[|one|..] == [];
  }

  /** After the snapshot, nothing stops the second command. */
  lemma SecondCanBeHandled<S, C, K>(cfg: Config<S, C, K>, s: State<S, C, K>, first: Request<C>, second: Request<C>, one: seq<K>, two: seq<K>, state: S)
    requires OnlyFirst(s, first, one, state) && Confusable(cfg, first, second, one, two)
    requires ApplyKinds(cfg.dom, first.at, cfg.dom.initial(first.at), one) == Some(state)
    requires L.LogShape(s.log.store)
    ensures var t := After(cfg, s, Snapshotting(0));
            CanHandle(cfg, t, 0, second, Loaded(state, |one|), two) && Events(t) == Events(s) && t.history == s.history
  {
    var t := After(cfg, s, Snapshotting(0));
    SnapshotIsTaken(cfg, s, 0);
    SecondLoads(cfg, t, first, second.at, one, state);
  }

  lemma TwoTypes<K>(a: seq<Record<K>>, b: seq<Record<K>>, id: Uuid)
    requires a != [] && b != [] && a[0].at != b[0].at
    requires forall i :: 0 <= i < |a + b| ==> (a + b)[i].id == id
    ensures !OneTyped(a + b)
  {
    LogOfBatch(a + b, id, id);
    assert (a + b)[|a|] == b[0];
    assert !OneTypedLog(Log(a + b, id));
  }

  /** Both commands end up in the log of the one aggregate. */
  lemma BothAreHandled<S, C, K>(
    cfg: Config<S, C, K>, s: State<S, C, K>, t: State<S, C, K>, first: Request<C>, second: Request<C>, one: seq<K>, two: seq<K>, state: S)
    requires Confusable(cfg, first, second, one, two)
    requires Events(s) == L.Place(Stamp(first.at, first.id, 0, one), 0) && s.history == [first]
    requires Handled(cfg, s, t, 0, second, Loaded(state, |one|), two)
    ensures |Events(t)| == |one| + |two| && Events(t)[0].at == first.at && Events(t)[|one|].at == second.at
    ensures t.history == [first, second] && !OneTyped(Events(t))
  {
    TwoTypes(Events(s), L.Place(Stamp(second.at, second.id, |one|, two), s.log.store.all), first.id);
  }

  /** In every application with two such types there is a run that is not serializable. */
  lemma SnapshotMixesTypes<S, C, K>(cfg: Config<S, C, K>, first: Request<C>, second: Request<C>, one: seq<K>, two: seq<K>)
    requires Confusable(cfg, first, second, one, two)
    ensures var s := Exec(cfg, MixingRun(first, second));
            && |Events(s)| == |one| + |two| && Events(s)[0].at == first.at && Events(s)[|one|].at == second.at
            && s.history == [first, second]
            && Bare(Events(s)) != Serial(cfg.dom, s.history)
  {
    var a, b, run := Handling(0, first, false), Handling(0, first, false) + Snapshotting(0), MixingRun(first, second);
    var state := ApplyKinds(cfg.dom, first.at, cfg.dom.initial(first.at), one).value;
    FirstCanBeHandled(cfg, first, one);
    UndisturbedCommand(cfg, Init(), 0, first, false, Loaded(cfg.dom.initial(first.at), 0), one);
    ExecIsAfter(cfg, a);
    FirstIsHandled(cfg, Exec(cfg, a), first, one, state);
    RunKeepsSnapshots(cfg, a);
    SecondCanBeHandled(cfg, Exec(cfg, a), first, second, one, two, state);
    ExecAppend(cfg, a, Snapshotting(0));
    UndisturbedCommand(cfg, Exec(cfg, b), 0, second, false, Loaded(state, |one|), two);
    ExecAppend(cfg, b, Handling(0, second, false));
    BothAreHandled(cfg, Exec(cfg, b), Exec(cfg, run), first, second, one, two, state);
    Serializability(cfg, run);
  }

  lemma ExecIsAfter<S, C, K>(cfg: Config<S, C, K>, actions: seq<Action<C>>)
    ensures Exec(cfg, actions) == After(cfg, Init(), actions)
  {
    ExecAppend(cfg, [], actions);
    assert [] + actions == actions;
  }

  /** Such an application: two counters that count whatever happens to them. */
  function Counters(): Config<int, int, int> {
    Config(Domain(at => 0, (at, n, cmd) => Some([cmd]), (at, n, k) => Some(n + 1)), (last, version, clock) => version - last >= 1)
  }

  /** A concrete run: the second counter starts from the first one's count, and a sequential client would refuse. */
  lemma MixedCounters()
    ensures var run := MixingRun(Request("red", 7, 0), Request("blue", 7, 0));
            var s := Exec(Counters(), run);
            && |Events(s)| == 2 && Events(s)[0].at == "red" && Events(s)[1].at == "blue"
            && Bare(Events(s)) != Serial(Counters().dom, s.history)
  {
    assert ApplyKinds(Counters().dom, "red", 0, [0]) == Some(1) by { assert [0][..0] == []; }
    SnapshotMixesTypes(Counters(), Request("red", 7, 0), Request("blue", 7, 0), [0], [0]);
  }
}
