/** The aggregate store and the command handler as they run when nobody disturbs them. */
module CommandHandler {
  import opened Base
  import L = EventLog
  import E = EventStore
  import opened Aggregates
  import C = Commands

  datatype Outcome = LoadFailed | Refused | NothingToSave | SaveFailed | ApplyFailed | Saved

  /** Events that come back from the store continue an aggregate like the stored records. */
  lemma LoadedContinues<S, Q, K>(dom: Domain<S, Q, K>, at: string, start: Loaded<S>, tail: seq<Record<K>>, loaded: seq<Event<K>>)
    requires E.AreEvents(loaded, tail)
    ensures Continue(dom, at, start, E.Records(loaded)) == Continue(dom, at, start, tail)
  {
    assert C.Bare(E.Records(loaded)) == C.Bare(tail);
    C.ReplayOfBare(dom, at, start.state, E.Records(loaded));
    C.ReplayOfBare(dom, at, start.state, tail);
  }

  /** The records of a decision on what was loaded, if the command is accepted. */
  function Answer<S, Q, K>(dom: Domain<S, Q, K>, req: C.Request<Q>, loaded: Option<Loaded<S>>): seq<Record<K>> {
    if loaded.None? then []
    else
      var kinds := dom.decide(req.at, loaded.value.state, req.cmd);
      if kinds.None? then [] else E.Records(Stamp(req.at, req.id, loaded.value.version, kinds.value))
  }

  /** A save against the current version appends the batch, whatever was in between; any other is a conflict. */
  lemma SavedIff<K>(store: L.Store<K>, at: string, id: Uuid, version: int, kinds: seq<K>)
    requires L.LogShape(store) && kinds != [] && 0 <= version
    ensures var saved := E.Saved(store, Stamp(at, id, version, kinds), version);
            && (saved.Some? <==> version == |Log(store.events, id)|)
            && (saved.Some? ==> saved.value.events == store.events + L.Place(Stamp(at, id, version, kinds), store.all))
  {
    assert L.ShapeOf(store, id);
  }

  lemma SnapshotsSurvive<S, Q, K>(cfg: C.Config<S, Q, K>, events: seq<Record<K>>, batch: seq<Record<K>>, snapshots: seq<C.Taken<S>>)
    requires C.SnapshotsAreSound(cfg, events, snapshots)
    ensures C.SnapshotsAreSound(cfg, events + batch, snapshots)
  {
    forall i | 0 <= i < |snapshots|
      ensures C.SoundSnapshot(cfg, events + batch, snapshots[i].id, snapshots[i].snapshot)
    {
      C.SnapshotSurvives(cfg, events, batch, snapshots[i].id, snapshots[i].snapshot);
    }
  }

  lemma PlacedContinues<S, Q, K>(dom: Domain<S, Q, K>, at: string, start: Loaded<S>, events: seq<Event<K>>, previous: int)
    requires forall i :: 0 <= i < |events| ==> events[i].metadata == map[]
    ensures Continue(dom, at, start, E.Records(events)) == Continue(dom, at, start, L.Place(events, previous))
  {
    C.BareBatch(events, previous);
    C.ReplayOfBare(dom, at, start.state, L.Place(events, previous));
  }

  /** The saved batch applied to the aggregate in memory: what a snapshot would keep. */
  lemma AppliedIsSound<S, Q, K>(cfg: C.Config<S, Q, K>, events: seq<Record<K>>, at: string, id: Uuid, start: Loaded<S>, batch: seq<Record<K>>, next: Loaded<S>)
    requires C.Reached(cfg.dom, events, at, id, start.version, start.state) && start.version == |Log(events, id)|
    requires batch != [] && (forall i :: 0 <= i < |batch| ==> batch[i].id == id && batch[i].at == at)
    requires batch[|batch| - 1].version == start.version + |batch|
    requires Continue(cfg.dom, at, start, batch) == Some(next)
    ensures C.SoundSnapshot(cfg, events + batch, id, Snapshot(next.version, at, next.state))
  {
    var log := Log(events, id);
    assert log[..|log|] == log;
    LogAppendBatch(events, batch, id, id);
    C.FoldNext(cfg, events + batch, log, batch, at, id, start.state, next.state);
  }

  /** What Load should give: the newest snapshot and the events after it. */
  function Stored<S, Q, K>(cfg: C.Config<S, Q, K>, events: seq<Record<K>>, snapshots: seq<C.Taken<S>>, at: string, id: Uuid): Option<Loaded<S>> {
    Load(cfg.dom, at, C.Newest(snapshots, id), events, id)
  }

  /** The answer to a request on what is stored. */
  function Answered<S, Q, K>(cfg: C.Config<S, Q, K>, events: seq<Record<K>>, snapshots: seq<C.Taken<S>>, req: C.Request<Q>): seq<Record<K>> {
    Answer(cfg.dom, req, Stored(cfg, events, snapshots, req.at, req.id))
  }

  ghost predicate SoundStore<S, Q, K>(cfg: C.Config<S, Q, K>, store: L.Store<K>, snapshots: seq<C.Taken<S>>) {
    E.Sound(store) && C.SnapshotsAreSound(cfg, store.events, snapshots)
  }

  /**
   What is loaded is at the last version of the log; without a snapshot, or on a
   log of the requested type, it is the fold of the whole log.
   */
  lemma StoredIsFold<S, Q, K>(cfg: C.Config<S, Q, K>, store: L.Store<K>, snapshots: seq<C.Taken<S>>, at: string, id: Uuid)
    requires SoundStore(cfg, store, snapshots)
    ensures var log := Log(store.events, id);
            var now, state := Stored(cfg, store.events, snapshots, at, id), Fold(cfg.dom, at, log);
            && (now.Some? ==> now.value.version == |log|)
            && (now.Some? ==> C.Reached(cfg.dom, store.events, at, id, |log|, now.value.state))
            && (OfType(log, at) || C.Newest(snapshots, id).None? ==>
                now == if state.None? then None else Some(Loaded(state.value, |log|)))
  {
    var found := C.Newest(snapshots, id);
    C.NewestIsGood(cfg, store.events, snapshots, id);
    C.LogsAreConsecutive(L.State(store, map[], map[], {}), id);
    C.LoadIsFold(cfg, store.events, at, id, found);
    var now := Stored(cfg, store.events, snapshots, at, id);
    if now.Some? {
      C.ReachedAtEnd(cfg.dom, store.events, at, id, now.value.state);
    }
  }

  /** On a log of the requested type, the answer is that of the sequential specification. */
  lemma AnsweredIsResponse<S, Q, K>(cfg: C.Config<S, Q, K>, store: L.Store<K>, snapshots: seq<C.Taken<S>>, req: C.Request<Q>)
    requires SoundStore(cfg, store, snapshots)
    ensures OfType(Log(store.events, req.id), req.at) ==> Answered(cfg, store.events, snapshots, req) == C.Respond(cfg.dom, store.events, req)
  {
    StoredIsFold(cfg, store, snapshots, req.at, req.id);
  }

  /** What the handler needs to know between its steps. */
  lemma HandlerSteps<S, Q, K>(cfg: C.Config<S, Q, K>, store: L.Store<K>, snapshots: seq<C.Taken<S>>, req: C.Request<Q>, now: Loaded<S>)
    requires SoundStore(cfg, store, snapshots) && Stored(cfg, store.events, snapshots, req.at, req.id) == Some(now)
    ensures now.version == |Log(store.events, req.id)| && C.Reached(cfg.dom, store.events, req.at, req.id, now.version, now.state)
    ensures var kinds := cfg.dom.decide(req.at, now.state, req.cmd);
            Answered(cfg, store.events, snapshots, req)
              == if kinds.None? then [] else E.Records(Stamp(req.at, req.id, now.version, kinds.value))
  {
    StoredIsFold(cfg, store, snapshots, req.at, req.id);
  }

  /** The event store with snapshots, and the strategy that says when to take one. */
  class AggregateStore<S, Q, K> {
    const cfg: C.Config<S, Q, K>
    const events: E.EventStore<K>
    var snapshots: seq<C.Taken<S>>

    constructor (cfg: C.Config<S, Q, K>, events: E.EventStore<K>)
      ensures this.cfg == cfg && this.events == events && snapshots == []
    {
      this.cfg, this.events, snapshots := cfg, events, [];
    }

    ghost predicate Valid()
      reads this, events
    {
      SoundStore(cfg, events.store, snapshots)
    }

    /** Loads through the newest snapshot. */
    method LoadAggregate(a: AggregateBase<K>) returns (state: Option<S>)
      requires L.LogShape(events.store) && a.version == 0
      modifies a`version
      ensures Stored(cfg, events.store.events, snapshots, a.at, a.id)
                == if state.None? then None else Some(Loaded(state.value, a.version))
    {
      var found := C.Newest(snapshots, a.id);
      var start := cfg.dom.initial(a.at);
      if found.Some? {
        start := found.value.state;
        a.SetAggregateVersion(found.value.version);
      }
      var tail := events.LoadFrom(a.id, a.version + 1);
      var loaded: seq<Event<K>> := if tail.Ok? then tail.value else [];
      LoadedContinues(cfg.dom, a.at, Loaded(start, a.version), E.From(events.store.events, a.id, a.version + 1), loaded);
      state := a.ApplyEvents(cfg.dom, start, loaded);
    }

    /** Takes a snapshot if the strategy says so. */
    method TakeSnapshot(a: AggregateBase<K>, state: S, clock: int)
      requires Valid() && C.SoundSnapshot(cfg, events.store.events, a.id, Snapshot(a.version, a.at, state))
      modifies this`snapshots
      ensures Valid()
      ensures snapshots == if cfg.due(C.NewestVersion(old(snapshots), a.id), a.version, clock)
                           then old(snapshots) + [C.Taken(a.id, Snapshot(a.version, a.at, state))] else old(snapshots)
    {
      var newest := C.Newest(snapshots, a.id);
      var last := if newest.Some? then newest.value.version else 0;
      if cfg.due(last, a.version, clock) {
        snapshots := snapshots + [C.Taken(a.id, Snapshot(a.version, a.at, state))];
      }
    }

    /**
     Saves the uncommitted events, applies them to the aggregate in memory and
     takes a snapshot when one is due.  The save fails exactly on a conflict.
     */
    method SaveAggregate(a: AggregateBase<K>, state: S, ghost kinds: seq<K>, clock: int, aborted: seq<int>) returns (outcome: Outcome)
      requires Valid() && a.Numbered(kinds)
      requires C.Reached(cfg.dom, events.store.events, a.at, a.id, a.version, state)
      modifies this`snapshots, events, a
      ensures Valid()
      ensures outcome != LoadFailed && outcome != Refused && (outcome == NothingToSave <==> kinds == [])
      ensures outcome == SaveFailed <==> kinds != [] && old(a.version) != old(|Log(events.store.events, a.id)|)
      ensures C.Bare(events.store.events) == C.Bare(old(events.store.events))
                + if outcome == SaveFailed then [] else E.Records(old(a.uncommitted))
      ensures var now := Continue(cfg.dom, a.at, Loaded(state, old(a.version)), E.Records(old(a.uncommitted)));
              && (outcome == Saved ==> now.Some?)
              && snapshots == if outcome == Saved && cfg.due(C.NewestVersion(old(snapshots), a.id), now.value.version, clock)
                              then old(snapshots) + [C.Taken(a.id, Snapshot(now.value.version, a.at, now.value.state))]
                              else old(snapshots)
    {
      ghost var before := events.store;
      var uncommitted := a.uncommitted;
      if |uncommitted| == 0 {
        return NothingToSave;
      }
      ghost var batch := L.Place(uncommitted, before.all);
      SavedIff(before, a.at, a.id, a.version, kinds);
      SnapshotsSurvive(cfg, before.events, batch, snapshots);
      C.BareBatch(uncommitted, before.all);
      C.BareAppend(before.events, batch);
      var error := events.Save(uncommitted, a.version, aborted);
      if error.Some? {
        return SaveFailed;
      }
      a.ClearUncommittedEvents();
      ghost var start := Loaded(state, a.version);
      PlacedContinues(cfg.dom, a.at, start, uncommitted, before.all);
      var next := a.ApplyEvents(cfg.dom, state, uncommitted);
      if next.None? {
        return ApplyFailed;
      }
      AppliedIsSound(cfg, before.events, a.at, a.id, start, batch, Loaded(next.value, a.version));
      TakeSnapshot(a, next.value, clock);
      return Saved;
    }

    /**
     Load, decide, save: the decision on what is loaded is appended, and a save
     against the version just loaded meets no conflict.
     */
    method HandleCommand(req: C.Request<Q>, clock: int, aborted: seq<int>) returns (outcome: Outcome)
      requires Valid()
      modifies this`snapshots, events
      ensures Valid() && outcome != SaveFailed
      ensures var stored, answer := old(events.store.events), Answered(cfg, old(events.store.events), old(snapshots), req);
              && C.Bare(events.store.events) == C.Bare(stored) + answer
              && (outcome == Saved || outcome == ApplyFailed <==> answer != [])
              && (OfType(Log(stored, req.id), req.at) ==> answer == C.Respond(cfg.dom, stored, req))
      ensures outcome != Saved ==> snapshots == old(snapshots)
    {
      AnsweredIsResponse(cfg, events.store, snapshots, req);
      var a := new AggregateBase<K>(req.at, req.id);
      var state := LoadAggregate(a);
      if state.None? {
        return LoadFailed;
      }
      HandlerSteps(cfg, events.store, snapshots, req, Loaded(state.value, a.version));
      var kinds := cfg.dom.decide(req.at, state.value, req.cmd);
      if kinds.None? {
        return Refused;
      }
      a.AppendAll(kinds.value);
      outcome := SaveAggregate(a, state.value, kinds.value, clock, aborted);
    }
  }
}
