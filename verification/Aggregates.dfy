/**
 Event-sourced aggregates: rebuilding state by replay, with and without a
 snapshot, and numbering the events that a command emits.
 */
module Aggregates {
  import opened Base
  import opened EventLog
  import opened EventStore

  /**
   What an application supplies: the state of a new aggregate of a type, the
   reaction to a command (None is a refusal) and the effect of an event (None is
   an error).
   */
  datatype Domain<!S, !C, !K> = Domain(
    initial: string -> S,
    decide: (string, S, C) -> Option<seq<K>>,
    apply: (string, S, K) -> Option<S>)

  /** The state at a version; creating a snapshot and applying it restores both. */
  datatype Snapshot<+S> = Snapshot(version: int, at: string, state: S)

  /** An aggregate in memory. */
  datatype Loaded<+S> = Loaded(state: S, version: int)

  // ----- Replay -----

  /** Applies events in order; None if one has another aggregate type or cannot be applied. */
  function Replay<S, C, K>(dom: Domain<S, C, K>, at: string, s: S, log: seq<Record<K>>): Option<S> {
    if log == [] then Some(s)
    else
      var before := Replay(dom, at, s, log[..|log| - 1]);
      var last := log[|log| - 1];
      if before.None? || last.at != at then None else dom.apply(at, before.value, last.kind)
  }

  /** The state that a whole log stands for. */
  function Fold<S, C, K>(dom: Domain<S, C, K>, at: string, log: seq<Record<K>>): Option<S> {
    Replay(dom, at, dom.initial(at), log)
  }

  lemma {:induction false} ReplaySplit<S, C, K>(dom: Domain<S, C, K>, at: string, s: S, a: seq<Record<K>>, b: seq<Record<K>>)
    ensures var mid := Replay(dom, at, s, a);
            Replay(dom, at, s, a + b) == if mid.None? then None else Replay(dom, at, mid.value, b)
  {
    if b == [] {
      assert a + b == a;
    } else {
      assert (a + b)[..|a + b| - 1] == a + b[..|b| - 1];
      ReplaySplit(dom, at, s, a, b[..|b| - 1]);
    }
  }

  lemma {:induction false} ReplayChecksTypes<S, C, K>(dom: Domain<S, C, K>, at: string, s: S, log: seq<Record<K>>)
    requires Replay(dom, at, s, log).Some?
    ensures forall i :: 0 <= i < |log| ==> log[i].at == at
  {
    if log != [] {
      ReplayChecksTypes(dom, at, s, log[..|log| - 1]);
    }
  }

  // ----- The same without the store's records -----

  function ApplyKinds<S, C, K>(dom: Domain<S, C, K>, at: string, s: S, kinds: seq<K>): Option<S> {
    if kinds == [] then Some(s)
    else
      var before := ApplyKinds(dom, at, s, kinds[..|kinds| - 1]);
      if before.None? then None else dom.apply(at, before.value, kinds[|kinds| - 1])
  }

  function Kinds<K>(log: seq<Record<K>>): (kinds: seq<K>)
    ensures |kinds| == |log| && forall i :: 0 <= i < |log| ==> kinds[i] == log[i].kind
  {
    seq(|log|, i requires 0 <= i < |log| => log[i].kind)
  }

  lemma ApplyNext<S, C, K>(dom: Domain<S, C, K>, at: string, s: S, kinds: seq<K>, k: K)
    ensures var before := ApplyKinds(dom, at, s, kinds);
            ApplyKinds(dom, at, s, kinds + [k]) == if before.None? then None else dom.apply(at, before.value, k)
  {
    assert (kinds + [k])[..|kinds|] == kinds;
  }

  lemma {:induction false} ApplySplit<S, C, K>(dom: Domain<S, C, K>, at: string, s: S, a: seq<K>, b: seq<K>)
    ensures var mid := ApplyKinds(dom, at, s, a);
            ApplyKinds(dom, at, s, a + b) == if mid.None? then None else ApplyKinds(dom, at, mid.value, b)
  {
    if b == [] {
      assert a + b == a;
    } else {
      assert (a + b)[..|a + b| - 1] == a + b[..|b| - 1];
      ApplySplit(dom, at, s, a, b[..|b| - 1]);
    }
  }

  lemma {:induction false} ReplayIsApply<S, C, K>(dom: Domain<S, C, K>, at: string, s: S, log: seq<Record<K>>)
    requires forall i :: 0 <= i < |log| ==> log[i].at == at
    ensures Replay(dom, at, s, log) == ApplyKinds(dom, at, s, Kinds(log))
  {
    if log != [] {
      var n := |log| - 1;
      assert Kinds(log)[..n] == Kinds(log[..n]);
      ReplayIsApply(dom, at, s, log[..n]);
    }
  }

  // ----- Loading -----

  /** Where a load starts: at the snapshot, or with a new aggregate. */
  function Starting<S, C, K>(dom: Domain<S, C, K>, at: string, snapshot: Option<Snapshot<S>>): Loaded<S> {
    if snapshot.Some? then Loaded(snapshot.value.state, snapshot.value.version) else Loaded(dom.initial(at), 0)
  }

  /** Applying events to an aggregate in memory, whose version becomes that of the last one. */
  function Continue<S, C, K>(dom: Domain<S, C, K>, at: string, start: Loaded<S>, tail: seq<Record<K>>): Option<Loaded<S>> {
    var state := Replay(dom, at, start.state, tail);
    if state.None? then None
    else Some(Loaded(state.value, if tail == [] then start.version else tail[|tail| - 1].version))
  }

  /** Load: start from the snapshot if there is one, then replay the events after it. */
  function Load<S, C, K>(dom: Domain<S, C, K>, at: string, snapshot: Option<Snapshot<S>>, events: seq<Record<K>>, id: Uuid)
    : Option<Loaded<S>>
  {
    var start := Starting(dom, at, snapshot);
    Continue(dom, at, start, From(events, id, start.version + 1))
  }

  /** The state is the replay of the first `version` events of the aggregate's log. */
  ghost predicate IsPrefixState<S, C, K>(dom: Domain<S, C, K>, events: seq<Record<K>>, at: string, id: Uuid, version: int, state: S) {
    var log := Log(events, id);
    0 <= version <= |log| && Fold(dom, at, log[..version]) == Some(state)
  }

  /** Loading without a snapshot is the plain fold of the log. */
  lemma FullLoad<S, C, K>(dom: Domain<S, C, K>, at: string, events: seq<Record<K>>, id: Uuid)
    requires Consecutive(Log(events, id))
    ensures var log := Log(events, id);
            var state := Fold(dom, at, log);
            Load(dom, at, None, events, id) == if state.None? then None else Some(Loaded(state.value, |log|))
  {
    FromIsTail(events, id, 1);
    var log := Log(events, id);
    assert log[0..] == log;
  }

  lemma TailReplay<S, C, K>(dom: Domain<S, C, K>, at: string, sn: Snapshot<S>, events: seq<Record<K>>, id: Uuid)
    requires Consecutive(Log(events, id)) && 0 <= sn.version <= |Log(events, id)|
    ensures var log := Log(events, id);
            var state := Replay(dom, at, sn.state, log[sn.version..]);
            Load(dom, at, Some(sn), events, id) == if state.None? then None else Some(Loaded(state.value, |log|))
  {
    FromIsTail(events, id, sn.version + 1);
    TailEnds(Log(events, id), sn.version);
  }

  lemma TailEnds<K>(log: seq<Record<K>>, v: int)
    requires Consecutive(log) && 0 <= v <= |log|
    ensures |log[v..]| == |log| - v && (v < |log| ==> log[v..][|log| - v - 1].version == |log|)
  {
  }

  lemma FoldSplit<S, C, K>(dom: Domain<S, C, K>, at: string, log: seq<Record<K>>, v: int)
    requires 0 <= v <= |log|
    ensures var mid := Fold(dom, at, log[..v]);
            Fold(dom, at, log) == if mid.None? then None else Replay(dom, at, mid.value, log[v..])
  {
    ReplaySplit(dom, at, dom.initial(at), log[..v], log[v..]);
    assert log[..v] + log[v..] == log;
  }

  /** A snapshot of the aggregate's own type gives the same state, version and errors as full replay. */
  lemma SnapshotLoad<S, C, K>(dom: Domain<S, C, K>, sn: Snapshot<S>, events: seq<Record<K>>, id: Uuid)
    requires Consecutive(Log(events, id)) && IsPrefixState(dom, events, sn.at, id, sn.version, sn.state)
    ensures Load(dom, sn.at, Some(sn), events, id) == Load(dom, sn.at, None, events, id)
  {
    var log := Log(events, id);
    TailReplay(dom, sn.at, sn, events, id);
    FullLoad(dom, sn.at, events, id);
    FoldSplit(dom, sn.at, log, sn.version);
  }

  /** Every event has the given aggregate type. */
  ghost predicate OfType<K>(log: seq<Record<K>>, at: string) {
    forall i :: 0 <= i < |log| ==> log[i].at == at
  }

  /** A tail replays exactly if every event has the type asked for and every kind can be applied in turn. */
  lemma ReplaysIff<S, C, K>(dom: Domain<S, C, K>, at: string, s: S, tail: seq<Record<K>>)
    ensures Replay(dom, at, s, tail).Some? <==> OfType(tail, at) && ApplyKinds(dom, at, s, Kinds(tail)).Some?
  {
    if Replay(dom, at, s, tail).Some? {
      ReplayChecksTypes(dom, at, s, tail);
    }
    if OfType(tail, at) {
      ReplayIsApply(dom, at, s, tail);
    }
  }

  /**
   The snapshot's aggregate type is not compared with the requested one.  On every
   log, loading through a snapshot agrees with full replay if and only if the type
   is right, or an event after the snapshot has another type than the requested
   one, or those events cannot be applied to the snapshot's state.
   */
  lemma SnapshotLoadIff<S, C, K>(dom: Domain<S, C, K>, at: string, sn: Snapshot<S>, events: seq<Record<K>>, id: Uuid)
    requires Consecutive(Log(events, id)) && IsPrefixState(dom, events, sn.at, id, sn.version, sn.state)
    requires 1 <= sn.version
    ensures var tail := Log(events, id)[sn.version..];
            Load(dom, at, Some(sn), events, id) == Load(dom, at, None, events, id) <==>
              at == sn.at || !OfType(tail, at) || ApplyKinds(dom, at, sn.state, Kinds(tail)).None?
  {
    var log := Log(events, id);
    if at == sn.at {
      SnapshotLoad(dom, sn, events, id);
    } else {
      ReplayChecksTypes(dom, sn.at, dom.initial(sn.at), log[..sn.version]);
      assert log[..sn.version][0] == log[0];
      TailReplay(dom, at, sn, events, id);
      ReplaysIff(dom, at, sn.state, log[sn.version..]);
      FullLoad(dom, at, events, id);
      ReplaysIff(dom, at, dom.initial(at), log);
    }
  }

  // ----- Emitting -----

  /** The events of one command, numbered from the aggregate's version on. */
  function Stamp<K>(at: string, id: Uuid, version: int, kinds: seq<K>): (events: seq<Event<K>>)
    ensures |events| == |kinds|
    ensures forall i :: 0 <= i < |kinds| ==> events[i] == Event(kinds[i], at, id, version + i + 1, map[])
    ensures kinds != [] ==> ValidBatch(events, version)
  {
    seq(|kinds|, i requires 0 <= i < |kinds| => Event(kinds[i], at, id, version + i + 1, map[]))
  }

  /** The base that an aggregate embeds: its version and the events not yet saved. */
  class AggregateBase<K> {
    const id: Uuid
    const at: string
    var version: int
    var uncommitted: seq<Event<K>>

    constructor (at: string, id: Uuid)
      ensures this.at == at && this.id == id && version == 0 && uncommitted == []
    {
      this.at, this.id, version, uncommitted := at, id, 0, [];
    }

    /** Uncommitted events are numbered consecutively after the version. */
    ghost predicate Numbered(kinds: seq<K>)
      reads this
    {
      uncommitted == Stamp(at, id, version, kinds)
    }

    method SetAggregateVersion(v: int)
      modifies this`version
      ensures version == v
    {
      version := v;
    }

    /** Keeps the numbering, so that Save accepts the batch. */
    method AppendEvent(kind: K, ghost kinds: seq<K>)
      requires Numbered(kinds)
      modifies this`uncommitted
      ensures Numbered(kinds + [kind])
      ensures uncommitted == old(uncommitted) + [Event(kind, at, id, version + |old(uncommitted)| + 1, map[])]
      ensures ValidBatch(uncommitted, version)
    {
      uncommitted := uncommitted + [Event(kind, at, id, version + |uncommitted| + 1, map[])];
    }

    /** A command emits its events one by one. */
    method AppendAll(kinds: seq<K>)
      requires uncommitted == []
      modifies this`uncommitted
      ensures Numbered(kinds)
    {
      for i := 0 to |kinds|
        invariant Numbered(kinds[..i])
      {
        AppendEvent(kinds[i], kinds[..i]);
        assert kinds[..i + 1] == kinds[..i] + [kinds[i]];
      }
      assert kinds[..|kinds|] == kinds;
    }

    method ClearUncommittedEvents()
      modifies this`uncommitted
      ensures Numbered([])
    {
      uncommitted := [];
    }

    /** Applies loaded events one by one; the version ends at that of the last one applied. */
    method ApplyEvents<S, C>(dom: Domain<S, C, K>, start: S, events: seq<Event<K>>) returns (state: Option<S>)
      modifies this`version
      ensures var now := Continue(dom, at, Loaded(start, old(version)), Records(events));
              && (state.Some? <==> now.Some?)
              && (state.Some? ==> now == Some(Loaded(state.value, version)))
    {
      var current := start;
      ghost var log := Records(events);
      for i := 0 to |events|
        invariant Replay(dom, at, start, log[..i]) == Some(current)
        invariant version == if i == 0 then old(version) else events[i - 1].version
      {
        assert log[..i + 1][..i] == log[..i];
        var next := if events[i].at != at then None else dom.apply(at, current, events[i].kind);
        if next.None? {
          ReplaySplit(dom, at, start, log[..i + 1], log[i + 1..]);
          assert log[..i + 1] + log[i + 1..] == log;
          return None;
        }
        current := next.value;
        version := events[i].version;
      }
      assert log[..|events|] == log;
      return Some(current);
    }
  }
}
