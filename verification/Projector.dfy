/**
 Projecting events onto versioned read models: the version checks of the event
 handler, with any number of workers, and the version-checking repository.
 */
module Projector {
  import opened Base

  /** What a projector returns: an error, a model to keep, or no model. */
  datatype Projected<+M> = Error | Keep(model: M) | Remove

  /** The application: a projector over versioned models, and the factory for new ones. */
  datatype Config<!M, !K> = Config(
    project: (Event<K>, M) -> Projected<M>,
    versionOf: M -> int,
    idOf: M -> Uuid,
    factory: Option<M>)

  type Repo<M> = map<Uuid, M>

  /** A new model starts at version 0. */
  ghost predicate StartsAtZero<M, K>(cfg: Config<M, K>) {
    cfg.factory.Some? ==> cfg.versionOf(cfg.factory.value) == 0
  }

  // ----- Handling one event -----

  datatype Outcome<+M> =
    | Ignored
    | ModelNotSet
    | ModelRemoved
    | IncorrectVersion
    | ProjectionFailed
    | Save(model: M)
    | Delete

  /** The decision on an event, given what the repository holds. */
  function Handle<M, K>(cfg: Config<M, K>, found: Option<M>, e: Event<K>): Outcome<M> {
    if found.None? && cfg.factory.None? then ModelNotSet
    else
      var model := if found.Some? then found.value else cfg.factory.value;
      var version := cfg.versionOf(model);
      if e.version <= version then Ignored
      else if e.version != version + 1 then
        if version == 0 && e.version > 1 then ModelRemoved else IncorrectVersion
      else
        match cfg.project(e, model)
        case Error => ProjectionFailed
        case Remove => Delete
        case Keep(m) => if cfg.versionOf(m) != e.version || cfg.idOf(m) != e.id then ProjectionFailed else Save(m)
  }

  /** The model that an event is projected onto, if there is one: what was found, or else a new one. */
  function ModelFor<M, K>(cfg: Config<M, K>, found: Option<M>): Option<M> {
    if found.Some? then found else cfg.factory
  }

  /** When each outcome arises, one by one. */
  lemma OutcomeTells<M, K>(cfg: Config<M, K>, found: Option<M>, e: Event<K>)
    ensures var o, model := Handle(cfg, found, e), ModelFor(cfg, found);
            && (o.ModelNotSet? <==> found.None? && cfg.factory.None?)
            && (model.Some? ==>
                var m, v := model.value, cfg.versionOf(model.value);
                && (o.Ignored? <==> e.version <= v)
                && (o.ModelRemoved? <==> v == 0 && e.version >= 2)
                && (o.IncorrectVersion? <==> v != 0 && e.version >= v + 2)
                && (o.Delete? <==> e.version == v + 1 && cfg.project(e, m).Remove?)
                && (o.ProjectionFailed? <==>
                    e.version == v + 1 && match cfg.project(e, m)
                                          case Error => true
                                          case Remove => false
                                          case Keep(n) => cfg.versionOf(n) != e.version || cfg.idOf(n) != e.id)
                && (o.Save? ==> cfg.project(e, m) == Keep(o.model)))
  {
  }

  /** What an outcome does to the repository: a model saved or removed under the event's ID, and nothing else. */
  lemma WriteTells<M>(repo: Repo<M>, id: Uuid, o: Outcome<M>, other: Uuid)
    ensures var after := Write(repo, id, o);
            && (other != id ==> Lookup(after, other) == Lookup(repo, other))
            && (o.Save? ==> Lookup(after, id) == Some(o.model))
            && (o.Delete? ==> Lookup(after, id) == None)
            && (!o.Save? && !o.Delete? ==> after == repo)
  {
  }

  predicate VersionMismatch<M>(o: Outcome<M>) {
    o.ModelRemoved? || o.IncorrectVersion?
  }

  function Lookup<M>(repo: Repo<M>, id: Uuid): Option<M> {
    if id in repo then Some(repo[id]) else None
  }

  function Write<M>(repo: Repo<M>, id: Uuid, o: Outcome<M>): Repo<M> {
    match o
    case Save(m) => repo[id := m]
    case Delete => repo - {id}
    case _ => repo
  }

  // ----- The version-checking repository -----

  datatype Found<+M> = NotFound | TooOld | Match(model: M) | TimedOut

  function FindMinVersion<M, K>(cfg: Config<M, K>, view: Option<M>, minVersion: int): Found<M> {
    if view.None? then NotFound
    else if cfg.versionOf(view.value) < minVersion then TooOld
    else Match(view.value)
  }

  /**
   The retry loop of the version-checking repository; `views` is what each try
   sees.  Without a deadline the first try decides.  With one, the first view
   that is new enough is returned, and a timeout if there is none.
   */
  method FindWithMinVersion<M, K>(cfg: Config<M, K>, views: seq<Option<M>>, minVersion: int, hasDeadline: bool)
    returns (r: Found<M>, tries: nat)
    requires views != []
    ensures minVersion < 1 ==> r == if views[0].None? then NotFound else Match(views[0].value)
    ensures minVersion >= 1 && !hasDeadline ==> tries == 1 && r == FindMinVersion(cfg, views[0], minVersion)
    ensures minVersion >= 1 && hasDeadline ==>
              match r
              case Match(m) => 1 <= tries <= |views| && FindMinVersion(cfg, views[tries - 1], minVersion) == Match(m)
              case _ => r == TimedOut && tries == |views|
    ensures minVersion >= 1 ==> forall k :: 0 <= k < tries - 1 && k < |views| ==> !FindMinVersion(cfg, views[k], minVersion).Match?
    ensures r.TimedOut? ==> forall k :: 0 <= k < |views| ==> !FindMinVersion(cfg, views[k], minVersion).Match?
  {
    if minVersion < 1 {
      return if views[0].None? then NotFound else Match(views[0].value), 1;
    }
    tries := 0;
    while tries < |views|
      invariant tries <= |views|
      invariant forall k :: 0 <= k < tries ==> !FindMinVersion(cfg, views[k], minVersion).Match?
      invariant !hasDeadline ==> tries == 0
    {
      r := FindMinVersion(cfg, views[tries], minVersion);
      tries := tries + 1;
      if r.Match? || !hasDeadline {
        return r, tries;
      }
    }
    return TimedOut, tries;
  }

  /** Handling an event through the version-checking repository, which is asked for one version less. */
  function HandleVersioned<M, K>(cfg: Config<M, K>, found: Option<M>, e: Event<K>): Outcome<M> {
    if e.version - 1 < 1 then Handle(cfg, found, e)
    else
      match FindMinVersion(cfg, found, e.version - 1)
      case TooOld => IncorrectVersion
      case _ => Handle(cfg, found, e)
  }

  /** A try at an event, through either repository. */
  function Attempt<M, K>(cfg: Config<M, K>, versioned: bool, repo: Repo<M>, e: Event<K>): Outcome<M> {
    if versioned then HandleVersioned(cfg, Lookup(repo, e.id), e) else Handle(cfg, Lookup(repo, e.id), e)
  }

  /** An event, and what others make of the repository while the handler waits to retry. */
  datatype Delivery<!M, !K> = Delivery(e: Event<K>, wait: Repo<M> -> Repo<M>)

  predicate Retries<M, K>(cfg: Config<M, K>, versioned: bool, retry: bool, repo: Repo<M>, e: Event<K>) {
    retry && VersionMismatch(Attempt(cfg, versioned, repo, e))
  }

  /** One delivery: on a version mismatch it waits and tries once more. */
  function Receive<M, K>(cfg: Config<M, K>, versioned: bool, retry: bool, repo: Repo<M>, d: Delivery<M, K>): Repo<M> {
    var last := if Retries(cfg, versioned, retry, repo, d.e) then d.wait(repo) else repo;
    Write(last, d.e.id, Attempt(cfg, versioned, last, d.e))
  }

  function ReceiveAll<M, K>(cfg: Config<M, K>, versioned: bool, retry: bool, repo: Repo<M>, ds: seq<Delivery<M, K>>): Repo<M> {
    if ds == [] then repo
    else Receive(cfg, versioned, retry, ReceiveAll(cfg, versioned, retry, repo, ds[..|ds| - 1]), ds[|ds| - 1])
  }

  /** One try through the version-checking repository writes the same and mismatches alike. */
  lemma VersionedTryWritesTheSame<M, K>(cfg: Config<M, K>, repo: Repo<M>, e: Event<K>)
    ensures Write(repo, e.id, Attempt(cfg, true, repo, e)) == Write(repo, e.id, Attempt(cfg, false, repo, e))
    ensures VersionMismatch(Attempt(cfg, true, repo, e)) <==> VersionMismatch(Attempt(cfg, false, repo, e))
  {
  }

  /**
   Without a deadline, the version-checking repository changes nothing that is
   stored: over every sequence of deliveries, through the retry, and whatever
   others do to the repository during each wait.
   */
  lemma {:induction false} VersionedRepoStoresTheSame<M, K>(cfg: Config<M, K>, retry: bool, repo: Repo<M>, ds: seq<Delivery<M, K>>)
    ensures ReceiveAll(cfg, true, retry, repo, ds) == ReceiveAll(cfg, false, retry, repo, ds)
  {
    if ds != [] {
      var n := |ds| - 1;
      VersionedRepoStoresTheSame(cfg, retry, repo, ds[..n]);
      var before := ReceiveAll(cfg, false, retry, repo, ds[..n]);
      VersionedTryWritesTheSame(cfg, before, ds[n].e);
      VersionedTryWritesTheSame(cfg, ds[n].wait(before), ds[n].e);
    }
  }

  /**
   What the retry is for: an event that came too early is applied after all if its
   predecessors arrive during the wait; without the retry it is lost.
   */
  lemma RetryHelps<M, K>(cfg: Config<M, K>, versioned: bool, repo: Repo<M>, d: Delivery<M, K>, m: M)
    requires d.e.id in repo && 1 <= cfg.versionOf(repo[d.e.id]) && cfg.versionOf(repo[d.e.id]) + 2 <= d.e.version
    requires var after := d.wait(repo);
             && d.e.id in after && cfg.versionOf(after[d.e.id]) == d.e.version - 1
             && cfg.project(d.e, after[d.e.id]) == Keep(m) && cfg.versionOf(m) == d.e.version && cfg.idOf(m) == d.e.id
    ensures Receive(cfg, versioned, true, repo, d) == d.wait(repo)[d.e.id := m]
    ensures Receive(cfg, versioned, false, repo, d) == repo
  {
  }

  /** The event handler over its repository, plain or version-checking. */
  class EventHandler<M, K> {
    const cfg: Config<M, K>
    const useRetryOnce: bool
    const versioned: bool
    var repo: Repo<M>

    constructor (cfg: Config<M, K>, useRetryOnce: bool, versioned: bool)
      ensures this.cfg == cfg && this.useRetryOnce == useRetryOnce && this.versioned == versioned && repo == map[]
    {
      this.cfg, this.useRetryOnce, this.versioned, repo := cfg, useRetryOnce, versioned, map[];
    }

    /** HandleEvent retries exactly on a version mismatch, and at most once. */
    method HandleEvent(d: Delivery<M, K>) returns (o: Outcome<M>, finds: nat)
      modifies this`repo
      ensures repo == Receive(cfg, versioned, useRetryOnce, old(repo), d)
      ensures var retried := Retries(cfg, versioned, useRetryOnce, old(repo), d.e);
              && finds == (if retried then 2 else 1)
              && o == Attempt(cfg, versioned, if retried then d.wait(old(repo)) else old(repo), d.e)
    {
      var triedOnce := false;
      finds := 0;
      while true
        invariant finds == if triedOnce then 1 else 0
        invariant !triedOnce ==> repo == old(repo)
        invariant triedOnce ==> Retries(cfg, versioned, useRetryOnce, old(repo), d.e) && repo == d.wait(old(repo))
        decreases !triedOnce
      {
        finds := finds + 1;
        o := Attempt(cfg, versioned, repo, d.e);
        if VersionMismatch(o) && useRetryOnce && !triedOnce {
          triedOnce := true;
          repo := d.wait(repo);
          continue;
        }
        repo := Write(repo, d.e.id, o);
        return;
      }
    }
  }

  // ----- The model that a log stands for -----

  /** Version i + 1 of an aggregate is the event at index i. */
  ghost predicate IsLog<K>(log: seq<Event<K>>, id: Uuid) {
    forall i :: 0 <= i < |log| ==> log[i].id == id && log[i].version == i + 1
  }

  /** The projection of events 1..v over a new model; None once it fails or is removed. */
  function Prefix<M, K>(cfg: Config<M, K>, log: seq<Event<K>>, v: nat): Option<M>
    requires v <= |log|
  {
    if v == 0 then cfg.factory
    else
      var before := Prefix(cfg, log, v - 1);
      if before.None? then None
      else
        match cfg.project(log[v - 1], before.value)
        case Keep(m) => if cfg.versionOf(m) == v && cfg.idOf(m) == log[v - 1].id then Some(m) else None
        case _ => None
  }

  /** A stored model of version v is the projection of events 1..v. */
  ghost predicate IsPrefix<M, K>(cfg: Config<M, K>, log: seq<Event<K>>, m: M) {
    1 <= cfg.versionOf(m) <= |log| && Prefix(cfg, log, cfg.versionOf(m)) == Some(m)
  }

  /** A saved outcome extends the prefix that was found by exactly the event. */
  lemma HandleExtendsPrefix<M, K>(cfg: Config<M, K>, log: seq<Event<K>>, id: Uuid, found: Option<M>, v: nat)
    requires StartsAtZero(cfg) && IsLog(log, id) && 1 <= v <= |log|
    requires found.Some? ==> IsPrefix(cfg, log, found.value)
    ensures var o := Handle(cfg, found, log[v - 1]); o.Save? ==> IsPrefix(cfg, log, o.model)
  {
  }

  // ----- Any number of workers -----

  type Worker = nat

  /** `jobs` holds what a worker has decided to write but not yet written. */
  datatype State<+M> = State(repo: map<Uuid, M>, jobs: map<Worker, (Uuid, Outcome<M>)>)

  datatype Action =
    | Find(w: Worker, id: Uuid, v: nat)
    | Store(w: Worker)
    | Die(w: Worker)

  /** Events may be delivered to any worker, any number of times and in any order. */
  function Do<M, K>(cfg: Config<M, K>, logs: Uuid -> seq<Event<K>>, s: State<M>, a: Action): State<M> {
    match a
    case Find(w, id, v) =>
      if w in s.jobs || !(1 <= v <= |logs(id)|) then s
      else s.(jobs := s.jobs[w := (id, Handle(cfg, Lookup(s.repo, id), logs(id)[v - 1]))])
    case Store(w) =>
      if w !in s.jobs then s
      else State(Write(s.repo, s.jobs[w].0, s.jobs[w].1), s.jobs - {w})
    case Die(w) => s.(jobs := s.jobs - {w})
  }

  function Exec<M, K>(cfg: Config<M, K>, logs: Uuid -> seq<Event<K>>, actions: seq<Action>): State<M> {
    if actions == [] then State(map[], map[])
    else Do(cfg, logs, Exec(cfg, logs, actions[..|actions| - 1]), actions[|actions| - 1])
  }

  ghost predicate Safe<M, K>(cfg: Config<M, K>, logs: Uuid -> seq<Event<K>>, s: State<M>) {
    && (forall id <- s.repo :: IsPrefix(cfg, logs(id), s.repo[id]))
    && (forall w <- s.jobs :: s.jobs[w].1.Save? ==> IsPrefix(cfg, logs(s.jobs[w].0), s.jobs[w].1.model))
  }

  /**
   Projection safety: with racing workers and events duplicated, reordered or
   lost, a stored model of version v is the projection of events 1..v.
   */
  lemma {:induction false} ProjectionIsSafe<M, K>(cfg: Config<M, K>, logs: Uuid -> seq<Event<K>>, actions: seq<Action>)
    requires StartsAtZero(cfg) && forall id: Uuid :: IsLog(logs(id), id)
    ensures Safe(cfg, logs, Exec(cfg, logs, actions))
  {
    if actions != [] {
      var n := |actions| - 1;
      ProjectionIsSafe(cfg, logs, actions[..n]);
      var s, a := Exec(cfg, logs, actions[..n]), actions[n];
      if a.Find? && 1 <= a.v <= |logs(a.id)| {
        HandleExtendsPrefix(cfg, logs(a.id), a.id, Lookup(s.repo, a.id), a.v);
      }
    }
  }

  /** A model that is nothing but its version, for a log of two events. */
  function Counter(): Config<int, int> {
    Config((e, m) => Keep(m + 1), m => m, m => 7, Some(0))
  }

  function TwoEvents(): Uuid -> seq<Event<int>> {
    id => if id == 7 then [Event(0, "list", 7, 1, map[]), Event(0, "list", 7, 2, map[])] else []
  }

  function SlowWorker(): seq<Action> {
    [Find(0, 7, 1), Find(1, 7, 1), Store(1), Find(1, 7, 2), Store(1), Store(0)]
  }

  lemma SlowWorkerWaits()
    ensures Exec(Counter(), TwoEvents(), SlowWorker()[..3]) == State(map[7 := 1], map[0 := (7, Save(1))])
  {
    var cfg, logs, run := Counter(), TwoEvents(), SlowWorker();
    ExecNext(cfg, logs, run, 0); ExecNext(cfg, logs, run, 1); ExecNext(cfg, logs, run, 2);
  }

  lemma SecondEvent()
    ensures |TwoEvents()(7)| == 2 && Handle(Counter(), Some(1), TwoEvents()(7)[1]) == Save(2)
  {
  }

  lemma FastWorkerAdvances(s: State<int>)
    requires s == State(map[7 := 1], map[0 := (7, Save(1))])
    ensures Do(Counter(), TwoEvents(), Do(Counter(), TwoEvents(), s, Find(1, 7, 2)), Store(1))
         == State(map[7 := 2], map[0 := (7, Save(1))])
  {
    SecondEvent();
    assert Lookup(s.repo, 7) == Some(1);
  }

  lemma FastWorkerStored()
    ensures Exec(Counter(), TwoEvents(), SlowWorker()[..5]) == State(map[7 := 2], map[0 := (7, Save(1))])
  {
    var run := SlowWorker();
    SlowWorkerWaits();
    FastWorkerAdvances(Exec(Counter(), TwoEvents(), run[..3]));
    ExecNext(Counter(), TwoEvents(), run, 3); ExecNext(Counter(), TwoEvents(), run, 4);
  }

  /** A stored version can go backwards: a slow worker overwrites what a faster one stored. */
  lemma VersionsCanGoBack()
    ensures Exec(Counter(), TwoEvents(), SlowWorker()[..5]).repo == map[7 := 2]
    ensures Exec(Counter(), TwoEvents(), SlowWorker()).repo == map[7 := 1]
  {
    var run := SlowWorker();
    FastWorkerStored();
    ExecNext(Counter(), TwoEvents(), run, 5);
    assert run[..6] == run;
  }

  lemma ExecNext<M, K>(cfg: Config<M, K>, logs: Uuid -> seq<Event<K>>, run: seq<Action>, n: nat)
    requires n < |run|
    ensures Exec(cfg, logs, run[..n + 1]) == Do(cfg, logs, Exec(cfg, logs, run[..n]), run[n])
  {
    assert run[..n + 1][..n] == run[..n];
  }

  // ----- One worker -----

  predicate AllWithin(versions: seq<nat>, n: nat) {
    forall i :: 0 <= i < |versions| ==> 1 <= versions[i] <= n
  }

  /** The stored model after a sequence of deliveries, given by event versions. */
  function Deliveries<M, K>(cfg: Config<M, K>, log: seq<Event<K>>, versions: seq<nat>): Option<M>
    requires AllWithin(versions, |log|)
  {
    if versions == [] then None
    else
      var n := |versions| - 1;
      var before := Deliveries(cfg, log, versions[..n]);
      match Handle(cfg, before, log[versions[n] - 1])
      case Save(m) => Some(m)
      case Delete => None
      case _ => before
  }

  /** How far a sequence of deliveries gets: an event counts when it is the next one. */
  function Progress(versions: seq<nat>): nat {
    if versions == [] then 0
    else
      var before := Progress(versions[..|versions| - 1]);
      if versions[|versions| - 1] == before + 1 then before + 1 else before
  }

  /** The log can be projected to its end without an error and without removing the model. */
  ghost predicate Projectable<M, K>(cfg: Config<M, K>, log: seq<Event<K>>) {
    forall v: nat :: v <= |log| ==> Prefix(cfg, log, v).Some?
  }

  /** The stored model is always the one that the progress so far stands for. */
  lemma {:induction false} DeliveriesFollowProgress<M, K>(cfg: Config<M, K>, log: seq<Event<K>>, id: Uuid, versions: seq<nat>)
    requires StartsAtZero(cfg) && IsLog(log, id) && Projectable(cfg, log)
    requires AllWithin(versions, |log|)
    ensures var p := Progress(versions);
            && p <= |log|
            && Deliveries(cfg, log, versions) == if p == 0 then None else Prefix(cfg, log, p)
  {
    assert Prefix(cfg, log, 0).Some?;
    if versions != [] {
      var n := |versions| - 1;
      DeliveriesFollowProgress(cfg, log, id, versions[..n]);
      var v, p := versions[n], Progress(versions[..n]);
      assert Prefix(cfg, log, p).Some? && Prefix(cfg, log, v).Some?;
      PrefixVersion(cfg, log, p);
    }
  }

  lemma PrefixVersion<M, K>(cfg: Config<M, K>, log: seq<Event<K>>, v: nat)
    requires StartsAtZero(cfg) && v <= |log| && Prefix(cfg, log, v).Some?
    ensures cfg.versionOf(Prefix(cfg, log, v).value) == v
  {
  }

  /** Progress, and with it the stored version, never decreases. */
  lemma {:induction false} ProgressGrows(versions: seq<nat>, i: nat, j: nat)
    requires i <= j <= |versions|
    ensures Progress(versions[..i]) <= Progress(versions[..j])
  {
    if i < j {
      ProgressGrows(versions, i, j - 1);
      assert versions[..j][..j - 1] == versions[..j - 1];
    }
  }

  /** An event delivered again, after its version was reached, is ignored and changes nothing. */
  lemma RedeliveryChangesNothing<M, K>(cfg: Config<M, K>, log: seq<Event<K>>, id: Uuid, versions: seq<nat>, again: nat)
    requires StartsAtZero(cfg) && IsLog(log, id) && Projectable(cfg, log)
    requires AllWithin(versions, |log|) && 1 <= again <= Progress(versions)
    requires again <= |log|
    ensures Handle(cfg, Deliveries(cfg, log, versions), log[again - 1]) == Ignored
    ensures Deliveries(cfg, log, versions + [again]) == Deliveries(cfg, log, versions)
  {
    DeliveriesFollowProgress(cfg, log, id, versions);
    PrefixVersion(cfg, log, Progress(versions));
    assert (versions + [again])[..|versions|] == versions;
    DeliveriesFollowProgress(cfg, log, id, versions + [again]);
  }

  /** `at` picks out events 1..n, in order, from the deliveries. */
  ghost predicate ContainsInOrder(versions: seq<nat>, at: seq<nat>, n: nat) {
    && |at| == n
    && (forall k :: 0 <= k < n ==> at[k] < |versions| && versions[at[k]] == k + 1)
    && (forall k :: 0 < k < n ==> at[k - 1] < at[k])
  }

  lemma {:induction false} ProgressReaches(versions: seq<nat>, at: seq<nat>, n: nat, k: nat)
    requires ContainsInOrder(versions, at, n) && 1 <= k <= n
    ensures Progress(versions[..at[k - 1] + 1]) >= k
  {
    var j := at[k - 1];
    assert versions[..j + 1][..j] == versions[..j];
    if k > 1 {
      ProgressReaches(versions, at, n, k - 1);
      ProgressGrows(versions, at[k - 2] + 1, j);
    }
  }

  lemma ProgressCompletes(versions: seq<nat>, at: seq<nat>, n: nat)
    requires ContainsInOrder(versions, at, n) && 1 <= n
    ensures Progress(versions) >= n
  {
    ProgressReaches(versions, at, n, n);
    ProgressGrows(versions, at[n - 1] + 1, |versions|);
    assert versions[..|versions|] == versions;
  }

  /**
   Convergence: any delivery sequence that contains events 1..n in order, whatever
   else it contains, ends at the projection of the whole n-event log.
   */
  lemma ProjectionConverges<M, K>(cfg: Config<M, K>, log: seq<Event<K>>, id: Uuid, versions: seq<nat>, at: seq<nat>)
    requires StartsAtZero(cfg) && IsLog(log, id) && Projectable(cfg, log) && log != []
    requires AllWithin(versions, |log|)
    requires ContainsInOrder(versions, at, |log|)
    ensures Deliveries(cfg, log, versions) == Prefix(cfg, log, |log|)
  {
    ProgressCompletes(versions, at, |log|);
    DeliveriesFollowProgress(cfg, log, id, versions);
  }

  /** The deliveries to a lone worker: nothing happens while it waits. */
  function Alone<M, K>(log: seq<Event<K>>, versions: seq<nat>): seq<Delivery<M, K>>
    requires AllWithin(versions, |log|)
  {
    seq(|versions|, i requires 0 <= i < |versions| => Delivery(log[versions[i] - 1], r => r))
  }

  /** A lone worker stores what the deliveries stand for, with or without retry, through either repository. */
  lemma {:induction false} ReceivedIsDeliveries<M, K>(
    cfg: Config<M, K>, versioned: bool, retry: bool, log: seq<Event<K>>, id: Uuid, versions: seq<nat>)
    requires IsLog(log, id) && AllWithin(versions, |log|)
    ensures Lookup(ReceiveAll(cfg, versioned, retry, map[], Alone(log, versions)), id) == Deliveries(cfg, log, versions)
  {
    if versions != [] {
      var n := |versions| - 1;
      var ds := Alone<M, K>(log, versions);
      assert ds[..n] == Alone(log, versions[..n]);
      ReceivedIsDeliveries(cfg, versioned, retry, log, id, versions[..n]);
      var before := ReceiveAll(cfg, versioned, retry, map[], ds[..n]);
      ReceivedAlone(cfg, versioned, retry, before, ds[n]);
      WriteTells(before, id, Handle(cfg, Lookup(before, id), ds[n].e), id);
    }
  }

  lemma ReceivedAlone<M, K>(cfg: Config<M, K>, versioned: bool, retry: bool, repo: Repo<M>, d: Delivery<M, K>)
    requires d.wait(repo) == repo
    ensures Receive(cfg, versioned, retry, repo, d) == Write(repo, d.e.id, Handle(cfg, Lookup(repo, d.e.id), d.e))
  {
    VersionedTryWritesTheSame(cfg, repo, d.e);
  }

  /** So the event handler itself converges, whichever repository and retry it uses. */
  lemma HandlerConverges<M, K>(
    cfg: Config<M, K>, versioned: bool, retry: bool, log: seq<Event<K>>, id: Uuid, versions: seq<nat>, at: seq<nat>)
    requires StartsAtZero(cfg) && IsLog(log, id) && Projectable(cfg, log) && log != []
    requires AllWithin(versions, |log|) && ContainsInOrder(versions, at, |log|)
    ensures Lookup(ReceiveAll(cfg, versioned, retry, map[], Alone(log, versions)), id) == Prefix(cfg, log, |log|)
  {
    ReceivedIsDeliveries(cfg, versioned, retry, log, id, versions);
    ProjectionConverges(cfg, log, id, versions, at);
  }

  // ----- Removal -----

  /** The first n events can be projected one after another without an error and without removing the model. */
  ghost predicate ProjectableTo<M, K>(cfg: Config<M, K>, log: seq<Event<K>>, n: nat)
    requires n <= |log|
  {
    forall v: nat :: v <= n ==> Prefix(cfg, log, v).Some?
  }

  lemma {:induction false} PrefixOfPrefix<M, K>(cfg: Config<M, K>, log: seq<Event<K>>, n: nat, v: nat)
    requires v <= n <= |log|
    ensures Prefix(cfg, log[..n], v) == Prefix(cfg, log, v)
  {
    if v > 0 {
      PrefixOfPrefix(cfg, log, n, v - 1);
    }
  }

  lemma {:induction false} DeliveriesOfPrefix<M, K>(cfg: Config<M, K>, log: seq<Event<K>>, n: nat, versions: seq<nat>)
    requires n <= |log| && AllWithin(versions, n)
    ensures Deliveries(cfg, log[..n], versions) == Deliveries(cfg, log, versions)
  {
    if versions != [] {
      DeliveriesOfPrefix(cfg, log, n, versions[..|versions| - 1]);
    }
  }

  /** Deliveries that contain events 1..n in order, and no later ones, end at the projection of the first n. */
  lemma ConvergesTo<M, K>(cfg: Config<M, K>, log: seq<Event<K>>, id: Uuid, n: nat, versions: seq<nat>, at: seq<nat>)
    requires StartsAtZero(cfg) && IsLog(log, id) && n <= |log| && ProjectableTo(cfg, log, n)
    requires AllWithin(versions, n) && ContainsInOrder(versions, at, n)
    ensures Deliveries(cfg, log, versions) == if n == 0 then None else Prefix(cfg, log, n)
  {
    DeliveriesOfPrefix(cfg, log, n, versions);
    if n == 0 {
      assert versions == [];
    } else {
      forall v: nat | v <= n
        ensures Prefix(cfg, log[..n], v).Some?
      {
        PrefixOfPrefix(cfg, log, n, v);
      }
      PrefixOfPrefix(cfg, log, n, n);
      ProjectionConverges(cfg, log[..n], id, versions, at);
    }
  }

  /** An event whose projection returns no model, delivered in its turn, removes the model. */
  lemma RemovalInTurn<M, K>(cfg: Config<M, K>, log: seq<Event<K>>, id: Uuid, v: nat, versions: seq<nat>, at: seq<nat>)
    requires StartsAtZero(cfg) && IsLog(log, id) && 1 <= v <= |log| && ProjectableTo(cfg, log, v - 1)
    requires cfg.project(log[v - 1], Prefix(cfg, log, v - 1).value).Remove?
    requires AllWithin(versions, v - 1) && ContainsInOrder(versions, at, v - 1)
    ensures Deliveries(cfg, log, versions + [v]) == None
  {
    ConvergesTo(cfg, log, id, v - 1, versions, at);
    PrefixVersion(cfg, log, v - 1);
    assert (versions + [v])[..|versions|] == versions;
    OutcomeTells(cfg, Deliveries(cfg, log, versions), log[v - 1]);
  }

  /** So the handler removes it from the repository, whichever repository and retry it uses. */
  lemma RemovedModelIsGone<M, K>(
    cfg: Config<M, K>, versioned: bool, retry: bool, log: seq<Event<K>>, id: Uuid, v: nat, versions: seq<nat>, at: seq<nat>)
    requires StartsAtZero(cfg) && IsLog(log, id) && 1 <= v <= |log| && ProjectableTo(cfg, log, v - 1)
    requires cfg.project(log[v - 1], Prefix(cfg, log, v - 1).value).Remove?
    requires AllWithin(versions, v - 1) && ContainsInOrder(versions, at, v - 1)
    ensures id !in ReceiveAll(cfg, versioned, retry, map[], Alone(log, versions + [v]))
  {
    RemovalInTurn(cfg, log, id, v, versions, at);
    ReceivedIsDeliveries(cfg, versioned, retry, log, id, versions + [v]);
  }

  /** With racing workers, a worker that found the model one version behind such an event removes it when it stores. */
  lemma WorkerRemoves<M, K>(cfg: Config<M, K>, logs: Uuid -> seq<Event<K>>, s: State<M>, w: Worker, id: Uuid, v: nat)
    requires w !in s.jobs && 1 <= v <= |logs(id)| && logs(id)[v - 1].version == v && id in s.repo
    requires cfg.versionOf(s.repo[id]) == v - 1 && cfg.project(logs(id)[v - 1], s.repo[id]).Remove?
    ensures var t := Do(cfg, logs, Do(cfg, logs, s, Find(w, id, v)), Store(w)); t.repo == s.repo - {id} && w !in t.jobs
  {
  }

  /** A worker that dies writes nothing. */
  lemma DyingWritesNothing<M, K>(cfg: Config<M, K>, logs: Uuid -> seq<Event<K>>, s: State<M>, w: Worker)
    ensures Do(cfg, logs, s, Die(w)) == s.(jobs := s.jobs - {w})
  {
  }
}
