/**
 The outbox collection and any number of workers that act on stale copies of its
 entries and on leases that may have expired.
 */
module Outbox {
  import opened Base

  type Worker = nat

  /** The name of a handler type; names are only ever compared. */
  type Handler = nat

  /** Ages after which the periodic sweep looks at an entry again, in milliseconds. */
  const PERIODIC_SWEEP_AGE := 15_000
  const PERIODIC_CLEANUP_AGE := 600_000

  /** A stored entry: the handlers still to be called, and the lease. */
  datatype Doc = Doc(handlers: seq<Handler>, createdAt: int, takenAt: Option<int>)

  datatype Stage = Fetched | Handling(next: nat, processed: seq<Handler>)

  /** A worker's copy of an entry; `now` is the time it compares leases with. */
  datatype Job = Job(entry: nat, copy: seq<Handler>, now: int, stage: Stage)

  /** An entry as it was queued, for good. */
  datatype Queued<+E> = Queued(event: E, handlers: seq<Handler>)

  /**
   `docs` is the collection.  History: `queued` lists every entry ever inserted,
   `delivered` the successful handler calls, `takes` the stamps of each entry.
   */
  datatype State<+E> = State(
    docs: map<nat, Doc>, jobs: map<Worker, Job>,
    queued: seq<Queued<E>>, delivered: set<(nat, Handler)>, takes: map<nat, seq<int>>)

  datatype Action =
    | Watch(w: Worker, entry: nat, now: int)
    | Sweep(w: Worker, entry: nat, now: int)
    | Take(w: Worker)
    | Call(w: Worker, success: bool)
    | Finish(w: Worker)
    | Die(w: Worker)

  function Init<E>(): State<E> {
    State(map[], map[], [], {}, map[])
  }

  // ----- Queueing -----

  /** A registered handler, as a name and a matcher. */
  datatype Registered<!E> = Registered(name: Handler, matches: E -> bool)

  /** The handlers that an event is queued for, in order of registration. */
  function Matching<E>(registered: seq<Registered<E>>, event: E): (names: seq<Handler>)
    ensures forall r <- registered :: r.matches(event) ==> r.name in names
    ensures forall n <- names :: exists i :: 0 <= i < |registered| && registered[i].name == n && registered[i].matches(event)
  {
    if registered == [] then []
    else
      var k := |registered| - 1;
      var before := Matching(registered[..k], event);
      if registered[k].matches(event) then before + [registered[k].name] else before
  }

  /** AddHandler: a handler type can be added only once. */
  function AddHandler<E>(registered: seq<Registered<E>>, r: Registered<E>): Option<seq<Registered<E>>> {
    if exists i :: 0 <= i < |registered| && registered[i].name == r.name then None else Some(registered + [r])
  }

  ghost predicate Distinct(names: seq<Handler>) {
    forall i, j :: 0 <= i < j < |names| ==> names[i] != names[j]
  }

  ghost predicate DistinctNames<E>(registered: seq<Registered<E>>) {
    forall i, j :: 0 <= i < j < |registered| ==> registered[i].name != registered[j].name
  }

  /** Adding handlers keeps their names distinct, so an entry never lists a handler twice. */
  lemma AddHandlerKeepsDistinct<E>(registered: seq<Registered<E>>, r: Registered<E>, event: E)
    requires DistinctNames(registered)
    ensures var added := AddHandler(registered, r);
            added.Some? ==> DistinctNames(added.value) && Distinct(Matching(added.value, event))
  {
    var added := AddHandler(registered, r);
    if added.Some? {
      MatchingIsDistinct(added.value, event);
    }
  }

  /** A new handler type is added after the others, which all stay; a used one is refused. */
  lemma AddHandlerTells<E>(registered: seq<Registered<E>>, r: Registered<E>)
    ensures var added := AddHandler(registered, r);
            && (added.None? <==> exists i :: 0 <= i < |registered| && registered[i].name == r.name)
            && (added.Some? ==>
                && |added.value| == |registered| + 1 && added.value[|registered|] == r
                && forall i :: 0 <= i < |registered| ==> added.value[i] == registered[i])
  {
  }

  /** Handlers are listed in the order in which they were added. */
  lemma MatchingOneMore<E>(registered: seq<Registered<E>>, r: Registered<E>, event: E)
    ensures Matching<E>([], event) == []
    ensures Matching(registered + [r], event) == Matching(registered, event) + if r.matches(event) then [r.name] else []
  {
    assert (registered + [r])[..|registered|] == registered;
  }

  lemma DistinctNext(names: seq<Handler>, n: Handler)
    requires Distinct(names) && n !in names
    ensures Distinct(names + [n])
  {
  }

  lemma {:induction false} MatchingIsDistinct<E>(registered: seq<Registered<E>>, event: E)
    requires DistinctNames(registered)
    ensures Distinct(Matching(registered, event))
  {
    if registered != [] {
      var k := |registered| - 1;
      var before := Matching(registered[..k], event);
      MatchingIsDistinct(registered[..k], event);
      forall n <- before
        ensures n != registered[k].name
      {
        var i :| 0 <= i < k && registered[..k][i].name == n && registered[..k][i].matches(event);
        assert registered[i].name == n;
      }
      DistinctNext(before, registered[k].name);
    }
  }

  /** Inserts an entry under a key never used before. */
  function Insert<E>(s: State<E>, entry: Queued<E>, createdAt: int): State<E> {
    s.(docs := s.docs[|s.queued| := Doc(entry.handlers, createdAt, None)], queued := s.queued + [entry])
  }

  /** An entry written in a transaction that has not committed. */
  datatype Draft<!E> = Draft(entry: Queued<E>, createdAt: int, roster: seq<Registered<E>>)

  /** What HandleEvent writes: the event, for the handlers registered now that match it. */
  function NewDraft<E>(registered: seq<Registered<E>>, event: E, now: int): Draft<E> {
    Draft(Queued(event, Matching(registered, event)), now, registered)
  }

  /** Inserts the entries of a transaction, in order. */
  function InsertAll<E>(s: State<E>, drafts: seq<Draft<E>>): State<E> {
    if drafts == [] then s
    else
      var last := drafts[|drafts| - 1];
      Insert(InsertAll(s, drafts[..|drafts| - 1]), last.entry, last.createdAt)
  }

  function EntriesOf<E>(drafts: seq<Draft<E>>): (entries: seq<Queued<E>>)
    ensures |entries| == |drafts| && forall i :: 0 <= i < |drafts| ==> entries[i] == drafts[i].entry
  {
    seq(|drafts|, i requires 0 <= i < |drafts| => drafts[i].entry)
  }

  // ----- Working -----

  /** Whether an entry may be taken at a time: it was never taken, or its lease has expired. */
  predicate Free(doc: Doc, now: int) {
    doc.takenAt.None? || doc.takenAt.value < now - PERIODIC_SWEEP_AGE
  }

  /** Whether the periodic sweep fetches an entry. */
  predicate Swept(doc: Doc, now: int) {
    if doc.takenAt.Some? then doc.takenAt.value < now - PERIODIC_SWEEP_AGE
    else doc.createdAt < now - PERIODIC_CLEANUP_AGE
  }

  /** What a sweep fetches is free at the time the sweep compares leases with. */
  lemma SweptIsFree(doc: Doc, now: int)
    ensures Swept(doc, now) ==> Free(doc, now)
    ensures Free(doc, now) && !Swept(doc, now) ==> doc.takenAt.None? && now <= doc.createdAt + PERIODIC_CLEANUP_AGE
  {
  }

  /** A lease is held from the moment it is stamped until more than the sweep age has passed. */
  lemma FreeTells(doc: Doc, now: int)
    ensures doc.takenAt.None? ==> Free(doc, now)
    ensures doc.takenAt.Some? ==> (Free(doc, now) <==> now > doc.takenAt.value + 15_000)
    ensures doc.takenAt.None? ==> (Swept(doc, now) <==> now > doc.createdAt + 600_000)
  {
  }

  /** What is left of a list of handlers once some are pulled, in order. */
  function PullAll(handlers: seq<Handler>, processed: seq<Handler>): seq<Handler> {
    if handlers == [] then []
    else
      var k := |handlers| - 1;
      var before := PullAll(handlers[..k], processed);
      if handlers[k] in processed then before else before + [handlers[k]]
  }

  lemma {:induction false} PullAllMembers(handlers: seq<Handler>, processed: seq<Handler>, h: Handler)
    ensures h in PullAll(handlers, processed) <==> h in handlers && h !in processed
  {
    if handlers != [] {
      PullAllMembers(handlers[..|handlers| - 1], processed, h);
    }
  }

  /** The end of a job: delete the entry if all of the copy was processed, else pull what was. */
  function Settle(docs: map<nat, Doc>, entry: nat, copy: seq<Handler>, processed: seq<Handler>): map<nat, Doc> {
    if |processed| == |copy| then docs - {entry}
    else if |processed| > 0 && entry in docs then
      docs[entry := docs[entry].(handlers := PullAll(docs[entry].handlers, processed))]
    else docs
  }

  /** A job that processed its whole copy deletes the entry; another pulls what it processed, in place. */
  lemma SettleTells(docs: map<nat, Doc>, entry: nat, copy: seq<Handler>, processed: seq<Handler>)
    requires entry in docs
    ensures var t := Settle(docs, entry, copy, processed);
            && (forall i <- docs :: i != entry ==> i in t && t[i] == docs[i]) && t.Keys <= docs.Keys
            && (entry !in t <==> |processed| == |copy|)
            && (entry in t ==>
                && t[entry].takenAt == docs[entry].takenAt && t[entry].createdAt == docs[entry].createdAt
                && forall h :: h in t[entry].handlers <==> h in docs[entry].handlers && h !in processed)
  {
    forall h
      ensures h in PullAll(docs[entry].handlers, processed) <==> h in docs[entry].handlers && h !in processed
    {
      PullAllMembers(docs[entry].handlers, processed, h);
    }
  }

  function StampsOf<E>(s: State<E>, entry: nat): seq<int> {
    if entry in s.takes then s.takes[entry] else []
  }

  function DoTake<E>(s: State<E>, w: Worker): State<E>
    requires w in s.jobs
  {
    var job := s.jobs[w];
    if job.entry in s.docs && Free(s.docs[job.entry], job.now) then
      s.(docs := s.docs[job.entry := s.docs[job.entry].(takenAt := Some(job.now))],
         jobs := s.jobs[w := job.(stage := Handling(0, []))],
         takes := s.takes[job.entry := StampsOf(s, job.entry) + [job.now]])
    else s.(jobs := s.jobs - {w})
  }

  predicate CanCall<E>(s: State<E>, w: Worker) {
    w in s.jobs && s.jobs[w].stage.Handling? && s.jobs[w].stage.next < |s.jobs[w].copy|
  }

  /** One handler of the copy: called with success, or failing, unknown here, or no longer matching. */
  function DoCall<E>(s: State<E>, w: Worker, success: bool): State<E>
    requires CanCall(s, w)
  {
    var job := s.jobs[w];
    var Handling(next, processed) := job.stage;
    if success then
      s.(jobs := s.jobs[w := job.(stage := Handling(next + 1, processed + [job.copy[next]]))],
         delivered := s.delivered + {(job.entry, job.copy[next])})
    else s.(jobs := s.jobs[w := job.(stage := Handling(next + 1, processed))])
  }

  predicate CanFinish<E>(s: State<E>, w: Worker) {
    w in s.jobs && s.jobs[w].stage.Handling? && s.jobs[w].stage.next == |s.jobs[w].copy|
  }

  function DoFinish<E>(s: State<E>, w: Worker): State<E>
    requires CanFinish(s, w)
  {
    var job := s.jobs[w];
    s.(docs := Settle(s.docs, job.entry, job.copy, job.stage.processed), jobs := s.jobs - {w})
  }

  function Do<E>(s: State<E>, a: Action): State<E> {
    match a
    case Watch(w, entry, now) =>
      // The change stream hands out the entry as it was inserted, however long ago.
      if w in s.jobs || entry >= |s.queued| then s
      else s.(jobs := s.jobs[w := Job(entry, s.queued[entry].handlers, now, Fetched)])
    case Sweep(w, entry, now) =>
      if w in s.jobs || entry !in s.docs || !Swept(s.docs[entry], now) then s
      else s.(jobs := s.jobs[w := Job(entry, s.docs[entry].handlers, now, Fetched)])
    case Take(w) => if w in s.jobs && s.jobs[w].stage.Fetched? then DoTake(s, w) else s
    case Call(w, success) => if CanCall(s, w) then DoCall(s, w, success) else s
    case Finish(w) => if CanFinish(s, w) then DoFinish(s, w) else s
    case Die(w) => s.(jobs := s.jobs - {w})
  }

  // ----- Invariant -----

  ghost predicate Pending<E>(s: State<E>, entry: nat, h: Handler) {
    entry in s.docs && h in s.docs[entry].handlers
  }

  /** At least once: a queued handler has succeeded or is still stored as pending. */
  ghost predicate NothingLost<E>(s: State<E>) {
    forall i: nat, h: Handler :: i < |s.queued| && h in s.queued[i].handlers ==>
      (i, h) in s.delivered || Pending(s, i, h)
  }

  /** Nothing is delivered to a handler that the event was not queued for. */
  ghost predicate NothingSpurious<E>(s: State<E>) {
    forall d <- s.delivered :: d.0 < |s.queued| && d.1 in s.queued[d.0].handlers
  }

  ghost predicate DocsAreQueued<E>(s: State<E>) {
    && (forall i <- s.docs :: i < |s.queued|)
    && (forall i: nat, h: Handler :: Pending(s, i, h) ==> h in s.queued[i].handlers)
  }

  /** The key to stale copies: whatever a worker holds contains whatever is stored. */
  ghost predicate JobIsSound<E>(s: State<E>, job: Job) {
    && job.entry < |s.queued|
    && (forall h <- job.copy :: h in s.queued[job.entry].handlers)
    && (forall h: Handler :: Pending(s, job.entry, h) ==> h in job.copy)
    && (job.stage.Handling? ==>
        && job.stage.next <= |job.copy|
        && |job.stage.processed| <= job.stage.next
        && (|job.stage.processed| == job.stage.next ==> job.stage.processed == job.copy[..job.stage.next])
        && (forall h <- job.stage.processed :: (job.entry, h) in s.delivered))
  }

  ghost predicate Inv<E>(s: State<E>) {
    && DocsAreQueued(s)
    && NothingLost(s)
    && NothingSpurious(s)
    && (forall w <- s.jobs :: JobIsSound(s, s.jobs[w]))
  }

  // ----- The invariant is kept -----

  lemma InsertKeepsInv<E>(s: State<E>, entry: Queued<E>, createdAt: int)
    requires Inv(s)
    ensures Inv(Insert(s, entry, createdAt))
  {
    var t := Insert(s, entry, createdAt);
    forall i: nat, h: Handler | i < |t.queued| && h in t.queued[i].handlers
      ensures (i, h) in t.delivered || Pending(t, i, h)
    {
      assert i < |s.queued| && Pending(s, i, h) ==> Pending(t, i, h);
    }
    forall w <- t.jobs
      ensures JobIsSound(t, t.jobs[w])
    {
      assert JobIsSound(s, s.jobs[w]);
      assert forall h: Handler :: Pending(t, t.jobs[w].entry, h) ==> Pending(s, t.jobs[w].entry, h);
    }
    forall i: nat, h: Handler | Pending(t, i, h)
      ensures h in t.queued[i].handlers
    {
      assert i != |s.queued| ==> Pending(s, i, h);
    }
  }

  lemma {:induction false} InsertAllKeepsInv<E>(s: State<E>, drafts: seq<Draft<E>>)
    requires Inv(s)
    ensures Inv(InsertAll(s, drafts)) && InsertAll(s, drafts).queued == s.queued + EntriesOf(drafts)
  {
    if drafts != [] {
      var n := |drafts| - 1;
      InsertAllKeepsInv(s, drafts[..n]);
      InsertKeepsInv(InsertAll(s, drafts[..n]), drafts[n].entry, drafts[n].createdAt);
      assert EntriesOf(drafts) == EntriesOf(drafts[..n]) + [drafts[n].entry];
    }
  }

  lemma {:induction false} InsertAllQueues<E>(s: State<E>, drafts: seq<Draft<E>>)
    ensures InsertAll(s, drafts).queued == s.queued + EntriesOf(drafts)
  {
    if drafts != [] {
      InsertAllQueues(s, drafts[..|drafts| - 1]);
      assert EntriesOf(drafts) == EntriesOf(drafts[..|drafts| - 1]) + [drafts[|drafts| - 1].entry];
    }
  }

  /** A job that leaves stored handlers where they are keeps everything. */
  lemma SamePendingKeepsInv<E>(s: State<E>, t: State<E>, w: Worker)
    requires Inv(s)
    requires t.queued == s.queued && s.delivered <= t.delivered && t.docs.Keys == s.docs.Keys
    requires forall i <- s.docs :: t.docs[i].handlers == s.docs[i].handlers
    requires t.jobs.Keys <= s.jobs.Keys + {w} && forall v <- t.jobs :: v != w ==> v in s.jobs && t.jobs[v] == s.jobs[v]
    requires w in t.jobs ==> JobIsSound(t, t.jobs[w])
    requires NothingSpurious(t)
    ensures Inv(t)
  {
    assert forall i: nat, h: Handler :: Pending(t, i, h) <==> Pending(s, i, h);
    forall v <- t.jobs
      ensures JobIsSound(t, t.jobs[v])
    {
      if v != w { assert JobIsSound(s, s.jobs[v]); }
    }
  }

  /** What Settle removes of an entry was processed. */
  lemma SettleDropsProcessed<E>(s: State<E>, w: Worker, entry: nat, h: Handler)
    requires Inv(s) && CanFinish(s, w) && Pending(s, entry, h)
    ensures Pending(DoFinish(s, w), entry, h) || (entry, h) in s.delivered
  {
    var job := s.jobs[w];
    assert JobIsSound(s, job);
    PullAllMembers(s.docs[entry].handlers, job.stage.processed, h);
    if entry == job.entry && |job.stage.processed| == |job.copy| {
      assert job.copy[..|job.copy|] == job.copy;
    }
  }

  lemma FinishKeepsInv<E>(s: State<E>, w: Worker)
    requires Inv(s) && CanFinish(s, w)
    ensures Inv(DoFinish(s, w))
  {
    var t := DoFinish(s, w);
    forall i: nat, h: Handler | i < |t.queued| && h in t.queued[i].handlers
      ensures (i, h) in t.delivered || Pending(t, i, h)
    {
      if Pending(s, i, h) { SettleDropsProcessed(s, w, i, h); }
    }
    forall i: nat, h: Handler | Pending(t, i, h)
      ensures Pending(s, i, h)
    {
      PullAllMembers(s.docs[i].handlers, s.jobs[w].stage.processed, h);
    }
    forall v <- t.jobs
      ensures JobIsSound(t, t.jobs[v])
    {
      assert JobIsSound(s, s.jobs[v]);
    }
  }

  lemma FetchKeepsInv<E>(s: State<E>, a: Action)
    requires Inv(s) && (a.Watch? || a.Sweep?)
    ensures Inv(Do(s, a))
  {
    assert forall h: Handler :: Pending(s, a.entry, h) ==> h in s.queued[a.entry].handlers;
    SamePendingKeepsInv(s, Do(s, a), a.w);
  }

  lemma TakeKeepsInv<E>(s: State<E>, w: Worker)
    requires Inv(s) && w in s.jobs
    ensures Inv(DoTake(s, w))
  {
    assert JobIsSound(s, s.jobs[w]);
    SamePendingKeepsInv(s, DoTake(s, w), w);
  }

  lemma CallKeepsInv<E>(s: State<E>, w: Worker, success: bool)
    requires Inv(s) && CanCall(s, w)
    ensures Inv(DoCall(s, w, success))
  {
    assert JobIsSound(s, s.jobs[w]);
    SamePendingKeepsInv(s, DoCall(s, w, success), w);
  }

  lemma StepKeepsInv<E>(s: State<E>, a: Action)
    requires Inv(s)
    ensures Inv(Do(s, a))
  {
    match a
    case Watch(_, _, _) => FetchKeepsInv(s, a);
    case Sweep(_, _, _) => FetchKeepsInv(s, a);
    case Take(w) => if w in s.jobs && s.jobs[w].stage.Fetched? { TakeKeepsInv(s, w); }
    case Call(w, success) => if CanCall(s, w) { CallKeepsInv(s, w, success); }
    case Finish(w) => if CanFinish(s, w) { FinishKeepsInv(s, w); }
    case Die(w) =>
  }

  /** A new entry is pending for all its handlers, never taken; a worker that dies leaves the entry as it is. */
  lemma InsertAndDie<E>(s: State<E>, entry: Queued<E>, createdAt: int, w: Worker)
    ensures var t := Insert(s, entry, createdAt);
            && t.queued == s.queued + [entry] && t.docs == s.docs[|s.queued| := Doc(entry.handlers, createdAt, None)]
            && t.jobs == s.jobs && t.delivered == s.delivered
    ensures Do(s, Die(w)) == s.(jobs := s.jobs - {w})
  {
  }

  /**
   No lost handler under stale copies: whatever any step removes from the stored
   lists, by a pull or by a delete, has succeeded before.
   */
  lemma DroppedOnlyAfterSuccess<E>(s: State<E>, a: Action, entry: nat, h: Handler)
    requires Inv(s) && Pending(s, entry, h) && !Pending(Do(s, a), entry, h)
    ensures a.Finish? && (entry, h) in s.delivered
  {
    if a.Finish? && CanFinish(s, a.w) {
      SettleDropsProcessed(s, a.w, entry, h);
    }
  }

  // ----- Leases -----

  /** Stamps of one entry are more than the sweep age apart. */
  ghost predicate Spaced(stamps: seq<int>) {
    forall k :: 0 < k < |stamps| ==> stamps[k - 1] + PERIODIC_SWEEP_AGE < stamps[k]
  }

  ghost predicate Leases<E>(s: State<E>) {
    && (forall i <- s.takes :: i < |s.queued| && s.takes[i] != [] && Spaced(s.takes[i]))
    && (forall i <- s.docs :: i < |s.queued|)
    && (forall i <- s.docs ::
        s.docs[i].takenAt == if i in s.takes then Some(s.takes[i][|s.takes[i]| - 1]) else None)
  }

  lemma TakeKeepsLeases<E>(s: State<E>, w: Worker)
    requires Leases(s) && w in s.jobs
    ensures Leases(DoTake(s, w))
  {
  }

  lemma FinishKeepsLeases<E>(s: State<E>, w: Worker)
    requires Leases(s) && CanFinish(s, w)
    ensures Leases(DoFinish(s, w))
  {
  }

  lemma StepKeepsLeases<E>(s: State<E>, a: Action)
    requires Leases(s)
    ensures Leases(Do(s, a))
  {
    if a.Take? && a.w in s.jobs {
      TakeKeepsLeases(s, a.w);
    } else if a.Finish? && CanFinish(s, a.w) {
      FinishKeepsLeases(s, a.w);
    } else {
      assert Do(s, a).docs == s.docs && Do(s, a).takes == s.takes && Do(s, a).queued == s.queued;
    }
  }

  lemma InsertKeepsLeases<E>(s: State<E>, entry: Queued<E>, createdAt: int)
    requires Leases(s)
    ensures Leases(Insert(s, entry, createdAt))
  {
  }

  lemma {:induction false} SpacedApart(stamps: seq<int>, i: nat, j: nat)
    requires Spaced(stamps) && i <= j < |stamps|
    ensures stamps[i] + (j - i) * PERIODIC_SWEEP_AGE <= stamps[j]
  {
    if i < j {
      SpacedApart(stamps, i, j - 1);
    }
  }

  lemma TakesPerWindow(stamps: seq<int>, i: nat, j: nat, window: nat)
    requires Spaced(stamps) && i <= j < |stamps| && stamps[j] - stamps[i] <= window
    ensures j - i + 1 <= window / PERIODIC_SWEEP_AGE + 1
  {
    SpacedApart(stamps, i, j);
  }

  // ----- A job that nobody disturbs -----

  /** The handlers of a list that succeed, given the outcome of each call. */
  function Successes(handlers: seq<Handler>, outcomes: seq<bool>): seq<Handler>
    requires |handlers| == |outcomes|
  {
    if handlers == [] then []
    else
      var k := |handlers| - 1;
      var before := Successes(handlers[..k], outcomes[..k]);
      if outcomes[k] then before + [handlers[k]] else before
  }

  function DoCalls<E>(s: State<E>, w: Worker, outcomes: seq<bool>): State<E> {
    if outcomes == [] then s
    else Do(DoCalls(s, w, outcomes[..|outcomes| - 1]), Call(w, outcomes[|outcomes| - 1]))
  }

  /** The deliveries of the successful calls. */
  function Deliveries(entry: nat, handlers: seq<Handler>): set<(nat, Handler)> {
    if handlers == [] then {} else Deliveries(entry, handlers[..|handlers| - 1]) + {(entry, handlers[|handlers| - 1])}
  }

  lemma {:induction false} DeliveriesMembers(entry: nat, handlers: seq<Handler>)
    ensures forall x :: x in Deliveries(entry, handlers) <==> x.0 == entry && x.1 in handlers
  {
    if handlers != [] {
      DeliveriesMembers(entry, handlers[..|handlers| - 1]);
    }
  }

  /** The state after the first n calls of a job. */
  function Called<E>(s: State<E>, w: Worker, n: nat, processed: seq<Handler>): State<E>
    requires w in s.jobs
  {
    var job := s.jobs[w];
    s.(jobs := s.jobs[w := job.(stage := Handling(n, processed))], delivered := s.delivered + Deliveries(job.entry, processed))
  }

  lemma CallNext<E>(s: State<E>, w: Worker, n: nat, processed: seq<Handler>, success: bool)
    requires w in s.jobs && n < |s.jobs[w].copy|
    ensures Do(Called(s, w, n, processed), Call(w, success))
         == Called(s, w, n + 1, if success then processed + [s.jobs[w].copy[n]] else processed)
  {
    var was, job, h := Called(s, w, n, processed), s.jobs[w], s.jobs[w].copy[n];
    assert forall stage :: was.jobs[w := job.(stage := stage)] == s.jobs[w := job.(stage := stage)];
    assert (processed + [h])[..|processed|] == processed;
    assert was.delivered + {(job.entry, h)} == s.delivered + (Deliveries(job.entry, processed) + {(job.entry, h)});
  }

  lemma {:induction false} CallsProcess<E>(s: State<E>, w: Worker, outcomes: seq<bool>)
    requires w in s.jobs && s.jobs[w].stage == Handling(0, []) && |outcomes| <= |s.jobs[w].copy|
    ensures DoCalls(s, w, outcomes) == Called(s, w, |outcomes|, Successes(s.jobs[w].copy[..|outcomes|], outcomes))
  {
    if outcomes == [] {
      assert s.jobs[w := s.jobs[w]] == s.jobs;
    } else {
      var k, copy := |outcomes| - 1, s.jobs[w].copy;
      CallsProcess(s, w, outcomes[..k]);
      assert copy[..|outcomes|][..k] == copy[..k];
      CallNext(s, w, k, Successes(copy[..k], outcomes[..k]), outcomes[k]);
    }
  }

  /** Taking an entry, calling its handlers and finishing, in one go: the whole new state. */
  lemma SoloJob<E>(s: State<E>, w: Worker, outcomes: seq<bool>)
    requires w in s.jobs && s.jobs[w].stage.Fetched? && |outcomes| == |s.jobs[w].copy|
    requires s.jobs[w].entry in s.docs && Free(s.docs[s.jobs[w].entry], s.jobs[w].now)
    ensures var job := s.jobs[w];
            var processed := Successes(job.copy, outcomes);
            Do(DoCalls(Do(s, Take(w)), w, outcomes), Finish(w)) == State(
              Settle(s.docs[job.entry := s.docs[job.entry].(takenAt := Some(job.now))], job.entry, job.copy, processed),
              s.jobs - {w}, s.queued, s.delivered + Deliveries(job.entry, processed),
              s.takes[job.entry := StampsOf(s, job.entry) + [job.now]])
  {
    var t := Do(s, Take(w));
    CallsProcess(t, w, outcomes);
    assert s.jobs[w].copy[..|outcomes|] == s.jobs[w].copy;
  }

  // ----- Whole runs of the outbox alone -----

  datatype Step<+E> = Queue(entry: Queued<E>, createdAt: int) | Work(a: Action)

  function Exec<E>(steps: seq<Step<E>>): State<E> {
    if steps == [] then Init()
    else
      var before := Exec(steps[..|steps| - 1]);
      match steps[|steps| - 1]
      case Queue(entry, createdAt) => Insert(before, entry, createdAt)
      case Work(a) => Do(before, a)
  }

  /** Over every run: at least once, and the lease bound on takes. */
  lemma {:induction false} RunKeepsInv<E>(steps: seq<Step<E>>)
    ensures Inv(Exec(steps)) && Leases(Exec(steps))
  {
    if steps != [] {
      var before := Exec(steps[..|steps| - 1]);
      RunKeepsInv(steps[..|steps| - 1]);
      match steps[|steps| - 1]
      case Queue(entry, createdAt) =>
        InsertKeepsInv(before, entry, createdAt);
        InsertKeepsLeases(before, entry, createdAt);
      case Work(a) =>
        StepKeepsInv(before, a);
        StepKeepsLeases(before, a);
    }
  }

  /** Over every run, takes of one entry whose stamps lie within a window are at most window / age + 1. */
  lemma LeaseBound<E>(steps: seq<Step<E>>, entry: nat, i: nat, j: nat, window: nat)
    requires i <= j < |StampsOf(Exec(steps), entry)|
    requires StampsOf(Exec(steps), entry)[j] - StampsOf(Exec(steps), entry)[i] <= window
    ensures j - i + 1 <= window / PERIODIC_SWEEP_AGE + 1
    ensures i < j ==> StampsOf(Exec(steps), entry)[j] > StampsOf(Exec(steps), entry)[i] + PERIODIC_SWEEP_AGE
  {
    var stamps := StampsOf(Exec(steps), entry);
    RunKeepsInv(steps);
    TakesPerWindow(stamps, i, j, window);
    if i < j {
      SpacedApart(stamps, i, j - 1);
    }
  }
}
