/**
 The event store with the outbox as its in-transaction handler: command clients
 and outbox workers interleave freely.
 */
module EndToEnd {
  import opened Base
  import C = Commands
  import L = EventLog
  import O = Outbox

  /**
   `drafts` holds what each transaction attempt has written to the outbox so far;
   nobody else sees it before the commit.  History: `rosters[i]` lists the
   handlers registered when event i was queued.
   */
  datatype State<!S, !Q, !K> = State(
    cmds: C.State<S, Q, K>, outbox: O.State<Event<K>>,
    drafts: map<L.Client, seq<O.Draft<Event<K>>>>, rosters: seq<seq<O.Registered<Event<K>>>>)

  datatype Action<!Q, !K> =
    | Client(a: C.Action<Q>)
    | Handle(c: L.Client, registered: seq<O.Registered<Event<K>>>, clock: int)
    | Worker(o: O.Action)

  function Init<S, Q, K>(): State<S, Q, K> {
    State(C.Init(), O.Init(), map[], [])
  }

  function DraftsOf<S, Q, K>(s: State<S, Q, K>, c: L.Client): seq<O.Draft<Event<K>>> {
    if c in s.drafts then s.drafts[c] else []
  }

  /** The transaction body calls the handler on the next event of the batch. */
  function DoHandle<S, Q, K>(s: State<S, Q, K>, c: L.Client, registered: seq<O.Registered<Event<K>>>, clock: int): State<S, Q, K> {
    if !L.InTransaction(s.cmds.log, c) || |DraftsOf(s, c)| >= |s.cmds.log.saves[c].events| then s
    else
      var event := s.cmds.log.saves[c].events[|DraftsOf(s, c)|];
      s.(drafts := s.drafts[c := DraftsOf(s, c) + [O.NewDraft(registered, event, clock)]])
  }

  /** Whether an action begins, aborts or ends a client's attempt, and so its uncommitted writes. */
  predicate EndsDrafts<Q>(a: C.Action<Q>) {
    a.BeginAttempt? || a.AbortAttempt? || a.EndAttempt? || a.Crash?
  }

  /** The transaction body is through: every event was handled. */
  predicate Complete<S, Q, K>(s: State<S, Q, K>, c: L.Client) {
    c in s.cmds.log.saves && |DraftsOf(s, c)| == |s.cmds.log.saves[c].events|
  }

  function Rosters<K>(drafts: seq<O.Draft<Event<K>>>): seq<seq<O.Registered<Event<K>>>> {
    seq(|drafts|, i requires 0 <= i < |drafts| => drafts[i].roster)
  }

  /** An attempt commits with its outbox entries once its body is through; whatever else ends it discards them. */
  function DoClient<S, Q, K>(cfg: C.Config<S, Q, K>, s: State<S, Q, K>, a: C.Action<Q>): State<S, Q, K> {
    if !C.Committing(s.cmds, a) then
      s.(cmds := C.Do(cfg, s.cmds, a), drafts := if EndsDrafts(a) then s.drafts - {a.c} else s.drafts)
    else if Complete(s, a.c) then
      State(C.Do(cfg, s.cmds, a), O.InsertAll(s.outbox, DraftsOf(s, a.c)),
            s.drafts - {a.c}, s.rosters + Rosters(DraftsOf(s, a.c)))
    else s
  }

  function Do<S, Q, K>(cfg: C.Config<S, Q, K>, s: State<S, Q, K>, a: Action<Q, K>): State<S, Q, K> {
    match a
    case Client(a) => DoClient(cfg, s, a)
    case Handle(c, registered, clock) => DoHandle(s, c, registered, clock)
    case Worker(o) => s.(outbox := O.Do(s.outbox, o))
  }

  function Exec<S, Q, K>(cfg: C.Config<S, Q, K>, actions: seq<Action<Q, K>>): State<S, Q, K> {
    if actions == [] then Init()
    else Do(cfg, Exec(cfg, actions[..|actions| - 1]), actions[|actions| - 1])
  }

  /** Whether an action is a client step that takes effect: a commit has to wait for the transaction body. */
  predicate TakesEffect<S, Q, K>(s: State<S, Q, K>, a: Action<Q, K>) {
    a.Client? && (C.Committing(s.cmds, a.a) ==> Complete(s, a.a.c))
  }

  lemma EffectOnClients<S, Q, K>(cfg: C.Config<S, Q, K>, s: State<S, Q, K>, a: Action<Q, K>)
    ensures Do(cfg, s, a).cmds == if TakesEffect(s, a) then C.Do(cfg, s.cmds, a.a) else s.cmds
  {
  }

  /** The client steps of a run that take effect. */
  function Clients<S, Q, K>(cfg: C.Config<S, Q, K>, actions: seq<Action<Q, K>>): seq<C.Action<Q>> {
    if actions == [] then []
    else
      var before, last := Clients(cfg, actions[..|actions| - 1]), actions[|actions| - 1];
      if TakesEffect(Exec(cfg, actions[..|actions| - 1]), last) then before + [last.a] else before
  }

  lemma ExecOneMore<S, Q, K>(cfg: C.Config<S, Q, K>, before: seq<C.Action<Q>>, a: C.Action<Q>)
    ensures C.Exec(cfg, before + [a]) == C.Do(cfg, C.Exec(cfg, before), a)
  {
    assert (before + [a])[..|before|] == before;
  }

  /** Outbox and workers do not disturb clients: whatever holds of every run of commands holds here. */
  lemma {:induction false} ClientSide<S, Q, K>(cfg: C.Config<S, Q, K>, actions: seq<Action<Q, K>>)
    ensures Exec(cfg, actions).cmds == C.Exec(cfg, Clients(cfg, actions))
  {
    if actions != [] {
      var n := |actions| - 1;
      ClientSide(cfg, actions[..n]);
      EffectOnClients(cfg, Exec(cfg, actions[..n]), actions[n]);
      if TakesEffect(Exec(cfg, actions[..n]), actions[n]) {
        ExecOneMore(cfg, Clients(cfg, actions[..n]), actions[n].a);
      }
    }
  }

  // ----- Invariant -----

  /** Entry i of the outbox is event i of the store, queued for the handlers that matched it then. */
  ghost predicate Aligned<K>(events: seq<Record<K>>, queued: seq<O.Queued<Event<K>>>, rosters: seq<seq<O.Registered<Event<K>>>>) {
    |queued| == |events| == |rosters| && forall i :: 0 <= i < |events| ==> QueuedFor(events[i], queued[i], rosters[i])
  }

  ghost predicate QueuedFor<K>(r: Record<K>, q: O.Queued<Event<K>>, roster: seq<O.Registered<Event<K>>>) {
    L.IsStored(q.event, r) && q.handlers == O.Matching(roster, q.event)
  }

  /** A draft is for the event in its place, and the handlers that matched it. */
  ghost predicate IsDraftOf<K>(d: O.Draft<Event<K>>, e: Event<K>) {
    d == O.NewDraft(d.roster, e, d.createdAt)
  }

  /** Uncommitted entries belong to an attempt under way. */
  ghost predicate AreDrafts<S, Q, K>(s: State<S, Q, K>, c: L.Client) {
    && L.InTransaction(s.cmds.log, c)
    && var events, drafts := s.cmds.log.saves[c].events, DraftsOf(s, c);
       |drafts| <= |events| && forall i :: 0 <= i < |drafts| ==> IsDraftOf(drafts[i], events[i])
  }

  ghost predicate Inv<S, Q, K>(s: State<S, Q, K>) {
    Aligned(C.Events(s.cmds), s.outbox.queued, s.rosters) && O.Inv(s.outbox) && forall c <- s.drafts :: AreDrafts(s, c)
  }

  /** The drafts of a whole batch are aligned with its records. */
  lemma DraftsAlign<K>(events: seq<Event<K>>, previous: int, drafts: seq<O.Draft<Event<K>>>)
    requires |drafts| == |events| && forall i :: 0 <= i < |drafts| ==> IsDraftOf(drafts[i], events[i])
    ensures Aligned(L.Place(events, previous), O.EntriesOf(drafts), Rosters(drafts))
  {
    L.PlaceStores(events, previous);
    forall i | 0 <= i < |drafts|
      ensures QueuedFor(L.Place(events, previous)[i], drafts[i].entry, drafts[i].roster)
    {
      assert IsDraftOf(drafts[i], events[i]);
    }
  }

  /** What a commit does, field by field. */
  lemma CommitStep<S, Q, K>(cfg: C.Config<S, Q, K>, s: State<S, Q, K>, a: C.Action<Q>)
    requires C.Committing(s.cmds, a) && Complete(s, a.c)
    ensures var t, sv := DoClient(cfg, s, a), s.cmds.log.saves[a.c];
            && C.Events(t.cmds) == C.Events(s.cmds) + L.Place(sv.events, L.PreviousPosition(sv))
            && t.outbox == O.InsertAll(s.outbox, DraftsOf(s, a.c)) && t.rosters == s.rosters + Rosters(DraftsOf(s, a.c))
  {
    C.CommitAppends(cfg, s.cmds, a.c);
  }

  lemma CommitAligns<S, Q, K>(cfg: C.Config<S, Q, K>, s: State<S, Q, K>, a: C.Action<Q>)
    requires Aligned(C.Events(s.cmds), s.outbox.queued, s.rosters) && O.Inv(s.outbox) && AreDrafts(s, a.c)
    requires C.Committing(s.cmds, a) && Complete(s, a.c)
    ensures var t := DoClient(cfg, s, a); Aligned(C.Events(t.cmds), t.outbox.queued, t.rosters)
  {
    var drafts, sv := DraftsOf(s, a.c), s.cmds.log.saves[a.c];
    CommitStep(cfg, s, a);
    O.InsertAllKeepsInv(s.outbox, drafts);
    DraftsAlign(sv.events, L.PreviousPosition(sv), drafts);
    AlignedAppend(C.Events(s.cmds), s.outbox.queued, s.rosters,
                  L.Place(sv.events, L.PreviousPosition(sv)), O.EntriesOf(drafts), Rosters(drafts));
  }

  lemma AlignedAppend<K>(
    events: seq<Record<K>>, queued: seq<O.Queued<Event<K>>>, rosters: seq<seq<O.Registered<Event<K>>>>,
    events': seq<Record<K>>, queued': seq<O.Queued<Event<K>>>, rosters': seq<seq<O.Registered<Event<K>>>>)
    requires Aligned(events, queued, rosters) && Aligned(events', queued', rosters')
    ensures Aligned(events + events', queued + queued', rosters + rosters')
  {
    var n := |events|;
    forall i | 0 <= i < |events + events'|
      ensures QueuedFor((events + events')[i], (queued + queued')[i], (rosters + rosters')[i])
    {
      assert i < n ==> QueuedFor(events[i], queued[i], rosters[i]);
      assert i >= n ==> QueuedFor(events'[i - n], queued'[i - n], rosters'[i - n]);
    }
  }

  /** A client's step leaves the attempts of the others alone, and its own unless it ends it. */
  lemma OtherAttemptsStay<S, Q, K>(cfg: C.Config<S, Q, K>, s: C.State<S, Q, K>, a: C.Action<Q>, c: L.Client)
    requires c in s.log.saves && c != a.c
    ensures var t := C.Do(cfg, s, a); c in t.log.saves && t.log.saves[c] == s.log.saves[c]
  {
    var run := C.StoreActions(cfg, s, a);
    C.StepIsStoreRun(cfg, s, a);
    assert forall i :: 0 <= i < |run| ==> run[i].c == a.c;
    RunKeepsOtherSaves(s.log, run, c);
  }

  lemma {:induction false} RunKeepsOtherSaves<K>(s: L.State<K>, run: seq<L.Action<K>>, c: L.Client)
    requires c in s.saves && forall i :: 0 <= i < |run| ==> run[i].c != c
    ensures var t := L.Exec(s, run); c in t.saves && t.saves[c] == s.saves[c]
  {
    if run != [] {
      RunKeepsOtherSaves(s, run[..|run| - 1], c);
    }
  }

  lemma OwnAttemptStays<S, Q, K>(cfg: C.Config<S, Q, K>, s: C.State<S, Q, K>, a: C.Action<Q>)
    requires C.PhaseOf(s, a.c).Saving? && L.InTransaction(s.log, a.c) && !EndsDrafts(a)
    ensures var t := C.Do(cfg, s, a); L.InTransaction(t.log, a.c) && t.log.saves[a.c].events == s.log.saves[a.c].events
  {
  }

  lemma ClientStepKeepsDrafts<S, Q, K>(cfg: C.Config<S, Q, K>, s: State<S, Q, K>, a: C.Action<Q>)
    requires Inv(s) && C.ClientInv(cfg, s.cmds)
    ensures var t := DoClient(cfg, s, a); forall c <- t.drafts :: AreDrafts(t, c)
  {
    var t := DoClient(cfg, s, a);
    forall c <- t.drafts
      ensures AreDrafts(t, c)
    {
      assert AreDrafts(s, c);
      if t != s {
        if c == a.c {
          OwnAttemptStays(cfg, s.cmds, a);
        } else {
          OtherAttemptsStay(cfg, s.cmds, a, c);
        }
        assert DraftsOf(t, c) == DraftsOf(s, c);
      }
    }
  }

  lemma CompleteHasDrafts<S, Q, K>(s: State<S, Q, K>, a: C.Action<Q>)
    requires C.Committing(s.cmds, a) && Complete(s, a.c)
    ensures a.c in s.drafts
  {
  }

  lemma ClientStepKeepsInv<S, Q, K>(cfg: C.Config<S, Q, K>, s: State<S, Q, K>, a: C.Action<Q>)
    requires Inv(s) && C.ClientInv(cfg, s.cmds)
    ensures Inv(DoClient(cfg, s, a))
  {
    ClientStepKeepsDrafts(cfg, s, a);
    if !C.Committing(s.cmds, a) {
      C.EventsGrowAtCommits(cfg, s.cmds, a);
    } else if Complete(s, a.c) {
      CompleteHasDrafts(s, a);
      assert AreDrafts(s, a.c);
      CommitAligns(cfg, s, a);
      O.InsertAllKeepsInv(s.outbox, DraftsOf(s, a.c));
    }
  }

  lemma HandleStepKeepsInv<S, Q, K>(s: State<S, Q, K>, c: L.Client, registered: seq<O.Registered<Event<K>>>, clock: int)
    requires Inv(s)
    ensures Inv(DoHandle(s, c, registered, clock))
  {
    var t := DoHandle(s, c, registered, clock);
    forall d <- t.drafts
      ensures AreDrafts(t, d)
    {
      assert d in s.drafts ==> AreDrafts(s, d);
    }
  }

  lemma WorkerStepKeepsInv<S, Q, K>(cfg: C.Config<S, Q, K>, s: State<S, Q, K>, o: O.Action)
    requires Inv(s)
    ensures Inv(Do(cfg, s, Worker(o)))
  {
    O.StepKeepsInv(s.outbox, o);
    var t := Do(cfg, s, Worker(o));
    assert O.Do(s.outbox, o).queued == s.outbox.queued;
    forall c <- t.drafts
      ensures AreDrafts(t, c)
    {
      assert AreDrafts(s, c);
    }
  }

  lemma {:induction false} RunKeepsInv<S, Q, K>(cfg: C.Config<S, Q, K>, actions: seq<Action<Q, K>>)
    ensures Inv(Exec(cfg, actions))
  {
    if actions != [] {
      var n := |actions| - 1;
      var s := Exec(cfg, actions[..n]);
      RunKeepsInv(cfg, actions[..n]);
      match actions[n]
      case Client(a) =>
        ClientSide(cfg, actions[..n]);
        C.RunKeepsClients(cfg, Clients(cfg, actions[..n]));
        ClientStepKeepsInv(cfg, s, a);
      case Handle(c, registered, clock) => HandleStepKeepsInv(s, c, registered, clock);
      case Worker(o) => WorkerStepKeepsInv(cfg, s, o);
    }
  }

  // ----- What every run promises -----

  /**
   At least once, end to end: every committed event was queued as it was emitted,
   and for every handler that matched it then, either a call has succeeded or the
   handler is still pending in the outbox.
   */
  lemma AtLeastOnce<S, Q, K>(cfg: C.Config<S, Q, K>, actions: seq<Action<Q, K>>, i: nat)
    requires i < |C.Events(Exec(cfg, actions).cmds)|
    ensures var s := Exec(cfg, actions);
            && i < |s.rosters| && i < |s.outbox.queued|
            && L.IsStored(s.outbox.queued[i].event, C.Events(s.cmds)[i])
            && forall h <- s.rosters[i] :: h.matches(s.outbox.queued[i].event) ==>
                 (i, h.name) in s.outbox.delivered || O.Pending(s.outbox, i, h.name)
  {
    RunKeepsInv(cfg, actions);
    var s := Exec(cfg, actions);
    forall h <- s.rosters[i] | h.matches(s.outbox.queued[i].event)
      ensures (i, h.name) in s.outbox.delivered || O.Pending(s.outbox, i, h.name)
    {
      assert QueuedFor(C.Events(s.cmds)[i], s.outbox.queued[i], s.rosters[i]);
      assert h.name in s.outbox.queued[i].handlers;
    }
  }

  /**
   What aborted, rerun and failed attempts wrote never reaches the outbox, and
   nothing is delivered that was not committed and matched.
   */
  lemma OnlyCommittedEvents<S, Q, K>(cfg: C.Config<S, Q, K>, actions: seq<Action<Q, K>>)
    ensures var s := Exec(cfg, actions);
            var events, queued := C.Events(s.cmds), s.outbox.queued;
            && |queued| == |events| == |s.rosters|
            && (forall i :: 0 <= i < |events| ==> L.IsStored(queued[i].event, events[i]))
            && (forall i <- s.outbox.docs :: i < |events|)
            && (forall d <- s.outbox.delivered :: d.0 < |events|)
            && (forall d <- s.outbox.delivered :: d.1 in O.Matching(s.rosters[d.0], queued[d.0].event))
  {
    RunKeepsInv(cfg, actions);
    var s := Exec(cfg, actions);
    assert forall i :: 0 <= i < |C.Events(s.cmds)| ==> QueuedFor(C.Events(s.cmds)[i], s.outbox.queued[i], s.rosters[i]);
  }

  /**
   Nothing stands in the way of a commit: once the handler was called on every
   event, the attempt commits and its entries are queued, each for the handlers
   that match it, and pending.
   */
  lemma CommitQueues<S, Q, K>(cfg: C.Config<S, Q, K>, s: State<S, Q, K>, a: C.Action<Q>)
    requires C.Committing(s.cmds, a) && |DraftsOf(s, a.c)| == |s.cmds.log.saves[a.c].events|
    ensures var t := Do(cfg, s, Client(a));
            && C.Events(t.cmds) == C.Events(s.cmds) + L.Batch(s.cmds.log, a.c)
            && t.outbox.queued == s.outbox.queued + O.EntriesOf(DraftsOf(s, a.c))
            && |DraftsOf(s, a.c)| == |L.Batch(s.cmds.log, a.c)| && a.c !in t.drafts
  {
    CommitStep(cfg, s, a);
    O.InsertAllQueues(s.outbox, DraftsOf(s, a.c));
  }

  /** The handler is called on the events of the batch in turn, each once. */
  lemma HandlingAdvances<S, Q, K>(cfg: C.Config<S, Q, K>, s: State<S, Q, K>, c: L.Client, registered: seq<O.Registered<Event<K>>>, clock: int)
    requires L.InTransaction(s.cmds.log, c) && |DraftsOf(s, c)| < |s.cmds.log.saves[c].events|
    ensures var n, t := |DraftsOf(s, c)|, Do(cfg, s, Handle(c, registered, clock));
            && t.cmds == s.cmds && t.outbox == s.outbox && |DraftsOf(t, c)| == n + 1 && DraftsOf(t, c)[..n] == DraftsOf(s, c)
            && DraftsOf(t, c)[n].entry.event == s.cmds.log.saves[c].events[n] && DraftsOf(t, c)[n].roster == registered
            && (forall h <- registered :: h.matches(s.cmds.log.saves[c].events[n]) ==> h.name in DraftsOf(t, c)[n].entry.handlers)
  {
  }

  /** Workers work on the outbox as they do without the store. */
  lemma WorkersAct<S, Q, K>(cfg: C.Config<S, Q, K>, s: State<S, Q, K>, o: O.Action)
    ensures var t := Do(cfg, s, Worker(o)); t.outbox == O.Do(s.outbox, o) && t.cmds == s.cmds && t.drafts == s.drafts
  {
  }

  /** Whatever ends an attempt without a commit discards what it wrote. */
  lemma EndedAttemptLeavesNothing<S, Q, K>(cfg: C.Config<S, Q, K>, s: State<S, Q, K>, a: C.Action<Q>)
    requires EndsDrafts(a) && !C.Committing(s.cmds, a)
    ensures var t := Do(cfg, s, Client(a)); t.outbox == s.outbox && t.drafts == s.drafts - {a.c} && t.cmds == C.Do(cfg, s.cmds, a)
  {
  }
}
