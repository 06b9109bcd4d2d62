/**
 Whole runs of the in-memory outbox.  Its lock makes the processing of one entry
 one step; an entry may be processed again after it was deleted, because the
 watch channel still holds it.
 */
module MemoryRuns {
  import opened Base
  import opened Outbox

  /** `gone` holds the deleted entries, as the watch channel may still see them. */
  datatype State<+E> = State(
    docs: map<nat, Doc>, gone: map<nat, Doc>,
    queued: seq<Queued<E>>, delivered: set<(nat, Handler)>, takes: map<nat, seq<int>>)

  datatype Action<+E> =
    | HandleEvent(entry: Queued<E>, createdAt: int)
    | Process(id: nat, now: int, outcomes: nat -> bool)

  function Init<E>(): State<E> {
    State.State(map[], map[], [], {}, map[])
  }

  /** The handlers of an entry whose calls succeed. */
  function Succeeding(doc: Doc, outcomes: nat -> bool): seq<Handler> {
    Successes(doc.handlers, seq(|doc.handlers|, outcomes))
  }

  /** An entry after its handlers were called: a new lease, and the successful ones gone unless all were. */
  function AfterCalls(doc: Doc, now: int, processed: seq<Handler>): Doc {
    Doc(if |processed| == |doc.handlers| || processed == [] then doc.handlers else PullAll(doc.handlers, processed),
        doc.createdAt, Some(now))
  }

  /** What processing leaves of the collection. */
  function Settled(docs: map<nat, Doc>, id: nat, now: int, processed: seq<Handler>): map<nat, Doc>
    requires id in docs
  {
    Settle(docs[id := docs[id].(takenAt := Some(now))], id, docs[id].handlers, processed)
  }

  lemma SettledAt(docs: map<nat, Doc>, id: nat, now: int, processed: seq<Handler>)
    requires id in docs
    ensures Settled(docs, id, now, processed)
         == if |processed| == |docs[id].handlers| then docs - {id} else docs[id := AfterCalls(docs[id], now, processed)]
  {
    assert docs[id := docs[id].(takenAt := Some(now))] - {id} == docs - {id};
  }

  function Stamps<E>(s: State<E>, id: nat): seq<int> {
    if id in s.takes then s.takes[id] else []
  }

  function DoProcess<E>(s: State<E>, id: nat, now: int, outcomes: nat -> bool): State<E> {
    if id in s.docs && Free(s.docs[id], now) then
      var doc, processed := s.docs[id], Succeeding(s.docs[id], outcomes);
      s.(docs := Settled(s.docs, id, now, processed),
         gone := if |processed| == |doc.handlers| then s.gone[id := AfterCalls(doc, now, processed)] else s.gone,
         delivered := s.delivered + Deliveries(id, processed), takes := s.takes[id := Stamps(s, id) + [now]])
    else if id !in s.docs && id in s.gone && Free(s.gone[id], now) then
      var processed := Succeeding(s.gone[id], outcomes);
      s.(gone := s.gone[id := AfterCalls(s.gone[id], now, processed)],
         delivered := s.delivered + Deliveries(id, processed), takes := s.takes[id := Stamps(s, id) + [now]])
    else s
  }

  function Do<E>(s: State<E>, a: Action<E>): State<E> {
    match a
    case HandleEvent(entry, createdAt) =>
      s.(docs := s.docs[|s.queued| := Doc(entry.handlers, createdAt, None)], queued := s.queued + [entry])
    case Process(id, now, outcomes) => DoProcess(s, id, now, outcomes)
  }

  function Exec<E>(actions: seq<Action<E>>): State<E> {
    if actions == [] then Init() else Do(Exec(actions[..|actions| - 1]), actions[|actions| - 1])
  }

  // ----- Deleted entries and leases -----

  /** A deleted entry lists only handlers that have succeeded. */
  ghost predicate GoneIsDone<E>(s: State<E>) {
    && (forall i <- s.gone :: i < |s.queued| && i !in s.docs)
    && (forall i: nat, h: Handler :: i in s.gone && h in s.gone[i].handlers ==> (i, h) in s.delivered)
  }

  /** An entry never taken still lists all its handlers. */
  ghost predicate Whole<E>(s: State<E>) {
    forall i <- s.docs :: i < |s.queued| && (s.docs[i].takenAt.None? ==> s.docs[i].handlers == s.queued[i].handlers)
  }

  ghost predicate LastStamp<E>(s: State<E>, i: nat, doc: Doc) {
    doc.takenAt == if i in s.takes && s.takes[i] != [] then Some(s.takes[i][|s.takes[i]| - 1]) else None
  }

  /** Stored or deleted, an entry's lease is its last stamp, and stamps are more than the sweep age apart. */
  ghost predicate Leased<E>(s: State<E>) {
    && (forall i <- s.takes :: i < |s.queued| && Spaced(s.takes[i]))
    && (forall i <- s.docs :: LastStamp(s, i, s.docs[i]))
    && (forall i <- s.gone :: LastStamp(s, i, s.gone[i]))
  }

  lemma {:induction false} SuccessesAreHandlers(handlers: seq<Handler>, outcomes: seq<bool>)
    requires |handlers| == |outcomes|
    ensures var p := Successes(handlers, outcomes);
            && |p| <= |handlers| && (|p| == |handlers| ==> p == handlers)
            && forall h <- p :: h in handlers
  {
    if handlers != [] {
      var k := |handlers| - 1;
      SuccessesAreHandlers(handlers[..k], outcomes[..k]);
      assert handlers == handlers[..k] + [handlers[k]];
    }
  }

  lemma SucceedingAreHandlers(doc: Doc, outcomes: nat -> bool)
    ensures var p := Succeeding(doc, outcomes);
            && |p| <= |doc.handlers| && (|p| == |doc.handlers| ==> p == doc.handlers)
            && forall h <- p :: h in doc.handlers
  {
    SuccessesAreHandlers(doc.handlers, seq(|doc.handlers|, outcomes));
  }

  lemma StepKeepsGone<E>(s: State<E>, a: Action<E>)
    requires GoneIsDone(s) && Whole(s)
    ensures GoneIsDone(Do(s, a))
  {
    if a.Process? {
      var t := Do(s, a);
      if a.id in s.docs && Free(s.docs[a.id], a.now) {
        var processed := Succeeding(s.docs[a.id], a.outcomes);
        SucceedingAreHandlers(s.docs[a.id], a.outcomes);
        DeliveriesMembers(a.id, processed);
        SettledAt(s.docs, a.id, a.now, processed);
      } else if a.id in s.gone && Free(s.gone[a.id], a.now) {
        var gone, processed := s.gone[a.id], Succeeding(s.gone[a.id], a.outcomes);
        forall h <- AfterCalls(gone, a.now, processed).handlers
          ensures h in gone.handlers
        {
          PullAllMembers(gone.handlers, processed, h);
        }
      }
    }
  }

  lemma StepKeepsWhole<E>(s: State<E>, a: Action<E>)
    requires Whole(s)
    ensures Whole(Do(s, a))
  {
    if a.Process? && a.id in s.docs && Free(s.docs[a.id], a.now) {
      SettledAt(s.docs, a.id, a.now, Succeeding(s.docs[a.id], a.outcomes));
    }
  }

  lemma StampIsSpaced<E>(s: State<E>, id: nat, doc: Doc, now: int)
    requires Leased(s) && LastStamp(s, id, doc) && Free(doc, now)
    ensures Spaced(Stamps(s, id) + [now])
  {
  }

  /** A stamp on one entry, which then carries it, leaves the other leases alone. */
  lemma StampKeepsLeased<E>(s: State<E>, t: State<E>, id: nat, now: int)
    requires Leased(s) && Spaced(Stamps(s, id) + [now]) && id < |s.queued|
    requires t.takes == s.takes[id := Stamps(s, id) + [now]] && t.queued == s.queued
    requires forall i <- t.docs :: if i == id then t.docs[i].takenAt == Some(now) else i in s.docs && t.docs[i] == s.docs[i]
    requires forall i <- t.gone :: if i == id then t.gone[i].takenAt == Some(now) else i in s.gone && t.gone[i] == s.gone[i]
    ensures Leased(t)
  {
    forall i <- t.docs
      ensures LastStamp(t, i, t.docs[i])
    {
      assert i != id ==> LastStamp(s, i, s.docs[i]);
    }
    forall i <- t.gone
      ensures LastStamp(t, i, t.gone[i])
    {
      assert i != id ==> LastStamp(s, i, s.gone[i]);
    }
  }

  lemma ProcessKeepsLeased<E>(s: State<E>, id: nat, now: int, outcomes: nat -> bool)
    requires Leased(s) && GoneIsDone(s) && Whole(s)
    ensures Leased(DoProcess(s, id, now, outcomes))
  {
    var t := DoProcess(s, id, now, outcomes);
    if id in s.docs && Free(s.docs[id], now) {
      StampIsSpaced(s, id, s.docs[id], now);
      SettledAt(s.docs, id, now, Succeeding(s.docs[id], outcomes));
      StampKeepsLeased(s, t, id, now);
    } else if id !in s.docs && id in s.gone && Free(s.gone[id], now) {
      StampIsSpaced(s, id, s.gone[id], now);
      StampKeepsLeased(s, t, id, now);
    }
  }

  lemma QueueKeepsLeased<E>(s: State<E>, a: Action<E>)
    requires Leased(s) && a.HandleEvent?
    ensures Leased(Do(s, a))
  {
    var t := Do(s, a);
    forall i <- t.docs
      ensures LastStamp(t, i, t.docs[i])
    {
      assert i != |s.queued| ==> LastStamp(s, i, s.docs[i]);
    }
    forall i <- t.gone
      ensures LastStamp(t, i, t.gone[i])
    {
      assert LastStamp(s, i, s.gone[i]);
    }
  }

  lemma {:induction false} RunKeepsEntries<E>(actions: seq<Action<E>>)
    ensures var s := Exec(actions); GoneIsDone(s) && Whole(s) && Leased(s)
  {
    if actions != [] {
      var s, a := Exec(actions[..|actions| - 1]), actions[|actions| - 1];
      RunKeepsEntries(actions[..|actions| - 1]);
      StepKeepsGone(s, a);
      StepKeepsWhole(s, a);
      if a.Process? {
        ProcessKeepsLeased(s, a.id, a.now, a.outcomes);
      } else {
        QueueKeepsLeased(s, a);
      }
    }
  }

  /** Over every run, also counting deleted entries: at most window / age + 1 takes of an entry in a window. */
  lemma MemoryLeaseBound<E>(actions: seq<Action<E>>, id: nat, i: nat, j: nat, window: nat)
    requires i <= j < |Stamps(Exec(actions), id)|
    requires Stamps(Exec(actions), id)[j] - Stamps(Exec(actions), id)[i] <= window
    ensures j - i + 1 <= window / PERIODIC_SWEEP_AGE + 1
  {
    RunKeepsEntries(actions);
    TakesPerWindow(Stamps(Exec(actions), id), i, j, window);
  }

  /** An entry whose handlers all succeed is deleted, but the watch channel still holds it with all of them and its lease. */
  lemma AllSucceed<E>(s: State<E>, id: nat, now: int)
    requires id in s.docs && Free(s.docs[id], now)
    ensures var t := DoProcess(s, id, now, _ => true);
            && t.docs == s.docs - {id} && id in t.gone && t.gone[id] == Doc(s.docs[id].handlers, s.docs[id].createdAt, Some(now))
            && Stamps(t, id) == Stamps(s, id) + [now]
            && forall h <- s.docs[id].handlers :: (id, h) in t.delivered
  {
    var doc := s.docs[id];
    EverySuccess(doc.handlers, seq(|doc.handlers|, _ => true));
    SettledAt(s.docs, id, now, doc.handlers);
    DeliveriesMembers(id, doc.handlers);
  }

  lemma {:induction false} EverySuccess(handlers: seq<Handler>, outcomes: seq<bool>)
    requires |handlers| == |outcomes| && forall i :: 0 <= i < |outcomes| ==> outcomes[i]
    ensures Successes(handlers, outcomes) == handlers
  {
    if handlers != [] {
      var k := |handlers| - 1;
      EverySuccess(handlers[..k], outcomes[..k]);
      assert handlers == handlers[..k] + [handlers[k]];
    }
  }

  /** A deleted entry is processed again once its lease has expired: its handlers are called and a new lease stamped. */
  lemma GoneIsProcessedAgain<E>(s: State<E>, id: nat, now: int, outcomes: nat -> bool)
    requires id !in s.docs && id in s.gone && s.gone[id].takenAt.Some?
    ensures var t := DoProcess(s, id, now, outcomes);
            && t.docs == s.docs
            && (now <= s.gone[id].takenAt.value + 15_000 ==> t == s)
            && (now > s.gone[id].takenAt.value + 15_000 ==>
                Stamps(t, id) == Stamps(s, id) + [now] && id in t.gone && t.gone[id].takenAt == Some(now))
  {
  }

  /** A queued event is pending for all its handlers. */
  lemma QueueTells<E>(s: State<E>, entry: Queued<E>, createdAt: int)
    ensures var t := Do(s, HandleEvent(entry, createdAt));
            && t.queued == s.queued + [entry] && t.docs == s.docs[|s.queued| := Doc(entry.handlers, createdAt, None)]
            && t.gone == s.gone && t.delivered == s.delivered
  {
  }

  // ----- Refinement of the distributed outbox -----

  /** Everything but the stamps of deleted entries is as in a run of the distributed outbox. */
  ghost predicate Matches<E>(s: State<E>, o: Outbox.State<E>) {
    o.docs == s.docs && o.jobs == map[] && o.queued == s.queued && o.delivered == s.delivered
  }

  function CallSteps<E>(outcomes: seq<bool>): seq<Step<E>> {
    seq(|outcomes|, i requires 0 <= i < |outcomes| => Work(Call(0, outcomes[i])))
  }

  lemma ExecNext<E>(steps: seq<Step<E>>, a: Outbox.Action)
    ensures Outbox.Exec(steps + [Work(a)]) == Outbox.Do(Outbox.Exec(steps), a)
  {
    assert (steps + [Work(a)])[..|steps|] == steps;
  }

  lemma {:induction false} ExecCalls<E>(steps: seq<Step<E>>, outcomes: seq<bool>)
    ensures Outbox.Exec(steps + CallSteps(outcomes)) == DoCalls(Outbox.Exec(steps), 0, outcomes)
  {
    if outcomes == [] {
      assert steps + CallSteps(outcomes) == steps;
    } else {
      var k := |outcomes| - 1;
      ExecCalls(steps, outcomes[..k]);
      ExecNext(steps + CallSteps(outcomes[..k]), Call(0, outcomes[k]));
      assert steps + CallSteps(outcomes) == steps + CallSteps(outcomes[..k]) + [Work(Call(0, outcomes[k]))];
    }
  }

  /** How the distributed outbox would fetch an entry that is free. */
  function Fetching(doc: Doc, id: nat, now: int): Outbox.Action {
    if doc.takenAt.None? then Watch(0, id, now) else Sweep(0, id, now)
  }

  /** Processing a stored entry is fetching, taking, calling and finishing it. */
  lemma LiveStepRefines<E>(s: State<E>, steps: seq<Step<E>>, id: nat, now: int, outcomes: nat -> bool) returns (more: seq<Step<E>>)
    requires Matches(s, Outbox.Exec(steps)) && Whole(s) && id in s.docs && Free(s.docs[id], now)
    ensures Matches(DoProcess(s, id, now, outcomes), Outbox.Exec(more))
  {
    var o, doc := Outbox.Exec(steps), s.docs[id];
    var outs := seq(|doc.handlers|, outcomes);
    var fetched := Outbox.Do(o, Fetching(doc, id, now));
    assert fetched == o.(jobs := map[0 := Job(id, doc.handlers, now, Fetched)]);
    ExecNext(steps, Fetching(doc, id, now));
    var a := steps + [Work(Fetching(doc, id, now))];
    ExecNext(a, Take(0));
    var b := a + [Work(Take(0))];
    ExecCalls(b, outs);
    ExecNext(b + CallSteps(outs), Finish(0));
    SoloJob(fetched, 0, outs);
    more := b + CallSteps(outs) + [Work(Finish(0))];
    assert fetched.jobs - {0} == map[];
  }

  /** Processing a deleted entry again delivers nothing that was not delivered before. */
  lemma GoneStepStutters<E>(s: State<E>, id: nat, now: int, outcomes: nat -> bool)
    requires GoneIsDone(s) && !(id in s.docs && Free(s.docs[id], now))
    ensures var t := DoProcess(s, id, now, outcomes);
            t.docs == s.docs && t.queued == s.queued && t.delivered == s.delivered
  {
    if id !in s.docs && id in s.gone && Free(s.gone[id], now) {
      SucceedingAreHandlers(s.gone[id], outcomes);
      DeliveriesMembers(id, Succeeding(s.gone[id], outcomes));
    }
  }

  /** Every run of the in-memory outbox is a run of the distributed one, with one worker. */
  lemma {:induction false} MemoryRefines<E>(actions: seq<Action<E>>) returns (steps: seq<Step<E>>)
    ensures Matches(Exec(actions), Outbox.Exec(steps))
  {
    steps := [];
    if actions != [] {
      var s, a := Exec(actions[..|actions| - 1]), actions[|actions| - 1];
      steps := MemoryRefines(actions[..|actions| - 1]);
      RunKeepsEntries(actions[..|actions| - 1]);
      match a
      case HandleEvent(entry, createdAt) =>
        assert (steps + [Queue(entry, createdAt)])[..|steps|] == steps;
        steps := steps + [Queue(entry, createdAt)];
      case Process(id, now, outcomes) =>
        if id in s.docs && Free(s.docs[id], now) {
          steps := LiveStepRefines(s, steps, id, now, outcomes);
        } else {
          GoneStepStutters(s, id, now, outcomes);
        }
    }
  }

  /** So nothing is lost and nothing spurious delivered, over every run. */
  lemma MemoryLosesNothing<E>(actions: seq<Action<E>>)
    ensures var s := Exec(actions);
            && (forall i: nat, h: Handler :: i < |s.queued| && h in s.queued[i].handlers ==>
                (i, h) in s.delivered || (i in s.docs && h in s.docs[i].handlers))
            && (forall d <- s.delivered :: d.0 < |s.queued| && d.1 in s.queued[d.0].handlers)
  {
    var steps := MemoryRefines(actions);
    Outbox.RunKeepsInv(steps);
    var s, o := Exec(actions), Outbox.Exec(steps);
    forall i: nat, h: Handler | i < |s.queued| && h in s.queued[i].handlers
      ensures (i, h) in s.delivered || (i in s.docs && h in s.docs[i].handlers)
    {
      assert (i, h) in o.delivered || Pending(o, i, h);
    }
  }
}
