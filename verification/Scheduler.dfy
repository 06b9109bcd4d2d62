/**
 The durable command scheduler: a repository of persisted commands, a bounded
 queue, a run loop with one goroutine per command, cancellation, stop, restart
 and loss of the process.
 */
module Scheduler {
  import opened Base

  const QUEUE_SIZE := 100

  type Instance = nat

  /** A scheduled command; `command` stands for its type and data. */
  datatype Scheduled = Scheduled(id: Uuid, executeAt: int, command: nat)

  /** A goroutine: waiting, or past its select with the persisted command still to be removed. */
  datatype Stage = Waiting | Fired | Canceled

  datatype Job = Job(cmd: Scheduled, stage: Stage)

  /**
   `repo` is durable; the rest of the first group is the process.  History:
   `persisted` holds every command ever saved, `calls` lists the handler calls
   with the time of each, `canceled` the commands whose cancellation was taken.
   */
  datatype State = State(
    repo: map<Uuid, Scheduled>,
    queue: seq<Scheduled>, jobs: map<Instance, Job>, waitGroup: int,
    channels: map<Uuid, Instance>, closed: set<Instance>, nextInstance: Instance,
    looping: bool, stopping: bool, running: bool, clock: int,
    persisted: set<Scheduled>, calls: seq<(Scheduled, int)>, canceled: set<Scheduled>)

  datatype Action =
    | Schedule(cmd: Scheduled, saved: bool)
    | Load(order: seq<Uuid>)
    | Start
    | Tick(time: nat)
    | Dequeue
    | Fire(i: Instance)
    | Cancel(id: Uuid)
    | TakeCancel(i: Instance)
    | Finish(i: Instance, removed: bool)
    | Abandon(i: Instance)
    | RequestStop
    | BreakLoop
    | StopReturns
    | Crash

  function Init(): State {
    State(map[], [], map[], 0, map[], {}, 0, false, false, false, 0, {}, [], {})
  }

  // ----- The queue -----

  /** A send that gives up when the queue is full. */
  function Offer(queue: seq<Scheduled>, cmd: Scheduled): seq<Scheduled> {
    if |queue| < QUEUE_SIZE then queue + [cmd] else queue
  }

  /** Load sends commands one after another and stops at the first that does not fit. */
  function OfferAll(queue: seq<Scheduled>, cmds: seq<Scheduled>): seq<Scheduled>
    decreases |cmds|
  {
    if cmds == [] || |queue| >= QUEUE_SIZE then queue else OfferAll(queue + [cmds[0]], cmds[1..])
  }

  function Stored(repo: map<Uuid, Scheduled>, order: seq<Uuid>): seq<Scheduled>
    requires forall i :: 0 <= i < |order| ==> order[i] in repo
  {
    seq(|order|, i requires 0 <= i < |order| => repo[order[i]])
  }

  /** The loop of Load: it fills the queue in order and fails exactly when something is left over. */
  method LoadLoop(queue: seq<Scheduled>, cmds: seq<Scheduled>) returns (r: seq<Scheduled>, ok: bool)
    requires |queue| <= QUEUE_SIZE
    ensures r == OfferAll(queue, cmds)
    ensures ok <==> |queue| + |cmds| <= QUEUE_SIZE
    ensures |r| <= QUEUE_SIZE && exists k :: 0 <= k <= |cmds| && r == queue + cmds[..k] && (k < |cmds| ==> |r| == QUEUE_SIZE)
  {
    r := queue;
    for i := 0 to |cmds|
      invariant r == queue + cmds[..i] && |r| <= QUEUE_SIZE
      invariant OfferAll(r, cmds[i..]) == OfferAll(queue, cmds)
    {
      if |r| >= QUEUE_SIZE {
        return r, false;
      }
      assert cmds[i..][1..] == cmds[i + 1..];
      r := r + [cmds[i]];
      assert cmds[..i + 1] == cmds[..i] + [cmds[i]];
    }
    assert r == queue + cmds[..|cmds|];
    return r, true;
  }

  // ----- Steps -----

  predicate Waits(s: State, i: Instance) {
    i in s.jobs && s.jobs[i].stage.Waiting?
  }

  function DoSchedule(s: State, cmd: Scheduled, saved: bool): State {
    // A failed save schedules nothing; a full queue leaves the saved command; a used ID is saved over.
    if !saved then s
    else s.(repo := s.repo[cmd.id := cmd], persisted := s.persisted + {cmd}, queue := Offer(s.queue, cmd))
  }

  function DoLoad(s: State, order: seq<Uuid>): State {
    if forall i :: 0 <= i < |order| ==> order[i] in s.repo then
      s.(queue := OfferAll(s.queue, Stored(s.repo, order)))
    else s
  }

  /** The run loop takes a command, registers its cancel channel and starts a goroutine. */
  function DoDequeue(s: State): State {
    if !s.looping || s.queue == [] then s
    else
      var cmd, i := s.queue[0], s.nextInstance;
      s.(queue := s.queue[1..], jobs := s.jobs[i := Job(cmd, Waiting)], waitGroup := s.waitGroup + 1,
         channels := s.channels[cmd.id := i], nextInstance := i + 1)
  }

  /** The timer wins the select: the handler is called, whatever it returns. */
  function DoFire(s: State, i: Instance): State {
    if !Waits(s, i) || s.clock < s.jobs[i].cmd.executeAt then s
    else s.(jobs := s.jobs[i := s.jobs[i].(stage := Fired)], calls := s.calls + [(s.jobs[i].cmd, s.clock)])
  }

  function Crashed(s: State): State {
    s.(queue := [], jobs := map[], waitGroup := 0, channels := map[], closed := {},
       looping := false, stopping := false, running := false)
  }

  /** Closing a channel that is already closed panics. */
  function DoCancel(s: State, id: Uuid): State {
    if id !in s.channels then s
    else if s.channels[id] in s.closed then Crashed(s)
    else s.(closed := s.closed + {s.channels[id]})
  }

  function DoTakeCancel(s: State, i: Instance): State {
    if !Waits(s, i) || i !in s.closed then s
    else s.(jobs := s.jobs[i := s.jobs[i].(stage := Canceled)], canceled := s.canceled + {s.jobs[i].cmd})
  }

  /** The persisted command is removed, or its removal fails, and the goroutine ends. */
  function DoFinish(s: State, i: Instance, removed: bool): State {
    if i !in s.jobs || s.jobs[i].stage.Waiting? then s
    else s.(repo := if removed then s.repo - {s.jobs[i].cmd.id} else s.repo,
            jobs := s.jobs - {i}, waitGroup := s.waitGroup - 1)
  }

  /** The scheduler stops: the goroutine ends and leaves the persisted command. */
  function DoAbandon(s: State, i: Instance): State {
    if !Waits(s, i) || !s.stopping then s else s.(jobs := s.jobs - {i}, waitGroup := s.waitGroup - 1)
  }

  function Do(s: State, a: Action): State {
    match a
    case Schedule(cmd, saved) => DoSchedule(s, cmd, saved)
    case Load(order) => DoLoad(s, order)
    case Start => if s.running then s else s.(running := true, looping := true, stopping := false)
    case Tick(time) => s.(clock := s.clock + time)
    case Dequeue => DoDequeue(s)
    case Fire(i) => DoFire(s, i)
    case Cancel(id) => DoCancel(s, id)
    case TakeCancel(i) => DoTakeCancel(s, i)
    case Finish(i, removed) => DoFinish(s, i, removed)
    case Abandon(i) => DoAbandon(s, i)
    case RequestStop => if s.running then s.(stopping := true) else s
    case BreakLoop => if s.stopping then s.(looping := false) else s
    case StopReturns => if s.stopping && !s.looping && s.waitGroup == 0 then s.(running := false) else s
    case Crash => Crashed(s)
  }

  function Exec(actions: seq<Action>): State {
    if actions == [] then Init() else Do(Exec(actions[..|actions| - 1]), actions[|actions| - 1])
  }

  // ----- Histories -----

  function IdsOf(cmds: set<Scheduled>): set<Uuid> {
    set c <- cmds :: c.id
  }

  /** The commands whose handler was called. */
  function Called(calls: seq<(Scheduled, int)>): set<Scheduled> {
    set k | 0 <= k < |calls| :: calls[k].0
  }

  lemma IdsOfNext(cmds: set<Scheduled>, c: Scheduled)
    ensures IdsOf(cmds + {c}) == IdsOf(cmds) + {c.id}
  {
  }

  lemma CalledNext(calls: seq<(Scheduled, int)>, c: Scheduled, time: int)
    ensures Called(calls + [(c, time)]) == Called(calls) + {c}
  {
    var now := calls + [(c, time)];
    forall x | x in Called(calls) + {c}
      ensures x in Called(now)
    {
      if x in Called(calls) {
        var k :| 0 <= k < |calls| && calls[k].0 == x;
        assert now[k].0 == x;
      } else {
        assert now[|calls|].0 == x;
      }
    }
  }

  /** The IDs that are through: a handler was called or a cancellation taken. */
  function Through(s: State): set<Uuid> {
    IdsOf(Called(s.calls)) + IdsOf(s.canceled)
  }

  // ----- Invariant -----

  /** Every ID ever saved is still stored, or its handler was called, or its cancellation was taken. */
  ghost predicate Durable(s: State) {
    forall c <- s.persisted :: c.id in s.repo || c.id in Through(s)
  }

  ghost predicate JobIsSound(s: State, job: Job) {
    && job.cmd in s.persisted
    && (job.stage.Fired? ==> job.cmd in Called(s.calls))
    && (job.stage.Canceled? ==> job.cmd in s.canceled)
  }

  /** What is stored, queued or in flight was saved like that, and histories tell of nothing else. */
  ghost predicate Genuine(s: State) {
    && (forall id <- s.repo :: s.repo[id] in s.persisted && s.repo[id].id == id)
    && (forall k :: 0 <= k < |s.queue| ==> s.queue[k] in s.persisted)
    && (forall i <- s.jobs :: JobIsSound(s, s.jobs[i]))
    && s.canceled <= s.persisted
  }

  /** No handler is called before its time, or for a command that was not saved. */
  ghost predicate NoneEarly(s: State) {
    forall k :: 0 <= k < |s.calls| ==>
      s.calls[k].0 in s.persisted && s.calls[k].0.executeAt <= s.calls[k].1 <= s.clock
  }

  /** The wait group counts the goroutines; only a running scheduler has any. */
  ghost predicate Counted(s: State) {
    && s.waitGroup == |s.jobs| && |s.queue| <= QUEUE_SIZE
    && (forall i <- s.jobs :: i < s.nextInstance)
    && (!s.running ==> s.jobs == map[] && !s.looping)
  }

  ghost predicate Inv(s: State) {
    Durable(s) && Genuine(s) && NoneEarly(s) && Counted(s)
  }

  lemma {:induction false} OfferAllAdds(queue: seq<Scheduled>, cmds: seq<Scheduled>)
    requires |queue| <= QUEUE_SIZE
    ensures |OfferAll(queue, cmds)| <= QUEUE_SIZE
    ensures forall c <- OfferAll(queue, cmds) :: c in queue || c in cmds
    decreases |cmds|
  {
    if cmds != [] && |queue| < QUEUE_SIZE {
      OfferAllAdds(queue + [cmds[0]], cmds[1..]);
    }
  }

  // ----- Durability -----

  lemma FireKeepsDurable(s: State, i: Instance)
    requires Durable(s)
    ensures Durable(DoFire(s, i))
  {
    if DoFire(s, i) != s {
      CalledNext(s.calls, s.jobs[i].cmd, s.clock);
      IdsOfNext(Called(s.calls), s.jobs[i].cmd);
    }
  }

  lemma TakeCancelKeepsDurable(s: State, i: Instance)
    requires Durable(s)
    ensures Durable(DoTakeCancel(s, i))
  {
    if DoTakeCancel(s, i) != s {
      IdsOfNext(s.canceled, s.jobs[i].cmd);
    }
  }

  lemma FinishKeepsDurable(s: State, i: Instance, removed: bool)
    requires Durable(s) && Genuine(s)
    ensures Durable(DoFinish(s, i, removed))
  {
    if DoFinish(s, i, removed) != s {
      assert JobIsSound(s, s.jobs[i]);
      assert s.jobs[i].cmd.id in Through(s);
    }
  }

  /** The other steps touch neither the repository nor the histories. */
  lemma QuietStep(s: State, a: Action)
    requires !a.Schedule? && !a.Fire? && !a.TakeCancel? && !a.Finish?
    ensures var t := Do(s, a);
            t.repo == s.repo && t.persisted == s.persisted && t.calls == s.calls && t.canceled == s.canceled
  {
  }

  lemma StepKeepsDurable(s: State, a: Action)
    requires Durable(s) && Genuine(s)
    ensures Durable(Do(s, a))
  {
    match a
    case Schedule(cmd, saved) =>
    case Fire(i) => FireKeepsDurable(s, i);
    case TakeCancel(i) => TakeCancelKeepsDurable(s, i);
    case Finish(i, removed) => FinishKeepsDurable(s, i, removed);
    case _ => QuietStep(s, a);
  }

  // ----- Genuineness -----

  lemma LoadIsGenuine(s: State, order: seq<Uuid>)
    requires Genuine(s) && |s.queue| <= QUEUE_SIZE
    ensures Genuine(DoLoad(s, order))
  {
    if forall i :: 0 <= i < |order| ==> order[i] in s.repo {
      var cmds, t := Stored(s.repo, order), DoLoad(s, order);
      OfferAllAdds(s.queue, cmds);
      forall k | 0 <= k < |t.queue|
        ensures t.queue[k] in t.persisted
      {
        assert t.queue[k] in s.queue || t.queue[k] in cmds;
      }
      assert forall i <- t.jobs :: JobIsSound(s, s.jobs[i]);
    }
  }

  lemma DequeueIsGenuine(s: State)
    requires Genuine(s)
    ensures Genuine(DoDequeue(s))
  {
    var t := DoDequeue(s);
    if t != s {
      assert forall k :: 0 <= k < |t.queue| ==> t.queue[k] == s.queue[k + 1];
      forall i <- t.jobs
        ensures JobIsSound(t, t.jobs[i])
      {
        if i != s.nextInstance { assert JobIsSound(s, s.jobs[i]); }
      }
    }
  }

  lemma FireIsGenuine(s: State, i: Instance)
    requires Genuine(s)
    ensures Genuine(DoFire(s, i))
  {
    var t := DoFire(s, i);
    if t != s {
      CalledNext(s.calls, s.jobs[i].cmd, s.clock);
      forall j <- t.jobs
        ensures JobIsSound(t, t.jobs[j])
      {
        assert JobIsSound(s, s.jobs[j]);
      }
    }
  }

  lemma TakeCancelIsGenuine(s: State, i: Instance)
    requires Genuine(s)
    ensures Genuine(DoTakeCancel(s, i))
  {
    var t := DoTakeCancel(s, i);
    if t != s {
      forall j <- t.jobs
        ensures JobIsSound(t, t.jobs[j])
      {
        assert JobIsSound(s, s.jobs[j]);
      }
    }
  }

  /** Steps that only drop stored, queued or running commands, or change what no command depends on. */
  lemma DroppingIsGenuine(s: State, t: State)
    requires Genuine(s) && s.persisted <= t.persisted && t.calls == s.calls && t.canceled == s.canceled
    requires forall id <- t.repo :: t.repo[id] in t.persisted && t.repo[id].id == id
    requires forall k :: 0 <= k < |t.queue| ==> t.queue[k] in t.persisted
    requires forall i <- t.jobs :: i in s.jobs && t.jobs[i] == s.jobs[i]
    ensures Genuine(t)
  {
    forall i <- t.jobs
      ensures JobIsSound(t, t.jobs[i])
    {
      assert JobIsSound(s, s.jobs[i]);
    }
  }

  lemma ScheduleIsGenuine(s: State, cmd: Scheduled, saved: bool)
    requires Genuine(s)
    ensures Genuine(DoSchedule(s, cmd, saved))
  {
    DroppingIsGenuine(s, DoSchedule(s, cmd, saved));
  }

  lemma FinishIsGenuine(s: State, i: Instance, removed: bool)
    requires Genuine(s)
    ensures Genuine(DoFinish(s, i, removed))
  {
    DroppingIsGenuine(s, DoFinish(s, i, removed));
  }

  lemma AbandonIsGenuine(s: State, i: Instance)
    requires Genuine(s)
    ensures Genuine(DoAbandon(s, i))
  {
    DroppingIsGenuine(s, DoAbandon(s, i));
  }

  lemma CrashIsGenuine(s: State)
    requires Genuine(s)
    ensures Genuine(Crashed(s))
  {
    DroppingIsGenuine(s, Crashed(s));
  }

  lemma CancelIsGenuine(s: State, id: Uuid)
    requires Genuine(s)
    ensures Genuine(DoCancel(s, id))
  {
    DroppingIsGenuine(s, DoCancel(s, id));
  }

  /** Steps of the clock and of the run loop itself. */
  predicate IsControl(a: Action) {
    a.Start? || a.Tick? || a.RequestStop? || a.BreakLoop? || a.StopReturns?
  }

  lemma ControlIsGenuine(s: State, a: Action)
    requires Genuine(s) && IsControl(a)
    ensures Genuine(Do(s, a))
  {
    DroppingIsGenuine(s, Do(s, a));
  }

  lemma StepIsGenuine(s: State, a: Action)
    requires Genuine(s) && |s.queue| <= QUEUE_SIZE
    ensures Genuine(Do(s, a))
  {
    match a
    case Schedule(cmd, saved) => ScheduleIsGenuine(s, cmd, saved);
    case Load(order) => LoadIsGenuine(s, order);
    case Dequeue => DequeueIsGenuine(s);
    case Fire(i) => FireIsGenuine(s, i);
    case Cancel(id) => CancelIsGenuine(s, id);
    case TakeCancel(i) => TakeCancelIsGenuine(s, i);
    case Finish(i, removed) => FinishIsGenuine(s, i, removed);
    case Abandon(i) => AbandonIsGenuine(s, i);
    case Crash => CrashIsGenuine(s);
    case _ => ControlIsGenuine(s, a);
  }

  // ----- Times and counts -----

  lemma StepIsNotEarly(s: State, a: Action)
    requires NoneEarly(s) && Genuine(s)
    ensures NoneEarly(Do(s, a))
  {
    if a.Fire? && Waits(s, a.i) {
      assert JobIsSound(s, s.jobs[a.i]);
    } else if !a.Schedule? && !a.TakeCancel? && !a.Finish? && !a.Fire? {
      QuietStep(s, a);
    }
  }

  lemma JobsGrow(jobs: map<Instance, Job>, i: Instance, job: Job)
    requires i !in jobs
    ensures |jobs[i := job]| == |jobs| + 1
  {
    assert jobs[i := job].Keys == jobs.Keys + {i};
    assert |jobs[i := job].Keys| == |jobs[i := job]| && |jobs.Keys| == |jobs|;
  }

  lemma JobsShrink(jobs: map<Instance, Job>, i: Instance)
    requires i in jobs
    ensures |jobs - {i}| == |jobs| - 1
  {
    JobsGrow(jobs - {i}, i, jobs[i]);
    assert (jobs - {i})[i := jobs[i]] == jobs;
  }

  lemma JobsChange(jobs: map<Instance, Job>, i: Instance, job: Job)
    requires i in jobs
    ensures |jobs[i := job]| == |jobs|
  {
    assert jobs[i := job].Keys == jobs.Keys;
    assert |jobs[i := job].Keys| == |jobs[i := job]| && |jobs.Keys| == |jobs|;
  }

  /** A goroutine that moves on, or ends and leaves the wait group, keeps the count. */
  lemma JobStepIsCounted(s: State, t: State, i: Instance)
    requires Counted(s) && i in s.jobs && t.queue == s.queue
    requires t.nextInstance == s.nextInstance && t.running == s.running && t.looping == s.looping
    requires if i in t.jobs then t.jobs == s.jobs[i := t.jobs[i]] && t.waitGroup == s.waitGroup
             else t.jobs == s.jobs - {i} && t.waitGroup == s.waitGroup - 1
    ensures Counted(t)
  {
    if i in t.jobs {
      JobsChange(s.jobs, i, t.jobs[i]);
    } else {
      JobsShrink(s.jobs, i);
    }
  }

  lemma DequeueIsCounted(s: State)
    requires Counted(s)
    ensures Counted(DoDequeue(s))
  {
    if DoDequeue(s) != s {
      JobsGrow(s.jobs, s.nextInstance, Job(s.queue[0], Waiting));
    }
  }

  lemma FireIsCounted(s: State, i: Instance)
    requires Counted(s)
    ensures Counted(DoFire(s, i))
  {
    if DoFire(s, i) != s {
      JobStepIsCounted(s, DoFire(s, i), i);
    }
  }

  lemma TakeCancelIsCounted(s: State, i: Instance)
    requires Counted(s)
    ensures Counted(DoTakeCancel(s, i))
  {
    if DoTakeCancel(s, i) != s {
      JobStepIsCounted(s, DoTakeCancel(s, i), i);
    }
  }

  lemma FinishIsCounted(s: State, i: Instance, removed: bool)
    requires Counted(s)
    ensures Counted(DoFinish(s, i, removed))
  {
    if DoFinish(s, i, removed) != s {
      JobStepIsCounted(s, DoFinish(s, i, removed), i);
    }
  }

  lemma AbandonIsCounted(s: State, i: Instance)
    requires Counted(s)
    ensures Counted(DoAbandon(s, i))
  {
    if DoAbandon(s, i) != s {
      JobStepIsCounted(s, DoAbandon(s, i), i);
    }
  }

  lemma ScheduleIsCounted(s: State, cmd: Scheduled, saved: bool)
    requires Counted(s)
    ensures Counted(DoSchedule(s, cmd, saved))
  {
  }

  lemma CancelIsCounted(s: State, id: Uuid)
    requires Counted(s)
    ensures Counted(DoCancel(s, id))
  {
  }

  lemma ControlIsCounted(s: State, a: Action)
    requires Counted(s) && (IsControl(a) || a.Crash?)
    ensures Counted(Do(s, a))
  {
    if s.waitGroup == 0 {
      assert s.jobs.Keys == {} && s.jobs == map[];
    }
  }

  lemma LoadIsCounted(s: State, order: seq<Uuid>)
    requires Counted(s)
    ensures Counted(DoLoad(s, order))
  {
    if forall i :: 0 <= i < |order| ==> order[i] in s.repo {
      OfferAllAdds(s.queue, Stored(s.repo, order));
    }
  }

  lemma StepIsCounted(s: State, a: Action)
    requires Counted(s)
    ensures Counted(Do(s, a))
  {
    match a
    case Schedule(cmd, saved) => ScheduleIsCounted(s, cmd, saved);
    case Load(order) => LoadIsCounted(s, order);
    case Dequeue => DequeueIsCounted(s);
    case Fire(i) => FireIsCounted(s, i);
    case Cancel(id) => CancelIsCounted(s, id);
    case TakeCancel(i) => TakeCancelIsCounted(s, i);
    case Finish(i, removed) => FinishIsCounted(s, i, removed);
    case Abandon(i) => AbandonIsCounted(s, i);
    case _ => ControlIsCounted(s, a);
  }

  lemma StepKeepsInv(s: State, a: Action)
    requires Inv(s)
    ensures Inv(Do(s, a))
  {
    StepKeepsDurable(s, a);
    StepIsGenuine(s, a);
    StepIsNotEarly(s, a);
    StepIsCounted(s, a);
  }

  // ----- What every run promises -----

  /**
   Durability over every run of scheduling, full queues, firing, cancelling,
   stopping, starting, loading and losing the process, also when IDs are used again.
   */
  lemma {:induction false} SchedulerIsDurable(actions: seq<Action>)
    ensures Inv(Exec(actions))
  {
    if actions != [] {
      SchedulerIsDurable(actions[..|actions| - 1]);
      StepKeepsInv(Exec(actions[..|actions| - 1]), actions[|actions| - 1]);
    }
  }

  /** The very command is still stored, or its handler was called, or its cancellation was taken. */
  ghost predicate IsSafe(s: State, c: Scheduled) {
    (c.id in s.repo && s.repo[c.id] == c) || c in Called(s.calls) || c in s.canceled
  }

  ghost predicate OnlyUse(s: State, c: Scheduled) {
    c in s.persisted && forall d <- s.persisted :: d.id == c.id ==> d == c
  }

  /** In every run, a command whose ID is used for no other is safe. */
  lemma NoCommandIsLost(actions: seq<Action>, c: Scheduled)
    requires OnlyUse(Exec(actions), c)
    ensures IsSafe(Exec(actions), c)
  {
    SchedulerIsDurable(actions);
    var s := Exec(actions);
    if c.id in s.repo {
      assert s.repo[c.id] in s.persisted;
    } else if d :| d in Called(s.calls) && d.id == c.id {
      var k :| 0 <= k < |s.calls| && s.calls[k].0 == d;
    } else {
      var d :| d in s.canceled && d.id == c.id;
    }
  }

  /** The two commands, and no other, are saved at some time in the run. */
  ghost predicate Saves(actions: seq<Action>, x: Scheduled, y: Scheduled) {
    Exec(actions).persisted == {x, y}
  }

  /** A run can lose one of two commands if and only if they are different ones with the same ID. */
  lemma CommandsAreLostIff(x: Scheduled, y: Scheduled)
    ensures (exists actions :: Saves(actions, x, y) && !(IsSafe(Exec(actions), x) && IsSafe(Exec(actions), y)))
       <==> x.id == y.id && x != y
  {
    if x.id == y.id && x != y {
      SavedOver(x, y);
    } else {
      forall actions | Saves(actions, x, y)
        ensures IsSafe(Exec(actions), x) && IsSafe(Exec(actions), y)
      {
        NoCommandIsLost(actions, x);
        NoCommandIsLost(actions, y);
      }
    }
  }

  /** The second command is saved over the first, and the process that still knew the first is lost. */
  function SavingOver(x: Scheduled, y: Scheduled): seq<Action> {
    [Schedule(x, true), Schedule(y, true), Crash]
  }

  lemma SavedOver(x: Scheduled, y: Scheduled)
    requires x.id == y.id && x != y
    ensures Saves(SavingOver(x, y), x, y) && !IsSafe(Exec(SavingOver(x, y)), x)
  {
    var run := SavingOver(x, y);
    assert run[..2] == [run[0], run[1]] && run[..2][..1] == [run[0]] && run[..2][..1][..0] == [];
    assert Exec([]) == Init();
    assert Exec(run[..2][..1]) == Do(Init(), run[0]);
    assert Exec(run[..2]) == Do(Do(Init(), run[0]), run[1]);
    assert Exec(run) == Do(Do(Do(Init(), run[0]), run[1]), Crash);
    assert Exec(run).persisted == {} + {x} + {y};
  }

  /** When Stop returns, no command is in flight, and every unfinished one can be loaded again. */
  lemma StoppedIsQuiet(actions: seq<Action>)
    requires actions != [] && actions[|actions| - 1].StopReturns? && !Exec(actions).running
    ensures var s := Exec(actions);
            && s.jobs == map[]
            && forall c <- s.persisted :: c.id !in Through(s) ==> c.id in s.repo
  {
    SchedulerIsDurable(actions);
  }

  // ----- At most once, without loading -----

  /** How often an ID is queued. */
  function CountIn(cmds: seq<Scheduled>, id: Uuid): nat {
    if cmds == [] then 0 else (if cmds[0].id == id then 1 else 0) + CountIn(cmds[1..], id)
  }

  lemma {:induction false} CountNext(cmds: seq<Scheduled>, c: Scheduled, id: Uuid)
    ensures CountIn(cmds + [c], id) == CountIn(cmds, id) + if c.id == id then 1 else 0
  {
    if cmds != [] {
      assert (cmds + [c])[1..] == cmds[1..] + [c];
      CountNext(cmds[1..], c, id);
    }
  }

  /** How often the handler was called for an ID. */
  function CallsOf(calls: seq<(Scheduled, int)>, id: Uuid): nat {
    if calls == [] then 0
    else CallsOf(calls[..|calls| - 1], id) + if calls[|calls| - 1].0.id == id then 1 else 0
  }

  ghost function WaitingFor(jobs: map<Instance, Job>, id: Uuid): set<Instance> {
    set i <- jobs | jobs[i].stage.Waiting? && jobs[i].cmd.id == id
  }

  ghost function CanceledFor(s: State, id: Uuid): set<Scheduled> {
    set c <- s.canceled | c.id == id
  }

  /** How often a run saves a command under an ID. */
  function SavesOf(actions: seq<Action>, id: Uuid): nat {
    if actions == [] then 0
    else
      var a := actions[|actions| - 1];
      SavesOf(actions[..|actions| - 1], id) + if a.Schedule? && a.saved && a.cmd.id == id then 1 else 0
  }

  /** Every save of an ID is queued, waits, was called or was cancelled, at most once. */
  ghost predicate Accounted(s: State, id: Uuid, saves: nat) {
    CountIn(s.queue, id) + |WaitingFor(s.jobs, id)| + CallsOf(s.calls, id) + |CanceledFor(s, id)| <= saves
  }

  lemma ScheduleIsAccounted(s: State, c: Scheduled, saved: bool, id: Uuid, n: nat)
    requires Accounted(s, id, n)
    ensures Accounted(DoSchedule(s, c, saved), id, n + if saved && c.id == id then 1 else 0)
  {
    CountNext(s.queue, c, id);
    assert CanceledFor(DoSchedule(s, c, saved), id) == CanceledFor(s, id);
  }

  /** A goroutine that starts. */
  lemma NowWaiting(jobs: map<Instance, Job>, i: Instance, c: Scheduled, id: Uuid)
    requires i !in jobs
    ensures |WaitingFor(jobs[i := Job(c, Waiting)], id)| == |WaitingFor(jobs, id)| + if c.id == id then 1 else 0
  {
    var mine := if c.id == id then {i} else {};
    assert WaitingFor(jobs[i := Job(c, Waiting)], id) == WaitingFor(jobs, id) + mine;
  }

  lemma DequeueIsAccounted(s: State, id: Uuid, n: nat)
    requires Accounted(s, id, n) && s.nextInstance !in s.jobs
    ensures Accounted(DoDequeue(s), id, n)
  {
    var t := DoDequeue(s);
    assert CanceledFor(t, id) == CanceledFor(s, id);
    if t != s {
      NowWaiting(s.jobs, s.nextInstance, s.queue[0], id);
    }
  }

  /** A goroutine that stops waiting. */
  lemma NoLongerWaiting(jobs: map<Instance, Job>, now: map<Instance, Job>, i: Instance, id: Uuid)
    requires i in jobs && jobs[i].stage.Waiting? && i !in WaitingFor(now, id)
    requires forall j :: j != i ==> (j in now <==> j in jobs) && (j in jobs ==> now[j] == jobs[j])
    ensures |WaitingFor(now, id)| == |WaitingFor(jobs, id)| - if jobs[i].cmd.id == id then 1 else 0
  {
    var mine := if jobs[i].cmd.id == id then {i} else {};
    assert WaitingFor(jobs, id) == WaitingFor(now, id) + mine;
  }

  lemma FireIsAccounted(s: State, i: Instance, id: Uuid, n: nat)
    requires Accounted(s, id, n)
    ensures Accounted(DoFire(s, i), id, n)
  {
    var t := DoFire(s, i);
    assert CanceledFor(t, id) == CanceledFor(s, id);
    if t != s {
      NoLongerWaiting(s.jobs, t.jobs, i, id);
      assert t.calls[..|s.calls|] == s.calls;
    }
  }

  lemma TakeCancelIsAccounted(s: State, i: Instance, id: Uuid, n: nat)
    requires Accounted(s, id, n)
    ensures Accounted(DoTakeCancel(s, i), id, n)
  {
    var t := DoTakeCancel(s, i);
    if t != s {
      var c := s.jobs[i].cmd;
      NoLongerWaiting(s.jobs, t.jobs, i, id);
      assert CanceledFor(t, id) == CanceledFor(s, id) + if c.id == id then {c} else {};
    }
  }

  /** Steps that only drop commands in memory. */
  lemma DroppingIsAccounted(s: State, t: State, id: Uuid, n: nat)
    requires Accounted(s, id, n) && t.calls == s.calls && t.canceled == s.canceled && (t.queue == s.queue || t.queue == [])
    requires forall i <- t.jobs :: i in s.jobs && t.jobs[i] == s.jobs[i]
    ensures Accounted(t, id, n)
  {
    assert CanceledFor(t, id) == CanceledFor(s, id);
    var rest := WaitingFor(s.jobs, id) - WaitingFor(t.jobs, id);
    assert WaitingFor(s.jobs, id) == WaitingFor(t.jobs, id) + rest;
  }

  lemma OtherStepDrops(s: State, a: Action)
    requires !a.Schedule? && !a.Load? && !a.Dequeue? && !a.Fire? && !a.TakeCancel?
    ensures var t := Do(s, a);
            && t.calls == s.calls && t.canceled == s.canceled && (t.queue == s.queue || t.queue == [])
            && forall i <- t.jobs :: i in s.jobs && t.jobs[i] == s.jobs[i]
  {
  }

  lemma {:induction false} RunIsAccounted(actions: seq<Action>, id: Uuid)
    requires forall k :: 0 <= k < |actions| ==> !actions[k].Load?
    ensures Accounted(Exec(actions), id, SavesOf(actions, id))
  {
    if actions == [] {
      assert WaitingFor(map[], id) == {} && CanceledFor(Init(), id) == {};
    } else {
      var k := |actions| - 1;
      var s, a, n := Exec(actions[..k]), actions[k], SavesOf(actions[..k], id);
      RunIsAccounted(actions[..k], id);
      match a
      case Schedule(c, saved) => ScheduleIsAccounted(s, c, saved, id, n);
      case Dequeue =>
        SchedulerIsDurable(actions[..k]);
        DequeueIsAccounted(s, id, n);
      case Fire(i) => FireIsAccounted(s, i, id, n);
      case TakeCancel(i) => TakeCancelIsAccounted(s, i, id, n);
      case _ =>
        OtherStepDrops(s, a);
        DroppingIsAccounted(s, Do(s, a), id, n);
    }
  }

  /**
   Unless persisted commands are loaded again, an ID is called and cancelled no
   more often than it was saved; saved once, it is called at most once, and never
   both called and cancelled.
   */
  lemma CalledAtMostAsSaved(actions: seq<Action>, id: Uuid)
    requires forall k :: 0 <= k < |actions| ==> !actions[k].Load?
    ensures var s := Exec(actions);
            && CallsOf(s.calls, id) + |CanceledFor(s, id)| <= SavesOf(actions, id)
            && (SavesOf(actions, id) <= 1 && CallsOf(s.calls, id) > 0 ==> id !in IdsOf(s.canceled))
  {
    RunIsAccounted(actions, id);
    var s := Exec(actions);
    if id in IdsOf(s.canceled) {
      var c :| c in s.canceled && c.id == id;
      assert c in CanceledFor(s, id);
    }
  }

  // ----- Cancelling -----

  /** The IDs whose cancellation a run asks for. */
  function AskedIn(actions: seq<Action>): set<Uuid> {
    if actions == [] then {}
    else
      var before, a := AskedIn(actions[..|actions| - 1]), actions[|actions| - 1];
      if a.Cancel? then before + {a.id} else before
  }

  lemma {:induction false} AskedIff(actions: seq<Action>, id: Uuid)
    ensures id in AskedIn(actions) <==> exists k :: 0 <= k < |actions| && actions[k] == Cancel(id)
  {
    if actions != [] {
      var n := |actions| - 1;
      AskedIff(actions[..n], id);
      if id in AskedIn(actions[..n]) {
        var k :| 0 <= k < n && actions[..n][k] == Cancel(id);
        assert actions[k] == Cancel(id);
      } else if k :| 0 <= k < |actions| && actions[k] == Cancel(id) {
        assert k < n ==> actions[..n][k] == Cancel(id);
      }
    }
  }

  /** A channel belongs to one goroutine, for one ID, and is closed only for an ID that was asked for. */
  ghost predicate Registered(s: State, asked: set<Uuid>) {
    && (forall i <- s.jobs :: i < s.nextInstance)
    && (forall id <- s.channels :: s.channels[id] < s.nextInstance)
    && (forall id <- s.channels :: s.channels[id] in s.jobs ==> s.jobs[s.channels[id]].cmd.id == id)
    && (forall i <- s.closed :: i < s.nextInstance && (i in s.jobs ==> s.jobs[i].cmd.id in asked))
    && (forall c <- s.canceled :: c.id in asked)
  }

  lemma DequeueRegisters(s: State, asked: set<Uuid>)
    requires Registered(s, asked)
    ensures Registered(DoDequeue(s), asked)
  {
  }

  lemma CancelRegisters(s: State, id: Uuid, asked: set<Uuid>)
    requires Registered(s, asked)
    ensures Registered(DoCancel(s, id), asked + {id})
  {
  }

  /** Steps of goroutines: they keep their command and leave the channels alone. */
  lemma JobStepRegisters(s: State, t: State, asked: set<Uuid>)
    requires Registered(s, asked) && t.nextInstance == s.nextInstance
    requires (t.channels == s.channels && t.closed == s.closed) || (t.channels == map[] && t.closed == {})
    requires forall i <- t.jobs :: i in s.jobs && t.jobs[i].cmd == s.jobs[i].cmd
    requires forall c <- t.canceled :: c.id in asked
    ensures Registered(t, asked)
  {
  }

  ghost predicate KeepsChannels(s: State, t: State) {
    && t.nextInstance == s.nextInstance && t.canceled == s.canceled
    && ((t.channels == s.channels && t.closed == s.closed) || (t.channels == map[] && t.closed == {}))
    && forall i <- t.jobs :: i in s.jobs && t.jobs[i].cmd == s.jobs[i].cmd
  }

  lemma FireKeepsChannels(s: State, i: Instance)
    ensures KeepsChannels(s, DoFire(s, i))
  {
  }

  lemma OtherStepRegisters(s: State, a: Action)
    requires !a.Dequeue? && !a.Cancel? && !a.TakeCancel?
    ensures KeepsChannels(s, Do(s, a))
  {
    match a
    case Fire(i) => FireKeepsChannels(s, i);
    case Schedule(_, _) =>
    case Load(_) =>
    case _ => OtherStepDrops(s, a);
  }

  lemma {:induction false} RunRegisters(actions: seq<Action>)
    ensures Registered(Exec(actions), AskedIn(actions))
  {
    if actions != [] {
      var n := |actions| - 1;
      var s, a, asked := Exec(actions[..n]), actions[n], AskedIn(actions[..n]);
      RunRegisters(actions[..n]);
      match a
      case Dequeue => DequeueRegisters(s, asked);
      case Cancel(id) => CancelRegisters(s, id, asked);
      case TakeCancel(i) => JobStepRegisters(s, DoTakeCancel(s, i), asked);
      case _ =>
        OtherStepRegisters(s, a);
        JobStepRegisters(s, Do(s, a), asked);
    }
  }

  /** Over every run, nobody's command is cancelled unless its cancellation was asked for. */
  lemma CanceledWasAsked(actions: seq<Action>, c: Scheduled)
    requires c in Exec(actions).canceled
    ensures exists k :: 0 <= k < |actions| && actions[k] == Cancel(c.id)
  {
    RunRegisters(actions);
    AskedIff(actions, c.id);
  }

  /** A goroutine that can take a cancellation. */
  predicate CanTake(s: State, i: Instance) {
    Waits(s, i) && i in s.closed
  }

  /** Cancelling an ID makes exactly the goroutine registered for it able to take the cancellation. */
  lemma CancelReachesOne(s: State, id: Uuid)
    requires id in s.channels && s.channels[id] !in s.closed
    ensures var t := Do(s, Cancel(id));
            && t.repo == s.repo && t.queue == s.queue && t.jobs == s.jobs && t.calls == s.calls && t.canceled == s.canceled
            && (forall i: Instance :: i in t.closed <==> i in s.closed || i == s.channels[id])
            && (forall i: Instance :: i != s.channels[id] ==> (CanTake(t, i) <==> CanTake(s, i)))
            && (s.channels[id] in s.jobs && s.jobs[s.channels[id]].stage == Waiting ==> CanTake(t, s.channels[id]))
  {
  }

  /** Without a goroutine registered there is nothing to cancel; a channel closed twice takes the process down. */
  lemma CancelOtherwise(s: State, id: Uuid)
    ensures id !in s.channels ==> Do(s, Cancel(id)) == s
    ensures id in s.channels && s.channels[id] in s.closed ==> Do(s, Cancel(id)) == Do(s, Crash)
  {
  }

  // ----- What each step does -----

  /** A saved command is stored under its ID and offered to the queue; one that cannot be saved leaves no trace. */
  lemma ScheduleTells(s: State, c: Scheduled)
    ensures var t := Do(s, Schedule(c, true));
            && t.repo.Keys == s.repo.Keys + {c.id} && t.repo[c.id] == c && (forall id <- s.repo :: id != c.id ==> t.repo[id] == s.repo[id])
            && t.persisted == s.persisted + {c}
            && t.queue == (if |s.queue| < 100 then s.queue + [c] else s.queue)
            && t.jobs == s.jobs && t.calls == s.calls && t.canceled == s.canceled
    ensures Do(s, Schedule(c, false)) == s
  {
  }

  /** The run loop takes the first command, in a new goroutine with a new cancel channel, open. */
  lemma DequeueTells(s: State, asked: set<Uuid>)
    requires s.looping && s.queue != [] && Registered(s, asked)
    ensures var t, c, i := Do(s, Dequeue), s.queue[0], s.nextInstance;
            && t.queue == s.queue[1..] && i !in s.jobs && t.jobs == s.jobs[i := Job(c, Waiting)]
            && c.id in t.channels && t.channels[c.id] == i && i !in t.closed && !CanTake(t, i)
            && t.repo == s.repo && t.calls == s.calls && t.waitGroup == s.waitGroup + 1
  {
  }

  /** At its time, and not before, a waiting goroutine calls its handler, once. */
  lemma FireTells(s: State, i: Instance)
    requires i in s.jobs && s.jobs[i].stage == Waiting
    ensures s.clock < s.jobs[i].cmd.executeAt ==> Do(s, Fire(i)) == s
    ensures s.jobs[i].cmd.executeAt <= s.clock ==>
              var t := Do(s, Fire(i));
              && t.calls == s.calls + [(s.jobs[i].cmd, s.clock)] && i in t.jobs && t.jobs[i] == Job(s.jobs[i].cmd, Fired)
              && t.repo == s.repo && t.canceled == s.canceled && !Waits(t, i)
  {
  }

  /** A goroutine whose channel is closed may take the cancellation instead, and then calls nothing. */
  lemma TakeCancelTells(s: State, i: Instance)
    requires i in s.jobs && s.jobs[i].stage == Waiting && i in s.closed
    ensures var t := Do(s, TakeCancel(i));
            && t.canceled == s.canceled + {s.jobs[i].cmd} && i in t.jobs && t.jobs[i] == Job(s.jobs[i].cmd, Canceled)
            && t.repo == s.repo && t.calls == s.calls && !Waits(t, i) && Do(t, Fire(i)) == t
  {
  }

  /** A goroutine past its select removes its command, if it can, and ends; no other command is touched. */
  lemma FinishTells(s: State, i: Instance, removed: bool)
    requires i in s.jobs && s.jobs[i].stage != Waiting
    ensures var t := Do(s, Finish(i, removed));
            && t.jobs == s.jobs - {i} && t.waitGroup == s.waitGroup - 1 && t.queue == s.queue && t.calls == s.calls
            && (removed ==> s.jobs[i].cmd.id !in t.repo) && (!removed ==> t.repo == s.repo)
            && forall id <- s.repo :: id != s.jobs[i].cmd.id ==> id in t.repo && t.repo[id] == s.repo[id]
  {
  }

  /** A goroutine that is stopped while it waits ends and leaves the stored command. */
  lemma AbandonTells(s: State, i: Instance)
    requires i in s.jobs && s.jobs[i].stage == Waiting
    ensures s.stopping ==> var t := Do(s, Abandon(i)); t.jobs == s.jobs - {i} && t.repo == s.repo && t.calls == s.calls
    ensures !s.stopping ==> Do(s, Abandon(i)) == s
  {
  }

  /** Stop returns exactly when it was requested, the loop is over and no goroutine is left; then it can be started again. */
  lemma StopTells(s: State)
    requires Counted(s) && s.running
    ensures Do(s, RequestStop).stopping && (s.stopping ==> !Do(s, BreakLoop).looping) && (!s.stopping ==> Do(s, BreakLoop) == s)
    ensures !Do(s, StopReturns).running <==> s.stopping && !s.looping && s.jobs == map[]
    ensures !Do(s, StopReturns).running ==>
              var t := Do(Do(s, StopReturns), Start); t.running && t.looping && !t.stopping && t.repo == s.repo && t.queue == s.queue
  {
    if s.jobs != map[] {
      var i :| i in s.jobs;
      assert i in s.jobs.Keys;
      assert |s.jobs.Keys| == |s.jobs|;
    }
  }

  /** Losing the process loses what is in memory and nothing that is stored. */
  lemma CrashTells(s: State)
    ensures var t := Do(s, Crash);
            t.repo == s.repo && t.queue == [] && t.jobs == map[] && !t.running && !t.looping && t.persisted == s.persisted
  {
  }

  /** Loading queues the stored commands, in the order listed, as far as there is room. */
  lemma LoadTells(s: State, order: seq<Uuid>)
    requires (forall i :: 0 <= i < |order| ==> order[i] in s.repo) && |s.queue| <= QUEUE_SIZE
    ensures var t := Do(s, Load(order));
            && t.repo == s.repo && |t.queue| == (if |s.queue| + |order| <= 100 then |s.queue| + |order| else 100)
            && t.queue[..|s.queue|] == s.queue
            && forall k :: |s.queue| <= k < |t.queue| ==> t.queue[k] == s.repo[order[k - |s.queue|]]
  {
    OfferAllTells(s.queue, Stored(s.repo, order));
  }

  lemma {:induction false} OfferAllTells(queue: seq<Scheduled>, cmds: seq<Scheduled>)
    requires |queue| <= QUEUE_SIZE
    ensures var r := OfferAll(queue, cmds);
            && |r| == (if |queue| + |cmds| <= 100 then |queue| + |cmds| else 100)
            && r[..|queue|] == queue && forall k :: |queue| <= k < |r| ==> r[k] == cmds[k - |queue|]
    decreases |cmds|
  {
    if cmds != [] && |queue| < QUEUE_SIZE {
      var more, rest := queue + [cmds[0]], cmds[1..];
      OfferAllTells(more, rest);
      var r := OfferAll(more, rest);
      assert r[..|queue|] == r[..|more|][..|queue|];
      assert r[|queue|] == r[..|more|][|queue|];
    }
  }

  /** Time passes. */
  lemma TickTells(s: State, time: nat)
    ensures Do(s, Tick(time)) == s.(clock := s.clock + time)
  {
  }
}
