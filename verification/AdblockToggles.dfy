/**
 * The ad-block toggles of the daemon: a generation counter, one lock held for a
 * whole run, a wake-up channel and a restore task that retries. Every atomic
 * action of every task is one `Step`, so a sequence of steps is one interleaving.
 */
module AdblockToggles {
  import opened Prelude
  import Machines

  const RESTORE_FIRST_RETRY: Duration := 15
  const RESTORE_MAX_RETRY: Duration := 300

  /** Why a task takes the lock: a click, the startup restore, or its fast path. */
  datatype Job = Toggle(enable: bool) | Restore | Reassert

  datatype Effect = Install | Remove | Redirect

  datatype Outcome = Done | Superseded | Failed

  /** The `superseded` future raced against a download. */
  datatype Waiter = Fresh | Registered(notified: bool) | Parked(notified: bool)

  datatype Phase =
    | Bumped                       // generation taken, waiters not yet notified
    | Queued                       // waiting for the lock
    | Turn                         // lock taken, generation not yet compared
    | Cleared                      // generation compared, no newer toggle then
    | Downloading(waiter: Waiter)
    | Downloaded
    | Busy(effect: Effect)
    | Sleeping                     // restore only, between two attempts
    | Finished(outcome: Outcome)

  datatype Task = Task(job: Job, gen: nat, phase: Phase, failures: nat, delay: Duration)

  datatype Event = Begin(task: nat, effect: Effect) | End(task: nat, effect: Effect, ok: bool)

  /** `toggles[g - 1]` is the run of the toggle that took generation `g`. */
  datatype State = State(
    generation: nat,
    holder: Option<nat>,
    tasks: seq<Task>,
    log: seq<Event>,
    toggles: seq<nat>)

  const INITIAL := State(0, None, [], [], [])

  datatype Step =
    | Bump(enable: bool)
    | StartRestore
    | StartReassert
    | Notify(t: nat)
    | Acquire(t: nat)
    | CompareGeneration(t: nat)
    | StartDownload(t: nat)
    | Register(t: nat)
    | PollGeneration(t: nat)
    | Wake(t: nat)
    | FinishDownload(t: nat, ok: bool)
    | BeginEffect(t: nat)
    | FinishEffect(t: nat, ok: bool)
    | RetryDue(t: nat)

  function EffectOf(job: Job): Effect {
    match job
    case Toggle(enable) => if enable then Install else Remove
    case Restore => Install
    case Reassert => Redirect
  }

  function NotifyWaiter(p: Phase): Phase {
    match p
    case Downloading(Registered(_)) => Downloading(Registered(true))
    case Downloading(Parked(_)) => Downloading(Parked(true))
    case _ => p
  }

  /** `notify_waiters`: every future registered by now completes its wait. */
  function NotifyAll(tasks: seq<Task>): (r: seq<Task>)
    ensures |r| == |tasks|
    ensures forall i :: 0 <= i < |r| ==> r[i] == tasks[i].(phase := NotifyWaiter(tasks[i].phase))
  {
    seq(|tasks|, i requires 0 <= i < |tasks| => tasks[i].(phase := NotifyWaiter(tasks[i].phase)))
  }

  function Move(s: State, t: nat, p: Phase): State
    requires t < |s.tasks|
  {
    s.(tasks := s.tasks[t := s.tasks[t].(phase := p)])
  }

  /** The run returns and drops the lock; a failed restore goes to sleep instead. */
  function Leave(s: State, t: nat, outcome: Outcome): State
    requires t < |s.tasks|
  {
    var task := s.tasks[t];
    if task.job.Restore? && outcome == Failed then
      s.(holder := None, tasks := s.tasks[t := task.(phase := Sleeping, failures := task.failures + 1)])
    else
      Move(s, t, Finished(outcome)).(holder := None)
  }

  function Spawn(s: State, job: Job, gen: nat, phase: Phase): State {
    s.(tasks := s.tasks + [Task(job, gen, phase, 0, RESTORE_FIRST_RETRY)])
  }

  predicate AllFinished(s: State) {
    forall i :: 0 <= i < |s.tasks| ==> s.tasks[i].phase.Finished?
  }

  predicate ReassertsFinished(s: State) {
    forall i :: 0 <= i < |s.tasks| && s.tasks[i].job.Reassert? ==> s.tasks[i].phase.Finished?
  }

  predicate Enabled(s: State, step: Step) {
    match step
    case Bump(_) => ReassertsFinished(s)       // the service loop starts after the fast path returned
    case StartRestore => s.generation == 0     // the service loop starts after the restore was spawned
    case StartReassert => s.generation == 0
    case Notify(t) => t < |s.tasks| && s.tasks[t].phase.Bumped?
    case Acquire(t) => t < |s.tasks| && s.tasks[t].phase.Queued? && s.holder.None?
    case CompareGeneration(t) => t < |s.tasks| && s.tasks[t].phase.Turn?
    case StartDownload(t) =>
      t < |s.tasks| && s.tasks[t].phase.Cleared? && EffectOf(s.tasks[t].job).Install?
    case Register(t) => t < |s.tasks| && s.tasks[t].phase == Downloading(Fresh)
    case PollGeneration(t) =>
      t < |s.tasks| && s.tasks[t].phase.Downloading? && s.tasks[t].phase.waiter.Registered?
    case Wake(t) => t < |s.tasks| && s.tasks[t].phase == Downloading(Parked(true))
    case FinishDownload(t, _) => t < |s.tasks| && s.tasks[t].phase.Downloading?
    case BeginEffect(t) =>
      t < |s.tasks|
      && if EffectOf(s.tasks[t].job).Install? then s.tasks[t].phase.Downloaded? else s.tasks[t].phase.Cleared?
    case FinishEffect(t, _) => t < |s.tasks| && s.tasks[t].phase.Busy?
    case RetryDue(t) => t < |s.tasks| && s.tasks[t].phase.Sleeping?
  }

  function Apply(s: State, step: Step): State
    requires Enabled(s, step)
  {
    match step
    case Bump(enable) =>
      Spawn(s, Toggle(enable), s.generation + 1, Bumped)
        .(generation := s.generation + 1, toggles := s.toggles + [|s.tasks|])
    case StartRestore => Spawn(s, Restore, s.generation, Queued)
    case StartReassert => Spawn(s, Reassert, s.generation, Queued)
    case Notify(t) => Move(s.(tasks := NotifyAll(s.tasks)), t, Queued)
    case Acquire(t) => Move(s, t, Turn).(holder := Some(t))
    case CompareGeneration(t) =>
      if s.tasks[t].job.Reassert? || s.generation == s.tasks[t].gen
      then Move(s, t, Cleared)
      else Leave(s, t, Superseded)
    case StartDownload(t) => Move(s, t, Downloading(Fresh))
    case Register(t) => Move(s, t, Downloading(Registered(false)))
    case PollGeneration(t) =>
      if s.generation != s.tasks[t].gen
      then Leave(s, t, Superseded)
      else Move(s, t, Downloading(Parked(s.tasks[t].phase.waiter.notified)))
    case Wake(t) => Move(s, t, Downloading(Fresh))
    case FinishDownload(t, ok) => if ok then Move(s, t, Downloaded) else Leave(s, t, Failed)
    case BeginEffect(t) =>
      var e := EffectOf(s.tasks[t].job);
      Move(s, t, Busy(e)).(log := s.log + [Begin(t, e)])
    case FinishEffect(t, ok) =>
      var e := s.tasks[t].phase.effect;
      Leave(s, t, if ok || s.tasks[t].job.Reassert? then Done else Failed).(log := s.log + [End(t, e, ok)])
    case RetryDue(t) =>
      var task := s.tasks[t];
      s.(tasks := s.tasks[t := task.(phase := Queued, delay := Min(task.delay * 2, RESTORE_MAX_RETRY))])
  }

  function Next(s: State, step: Step): Option<State> {
    if Enabled(s, step) then Some(Apply(s, step)) else None
  }

  /** `s'` is reached from `s` by the interleaving `steps`. */
  predicate Run(s: State, steps: seq<Step>, s': State) {
    Machines.Run(Next, s, steps, s')
  }

  ghost predicate Reachable(s: State) {
    exists steps :: Run(INITIAL, steps, s)
  }

  // ---- What every step keeps ----

  predicate Holding(p: Phase) {
    p.Turn? || p.Cleared? || p.Downloading? || p.Downloaded? || p.Busy?
  }

  predicate PastCheck(p: Phase) {
    Holding(p) && !p.Turn?
  }

  predicate TasksWellFormed(s: State) {
    && |s.toggles| == s.generation
    && (forall g :: 0 <= g < |s.toggles| ==>
          s.toggles[g] < |s.tasks| && s.tasks[s.toggles[g]].job.Toggle? && s.tasks[s.toggles[g]].gen == g + 1)
    && (forall i :: 0 <= i < |s.tasks| ==> TaskWellFormed(s, i))
  }

  predicate TaskWellFormed(s: State, i: nat)
    requires i < |s.tasks|
  {
    var t := s.tasks[i];
    && t.gen <= s.generation
    && (t.job.Toggle? ==> 1 <= t.gen <= |s.toggles| && s.toggles[t.gen - 1] == i)
    && (!t.job.Toggle? ==> t.gen == 0)
    && (t.job.Reassert? && s.generation > 0 ==> t.phase.Finished?)
    && (t.phase.Busy? ==> t.phase.effect == EffectOf(t.job))
    && (t.phase == Finished(Superseded) ==> t.gen < s.generation)
    && (t.phase.Bumped? ==> t.job.Toggle?)
    && (t.phase.Sleeping? ==> t.job.Restore?)
    && (t.phase.Downloading? || t.phase.Downloaded? ==> EffectOf(t.job).Install?)
  }

  predicate LockExclusive(s: State) {
    && (s.holder.Some? ==> s.holder.value < |s.tasks|)
    && forall i :: 0 <= i < |s.tasks| ==> (Holding(s.tasks[i].phase) <==> s.holder == Some(i))
  }

  /** Event `p` begins an effect if `p` is even, and ends the one before it otherwise. */
  predicate PairedAt(log: seq<Event>, p: nat)
    requires p < |log|
  {
    if p % 2 == 0 then log[p].Begin?
    else log[p].End? && log[p].task == log[p - 1].task && log[p].effect == log[p - 1].effect
  }

  /** Installs and removes come as begin-end pairs that never nest or interleave. */
  predicate Bracketed(log: seq<Event>) {
    forall p :: 0 <= p < |log| ==> PairedAt(log, p)
  }

  predicate LogMatchesTasks(s: State) {
    && Bracketed(s.log)
    && (forall p :: 0 <= p < |s.log| ==>
          s.log[p].task < |s.tasks| && s.log[p].effect == EffectOf(s.tasks[s.log[p].task].job))
    && (|s.log| % 2 == 1 ==>
          s.holder == Some(s.log[|s.log| - 1].task) && s.tasks[s.log[|s.log| - 1].task].phase.Busy?)
    && (forall i :: 0 <= i < |s.tasks| && s.tasks[i].phase.Busy? ==> |s.log| % 2 == 1)
  }

  function GenOf(s: State, p: nat): nat
    requires p < |s.log| && s.log[p].task < |s.tasks|
  {
    s.tasks[s.log[p].task].gen
  }

  /** The generations on whose behalf the system was changed never decrease. */
  predicate GenerationsOrdered(s: State)
    requires LogMatchesTasks(s)
  {
    && (forall p, q :: 0 <= p <= q < |s.log| ==> GenOf(s, p) <= GenOf(s, q))
    && (forall i, p :: 0 <= i < |s.tasks| && PastCheck(s.tasks[i].phase) && 0 <= p < |s.log| ==>
          GenOf(s, p) <= s.tasks[i].gen)
  }

  predicate ByToggle(s: State, p: nat)
    requires p < |s.log| && s.log[p].task < |s.tasks|
  {
    s.tasks[s.log[p].task].job.Toggle?
  }

  /** A click changes the system at most once, and exactly once if its run is done. */
  predicate TogglesActOnce(s: State)
    requires LogMatchesTasks(s)
  {
    && (forall p, q :: 0 <= p < q < |s.log| && s.log[p].Begin? && s.log[q].Begin? && ByToggle(s, p) ==>
          s.log[p].task != s.log[q].task)
    && (forall p :: 0 <= p < |s.log| && ByToggle(s, p) ==>
          var ph := s.tasks[s.log[p].task].phase;
          ph.Busy? || ph == Finished(Done) || ph == Finished(Failed))
    && (forall i :: 0 <= i < |s.tasks| && s.tasks[i].job.Toggle? && s.tasks[i].phase == Finished(Done) ==>
          End(i, EffectOf(s.tasks[i].job), true) in s.log)
  }

  /** A parked run nobody woke: no newer toggle has got as far as its notify. */
  predicate NoLostWakeup(s: State) {
    forall i, j ::
      0 <= i < |s.tasks| && 0 <= j < |s.tasks|
      && s.tasks[i].phase == Downloading(Parked(false)) && s.tasks[i].gen < s.tasks[j].gen ==>
        s.tasks[j].phase.Bumped?
  }

  function Backoff(failures: nat): Duration {
    if failures == 0 then RESTORE_FIRST_RETRY else Min(Backoff(failures - 1) * 2, RESTORE_MAX_RETRY)
  }

  /** The wait before the next attempt is fifteen seconds doubled per earlier failure, at most five minutes. */
  predicate BackoffKept(s: State) {
    forall i :: 0 <= i < |s.tasks| ==> DelayFits(s.tasks[i])
  }

  predicate DelayFits(t: Task) {
    if t.phase.Sleeping? then t.failures > 0 && t.delay == Backoff(t.failures - 1) else t.delay == Backoff(t.failures)
  }

  predicate Inv(s: State) {
    && TasksWellFormed(s)
    && LockExclusive(s)
    && LogMatchesTasks(s)
    && GenerationsOrdered(s)
    && TogglesActOnce(s)
    && NoLostWakeup(s)
    && BackoffKept(s)
  }

  predicate Logs(step: Step) {
    step.BeginEffect? || step.FinishEffect?
  }

  /** No step forgets a task or changes on whose behalf it runs. */
  lemma StepFrame(s: State, step: Step)
    requires LockExclusive(s) && Enabled(s, step)
    ensures var s' := Apply(s, step);
            && |s.tasks| <= |s'.tasks|
            && (forall i :: 0 <= i < |s.tasks| ==>
                  s'.tasks[i].job == s.tasks[i].job && s'.tasks[i].gen == s.tasks[i].gen)
            && (!Logs(step) ==>
                  && s'.log == s.log
                  && (forall i :: 0 <= i < |s.tasks| ==>
                        (s'.tasks[i].phase.Busy? <==> s.tasks[i].phase.Busy?)
                        && (s.tasks[i].phase.Finished? ==> s'.tasks[i] == s.tasks[i]))
                  && (forall i :: |s.tasks| <= i < |s'.tasks| ==> !Holding(s'.tasks[i].phase)))
  {
  }

  lemma StepKeepsTask(s: State, step: Step, i: nat)
    requires TasksWellFormed(s) && Enabled(s, step) && i < |Apply(s, step).tasks|
    ensures TaskWellFormed(Apply(s, step), i)
  {
    if i < |s.tasks| { assert TaskWellFormed(s, i); }
  }

  lemma StepKeepsTasks(s: State, step: Step)
    requires TasksWellFormed(s) && Enabled(s, step)
    ensures TasksWellFormed(Apply(s, step))
  {
    forall i | 0 <= i < |Apply(s, step).tasks| ensures TaskWellFormed(Apply(s, step), i) {
      StepKeepsTask(s, step, i);
    }
  }

  lemma StepKeepsLock(s: State, step: Step)
    requires LockExclusive(s) && Enabled(s, step)
    ensures LockExclusive(Apply(s, step))
  {
  }

  /** A step that logs is taken by the holder, and continues the begin-end alternation. */
  lemma LogStepAlternates(s: State, step: Step)
    requires LockExclusive(s) && LogMatchesTasks(s) && Enabled(s, step) && Logs(step)
    ensures s.holder == Some(step.t)
    ensures |s.log| % 2 == if step.BeginEffect? then 0 else 1
    ensures step.FinishEffect? ==> s.log[|s.log| - 1].task == step.t
  {
  }

  lemma BracketedAppend(log: seq<Event>, e: Event)
    requires Bracketed(log)
    requires e.Begin? ==> |log| % 2 == 0
    requires e.End? ==> |log| % 2 == 1 && e.task == log[|log| - 1].task && e.effect == log[|log| - 1].effect
    ensures Bracketed(log + [e])
  {
    var log' := log + [e];
    forall p | 0 <= p < |log'| ensures PairedAt(log', p) {
      if p < |log| { assert PairedAt(log, p); }
    }
  }

  lemma StepKeepsLog(s: State, step: Step)
    requires TasksWellFormed(s) && LockExclusive(s) && LogMatchesTasks(s) && Enabled(s, step)
    ensures LogMatchesTasks(Apply(s, step))
  {
    StepFrame(s, step);
    StepKeepsLock(s, step);
    var s' := Apply(s, step);
    if Logs(step) {
      LogStepAlternates(s, step);
      assert TaskWellFormed(s, step.t);
      BracketedAppend(s.log, s'.log[|s.log|]);
    } else if |s.log| % 2 == 1 {
      assert s'.tasks[s.log[|s.log| - 1].task].phase.Busy?;
    }
  }

  lemma StepKeepsOrder(s: State, step: Step)
    requires TasksWellFormed(s) && LockExclusive(s) && LogMatchesTasks(s) && GenerationsOrdered(s) && Enabled(s, step)
    requires LogMatchesTasks(Apply(s, step))
    ensures GenerationsOrdered(Apply(s, step))
  {
    StepFrame(s, step);
    var s' := Apply(s, step);
    assert forall p :: 0 <= p < |s.log| ==> GenOf(s', p) == GenOf(s, p);
    if Logs(step) { LogStepAlternates(s, step); }
    forall p, q | 0 <= p <= q < |s'.log| ensures GenOf(s', p) <= GenOf(s', q) {
      if q == |s.log| && p < q {
        assert PastCheck(s.tasks[step.t].phase) && GenOf(s, p) <= s.tasks[step.t].gen;
      }
    }
    forall i, p | 0 <= i < |s'.tasks| && PastCheck(s'.tasks[i].phase) && 0 <= p < |s'.log|
      ensures GenOf(s', p) <= s'.tasks[i].gen
    {
      CheckedRunIsNewest(s, step, i, p);
    }
  }

  lemma CheckedRunIsNewest(s: State, step: Step, i: nat, p: nat)
    requires TasksWellFormed(s) && LockExclusive(s) && LogMatchesTasks(s) && GenerationsOrdered(s) && Enabled(s, step)
    requires var s' := Apply(s, step);
             LogMatchesTasks(s') && i < |s'.tasks| && PastCheck(s'.tasks[i].phase) && p < |s'.log|
    ensures GenOf(Apply(s, step), p) <= Apply(s, step).tasks[i].gen
  {
    StepFrame(s, step);
    StepKeepsLock(s, step);
    if p < |s.log| {
      assert GenOf(Apply(s, step), p) == GenOf(s, p);
      assert TaskWellFormed(s, s.log[p].task) && TaskWellFormed(s, i);
    } else {
      LogStepAlternates(s, step);
    }
  }

  lemma StepKeepsSingleBegin(s: State, step: Step)
    requires LockExclusive(s) && LogMatchesTasks(s) && TogglesActOnce(s) && Enabled(s, step)
    requires LogMatchesTasks(Apply(s, step))
    ensures var s' := Apply(s, step);
            forall p, q :: 0 <= p < q < |s'.log| && s'.log[p].Begin? && s'.log[q].Begin? && ByToggle(s', p) ==>
              s'.log[p].task != s'.log[q].task
  {
    StepFrame(s, step);
    var s' := Apply(s, step);
    forall p, q | 0 <= p < q < |s'.log| && s'.log[p].Begin? && s'.log[q].Begin? && ByToggle(s', p)
      ensures s'.log[p].task != s'.log[q].task
    {
      assert s'.log[p] == s.log[p] && ByToggle(s, p);
    }
  }

  lemma StepKeepsDoneLogged(s: State, step: Step, i: nat)
    requires TasksWellFormed(s) && LockExclusive(s) && LogMatchesTasks(s) && TogglesActOnce(s) && Enabled(s, step)
    requires var s' := Apply(s, step);
             i < |s'.tasks| && s'.tasks[i].job.Toggle? && s'.tasks[i].phase == Finished(Done)
    ensures var s' := Apply(s, step); End(i, EffectOf(s'.tasks[i].job), true) in s'.log
  {
    StepFrame(s, step);
    var s' := Apply(s, step);
    if step.FinishEffect? && step.t == i {
      assert TaskWellFormed(s, i);
      assert s'.log[|s.log|] == End(i, EffectOf(s'.tasks[i].job), true);
    } else {
      assert s.tasks[i].phase == Finished(Done);
    }
  }

  lemma StepKeepsActOnce(s: State, step: Step)
    requires TasksWellFormed(s) && LockExclusive(s) && LogMatchesTasks(s) && TogglesActOnce(s) && Enabled(s, step)
    requires LogMatchesTasks(Apply(s, step))
    ensures TogglesActOnce(Apply(s, step))
  {
    StepFrame(s, step);
    StepKeepsSingleBegin(s, step);
    var s' := Apply(s, step);
    forall p | 0 <= p < |s'.log| && ByToggle(s', p)
      ensures var ph := s'.tasks[s'.log[p].task].phase;
              ph.Busy? || ph == Finished(Done) || ph == Finished(Failed)
    {
      if p < |s.log| { assert ByToggle(s, p); }
    }
    forall i | 0 <= i < |s'.tasks| && s'.tasks[i].job.Toggle? && s'.tasks[i].phase == Finished(Done)
      ensures End(i, EffectOf(s'.tasks[i].job), true) in s'.log
    {
      StepKeepsDoneLogged(s, step, i);
    }
  }

  lemma StepKeepsWakeups(s: State, step: Step)
    requires TasksWellFormed(s) && NoLostWakeup(s) && Enabled(s, step)
    ensures NoLostWakeup(Apply(s, step))
  {
    var s' := Apply(s, step);
    forall i, j | 0 <= i < |s'.tasks| && s'.tasks[i].phase == Downloading(Parked(false))
                  && 0 <= j < |s'.tasks| && s'.tasks[j].gen > s'.tasks[i].gen
      ensures s'.tasks[j].phase.Bumped?
    {
      NewerStillBumped(s, step, i, j);
    }
  }

  lemma NewerStillBumped(s: State, step: Step, i: nat, j: nat)
    requires TasksWellFormed(s) && NoLostWakeup(s) && Enabled(s, step)
    requires var s' := Apply(s, step);
             && i < |s'.tasks| && s'.tasks[i].phase == Downloading(Parked(false))
             && j < |s'.tasks| && s'.tasks[j].gen > s'.tasks[i].gen
    ensures Apply(s, step).tasks[j].phase.Bumped?
  {
    if j < |s.tasks| {
      assert TaskWellFormed(s, j);
    }
  }

  lemma StepKeepsDelay(s: State, step: Step, i: nat)
    requires BackoffKept(s) && Enabled(s, step) && i < |Apply(s, step).tasks|
    ensures DelayFits(Apply(s, step).tasks[i])
  {
    if i < |s.tasks| { assert DelayFits(s.tasks[i]); }
  }

  lemma StepKeepsBackoff(s: State, step: Step)
    requires BackoffKept(s) && Enabled(s, step)
    ensures BackoffKept(Apply(s, step))
  {
    forall i | 0 <= i < |Apply(s, step).tasks| ensures DelayFits(Apply(s, step).tasks[i]) {
      StepKeepsDelay(s, step, i);
    }
  }

  lemma StepKeepsInv(s: State, step: Step)
    requires Inv(s) && Enabled(s, step)
    ensures Inv(Apply(s, step))
  {
    StepKeepsTasks(s, step);
    StepKeepsLock(s, step);
    StepKeepsLog(s, step);
    StepKeepsOrder(s, step);
    StepKeepsActOnce(s, step);
    StepKeepsWakeups(s, step);
    StepKeepsBackoff(s, step);
  }

  lemma RunKeepsInv(s: State, steps: seq<Step>, s': State)
    requires Inv(s) && Run(s, steps, s')
    ensures Inv(s')
  {
    forall x, step | Inv(x) && Next(x, step).Some? ensures Inv(Next(x, step).value) {
      StepKeepsInv(x, step);
    }
    Machines.RunKeeps(Next, Inv, s, steps, s');
  }

  lemma ReachableInv(s: State)
    requires Reachable(s)
    ensures Inv(s)
  {
    var steps :| Run(INITIAL, steps, s);
    RunKeepsInv(INITIAL, steps, s);
  }

  lemma ReachableStep(s: State, step: Step)
    requires Reachable(s) && Enabled(s, step)
    ensures Reachable(Apply(s, step))
  {
    var steps :| Run(INITIAL, steps, s);
    Machines.RunThenStep(Next, INITIAL, steps, s, step);
    assert Run(INITIAL, steps + [step], Apply(s, step));
  }

  // ---- What holds in every interleaving ----

  /** Two applies or removes never overlap, and the later one is never for an older click. */
  lemma EffectsSerializedInOrder(s: State)
    requires Reachable(s)
    ensures Bracketed(s.log)
    ensures forall i, j :: 0 <= i < j < |s.tasks| ==> !(s.tasks[i].phase.Busy? && s.tasks[j].phase.Busy?)
    ensures forall p :: 0 <= p < |s.log| ==> s.log[p].task < |s.tasks|
    ensures forall p, q :: 0 <= p <= q < |s.log| ==> GenOf(s, p) <= GenOf(s, q)
  {
    ReachableInv(s);
  }

  /**
   * Once every run has finished, the newest click was not superseded, and if it
   * succeeded then the last thing done to the system is what it asked for.
   */
  lemma LastToggleWins(s: State)
    requires Reachable(s) && AllFinished(s) && s.generation > 0
    ensures |s.toggles| == s.generation
    ensures var n := s.toggles[s.generation - 1];
            && n < |s.tasks| && s.tasks[n].job.Toggle? && s.tasks[n].gen == s.generation
            && (s.tasks[n].phase == Finished(Done) || s.tasks[n].phase == Finished(Failed))
            && (s.tasks[n].phase == Finished(Done) ==>
                  s.log != [] && s.log[|s.log| - 1] == End(n, if s.tasks[n].job.enable then Install else Remove, true))
  {
    ReachableInv(s);
    var n := s.toggles[s.generation - 1];
    assert TaskWellFormed(s, n) && s.tasks[n].phase.Finished?;
    match s.tasks[n].phase.outcome
    case Done => LastEventIsNewest(s, n);
    case Failed =>
    case Superseded => assert false;
  }

  lemma LastEventIsNewest(s: State, n: nat)
    requires TasksWellFormed(s) && LogMatchesTasks(s) && GenerationsOrdered(s) && TogglesActOnce(s) && AllFinished(s)
    requires n < |s.tasks| && s.tasks[n].job.Toggle? && s.tasks[n].gen == s.generation
    requires s.tasks[n].phase == Finished(Done)
    ensures s.log != [] && s.log[|s.log| - 1] == End(n, EffectOf(s.tasks[n].job), true)
  {
    var p :| 0 <= p < |s.log| && s.log[p] == End(n, EffectOf(s.tasks[n].job), true);
    var last := |s.log| - 1;
    assert PairedAt(s.log, p) && PairedAt(s.log, p - 1) && PairedAt(s.log, last) && PairedAt(s.log, last - 1);
    assert GenOf(s, p) <= GenOf(s, last);
    assert TaskWellFormed(s, s.log[last].task) && TaskWellFormed(s, n);
    assert s.log[last].task == n;
    assert ByToggle(s, p - 1);
    assert s.log[p - 1].task == n && s.log[last - 1].task == n;
  }

  /** A click that was superseded left the system alone, and only a newer click supersedes. */
  lemma SupersededToggleDidNothing(s: State, t: nat)
    requires Reachable(s)
    requires t < |s.tasks| && s.tasks[t].phase == Finished(Superseded)
    ensures s.tasks[t].gen < s.generation
    ensures s.tasks[t].job.Toggle? ==> forall p :: 0 <= p < |s.log| ==> s.log[p].task != t
  {
    ReachableInv(s);
    assert TaskWellFormed(s, t);
    if s.tasks[t].job.Toggle? {
      forall p | 0 <= p < |s.log| ensures s.log[p].task != t {
        if s.log[p].task == t { assert ByToggle(s, p); assert false; }
      }
    }
  }

  /**
   * Every newer click that has got past its notify has woken a run parked beside its download,
   * whatever the clicks after it are doing.
   */
  lemma NewerClickWakesParkedRun(s: State, t: nat, j: nat)
    requires Reachable(s)
    requires t < |s.tasks| && s.tasks[t].phase.Downloading? && s.tasks[t].phase.waiter.Parked?
    requires j < |s.tasks| && s.tasks[j].gen > s.tasks[t].gen && !s.tasks[j].phase.Bumped?
    ensures s.tasks[t].phase.waiter.notified
  {
    ReachableInv(s);
    assert s.tasks[t].phase == Downloading(Parked(s.tasks[t].phase.waiter.notified));
  }

  /** The steps the `superseded` future of `t` takes by itself until it resolves. */
  function Resolve(t: nat, w: Waiter): seq<Step> {
    match w
    case Fresh => [Register(t), PollGeneration(t)]
    case Registered(_) => [PollGeneration(t)]
    case Parked(_) => [Wake(t), Register(t), PollGeneration(t)]
  }

  /** Once some newer click has notified, the download is abandoned in at most three steps of its own. */
  lemma StaleDownloadIsAbandoned(s: State, t: nat, j: nat)
    requires Reachable(s)
    requires t < |s.tasks| && s.tasks[t].phase.Downloading?
    requires j < |s.tasks| && s.tasks[j].gen > s.tasks[t].gen && !s.tasks[j].phase.Bumped?
    ensures Run(s, Resolve(t, s.tasks[t].phase.waiter), Leave(s, t, Superseded))
  {
    ReachableInv(s);
    assert TaskWellFormed(s, j);
    var done := Leave(s, t, Superseded);
    match s.tasks[t].phase.waiter
    case Registered(_) =>
      assert Apply(s, PollGeneration(t)) == done;
      assert Run(done, [], done);
    case Fresh => ResolveFromFresh(s, t);
    case Parked(_) =>
      NewerClickWakesParkedRun(s, t, j);
      assert s.tasks[t].phase == Downloading(Parked(true));
      var s1 := Apply(s, Wake(t));
      ResolveFromFresh(s1, t);
      assert Leave(s1, t, Superseded) == done;
      assert Resolve(t, s.tasks[t].phase.waiter)[1..] == Resolve(t, Fresh);
  }

  lemma ResolveFromFresh(s: State, t: nat)
    requires t < |s.tasks| && s.tasks[t].phase == Downloading(Fresh) && s.tasks[t].gen != s.generation
    ensures Run(s, Resolve(t, Fresh), Leave(s, t, Superseded))
  {
    var s1 := Apply(s, Register(t));
    var s2 := Apply(s1, PollGeneration(t));
    assert s2 == Leave(s, t, Superseded);
    assert Resolve(t, Fresh)[1..] == [PollGeneration(t)];
    assert Run(s2, [], s2) && Run(s1, [PollGeneration(t)], s2);
  }

  function Pow2(n: nat): nat {
    if n == 0 then 1 else 2 * Pow2(n - 1)
  }

  /** In closed form: 15 s times two to the number of earlier failures, capped at 300 s. */
  lemma {:induction false} BackoffClosedForm(failures: nat)
    ensures Backoff(failures) == Min(RESTORE_FIRST_RETRY * Pow2(failures), RESTORE_MAX_RETRY)
  {
    if failures > 0 { BackoffClosedForm(failures - 1); }
  }

  lemma RestoreBacksOff(s: State, t: nat)
    requires Reachable(s)
    requires t < |s.tasks| && s.tasks[t].phase.Sleeping?
    ensures s.tasks[t].job.Restore? && s.tasks[t].failures > 0
    ensures s.tasks[t].delay == Min(RESTORE_FIRST_RETRY * Pow2(s.tasks[t].failures - 1), RESTORE_MAX_RETRY)
  {
    ReachableInv(s);
    assert TaskWellFormed(s, t) && DelayFits(s.tasks[t]);
    BackoffClosedForm(s.tasks[t].failures - 1);
  }

  // ---- Nothing ever gets stuck ----

  /** How many actions the `superseded` future has left until it parks for good. */
  function WaiterRank(w: Waiter): nat {
    match w
    case Registered(notified) => if notified then 4 else 1
    case Parked(notified) => if notified then 3 else 0
    case Fresh => 2
  }

  /**
   * How many actions a run has left at most, if nothing fails. A click that has yet to notify
   * counts for what its wake-up lets another run do again.
   */
  function Rank(p: Phase): nat {
    match p
    case Bumped => 14
    case Sleeping => 11
    case Queued => 10
    case Turn => 9
    case Cleared => 8
    case Downloading(w) => 3 + WaiterRank(w)
    case Downloaded => 2
    case Busy(_) => 1
    case Finished(_) => 0
  }

  function Work(tasks: seq<Task>): nat {
    if tasks == [] then 0 else Work(tasks[..|tasks| - 1]) + Rank(tasks[|tasks| - 1].phase)
  }

  lemma {:induction false} WorkAfterUpdate(tasks: seq<Task>, t: nat, task: Task)
    requires t < |tasks|
    ensures Work(tasks[t := task]) == Work(tasks) - Rank(tasks[t].phase) + Rank(task.phase)
    decreases |tasks|
  {
    var n := |tasks| - 1;
    if t < n {
      assert tasks[t := task][..n] == tasks[..n][t := task];
      WorkAfterUpdate(tasks[..n], t, task);
    } else {
      assert tasks[t := task][..n] == tasks[..n];
    }
  }

  /** Only the run that holds the lock can be waiting, so a notify sets back at most one run. */
  lemma {:induction false} WorkAfterNotify(tasks: seq<Task>, holder: Option<nat>)
    requires forall i :: 0 <= i < |tasks| && tasks[i].phase.Downloading? ==> holder == Some(i)
    ensures Work(NotifyAll(tasks)) <= Work(tasks) + if holder.Some? && holder.value < |tasks| then 3 else 0
    decreases |tasks|
  {
    if tasks != [] {
      var n := |tasks| - 1;
      WorkAfterNotify(tasks[..n], holder);
      assert NotifyAll(tasks)[..n] == NotifyAll(tasks[..n]);
    }
  }

  lemma {:induction false} WorkBounded(tasks: seq<Task>)
    ensures Work(tasks) <= 14 * |tasks|
    decreases |tasks|
  {
    if tasks != [] { WorkBounded(tasks[..|tasks| - 1]); }
  }

  /** An action of a run under way in which nothing fails: no click, no start, no error. */
  predicate Favourable(step: Step) {
    match step
    case Bump(_) => false
    case StartRestore => false
    case StartReassert => false
    case FinishDownload(_, ok) => ok
    case FinishEffect(_, ok) => ok
    case _ => true
  }

  lemma NotifyProgresses(s: State, t: nat)
    requires LockExclusive(s) && Enabled(s, Notify(t))
    ensures Work(Apply(s, Notify(t)).tasks) < Work(s.tasks)
  {
    WorkAfterNotify(s.tasks, s.holder);
    WorkAfterUpdate(NotifyAll(s.tasks), t, NotifyAll(s.tasks)[t].(phase := Queued));
  }

  lemma FavourableStepProgresses(s: State, step: Step)
    requires LockExclusive(s) && Enabled(s, step) && Favourable(step)
    ensures var s' := Apply(s, step);
            && Work(s'.tasks) < Work(s.tasks) && |s'.tasks| == |s.tasks|
            && s'.generation == s.generation && s'.toggles == s.toggles
  {
    var t := step.t;
    if step.Notify? {
      NotifyProgresses(s, t);
    } else {
      WorkAfterUpdate(s.tasks, t, Apply(s, step).tasks[t]);
      assert Apply(s, step).tasks == s.tasks[t := Apply(s, step).tasks[t]];
    }
  }

  lemma FavourableStepFailsNone(s: State, step: Step, i: nat)
    requires Enabled(s, step) && Favourable(step) && i < |s.tasks|
    requires Apply(s, step).tasks[i].phase == Finished(Failed)
    ensures s.tasks[i].phase == Finished(Failed)
  {
  }

  /** The holder of the lock can always take its next action. */
  function HolderStep(s: State, t: nat): Step
    requires t < |s.tasks| && Holding(s.tasks[t].phase)
  {
    match s.tasks[t].phase
    case Turn => CompareGeneration(t)
    case Cleared => if EffectOf(s.tasks[t].job).Install? then StartDownload(t) else BeginEffect(t)
    case Downloading(_) => FinishDownload(t, true)
    case Downloaded => BeginEffect(t)
    case Busy(_) => FinishEffect(t, true)
  }

  /** While a run is unfinished, some action of a run is possible. */
  lemma NoDeadlock(s: State) returns (step: Step)
    requires Inv(s) && !AllFinished(s)
    ensures Enabled(s, step) && Favourable(step)
  {
    var i :| 0 <= i < |s.tasks| && !s.tasks[i].phase.Finished?;
    assert TaskWellFormed(s, i);
    var p := s.tasks[i].phase;
    if p.Bumped? {
      step := Notify(i);
    } else if p.Sleeping? {
      step := RetryDue(i);
    } else if p.Queued? && s.holder.None? {
      step := Acquire(i);
    } else {
      var t := if p.Queued? then s.holder.value else i;
      assert TaskWellFormed(s, t);
      step := HolderStep(s, t);
    }
  }

  ghost predicate AllFavourable(steps: seq<Step>) {
    forall k :: 0 <= k < |steps| ==> Favourable(steps[k])
  }

  /** A favourable run uses up work with every action, and leaves clicks and failures as they are. */
  lemma {:induction false} FavourableRun(s: State, steps: seq<Step>, s': State)
    requires Inv(s) && Run(s, steps, s') && AllFavourable(steps)
    ensures Inv(s') && |steps| + Work(s'.tasks) <= Work(s.tasks)
    ensures |s'.tasks| == |s.tasks| && s'.generation == s.generation && s'.toggles == s.toggles
    ensures forall i :: 0 <= i < |s.tasks| && s'.tasks[i].phase == Finished(Failed) ==>
              s.tasks[i].phase == Finished(Failed)
    decreases |steps|
  {
    if steps != [] {
      var s1 := Apply(s, steps[0]);
      assert Favourable(steps[0]);
      FavourableStepProgresses(s, steps[0]);
      StepKeepsInv(s, steps[0]);
      FavourableRun(s1, steps[1..], s');
      forall i | 0 <= i < |s.tasks| && s'.tasks[i].phase == Finished(Failed)
        ensures s.tasks[i].phase == Finished(Failed)
      {
        FavourableStepFailsNone(s, steps[0], i);
      }
    }
  }

  /** Nothing is left to do but click or fail. */
  ghost predicate Exhausted(s: State) {
    forall step :: Favourable(step) ==> !Enabled(s, step)
  }

  lemma ExhaustedIsFinished(s: State)
    requires Inv(s)
    ensures Exhausted(s) <==> AllFinished(s)
  {
    if !AllFinished(s) {
      var step := NoDeadlock(s);
    } else {
      forall step | Favourable(step) ensures !Enabled(s, step) {
      }
    }
  }

  /** The last effect on the system is what the newest click asked for, if there was one. */
  predicate AsNewestClick(s: State, n: nat, job: Job) {
    s.log != [] && s.log[|s.log| - 1] == End(n, EffectOf(job), true)
  }

  /**
   * From every reachable state, whatever order the runs under way take their turns in: without
   * another click and with nothing failing they take at most fourteen actions each, and when no
   * action is left all have finished. Unless the newest click has already failed, the system then
   * is as that click asked.
   */
  lemma EveryRunSettles(s: State, steps: seq<Step>, s': State)
    requires Reachable(s) && Run(s, steps, s') && AllFavourable(steps)
    ensures |steps| <= 14 * |s.tasks|
    ensures Exhausted(s') <==> AllFinished(s')
    ensures |s.toggles| == s.generation
    ensures AllFinished(s') && s.generation > 0 ==>
            var n := s.toggles[s.generation - 1];
            && n < |s.tasks| && s.tasks[n].job.Toggle?
            && (s.tasks[n].phase != Finished(Failed) ==> AsNewestClick(s', n, s.tasks[n].job))
  {
    ReachableInv(s);
    FavourableRun(s, steps, s');
    WorkBounded(s.tasks);
    ExhaustedIsFinished(s');
    if AllFinished(s') && s.generation > 0 {
      SettledAsNewestClick(s, steps, s');
    }
  }

  lemma SettledAsNewestClick(s: State, steps: seq<Step>, s': State)
    requires Inv(s) && Run(s, steps, s') && AllFavourable(steps) && AllFinished(s') && s.generation > 0
    ensures var n := s.toggles[s.generation - 1];
            && n < |s.tasks| && s.tasks[n].job.Toggle?
            && (s.tasks[n].phase != Finished(Failed) ==> AsNewestClick(s', n, s.tasks[n].job))
  {
    FavourableRun(s, steps, s');
    var n := s.toggles[s.generation - 1];
    assert TaskWellFormed(s', n) && s'.tasks[n].phase.Finished?;
    RunKeepsJobs(s, steps, s', n);
    if s.tasks[n].phase != Finished(Failed) {
      match s'.tasks[n].phase.outcome
      case Done => LastEventIsNewest(s', n);
      case Failed => assert false;
      case Superseded => assert false;
    }
  }

  /** And there is always such a run to the end. */
  lemma {:induction false} CanFinish(s: State) returns (steps: seq<Step>, s': State)
    requires Inv(s)
    ensures Run(s, steps, s') && AllFavourable(steps) && AllFinished(s')
    decreases Work(s.tasks)
  {
    if AllFinished(s) {
      steps, s' := [], s;
    } else {
      var step := NoDeadlock(s);
      FavourableStepProgresses(s, step);
      StepKeepsInv(s, step);
      var rest;
      rest, s' := CanFinish(Apply(s, step));
      steps := [step] + rest;
      assert steps[1..] == rest;
    }
  }

  /**
   * From every reachable state the runs under way can all finish, without another click; and
   * unless the newest click has already failed, the system then ends as that click asked.
   */
  lemma EveryStateCanSettle(s: State) returns (steps: seq<Step>, s': State)
    requires Reachable(s)
    ensures Run(s, steps, s') && AllFinished(s') && AllFavourable(steps)
    ensures |s.toggles| == s.generation
    ensures s.generation > 0 ==>
            var n := s.toggles[s.generation - 1];
            && n < |s.tasks| && s.tasks[n].job.Toggle?
            && (s.tasks[n].phase != Finished(Failed) ==> AsNewestClick(s', n, s.tasks[n].job))
  {
    ReachableInv(s);
    steps, s' := CanFinish(s);
    EveryRunSettles(s, steps, s');
  }

  lemma {:induction false} RunKeepsJobs(s: State, steps: seq<Step>, s': State, n: nat)
    requires Inv(s) && Run(s, steps, s') && n < |s.tasks|
    ensures n < |s'.tasks| && s'.tasks[n].job == s.tasks[n].job
    decreases |steps|
  {
    if steps != [] {
      StepFrame(s, steps[0]);
      StepKeepsInv(s, steps[0]);
      RunKeepsJobs(Apply(s, steps[0]), steps[1..], s', n);
    }
  }

  // ---- The shared object all runs act on ----

  /** `Toggles` with all runs that use it; each method is one atomic action of one run. */
  class Toggles {
    var generation: nat
    var lock: Option<nat>
    var tasks: seq<Task>
    var log: seq<Event>
    var toggles: seq<nat>

    function View(): State
      reads this
    {
      State(generation, lock, tasks, log, toggles)
    }

    ghost predicate Valid()
      reads this
    {
      Inv(View())
    }

    constructor ()
      ensures View() == INITIAL && Valid() && Reachable(View())
    {
      generation, lock, tasks, log, toggles := 0, None, [], [], [];
      assert Run(INITIAL, [], INITIAL);
    }

    /** First half of `toggle`: take the next generation. */
    method TakeGeneration(enable: bool) returns (t: nat)
      requires Valid() && Enabled(View(), Bump(enable))
      modifies this
      ensures Valid() && View() == Apply(old(View()), Bump(enable)) && t == old(|tasks|)
    {
      StepKeepsInv(View(), Bump(enable));
      generation := generation + 1;
      t := |tasks|;
      tasks := tasks + [Task(Toggle(enable), generation, Bumped, 0, RESTORE_FIRST_RETRY)];
      toggles := toggles + [t];
    }

    /** Second half of `toggle`: notify, and queue the spawned run. */
    method NotifyWaiters(t: nat)
      requires Valid() && Enabled(View(), Notify(t))
      modifies this`tasks
      ensures Valid() && View() == Apply(old(View()), Notify(t))
    {
      StepKeepsInv(View(), Notify(t));
      var woken := NotifyAll(tasks);
      tasks := woken[t := woken[t].(phase := Queued)];
    }

    method SpawnStartup(fastPath: bool) returns (t: nat)
      requires Valid() && Enabled(View(), if fastPath then StartReassert else StartRestore)
      modifies this`tasks
      ensures Valid() && View() == Apply(old(View()), if fastPath then StartReassert else StartRestore)
      ensures t == old(|tasks|)
    {
      StepKeepsInv(View(), if fastPath then StartReassert else StartRestore);
      t := |tasks|;
      var job := if fastPath then Reassert else Restore;
      tasks := tasks + [Task(job, generation, Queued, 0, RESTORE_FIRST_RETRY)];
    }

    method AcquireLock(t: nat)
      requires Valid() && Enabled(View(), Acquire(t))
      modifies this`tasks, this`lock
      ensures Valid() && View() == Apply(old(View()), Acquire(t))
    {
      StepKeepsInv(View(), Acquire(t));
      tasks := tasks[t := tasks[t].(phase := Turn)];
      lock := Some(t);
    }

    /** Drops the lock; a restore that failed sleeps, anything else has finished. */
    method Return(t: nat, outcome: Outcome)
      requires t < |tasks|
      modifies this`tasks, this`lock
      ensures View() == Leave(old(View()), t, outcome)
    {
      lock := None;
      var task := tasks[t];
      if task.job.Restore? && outcome == Failed {
        tasks := tasks[t := task.(phase := Sleeping, failures := task.failures + 1)];
      } else {
        tasks := tasks[t := task.(phase := Finished(outcome))];
      }
    }

    method Compare(t: nat)
      requires Valid() && Enabled(View(), CompareGeneration(t))
      modifies this`tasks, this`lock
      ensures Valid() && View() == Apply(old(View()), CompareGeneration(t))
    {
      StepKeepsInv(View(), CompareGeneration(t));
      if tasks[t].job.Reassert? || generation == tasks[t].gen {
        tasks := tasks[t := tasks[t].(phase := Cleared)];
      } else {
        Return(t, Superseded);
      }
    }

    method BeginDownload(t: nat)
      requires Valid() && Enabled(View(), StartDownload(t))
      modifies this`tasks
      ensures Valid() && View() == Apply(old(View()), StartDownload(t))
    {
      StepKeepsInv(View(), StartDownload(t));
      tasks := tasks[t := tasks[t].(phase := Downloading(Fresh))];
    }

    /** One action of the `superseded` loop: register, then compare, then park or return, then wake. */
    method PollSuperseded(t: nat) returns (step: Step)
      requires Valid() && t < |tasks| && tasks[t].phase.Downloading?
      requires tasks[t].phase != Downloading(Parked(false))
      modifies this`tasks, this`lock
      ensures step in {Register(t), PollGeneration(t), Wake(t)} && Enabled(old(View()), step)
      ensures Valid() && View() == Apply(old(View()), step)
    {
      match tasks[t].phase.waiter {
        case Fresh => step := Register(t);
        case Registered(_) => step := PollGeneration(t);
        case Parked(_) => step := Wake(t);
      }
      StepKeepsInv(View(), step);
      match tasks[t].phase.waiter {
        case Fresh =>
          tasks := tasks[t := tasks[t].(phase := Downloading(Registered(false)))];
        case Registered(notified) =>
          if generation != tasks[t].gen {
            Return(t, Superseded);
          } else {
            tasks := tasks[t := tasks[t].(phase := Downloading(Parked(notified)))];
          }
        case Parked(_) =>
          tasks := tasks[t := tasks[t].(phase := Downloading(Fresh))];
      }
    }

    method DownloadReturned(t: nat, ok: bool)
      requires Valid() && Enabled(View(), FinishDownload(t, ok))
      modifies this`tasks, this`lock
      ensures Valid() && View() == Apply(old(View()), FinishDownload(t, ok))
    {
      StepKeepsInv(View(), FinishDownload(t, ok));
      if ok {
        tasks := tasks[t := tasks[t].(phase := Downloaded)];
      } else {
        Return(t, Failed);
      }
    }

    method StartEffect(t: nat)
      requires Valid() && Enabled(View(), BeginEffect(t))
      modifies this`tasks, this`log
      ensures Valid() && View() == Apply(old(View()), BeginEffect(t))
    {
      StepKeepsInv(View(), BeginEffect(t));
      var effect := EffectOf(tasks[t].job);
      log := log + [Begin(t, effect)];
      tasks := tasks[t := tasks[t].(phase := Busy(effect))];
    }

    method EffectReturned(t: nat, ok: bool)
      requires Valid() && Enabled(View(), FinishEffect(t, ok))
      modifies this`tasks, this`lock, this`log
      ensures Valid() && View() == Apply(old(View()), FinishEffect(t, ok))
    {
      StepKeepsInv(View(), FinishEffect(t, ok));
      log := log + [End(t, tasks[t].phase.effect, ok)];
      Return(t, if ok || tasks[t].job.Reassert? then Done else Failed);
    }

    method RetryRestore(t: nat)
      requires Valid() && Enabled(View(), RetryDue(t))
      modifies this`tasks
      ensures Valid() && View() == Apply(old(View()), RetryDue(t))
    {
      StepKeepsInv(View(), RetryDue(t));
      var task := tasks[t];
      tasks := tasks[t := task.(phase := Queued, delay := Min(task.delay * 2, RESTORE_MAX_RETRY))];
    }

    /** Lets the run or click that `step` belongs to take it. */
    method Perform(step: Step)
      requires Valid() && Enabled(View(), step)
      modifies this
      ensures Valid() && View() == Apply(old(View()), step)
    {
      match step {
        case Bump(enable) => var _ := TakeGeneration(enable);
        case StartRestore => var _ := SpawnStartup(false);
        case StartReassert => var _ := SpawnStartup(true);
        case Notify(t) => NotifyWaiters(t);
        case Acquire(t) => AcquireLock(t);
        case CompareGeneration(t) => Compare(t);
        case StartDownload(t) => BeginDownload(t);
        case Register(t) => var _ := PollSuperseded(t);
        case PollGeneration(t) => var _ := PollSuperseded(t);
        case Wake(t) => var _ := PollSuperseded(t);
        case FinishDownload(t, ok) => DownloadReturned(t, ok);
        case BeginEffect(t) => StartEffect(t);
        case FinishEffect(t, ok) => EffectReturned(t, ok);
        case RetryDue(t) => RetryRestore(t);
      }
    }

    method TryStep(step: Step)
      requires Reachable(View())
      modifies this
      ensures Reachable(View())
      ensures View() == if Enabled(old(View()), step) then Apply(old(View()), step) else old(View())
    {
      if Enabled(View(), step) {
        ReachableInv(View());
        ReachableStep(View(), step);
        Perform(step);
      }
    }

    /**
     * Any schedule: each action is taken if it is possible when its turn comes. Whatever the
     * schedule, effects never overlap or go back to an older click, and once all runs have
     * finished the system is as the newest click left it, if that succeeded.
     */
    method Drive(schedule: seq<Step>)
      requires Reachable(View())
      modifies this
      ensures Valid() && Reachable(View()) && View() == Machines.Followed(Next, old(View()), schedule)
      ensures Bracketed(log)
      ensures forall p, q :: 0 <= p <= q < |log| ==> GenOf(View(), p) <= GenOf(View(), q)
      ensures AllFinished(View()) && generation > 0 && tasks[toggles[generation - 1]].phase == Finished(Done) ==>
              && log != []
              && log[|log| - 1] == End(toggles[generation - 1], EffectOf(tasks[toggles[generation - 1]].job), true)
    {
      for i := 0 to |schedule|
        invariant Reachable(View()) && View() == Machines.Followed(Next, old(View()), schedule[..i])
      {
        assert schedule[..i + 1][..i] == schedule[..i];
        TryStep(schedule[i]);
      }
      assert schedule[..|schedule|] == schedule;
      ReachableInv(View());
      EffectsSerializedInOrder(View());
      if AllFinished(View()) && generation > 0 {
        LastToggleWins(View());
      }
    }
  }
}
