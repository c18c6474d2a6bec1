/**
 * What the steps taken so far say about the ad-block toggles: who runs, where each run stands,
 * what was done to the system and why. Nothing here looks at how a step changes the state.
 */
module AdblockHistory {
  import opened Prelude
  import opened Histories
  import opened AdblockToggles
  import Machines

  type Steps = History<Step>

  /** The steps `h`, taken one after the other from the start, lead to `s`. */
  predicate Happened(h: Steps, s: State) {
    Machines.After(Next, INITIAL, h) == Some(s)
  }

  /** Every reachable state has such a past. */
  lemma ReachableHappened(s: State) returns (h: Steps)
    requires Reachable(s)
    ensures Happened(h, s)
  {
    var steps :| Run(INITIAL, steps, s);
    h := Machines.RunHasHistory(Next, INITIAL, Start, INITIAL, steps, s);
  }

  /** The jobs of the runs started, in order. */
  function Jobs(h: Steps): seq<Job> {
    if h.Start? then []
    else
      match h.last
      case Bump(enable) => Jobs(h.before) + [Toggle(enable)]
      case StartRestore => Jobs(h.before) + [Restore]
      case StartReassert => Jobs(h.before) + [Reassert]
      case _ => Jobs(h.before)
  }

  predicate Starts(step: Step) {
    step.Bump? || step.StartRestore? || step.StartReassert?
  }

  function Clicks(h: Steps): nat {
    if h.Start? then 0 else Clicks(h.before) + if h.last.Bump? then 1 else 0
  }

  /** For each run started, how many clicks there were by then, its own included. */
  function ClicksAtStart(h: Steps): seq<nat> {
    if h.Start? then []
    else ClicksAtStart(h.before) + if Starts(h.last) then [Clicks(h)] else []
  }

  /** The last step that run `t` took. */
  function LastOf(h: Steps, t: nat): Option<Step> {
    if h.Start? then None
    else if !Starts(h.last) && h.last.t == t then Some(h.last)
    else LastOf(h.before, t)
  }

  /** The downloads and effects of run `t` that failed. */
  function FailuresOf(h: Steps, t: nat): nat {
    if h.Start? then 0
    else
      FailuresOf(h.before, t)
      + if h.last == FinishDownload(t, false) || h.last == FinishEffect(t, false) then 1 else 0
  }

  function EffectAsked(job: Job): Effect {
    if job == Toggle(false) then Remove else if job == Reassert then Redirect else Install
  }

  /** What was done to the system. */
  function Effects(h: Steps): seq<Event> {
    if h.Start? then []
    else
      var log, jobs := Effects(h.before), Jobs(h.before);
      match h.last
      case BeginEffect(t) => if t < |jobs| then log + [Begin(t, EffectAsked(jobs[t]))] else log
      case FinishEffect(t, ok) => if t < |jobs| then log + [End(t, EffectAsked(jobs[t]), ok)] else log
      case _ => log
  }

  /** A run that failed ends, but for the restore, which sleeps. */
  function AfterFailure(job: Job): Phase {
    if job.Restore? then Sleeping else Finished(Failed)
  }

  /** Where a run stands after the last step it took. */
  predicate StandsAfter(phase: Phase, job: Job, last: Option<Step>) {
    match last
    case None => phase == if job.Toggle? then Bumped else Queued
    case Some(Notify(_)) => phase == Queued
    case Some(Acquire(_)) => phase == Turn
    case Some(CompareGeneration(_)) => phase == Cleared || phase == Finished(Superseded)
    case Some(StartDownload(_)) => phase == Downloading(Fresh)
    case Some(Register(_)) => phase.Downloading? && phase.waiter.Registered?
    case Some(PollGeneration(_)) => (phase.Downloading? && phase.waiter.Parked?) || phase == Finished(Superseded)
    case Some(Wake(_)) => phase == Downloading(Fresh)
    case Some(FinishDownload(_, ok)) => phase == if ok then Downloaded else AfterFailure(job)
    case Some(BeginEffect(_)) => phase == Busy(EffectAsked(job))
    case Some(FinishEffect(_, ok)) => phase == if ok || job.Reassert? then Finished(Done) else AfterFailure(job)
    case Some(RetryDue(_)) => phase == Queued
    case _ => false
  }

  predicate TaskFits(h: Steps, s: State, t: nat)
    requires t < |s.tasks|
  {
    && t < |Jobs(h)| && t < |ClicksAtStart(h)|
    && s.tasks[t].job == Jobs(h)[t] && s.tasks[t].gen == (if Jobs(h)[t].Toggle? then ClicksAtStart(h)[t] else 0)
    && StandsAfter(s.tasks[t].phase, Jobs(h)[t], LastOf(h, t))
    && (Jobs(h)[t].Restore? ==> s.tasks[t].failures == FailuresOf(h, t))
  }

  /** No step was taken by a run that was not started. */
  ghost predicate Unborn(h: Steps, t: nat) {
    LastOf(h, t).None? && FailuresOf(h, t) == 0
  }

  ghost predicate Fits(h: Steps, s: State) {
    && |Jobs(h)| == |s.tasks| && |ClicksAtStart(h)| == |s.tasks| && s.generation == Clicks(h)
    && s.log == Effects(h)
    && (forall t :: 0 <= t < |s.tasks| ==> TaskFits(h, s, t))
    && (forall t: nat :: t >= |s.tasks| ==> Unborn(h, t))
  }

  lemma JobsGrow(h: Steps, step: Step)
    ensures Jobs(h) <= Jobs(Then(h, step)) && ClicksAtStart(h) <= ClicksAtStart(Then(h, step))
    ensures !Starts(step) ==> Jobs(Then(h, step)) == Jobs(h) && ClicksAtStart(Then(h, step)) == ClicksAtStart(h)
  {
  }

  /** A run's own step takes it where that step says. */
  lemma OwnStepFits(h: Steps, s: State, step: Step)
    requires Enabled(s, step) && !Starts(step) && TaskWellFormed(s, step.t) && TaskFits(h, s, step.t)
    ensures TaskFits(Then(h, step), Apply(s, step), step.t)
  {
    JobsGrow(h, step);
  }

  /** The steps of others leave it where it is, but for a wake-up. */
  lemma OtherStepFits(h: Steps, s: State, step: Step, t: nat)
    requires Enabled(s, step) && t < |s.tasks| && (Starts(step) || step.t != t) && TaskFits(h, s, t)
    ensures t < |Apply(s, step).tasks| && TaskFits(Then(h, step), Apply(s, step), t)
  {
    JobsGrow(h, step);
    var task := Apply(s, step).tasks[t];
    assert task == s.tasks[t] || task == s.tasks[t].(phase := NotifyWaiter(s.tasks[t].phase));
  }

  lemma NewRunFits(h: Steps, s: State, step: Step)
    requires Enabled(s, step) && Starts(step) && Unborn(h, |s.tasks|) && s.generation == Clicks(h)
    requires |Jobs(h)| == |s.tasks| && |ClicksAtStart(h)| == |s.tasks|
    ensures TaskFits(Then(h, step), Apply(s, step), |s.tasks|)
  {
  }

  lemma StepFits(h: Steps, s: State, step: Step, t: nat)
    requires TasksWellFormed(s) && Fits(h, s) && Enabled(s, step) && t < |Apply(s, step).tasks|
    ensures TaskFits(Then(h, step), Apply(s, step), t)
  {
    if t < |s.tasks| {
      assert TaskFits(h, s, t) && TaskWellFormed(s, t);
      if !Starts(step) && step.t == t { OwnStepFits(h, s, step); } else { OtherStepFits(h, s, step, t); }
    } else {
      assert Unborn(h, t);
      NewRunFits(h, s, step);
    }
  }

  lemma StepLogs(h: Steps, s: State, step: Step)
    requires TasksWellFormed(s) && Fits(h, s) && Enabled(s, step)
    ensures Apply(s, step).log == Effects(Then(h, step))
  {
    if step.BeginEffect? || step.FinishEffect? {
      assert TaskFits(h, s, step.t) && TaskWellFormed(s, step.t);
    }
  }

  lemma StepCounts(h: Steps, s: State, step: Step)
    requires Fits(h, s) && Enabled(s, step)
    ensures var h', s' := Then(h, step), Apply(s, step);
            && |Jobs(h')| == |s'.tasks| && |ClicksAtStart(h')| == |s'.tasks| && s'.generation == Clicks(h')
    ensures forall t: nat :: t >= |Apply(s, step).tasks| ==> Unborn(Then(h, step), t)
  {
    forall t: nat | t >= |Apply(s, step).tasks| ensures Unborn(Then(h, step), t) {
      assert Unborn(h, t);
    }
  }

  lemma StepKeepsFit(h: Steps, s: State, step: Step)
    requires TasksWellFormed(s) && Fits(h, s) && Enabled(s, step)
    ensures Fits(Then(h, step), Apply(s, step))
  {
    StepLogs(h, s, step);
    StepCounts(h, s, step);
    forall t | 0 <= t < |Apply(s, step).tasks| ensures TaskFits(Then(h, step), Apply(s, step), t) {
      StepFits(h, s, step, t);
    }
  }

  /** Every past fits the state it led to. */
  lemma {:induction false} HistoryFits(h: Steps, s: State)
    requires Happened(h, s)
    ensures Fits(h, s) && Inv(s)
  {
    if h.Then? {
      var before := Machines.After(Next, INITIAL, h.before).value;
      HistoryFits(h.before, before);
      StepKeepsInv(before, h.last);
      StepKeepsFit(h.before, before, h.last);
    }
  }

  /** Past and state agree on the runs, the clicks and the log. */
  lemma Past(h: Steps, s: State)
    requires Happened(h, s)
    ensures |Jobs(h)| == |s.tasks| == |ClicksAtStart(h)| && s.generation == Clicks(h) && s.log == Effects(h)
  {
    HistoryFits(h, s);
  }

  lemma PastOf(h: Steps, s: State, t: nat)
    requires Happened(h, s) && t < |s.tasks|
    ensures TaskFits(h, s, t) && TaskWellFormed(s, t) && DelayFits(s.tasks[t])
    ensures Holding(s.tasks[t].phase) <==> s.holder == Some(t)
  {
    HistoryFits(h, s);
  }

  function Before(h: Steps): State
    requires h.Then? && Machines.After(Next, INITIAL, h).Some?
  {
    Machines.After(Next, INITIAL, h.before).value
  }

  // ---- What follows for every past ----

  /** A click starts a run of its own, with what was clicked; so do the restore and its fast path. */
  lemma StartsItsRun(h: Steps, step: Step, s: State)
    requires Happened(Then(h, step), s) && (step.Bump? || step.StartRestore? || step.StartReassert?)
    ensures s.tasks != [] && |s.tasks| == |Jobs(h)| + 1
    ensures var task := s.tasks[|s.tasks| - 1];
            && (step.Bump? ==> task.job == Toggle(step.enable) && task.phase == Bumped && task.gen == Clicks(h) + 1)
            && (step.StartRestore? ==> task.job == Restore && task.phase == Queued && task.gen == 0)
            && (step.StartReassert? ==> task.job == Reassert && task.phase == Queued && task.gen == 0)
  {
    var before := Before(Then(h, step));
    Past(h, before);
  }

  /**
   * An effect is that of the run's job: enabling and restoring install, disabling removes, the fast
   * path redirects. An install comes right after a download of the same run that succeeded.
   */
  lemma EffectHasItsReason(h: Steps, t: nat, s: State)
    requires Happened(Then(h, BeginEffect(t)), s)
    ensures t < |s.tasks| && s.log != []
    ensures var e := s.log[|s.log| - 1];
            && e.Begin? && e.task == t
            && (e.effect == Install <==> s.tasks[t].job == Toggle(true) || s.tasks[t].job == Restore)
            && (e.effect == Remove <==> s.tasks[t].job == Toggle(false))
            && (e.effect == Redirect <==> s.tasks[t].job == Reassert)
            && (e.effect == Install ==> LastOf(h, t) == Some(FinishDownload(t, true)))
            && (e.effect != Install ==> LastOf(h, t) == Some(CompareGeneration(t)))
  {
    PastOf(h, Before(Then(h, BeginEffect(t))), t);
    OwnLast(h, t);
  }

  lemma {:induction false} OwnLast(h: Steps, t: nat)
    ensures LastOf(h, t).Some? ==> !Starts(LastOf(h, t).value) && LastOf(h, t).value.t == t
  {
    if h.Then? { OwnLast(h.before, t); }
  }

  /** The end of an effect is logged with its outcome, and nothing else is ever logged. */
  lemma OnlyEffectsAreLogged(h: Steps, step: Step, s: State, s': State)
    requires Happened(h, s) && Happened(Then(h, step), s')
    ensures step.FinishEffect? ==>
            && s.log != [] && s.log[|s.log| - 1].Begin? && s.log[|s.log| - 1].task == step.t
            && s'.log == s.log + [End(step.t, s.log[|s.log| - 1].effect, step.ok)]
    ensures !step.FinishEffect? && !step.BeginEffect? ==> s'.log == s.log
  {
    HistoryFits(h, s);
    HistoryFits(Then(h, step), s');
    if step.FinishEffect? {
      LogStepAlternates(s, step);
      assert PairedAt(s.log, |s.log| - 1) && TaskFits(h, s, step.t) && TaskWellFormed(s, step.t);
    }
  }

  /** The steps run `t` has taken since it last took the lock. */
  function TurnOf(h: Steps, t: nat): set<Step> {
    if h.Start? || h.last == Acquire(t) then {}
    else TurnOf(h.before, t) + if !Starts(h.last) && h.last.t == t then {h.last} else {}
  }

  /** A run under way that has not begun its effect has not begun it in this turn. */
  lemma {:induction false} NoEffectBefore(h: Steps, s: State, t: nat)
    requires Happened(h, s) && t < |s.tasks| && Holding(s.tasks[t].phase) && !s.tasks[t].phase.Busy?
    ensures BeginEffect(t) !in TurnOf(h, t)
  {
    if h.Then? && h.last != Acquire(t) {
      var before := Before(h);
      PastOf(h, s, t);
      if t < |before.tasks| {
        PastOf(h.before, before, t);
        NoEffectBefore(h.before, before, t);
      }
    }
  }

  /**
   * A download that fails installs nothing: the run has begun no effect in that turn and has let go
   * of the lock. A click's run has failed; the restore sleeps, with one failure more to its name.
   */
  lemma FailedDownloadDoesNothing(h: Steps, t: nat, s: State, s': State)
    requires Happened(h, s) && Happened(Then(h, FinishDownload(t, false)), s')
    ensures t < |s.tasks| == |s'.tasks| && s'.log == s.log && s'.holder != Some(t)
    ensures BeginEffect(t) !in TurnOf(h, t)
    ensures s.tasks[t].job.Toggle? || s.tasks[t].job.Restore?
    ensures s.tasks[t].job.Toggle? ==> s'.tasks[t].phase == Finished(Failed)
    ensures s.tasks[t].job.Restore? ==>
            s'.tasks[t].phase == Sleeping && s'.tasks[t].failures == FailuresOf(h, t) + 1 == s.tasks[t].failures + 1
  {
    PastOf(h, s, t);
    NoEffectBefore(h, s, t);
  }

  /** Until its next step a run that failed stays failed, and the restore asleep; the restore never gives up. */
  lemma FailureStands(h: Steps, s: State, t: nat)
    requires Happened(h, s) && t < |s.tasks|
    ensures LastOf(h, t) == Some(FinishDownload(t, false)) || LastOf(h, t) == Some(FinishEffect(t, false)) ==>
            && (s.tasks[t].job.Toggle? ==> s.tasks[t].phase == Finished(Failed))
            && (s.tasks[t].job.Restore? ==> s.tasks[t].phase == Sleeping)
    ensures s.tasks[t].job.Restore? ==> s.tasks[t].phase != Finished(Failed)
    ensures s.tasks[t].phase == Sleeping ==>
            && s.tasks[t].job.Restore? && FailuresOf(h, t) > 0
            && s.tasks[t].delay == Min(15 * Pow2(FailuresOf(h, t) - 1), 300)
  {
    PastOf(h, s, t);
    if s.tasks[t].phase == Sleeping { BackoffClosedForm(s.tasks[t].failures - 1); }
  }

  /** A run is done exactly if its effect ended well; the fast path also if it did not. */
  lemma DoneExactly(h: Steps, s: State, t: nat)
    requires Happened(h, s) && t < |s.tasks|
    ensures s.tasks[t].phase == Finished(Done) <==>
            || LastOf(h, t) == Some(FinishEffect(t, true))
            || (s.tasks[t].job == Reassert && LastOf(h, t) == Some(FinishEffect(t, false)))
  {
    PastOf(h, s, t);
    OwnLast(h, t);
  }

  /** Under the lock a run steps aside exactly if there was a click since it started; the fast path never does. */
  lemma StepsAsideExactly(h: Steps, t: nat, s: State)
    requires Happened(Then(h, CompareGeneration(t)), s)
    ensures t < |s.tasks| && t < |ClicksAtStart(h)|
    ensures s.tasks[t].phase == Finished(Superseded) <==>
            s.tasks[t].job != Reassert && Clicks(h) > if s.tasks[t].job.Toggle? then ClicksAtStart(h)[t] else 0
  {
    var before := Before(Then(h, CompareGeneration(t)));
    Past(h, before);
    PastOf(h, before, t);
  }

  /** Whether a download or an effect succeeds is up to the outside, and so is when the restore wakes. */
  lemma OutcomesAreOpen(s: State, t: nat, ok: bool)
    requires t < |s.tasks|
    ensures s.tasks[t].phase.Downloading? ==> Next(s, FinishDownload(t, ok)).Some?
    ensures s.tasks[t].phase.Busy? ==> Next(s, FinishEffect(t, ok)).Some?
    ensures s.tasks[t].phase.Sleeping? ==> Next(s, RetryDue(t)).Some?
    ensures ReassertsFinished(s) ==> Next(s, Bump(ok)).Some?
  {
  }

  function LastClick(h: Steps): Option<bool> {
    if h.Start? then None else if h.last.Bump? then Some(h.last.enable) else LastClick(h.before)
  }

  lemma {:induction false} LastClickIsLastToggle(h: Steps)
    requires Clicks(h) > 0 && |Jobs(h)| == |ClicksAtStart(h)|
    ensures LastClick(h).Some?
    ensures forall n :: 0 <= n < |Jobs(h)| && Jobs(h)[n].Toggle? && ClicksAtStart(h)[n] == Clicks(h) ==>
              Jobs(h)[n] == Toggle(LastClick(h).value)
  {
    if h.last.Bump? {
      StartedBefore(h.before);
    } else {
      LastClickIsLastToggle(h.before);
    }
  }

  lemma {:induction false} StartedBefore(h: Steps)
    ensures |Jobs(h)| == |ClicksAtStart(h)|
    ensures forall n :: 0 <= n < |ClicksAtStart(h)| ==> ClicksAtStart(h)[n] <= Clicks(h)
  {
    if h.Then? { StartedBefore(h.before); }
  }

  /**
   * For every past: once all runs have finished, and the run of the last click has done its work, the
   * last thing that happened to the system is the install or remove that was clicked.
   */
  lemma LastClickWins(h: Steps, s: State)
    requires Happened(h, s) && AllFinished(s) && Clicks(h) > 0
    ensures |s.toggles| == Clicks(h) && s.toggles[Clicks(h) - 1] < |s.tasks| && LastClick(h).Some?
    ensures var n := s.toggles[Clicks(h) - 1];
            && s.tasks[n].job == Toggle(LastClick(h).value)
            && (LastOf(h, n) == Some(FinishEffect(n, true)) ==>
                  s.log != [] && s.log[|s.log| - 1] == End(n, if LastClick(h).value then Install else Remove, true))
            && (LastOf(h, n) != Some(FinishEffect(n, true)) ==> s.tasks[n].phase == Finished(Failed))
  {
    HappenedReachable(h, s);
    Past(h, s);
    LastToggleWins(s);
    var n := s.toggles[Clicks(h) - 1];
    PastOf(h, s, n);
    LastClickIsLastToggle(h);
    DoneExactly(h, s, n);
  }

  lemma {:induction false} HappenedReachable(h: Steps, s: State)
    requires Happened(h, s)
    ensures Reachable(s)
  {
    if h.Start? {
      assert Run(INITIAL, [], INITIAL);
    } else {
      HappenedReachable(h.before, Before(h));
      ReachableStep(Before(h), h.last);
    }
  }
}
