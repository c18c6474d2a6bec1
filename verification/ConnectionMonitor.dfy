/** What a sequence of probes means: the events it causes and when the next probe is due. */
module ProbeHistory {
  import opened Prelude
  import opened Histories

  type U32 = x: nat | x <= U32_MAX

  datatype Phase = Initial | Monitoring

  datatype TimingConfig = TimingConfig(
    initialProbeTimeout: Duration,
    initialProbeRetryCount: U32,
    monitoringProbeTimeout: Duration,
    monitoringProbeRetryCount: U32,
    probePeriodicity: Duration)
  {
    function Timeout(phase: Phase): Duration {
      if phase.Initial? then initialProbeTimeout else monitoringProbeTimeout
    }

    function MaxRetryCount(phase: Phase): U32 {
      if phase.Initial? then initialProbeRetryCount else monitoringProbeRetryCount
    }
  }

  const MIXNET := TimingConfig(10, 5, 10, 5, 60)
  const TWO_HOP := TimingConfig(3, 3, 5, 3, 10)

  datatype Status = Viable | IntermittentFailure(retry: nat) | Failed

  datatype ConnectionEvent = ConnectionEvent(startedAt: Instant, endedAt: Instant, status: Status)

  datatype Probe = Probe(sentAt: Instant, endedAt: Instant, ok: bool)

  /** The probes that have ended. */
  type Probes = History<Probe>

  predicate EverSucceeded(h: Probes) {
    h.Then? && (h.last.ok || EverSucceeded(h.before))
  }

  function PhaseOf(h: Probes): Phase {
    if EverSucceeded(h) then Monitoring else Initial
  }

  /** Failures since the last success. */
  function Failures(h: Probes): nat {
    if h.Start? || h.last.ok then 0 else Failures(h.before) + 1
  }

  /**
   * What is reported for a probe: a success is viable, the k-th failure in a row is intermittent
   * while k is within the retries of the phase, and the connection has failed beyond them.
   */
  function StatusOf(h: Probes, ok: bool, cfg: TimingConfig): Status {
    var k := Failures(h) + 1;
    var max := cfg.MaxRetryCount(PhaseOf(h));
    if ok then Viable
    else if k > max && max < U32_MAX then Failed
    else IntermittentFailure(Min(k, U32_MAX))
  }

  function Events(h: Probes, cfg: TimingConfig): seq<ConnectionEvent> {
    if h.Start? then []
    else Events(h.before, cfg)
         + [ConnectionEvent(h.last.sentAt, h.last.endedAt, StatusOf(h.before, h.last.ok, cfg))]
  }

  /** When the probe after these is due: a while after a success, one timeout after the start of a failure. */
  function NextDue(h: Probes, cfg: TimingConfig): Instant
    requires h.Then?
  {
    if h.last.ok then h.last.endedAt + cfg.probePeriodicity else h.last.sentAt + cfg.Timeout(PhaseOf(h))
  }

  /** Probes do not overlap and none is sent before it is due. */
  predicate Paced(h: Probes, cfg: TimingConfig) {
    h.Then? ==>
      && Paced(h.before, cfg)
      && h.last.sentAt <= h.last.endedAt
      && (h.before.Then? ==> h.before.last.endedAt <= h.last.sentAt && NextDue(h.before, cfg) <= h.last.sentAt)
  }

  /** Probes return within their timeout and timers fire on time. */
  predicate Timely(h: Probes, cfg: TimingConfig) {
    h.Then? ==>
      && Timely(h.before, cfg)
      && h.last.endedAt <= h.last.sentAt + cfg.Timeout(PhaseOf(h.before))
      && (h.before.Then? ==>
            h.last.sentAt <= NextDue(h.before, cfg) || h.last.sentAt <= h.before.last.endedAt)
  }

  /** When the first probe of the present run of failures was sent. */
  function StreakStart(h: Probes): Instant
    requires Failures(h) > 0
  {
    if Failures(h.before) == 0 then h.last.sentAt else StreakStart(h.before)
  }

  /** When the failures had to start counting: the next probe after the last success, or the first of all. */
  function WatchedFrom(h: Probes, cfg: TimingConfig): Instant
    requires h.Then?
  {
    if h.last.ok then h.last.endedAt + cfg.probePeriodicity
    else if h.before.Start? then h.last.sentAt
    else WatchedFrom(h.before, cfg)
  }

  lemma OneMore(n: nat, t: nat)
    ensures (n + 1) * t == n * t + t
  {
  }

  /** Without any assumption on timing, n failures in a row start at least n - 1 timeouts apart. */
  lemma {:induction false} FailuresPaced(h: Probes, cfg: TimingConfig)
    requires Paced(h, cfg) && Failures(h) > 0
    ensures h.last.sentAt >= StreakStart(h) + (Failures(h) - 1) * cfg.Timeout(PhaseOf(h))
  {
    if Failures(h.before) > 0 {
      FailuresPaced(h.before, cfg);
      OneMore(Failures(h.before) - 1, cfg.Timeout(PhaseOf(h)));
    }
  }

  lemma {:induction false} FailuresOnTime(h: Probes, cfg: TimingConfig)
    requires Paced(h, cfg) && Timely(h, cfg) && Failures(h) > 0
    ensures h.last.sentAt == WatchedFrom(h, cfg) + (Failures(h) - 1) * cfg.Timeout(PhaseOf(h))
  {
    if Failures(h.before) > 0 {
      FailuresOnTime(h.before, cfg);
      OneMore(Failures(h.before) - 1, cfg.Timeout(PhaseOf(h)));
    }
  }

  function LastSuccessEnd(h: Probes): Option<Instant> {
    if h.Start? then None else if h.last.ok then Some(h.last.endedAt) else LastSuccessEnd(h.before)
  }

  lemma {:induction false} PhaseByReply(h: Probes)
    ensures LastSuccessEnd(h).Some? <==> PhaseOf(h).Monitoring?
  {
    if h.Then? { PhaseByReply(h.before); }
  }

  function FirstSent(h: Probes): Instant
    requires h.Then?
  {
    if h.before.Start? then h.last.sentAt else FirstSent(h.before)
  }

  lemma {:induction false} WatchedFromMeaning(h: Probes, cfg: TimingConfig)
    requires h.Then?
    ensures LastSuccessEnd(h).Some? <==> EverSucceeded(h)
    ensures WatchedFrom(h, cfg) ==
            if LastSuccessEnd(h).Some? then LastSuccessEnd(h).value + cfg.probePeriodicity else FirstSent(h)
  {
    if !h.last.ok && h.before.Then? { WatchedFromMeaning(h.before, cfg); }
  }

  datatype ConnectionStatus = Undetermined | IsViable | HasFailed

  /** What stands after these probes: the last success or exhaustion decides. */
  function StandingOf(h: Probes, cfg: TimingConfig): ConnectionStatus {
    if h.Start? then Undetermined
    else
      match StatusOf(h.before, h.last.ok, cfg)
      case Viable => IsViable
      case Failed => HasFailed
      case IntermittentFailure(_) => StandingOf(h.before, cfg)
  }

  /** Failures beyond the retries are reported as such, unless the retries are the largest number there is. */
  lemma ExhaustedIsReported(h: Probes, cfg: TimingConfig)
    requires Failures(h) > cfg.MaxRetryCount(PhaseOf(h))
    ensures var max := cfg.MaxRetryCount(PhaseOf(h));
            && (StatusOf(h.before, h.last.ok, cfg) == Failed <==> max < U32_MAX)
            && (max < U32_MAX ==> StandingOf(h, cfg) == HasFailed)
  {
  }

  /** With probes and timers on time, a failure ends by when the probe after it is due. */
  lemma FailureEndsByNextDue(h: Probes, cfg: TimingConfig)
    requires Timely(h, cfg) && Failures(h) > 0
    ensures h.last.endedAt <= NextDue(h, cfg)
  {
  }

  /**
   * Probes and timers having been on time, the next one is due, and any probe in flight was sent,
   * no later than a timeout per failure after watching began.
   */
  lemma NextDueOnTime(h: Probes, cfg: TimingConfig)
    requires Paced(h, cfg) && Timely(h, cfg) && h.Then?
    ensures NextDue(h, cfg) == WatchedFrom(h, cfg) + Failures(h) * cfg.Timeout(PhaseOf(h))
    ensures h.last.endedAt <= NextDue(h, cfg)
  {
    if Failures(h) > 0 {
      FailuresOnTime(h, cfg);
      OneMore(Failures(h) - 1, cfg.Timeout(PhaseOf(h)));
      FailureEndsByNextDue(h, cfg);
    }
  }

  lemma FewerTimeouts(n: nat, max: nat, t: nat)
    requires n <= max
    ensures n * t + t <= (max + 1) * t
  {
    OneMore(max, t);
    assert (max - n) * t >= 0;
    assert max * t == n * t + (max - n) * t;
  }
}

/** The same on sequences: which event stands for which probe. */
module EventLog {
  import opened Prelude
  import opened Histories
  import opened ProbeHistory

  function AsSeq(h: Probes): seq<Probe> {
    if h.Start? then [] else AsSeq(h.before) + [h.last]
  }

  /** The probes from `start` up to `i` failed, and the one before them, if there is one, succeeded. */
  predicate FailingSince(s: seq<Probe>, start: nat, i: nat) {
    && start <= i <= |s|
    && (start > 0 ==> s[start - 1].ok)
    && forall k :: start <= k < i ==> !s[k].ok
  }

  lemma LastInSeq(h: Probes)
    requires h.Then?
    ensures |AsSeq(h)| == |AsSeq(h.before)| + 1 && AsSeq(h)[|AsSeq(h)| - 1] == h.last
    ensures forall k :: 0 <= k < |AsSeq(h.before)| ==> AsSeq(h)[k] == AsSeq(h.before)[k]
  {
  }

  lemma FailedBefore(h: Probes, start: nat, i: nat)
    requires h.Then? && FailingSince(AsSeq(h), start, i) && i <= |AsSeq(h.before)|
    ensures FailingSince(AsSeq(h.before), start, i)
  {
    LastInSeq(h);
    forall k | start <= k < i ensures !AsSeq(h.before)[k].ok { assert AsSeq(h)[k] == AsSeq(h.before)[k]; }
  }

  /** What the recursive readings of a history come to on the sequence of its probes. */
  lemma {:induction false} FailingSinceMeans(h: Probes, start: nat)
    requires FailingSince(AsSeq(h), start, |AsSeq(h)|)
    ensures Failures(h) == |AsSeq(h)| - start
    ensures EverSucceeded(h) <==> start > 0
  {
    if h.Then? {
      LastInSeq(h);
      assert start < |AsSeq(h)| ==> !AsSeq(h)[|AsSeq(h)| - 1].ok;
      if start < |AsSeq(h)| {
        assert FailingSince(AsSeq(h), start, |AsSeq(h.before)|);
        FailedBefore(h, start, |AsSeq(h.before)|);
        FailingSinceMeans(h.before, start);
      }
    }
  }

  /** There is one event per probe, with its times. */
  lemma {:induction false} OneEventEach(h: Probes, cfg: TimingConfig)
    ensures |Events(h, cfg)| == |AsSeq(h)|
    ensures forall i :: 0 <= i < |AsSeq(h)| ==>
              Events(h, cfg)[i].startedAt == AsSeq(h)[i].sentAt && Events(h, cfg)[i].endedAt == AsSeq(h)[i].endedAt
  {
    if h.Then? { OneEventEach(h.before, cfg); }
  }

  /**
   * What each event says, for every sequence of probes. A success is viable. Otherwise let `n` be
   * the failures in a row up to and including this probe, and the retries be those of monitoring
   * if any probe before succeeded, and the initial ones if none did. The connection has failed
   * exactly if `n` is beyond the retries, and these are not the largest number there is; if not,
   * the failure is the `n`-th intermittent one.
   */
  lemma {:induction false} EventMeans(h: Probes, cfg: TimingConfig, start: nat, i: nat)
    requires i < |AsSeq(h)| && FailingSince(AsSeq(h), start, i)
    ensures |Events(h, cfg)| == |AsSeq(h)|
    ensures var status := Events(h, cfg)[i].status;
            var n := i + 1 - start;
            var retries := if start > 0 then cfg.monitoringProbeRetryCount else cfg.initialProbeRetryCount;
            && (status == Viable <==> AsSeq(h)[i].ok)
            && (status == Failed <==> !AsSeq(h)[i].ok && n > retries && retries < 0xFFFF_FFFF)
            && (!AsSeq(h)[i].ok && n <= retries ==> status == IntermittentFailure(n))
            && (!AsSeq(h)[i].ok && retries == 0xFFFF_FFFF < n ==> status == IntermittentFailure(0xFFFF_FFFF))
  {
    OneEventEach(h, cfg);
    OneEventEach(h.before, cfg);
    LastInSeq(h);
    FailedBefore(h, start, i);
    if i == |AsSeq(h.before)| {
      FailingSinceMeans(h.before, start);
    } else {
      EventMeans(h.before, cfg, start, i);
    }
  }

  /** When the next probe is due: a period after a success, or a timeout of the phase after a failed one was sent. */
  lemma NextDueMeans(h: Probes, cfg: TimingConfig)
    requires h.Then?
    ensures var s := AsSeq(h);
            var last := s[|s| - 1];
            && s != []
            && (last.ok ==> NextDue(h, cfg) == last.endedAt + cfg.probePeriodicity)
            && (!last.ok && (exists k :: 0 <= k < |s| && s[k].ok) ==>
                  NextDue(h, cfg) == last.sentAt + cfg.monitoringProbeTimeout)
            && (!last.ok && (forall k :: 0 <= k < |s| ==> !s[k].ok) ==>
                  NextDue(h, cfg) == last.sentAt + cfg.initialProbeTimeout)
  {
    SucceededMeans(h);
  }

  lemma {:induction false} SucceededMeans(h: Probes)
    ensures EverSucceeded(h) <==> exists k :: 0 <= k < |AsSeq(h)| && AsSeq(h)[k].ok
  {
    if h.Then? {
      SucceededMeans(h.before);
      assert forall k :: 0 <= k < |AsSeq(h.before)| ==> AsSeq(h)[k] == AsSeq(h.before)[k];
      assert AsSeq(h)[|AsSeq(h)| - 1] == h.last;
    }
  }
}

/** The connection monitor: one probe in flight or one timer armed, never both. */
module ConnectionMonitor {
  import opened Prelude
  import opened EventLog
  import opened Histories
  import opened ProbeHistory

  /** What wakes the run loop. */
  datatype Input = ProbeReturned(ok: bool, now: Instant) | TimerElapsed(now: Instant)

  /** Where the monitor stands: the probes that ended, when the one in flight was sent, and the time. */
  datatype Progress = Progress(probes: Probes, inFlight: Option<Instant>, clock: Instant)

  /** The clock never goes back. */
  function TimeOf(p: Progress, input: Input): Instant {
    if input.now < p.clock then p.clock else input.now
  }

  /**
   * What an input means. The branch of a completed future is disabled, so a reply counts only
   * with a probe in flight, and a timer only with none and not before the next probe is due.
   */
  function Advance(p: Progress, cfg: TimingConfig, input: Input): Progress {
    var now := TimeOf(p, input);
    if input.ProbeReturned? && p.inFlight.Some? then
      Progress(Then(p.probes, Probe(p.inFlight.value, now, input.ok)), None, now)
    else if input.TimerElapsed? && p.inFlight.None? && p.probes.Then? && NextDue(p.probes, cfg) <= now then
      Progress(p.probes, Some(now), now)
    else p
  }

  function AdvanceAll(p: Progress, cfg: TimingConfig, inputs: seq<Input>): Progress {
    if inputs == [] then p
    else Advance(AdvanceAll(p, cfg, inputs[..|inputs| - 1]), cfg, inputs[|inputs| - 1])
  }

  /**
   * Nothing is late at `now`: the probes that ended were sent and returned on time, the one in
   * flight was sent on time and has not run out its timeout, and an armed timer is not overdue.
   */
  predicate OnTime(p: Progress, cfg: TimingConfig, now: Instant) {
    && Timely(p.probes, cfg)
    && (p.inFlight.Some? ==>
          && now <= p.inFlight.value + cfg.Timeout(PhaseOf(p.probes))
          && (p.probes.Then? ==>
                p.inFlight.value <= NextDue(p.probes, cfg) || p.inFlight.value <= p.probes.last.endedAt))
    && (p.inFlight.None? && p.probes.Then? ==> now <= NextDue(p.probes, cfg) || now <= p.probes.last.endedAt)
  }

  /** No input comes late: probes return within their timeout, and timers fire when they are due. */
  predicate Punctual(p: Progress, cfg: TimingConfig, inputs: seq<Input>) {
    inputs == []
    || var n := |inputs| - 1;
       var q := AdvanceAll(p, cfg, inputs[..n]);
       Punctual(p, cfg, inputs[..n]) && OnTime(q, cfg, TimeOf(q, inputs[n]))
  }

  lemma {:induction false} PunctualIsOnTime(p: Progress, cfg: TimingConfig, inputs: seq<Input>)
    requires OnTime(p, cfg, p.clock) && Punctual(p, cfg, inputs)
    ensures var q := AdvanceAll(p, cfg, inputs); OnTime(q, cfg, q.clock)
    decreases |inputs|
  {
    if inputs != [] { PunctualIsOnTime(p, cfg, inputs[..|inputs| - 1]); }
  }

  class ConnectionMonitor {
    const cfg: TimingConfig
    var phase: Phase
    var status: ConnectionStatus
    var retry: nat
    var lastReplyAt: Option<Instant>
    var lastSentAt: Instant
    var probing: bool
    var timer: Option<Instant>
    var events: seq<ConnectionEvent>
    ghost var probes: Probes

    ghost predicate Valid()
      reads this
    {
      && phase == PhaseOf(probes)
      && retry == Min(Failures(probes), U32_MAX)
      && status == StandingOf(probes, cfg)
      && lastReplyAt == LastSuccessEnd(probes)
      && events == Events(probes, cfg)
      && Paced(probes, cfg)
      && (probing <==> timer.None?)
      && (probes.Then? ==> lastSentAt >= probes.last.sentAt)
      && (probing && probes.Then? ==> lastSentAt >= probes.last.endedAt && lastSentAt >= NextDue(probes, cfg))
      && (!probing ==> probes.Then? && lastSentAt == probes.last.sentAt && timer.value == NextDue(probes, cfg))
    }

    ghost function ProgressAt(clock: Instant): Progress
      reads this`probes, this`probing, this`lastSentAt
    {
      Progress(probes, if probing then Some(lastSentAt) else None, clock)
    }

    ghost predicate OnSchedule(now: Instant)
      reads this`probes, this`probing, this`lastSentAt
    {
      OnTime(ProgressAt(now), cfg, now)
    }

    /** When failures had to start counting: a period after the last reply, or with the first probe. */
    ghost function WatchStart(): Instant
      reads this
    {
      if lastReplyAt.Some? then lastReplyAt.value + cfg.probePeriodicity
      else if probes.Then? then FirstSent(probes)
      else lastSentAt
    }

    /** Sends the initial probe. */
    constructor (cfg: TimingConfig, now: Instant)
      ensures Valid() && this.cfg == cfg && probing && probes == Start && lastSentAt == now
      ensures OnSchedule(now) && WatchStart() == now
    {
      this.cfg := cfg;
      phase, status, retry, lastReplyAt, lastSentAt := Initial, Undetermined, 0, None, now;
      probing, timer, events := true, None, [];
      probes := Start;
    }

    method IncrementRetry()
      requires retry <= U32_MAX
      modifies this`retry
      ensures retry == Min(old(retry) + 1, U32_MAX)
    {
      if retry < U32_MAX {
        retry := retry + 1;
      }
    }

    /** The probe ends: its event is sent and the timer for the next one is armed. */
    method OnProbeReturned(ok: bool, now: Instant)
      requires Valid() && probing && lastSentAt <= now
      modifies this
      ensures Valid() && !probing && probes == Then(old(probes), Probe(old(lastSentAt), now, ok))
      ensures events == old(events) + [ConnectionEvent(old(lastSentAt), now, StatusOf(old(probes), ok, cfg))]
      ensures timer == Some(if ok then now + cfg.probePeriodicity
                            else old(lastSentAt) + if old(phase) == Initial then cfg.initialProbeTimeout
                                                   else cfg.monitoringProbeTimeout)
      ensures status == if ok then IsViable
                        else if StatusOf(old(probes), ok, cfg) == Failed then HasFailed else old(status)
    {
      var nextProbeAt;
      probes := Then(probes, Probe(lastSentAt, now, ok));
      if ok {
        lastReplyAt := Some(now);
        retry := 0;
        if phase.Initial? {
          phase := Monitoring;
        }
        events := events + [ConnectionEvent(lastSentAt, now, Viable)];
        status := IsViable;
        nextProbeAt := now + cfg.probePeriodicity;
      } else {
        IncrementRetry();
        if retry > cfg.MaxRetryCount(phase) {
          status := HasFailed;
          events := events + [ConnectionEvent(lastSentAt, now, Failed)];
        } else {
          events := events + [ConnectionEvent(lastSentAt, now, IntermittentFailure(retry))];
        }
        nextProbeAt := lastSentAt + cfg.Timeout(phase);
      }
      probing := false;
      timer := Some(nextProbeAt);
    }

    /** The timer fires, at its deadline or later, and the next probe is sent. */
    method OnTimerElapsed(now: Instant)
      requires Valid() && !probing && timer.value <= now && probes.last.endedAt <= now
      modifies this`lastSentAt, this`probing, this`timer
      ensures Valid() && probing && lastSentAt == now
    {
      lastSentAt := now;
      probing := true;
      timer := None;
    }

    /** Nothing that has happened is later than `clock`. */
    ghost predicate UpTo(clock: Instant)
      reads this`lastSentAt, this`probes
    {
      lastSentAt <= clock && (probes.Then? ==> probes.last.endedAt <= clock)
    }

    /** Handles one input; one that does not count leaves everything as it is. */
    method HandleInput(input: Input, clock: Instant) returns (clock': Instant)
      requires Valid() && UpTo(clock)
      modifies this
      ensures Valid() && UpTo(clock') && ProgressAt(clock') == Advance(old(ProgressAt(clock)), cfg, input)
    {
      var now := if input.now < clock then clock else input.now;
      clock' := clock;
      if input.ProbeReturned? && probing {
        OnProbeReturned(input.ok, now);
        clock' := now;
      } else if input.TimerElapsed? && !probing && timer.value <= now {
        OnTimerElapsed(now);
        clock' := now;
      }
    }

    /** Handles any sequence of inputs, each as it means; `clock` is the time of the last one handled. */
    method Run(inputs: seq<Input>, start: Instant) returns (clock: Instant)
      requires Valid() && UpTo(start)
      modifies this
      ensures Valid() && events == Events(probes, cfg) && Paced(probes, cfg)
      ensures probing <==> timer.None?
      ensures ProgressAt(clock) == AdvanceAll(old(ProgressAt(start)), cfg, inputs)
      ensures old(OnSchedule(start)) && Punctual(old(ProgressAt(start)), cfg, inputs) ==> OnSchedule(clock)
    {
      clock := start;
      var i := 0;
      while i < |inputs|
        invariant 0 <= i <= |inputs|
        invariant Valid() && UpTo(clock)
        invariant ProgressAt(clock) == AdvanceAll(old(ProgressAt(start)), cfg, inputs[..i])
      {
        assert inputs[..i + 1][..i] == inputs[..i];
        clock := HandleInput(inputs[i], clock);
        i := i + 1;
      }
      assert inputs[..i] == inputs;
      if old(OnSchedule(start)) && Punctual(old(ProgressAt(start)), cfg, inputs) {
        PunctualIsOnTime(old(ProgressAt(start)), cfg, inputs);
      }
    }
  }

  /**
   * The events of a monitor are those of the probes that ended, one each: see `EventMeans`, here for
   * the monitor's own log, phase and count.
   */
  lemma ReportsWhatHappened(c: ConnectionMonitor, start: nat, i: nat)
    requires c.Valid() && i < |AsSeq(c.probes)| && FailingSince(AsSeq(c.probes), start, i)
    ensures |c.events| == |AsSeq(c.probes)|
    ensures var probe, event := AsSeq(c.probes)[i], c.events[i];
            var n := i + 1 - start;
            var retries := if start > 0 then c.cfg.monitoringProbeRetryCount else c.cfg.initialProbeRetryCount;
            && event.startedAt == probe.sentAt && event.endedAt == probe.endedAt
            && (event.status == Viable <==> probe.ok)
            && (event.status == Failed <==> !probe.ok && n > retries && retries < 0xFFFF_FFFF)
            && (!probe.ok && n <= retries ==> event.status == IntermittentFailure(n))
    ensures c.phase == Monitoring <==> exists k :: 0 <= k < |AsSeq(c.probes)| && AsSeq(c.probes)[k].ok
  {
    OneEventEach(c.probes, c.cfg);
    EventMeans(c.probes, c.cfg, start, i);
    SucceededMeans(c.probes);
  }

  /** Inputs are taken one after the other: a reply ends the probe in flight, a due timer sends the next. */
  lemma InputsMean(p: Progress, cfg: TimingConfig, inputs: seq<Input>, input: Input)
    ensures AdvanceAll(p, cfg, []) == p
    ensures AdvanceAll(p, cfg, inputs + [input]) == Advance(AdvanceAll(p, cfg, inputs), cfg, input)
    ensures var now := if input.now < p.clock then p.clock else input.now;
            && (input.ProbeReturned? && p.inFlight.Some? ==>
                  Advance(p, cfg, input) == Progress(Then(p.probes, Probe(p.inFlight.value, now, input.ok)), None, now))
            && (input.TimerElapsed? && p.inFlight.None? && p.probes.Then? && NextDue(p.probes, cfg) <= now ==>
                  Advance(p, cfg, input) == Progress(p.probes, Some(now), now))
            && (input.ProbeReturned? && p.inFlight.None? ==> Advance(p, cfg, input) == p)
            && (input.TimerElapsed? && p.inFlight.Some? ==> Advance(p, cfg, input) == p)
  {
    assert (inputs + [input])[..|inputs|] == inputs;
  }

  /**
   * A monitor that is on schedule has used up the retries of its phase by the time one timeout per
   * attempt has passed since failures had to start counting, and has reported the connection failed.
   */
  lemma DetectionLatency(c: ConnectionMonitor, now: Instant)
    requires c.Valid() && c.OnSchedule(now)
    requires now > c.WatchStart() + (c.cfg.MaxRetryCount(c.phase) + 1) * c.cfg.Timeout(c.phase)
    ensures Failures(c.probes) > c.cfg.MaxRetryCount(c.phase)
    ensures c.events != []
    ensures c.events[|c.events| - 1].status == Failed <==> c.cfg.MaxRetryCount(c.phase) < U32_MAX
    ensures c.cfg.MaxRetryCount(c.phase) < U32_MAX ==> c.status == HasFailed
  {
    var n, max, t := Failures(c.probes), c.cfg.MaxRetryCount(c.phase), c.cfg.Timeout(c.phase);
    if c.probes.Then? {
      NextDueOnTime(c.probes, c.cfg);
      WatchedFromMeaning(c.probes, c.cfg);
    }
    if n <= max {
      FewerTimeouts(n, max, t);
      assert false;
    }
    ExhaustedIsReported(c.probes, c.cfg);
  }

  /** On two hops: 30 s after the last reply, or 12 s after the start, the connection has been reported failed. */
  lemma TwoHopDetection(c: ConnectionMonitor, now: Instant)
    requires c.Valid() && c.OnSchedule(now) && c.cfg == TWO_HOP
    requires if c.lastReplyAt.Some? then now > c.lastReplyAt.value + 30 else now > c.WatchStart() + 12
    ensures c.status == HasFailed && c.events != [] && c.events[|c.events| - 1].status == Failed
  {
    PhaseByReply(c.probes);
    DetectionLatency(c, now);
  }

  /** On the mixnet: 120 s after the last reply, or 60 s after the start. */
  lemma MixnetDetection(c: ConnectionMonitor, now: Instant)
    requires c.Valid() && c.OnSchedule(now) && c.cfg == MIXNET
    requires if c.lastReplyAt.Some? then now > c.lastReplyAt.value + 120 else now > c.WatchStart() + 60
    ensures c.status == HasFailed && c.events != [] && c.events[|c.events| - 1].status == Failed
  {
    DetectionLatency(c, now);
  }
}
