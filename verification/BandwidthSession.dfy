/** A session on values: what each check and each turn adds to it, and what its outcome can be. */
module BandwidthSession {
  import opened Prelude
  import opened Histories
  import opened BandwidthErrors
  import opened BandwidthHistory
  import QH = QueryHealth
  import DR = DepletionRate
  import Machines

  /** What an await yields; a cancelled check is dropped at one of them. */
  datatype Await<+T> = Dropped | Ready(value: T)

  /** What the outside answers during the check of one side. */
  datatype CheckInput = CheckInput(
    queries: Await<(RawQuery, RawQuery)>,
    now: Instant,
    attestation: Await<bool>,
    recheck: Await<bool>,
    report: Await<bool>,
    ticket: Await<bool>,
    topUp: Await<RawTopUp>)

  /** One turn of the run loop: the session may be cancelled before the check is due. */
  datatype Tick = Tick(cancelled: bool, entry: CheckInput, exit: CheckInput)

  /** How an attempt to top up ends, given the ticket and what the gateway says. */
  function TopUpOp(entry: bool, kind: ClientKind, ticket: bool, raw: RawTopUp): Op {
    if !ticket then TicketMissing(entry)
    else
      match TopUpResult(kind, raw)
      case Ok(_) => ToppedUp(entry)
      case Err(err) => TopUpFailed(entry, err)
  }

  /** The period a side asks for; a failed query asks for none. */
  function SidePeriod(
    available: nat, period: Duration, result: Result<Available, SpecificGatewayError>): Option<Duration>
    requires period > 0
  {
    if result.Ok? then DR.NextPeriod(available, AsU64(result.value.bytes), period) else None
  }

  function Shorter(a: Option<Duration>, b: Option<Duration>): Option<Duration> {
    if a.None? then b else if b.None? then a else Some(Min(a.value, b.value))
  }

  /**
   * What the session stands at: its operations, whether upgrade mode was seen, the bytes left on
   * each side at its last answer, and the period. The protocols its gateways speak never change.
   */
  datatype Standing = Standing(
    entryKind: ClientKind,
    exitKind: ClientKind,
    history: Ops,
    seen: bool,
    entryLeft: nat,
    exitLeft: nat,
    period: Duration)
  {
    function KindOf(entry: bool): ClientKind {
      if entry then entryKind else exitKind
    }
  }

  function Fresh(entryKind: ClientKind, exitKind: ClientKind): Standing {
    Standing(entryKind, exitKind, Start, false, 0, 0, DR.DEFAULT_BANDWIDTH_CHECK)
  }

  /** The end of upgrade mode is to be reported: the gateway left it, and we saw it while it lasted. */
  predicate ReportDue(seen: bool, upgradeMode: Option<bool>, input: CheckInput) {
    upgradeMode == Some(false) && input.attestation == Ready(true) && seen
  }

  /** The operations that answer a side running low, if none of them is dropped. */
  function AfterDepletion(
    h: Ops, seen: bool, entry: bool, kind: ClientKind, upgradeMode: Option<bool>, input: CheckInput): Ops
  {
    var topUp := TopUpOp(entry, kind, input.ticket == Ready(true),
                         if input.topUp.Ready? then input.topUp.value else Credited);
    if upgradeMode == Some(true) then h
    else if !ReportDue(seen, upgradeMode, input) then Then(h, topUp)
    else if input.report == Ready(true) then Then(Then(h, EndReported), topUp)
    else Then(h, EndReportFailed)
  }

  /** The session after the check of one side, if it is not dropped. */
  function AfterSide(s: Standing, entry: bool, input: CheckInput): Standing
    requires input.queries.Ready? && s.period > 0
  {
    match QueryResultOfTwo(s.KindOf(entry), input.queries.value)
    case Err(err) => s.(history := Then(s.history, QueryFailed(entry, err, input.now)))
    case Ok(available) =>
      var left := AsU64(available.bytes);
      var low := DR.NextPeriod(if entry then s.entryLeft else s.exitLeft, left, s.period).None?;
      var h := Then(s.history, QueryAnswered(entry));
      s.(history := if low then AfterDepletion(h, s.seen, entry, s.KindOf(entry), available.upgradeMode, input) else h,
         seen := s.seen || (low && available.upgradeMode == Some(true)),
         entryLeft := if entry then left else s.entryLeft,
         exitLeft := if entry then s.exitLeft else left)
  }

  /** The session after both checks, but for the period. */
  function AfterBoth(s: Standing, entry: CheckInput, exit: CheckInput): Standing
    requires entry.queries.Ready? && exit.queries.Ready? && s.period > 0
  {
    AfterSide(AfterSide(s, true, entry), false, exit)
  }

  /** The period both sides together ask for: the shorter of the two. */
  function AskedPeriod(s: Standing, entry: CheckInput, exit: CheckInput): Option<Duration>
    requires entry.queries.Ready? && exit.queries.Ready? && s.period > 0
  {
    Shorter(SidePeriod(s.entryLeft, s.period, QueryResultOfTwo(s.entryKind, entry.queries.value)),
            SidePeriod(s.exitLeft, s.period, QueryResultOfTwo(s.exitKind, exit.queries.value)))
  }

  /** The session after a turn that was not the last. */
  function AfterTurn(s: Standing, tick: Tick): Standing
    requires tick.entry.queries.Ready? && tick.exit.queries.Ready? && s.period > 0
  {
    var asked := AskedPeriod(s, tick.entry, tick.exit);
    AfterBoth(s, tick.entry, tick.exit).(period := if asked.Some? then asked.value else s.period)
  }

  /** No await of the check is dropped. */
  predicate AllReady(input: CheckInput) {
    && input.queries.Ready? && input.attestation.Ready? && input.recheck.Ready?
    && input.report.Ready? && input.ticket.Ready? && input.topUp.Ready?
  }

  /** Some answer of the check says that the gateway is in upgrade mode. */
  predicate MentionsUpgradeMode(kind: ClientKind, input: CheckInput) {
    && input.queries.Ready?
    && var result := QueryResultOfTwo(kind, input.queries.value);
       result.Ok? && result.value.upgradeMode == Some(true)
  }

  predicate CheckPeriod(d: Duration) {
    d in {DR.LOWER_BOUND_CHECK_DURATION, DR.UPPER_BOUND_CHECK_DURATION}
  }

  /** The gateway of the side answers the check's query. */
  predicate Answers(kind: ClientKind, input: CheckInput) {
    input.queries.Ready? && QueryResultOfTwo(kind, input.queries.value).Ok?
  }

  /**
   * What a turn leads to while nothing has stopped the session: either no await is dropped, or the
   * entry's check stops the session and the exit's is dropped before its query.
   */
  function Next(s: Standing, tick: Tick): Option<Standing> {
    if FirstStop(s.history).Some? || Has(s.history, SessionCancelled) || s.period == 0 then None
    else if tick.cancelled || !AllReady(tick.entry) then None
    else if AllReady(tick.exit) then Some(AfterTurn(s, tick))
    else if tick.exit.queries.Dropped? && FirstStop(AfterSide(s, true, tick.entry).history).Some?
    then Some(AfterSide(s, true, tick.entry))
    else None
  }

  /** A run over `ticks` from `s` ends, if there is one, where one over `rest` from `s1` does. */
  ghost predicate LeadsTo(s: Standing, ticks: seq<Tick>, s1: Standing, rest: seq<Tick>) {
    forall s' :: Machines.Run(Next, s, ticks, s') ==> Machines.Run(Next, s1, rest, s')
  }

  lemma LeadsOn(s: Standing, ticks: seq<Tick>, s1: Standing, i: nat, s2: Standing)
    requires i < |ticks| && LeadsTo(s, ticks, s1, ticks[i..])
    requires Next(s1, ticks[i]).Some? ==> s2 == Next(s1, ticks[i]).value
    ensures LeadsTo(s, ticks, s2, ticks[i + 1..])
  {
    assert ticks[i..][1..] == ticks[i + 1..];
  }

  // ---- What these mean, in terms of what the outside answers ----

  lemma ShorterMeans(a: Option<Duration>, b: Option<Duration>)
    ensures Shorter(a, b).None? <==> a.None? && b.None?
    ensures Shorter(a, b).Some? ==> Shorter(a, b) == a || Shorter(a, b) == b
    ensures a.Some? ==> Shorter(a, b).value <= a.value
    ensures b.Some? ==> Shorter(a, b).value <= b.value
  {
  }

  /** How an attempt to top up is recorded: by the ticket, then by whether the gateway credits it. */
  lemma TopUpMeans(entry: bool, kind: ClientKind, ticket: bool, raw: RawTopUp)
    ensures var op := TopUpOp(entry, kind, ticket, raw);
            && (op == TicketMissing(entry) <==> !ticket)
            && (op == ToppedUp(entry) <==> ticket && raw == Credited)
            && (ticket && raw != Credited ==> op.TopUpFailed? && op.entry == entry && op.err.IsGatewayFault())
  {
    ToppedUpExactly(kind, raw);
  }

  /**
   * A side running low: nothing is done in upgrade mode. If the gateway has left it, we hold an
   * attestation and saw the mode, that is reported, and only a report that succeeds is followed by
   * a top-up. In every other case there is just the top-up.
   */
  lemma DepletionMeans(
    h: Ops, seen: bool, entry: bool, kind: ClientKind, upgradeMode: Option<bool>, input: CheckInput)
    requires AllReady(input)
    ensures var h' := AfterDepletion(h, seen, entry, kind, upgradeMode, input);
            var due := upgradeMode == Some(false) && input.attestation.value && seen;
            && (upgradeMode == Some(true) ==> h' == h)
            && (due && !input.report.value ==> h' == Then(h, EndReportFailed))
            && (due && input.report.value ==> h'.Then? && IsTopUp(h'.last, entry) && h'.before == Then(h, EndReported))
            && (upgradeMode != Some(true) && !due ==> h'.Then? && IsTopUp(h'.last, entry) && h'.before == h)
            && (upgradeMode != Some(true) && !(due && !input.report.value) ==>
                  && (h'.last == TicketMissing(entry) <==> !input.ticket.value)
                  && (h'.last == ToppedUp(entry) <==> input.ticket.value && input.topUp.value == Credited))
  {
    TopUpMeans(entry, kind, input.ticket.value, input.topUp.value);
  }

  /**
   * A check that is not dropped: a failed query is recorded and changes nothing else; an answer is
   * recorded first, the bytes left are those it says, and only a side that is to get no further
   * period is dealt with as running low.
   */
  lemma SideMeans(s: Standing, entry: bool, input: CheckInput)
    requires input.queries.Ready? && s.period > 0
    ensures var s' := AfterSide(s, entry, input);
            var kind := if entry then s.entryKind else s.exitKind;
            match QueryResultOfTwo(kind, input.queries.value)
            case Err(err) => s' == s.(history := Then(s.history, QueryFailed(entry, err, input.now)))
            case Ok(available) =>
              var answered := Then(s.history, QueryAnswered(entry));
              var next := DR.NextPeriod(if entry then s.entryLeft else s.exitLeft, AsU64(available.bytes), s.period);
              && s'.period == s.period
              && s'.entryLeft == (if entry then AsU64(available.bytes) else s.entryLeft)
              && s'.exitLeft == (if entry then s.exitLeft else AsU64(available.bytes))
              && (next.Some? ==> s'.history == answered && s'.seen == s.seen)
              && (next.None? ==>
                    && s'.history == AfterDepletion(answered, s.seen, entry, kind, available.upgradeMode, input)
                    && (s'.seen <==> s.seen || available.upgradeMode == Some(true)))
  {
  }

  /** A turn checks the entry, then the exit, and switches to the shorter of the periods they ask for, if any. */
  lemma TurnMeans(s: Standing, tick: Tick)
    requires tick.entry.queries.Ready? && tick.exit.queries.Ready? && s.period > 0
    ensures var s1 := AfterSide(s, true, tick.entry);
            var s2 := AfterSide(s1, false, tick.exit);
            var s' := AfterTurn(s, tick);
            var e := QueryResultOfTwo(s.entryKind, tick.entry.queries.value);
            var x := QueryResultOfTwo(s.exitKind, tick.exit.queries.value);
            var asks := if e.Ok? then DR.NextPeriod(s.entryLeft, AsU64(e.value.bytes), s.period) else None;
            var asks' := if x.Ok? then DR.NextPeriod(s.exitLeft, AsU64(x.value.bytes), s.period) else None;
            && s' == s2.(period := s'.period)
            && (asks.None? && asks'.None? ==> s'.period == s.period)
            && (asks.Some? || asks'.Some? ==> Some(s'.period) == asks || Some(s'.period) == asks')
            && (asks.Some? ==> s'.period <= asks.value) && (asks'.Some? ==> s'.period <= asks'.value)
  {
    ShorterMeans(SidePeriod(s.entryLeft, s.period, QueryResultOfTwo(s.entryKind, tick.entry.queries.value)),
                 SidePeriod(s.exitLeft, s.period, QueryResultOfTwo(s.exitKind, tick.exit.queries.value)));
  }

  /** While nothing has stopped the session, a turn in which no await is dropped is always possible. */
  lemma NextMeans(s: Standing, tick: Tick)
    requires FirstStop(s.history).None? && !Has(s.history, SessionCancelled) && s.period > 0 && !tick.cancelled
    requires tick.entry.queries.Ready? && tick.entry.attestation.Ready? && tick.entry.recheck.Ready?
    requires tick.entry.report.Ready? && tick.entry.ticket.Ready? && tick.entry.topUp.Ready?
    requires tick.exit.queries.Ready? && tick.exit.attestation.Ready? && tick.exit.recheck.Ready?
    requires tick.exit.report.Ready? && tick.exit.ticket.Ready? && tick.exit.topUp.Ready?
    ensures Next(s, tick) == Some(AfterTurn(s, tick))
  {
  }

  // ---- What a check records ----

  lemma {:induction false} DepletionExtends(
    h: Ops, seen: bool, entry: bool, kind: ClientKind, upgradeMode: Option<bool>, input: CheckInput)
    ensures Prefix(h, AfterDepletion(h, seen, entry, kind, upgradeMode, input))
  {
    assert Prefix(h, h) && forall op :: Prefix(h, Then(h, op));
  }

  /** A check only adds to the record, and the answer of a gateway that answers is in it. */
  lemma SideRecorded(s: Standing, entry: bool, input: CheckInput)
    requires input.queries.Ready? && s.period > 0
    ensures Prefix(s.history, AfterSide(s, entry, input).history)
    ensures Answers(s.KindOf(entry), input) ==> Has(AfterSide(s, entry, input).history, QueryAnswered(entry))
  {
    var h, h' := Then(s.history, QueryAnswered(entry)), AfterSide(s, entry, input).history;
    assert Prefix(s.history, s.history) && Prefix(s.history, h);
    match QueryResultOfTwo(s.KindOf(entry), input.queries.value)
    case Err(_) =>
    case Ok(available) =>
      DepletionExtends(h, s.seen, entry, s.KindOf(entry), available.upgradeMode, input);
      PrefixTrans(s.history, h, h');
      HasInside(h, h', QueryAnswered(entry));
  }

  lemma BothRecorded(s: Standing, entry: CheckInput, exit: CheckInput)
    requires entry.queries.Ready? && exit.queries.Ready? && s.period > 0
    ensures Prefix(s.history, AfterBoth(s, entry, exit).history)
    ensures Answers(s.entryKind, entry) && Answers(s.exitKind, exit) ==> BothAnswered(AfterBoth(s, entry, exit).history)
  {
    var s1 := AfterSide(s, true, entry);
    var s2 := AfterSide(s1, false, exit);
    SideRecorded(s, true, entry);
    SideRecorded(s1, false, exit);
    PrefixTrans(s.history, s1.history, s2.history);
    if Answers(s.entryKind, entry) { HasInside(s1.history, s2.history, QueryAnswered(true)); }
  }

  lemma TurnRecorded(s: Standing, tick: Tick)
    requires Next(s, tick).Some?
    ensures Prefix(s.history, Next(s, tick).value.history)
  {
    if AllReady(tick.exit) { BothRecorded(s, tick.entry, tick.exit); } else { SideRecorded(s, true, tick.entry); }
  }

  lemma {:induction false} RunRecorded(s: Standing, ticks: seq<Tick>, s': Standing)
    requires Machines.Run(Next, s, ticks, s')
    ensures Prefix(s.history, s'.history)
    decreases |ticks|
  {
    if ticks != [] {
      var s1 := Next(s, ticks[0]).value;
      TurnRecorded(s, ticks[0]);
      RunRecorded(s1, ticks[1..], s');
      PrefixTrans(s.history, s1.history, s'.history);
    }
  }

  // ---- Sessions whose outcome is more than promised ----

  /** A check of a side whose gateway has `bytes` left, with no ticket to top up with. */
  function Answered(bytes: I64, upgradeMode: Option<bool>, reported: bool): CheckInput {
    var answer := Answer(Available(bytes, upgradeMode));
    CheckInput(Ready((answer, answer)), 0, Ready(true), Ready(true), Ready(reported), Ready(false), Ready(Credited))
  }

  /** A check of a side whose gateway does not know us. */
  function Unanswered(at: Instant): CheckInput {
    Answered(0, None, true).(queries := Ready((NoSuchPeer, NoSuchPeer)), now := at)
  }

  /** A check that does not get as far as its query. */
  function NotReached(): CheckInput {
    Answered(0, None, true).(queries := Dropped)
  }

  function FailedQuery(s: Standing, entry: bool, at: Instant): Op {
    QueryFailed(entry, if s.KindOf(entry).Deprecated? then Internal else SpecificGatewayError.QueryBandwidth, at)
  }

  lemma UnansweredSide(s: Standing, entry: bool, at: Instant)
    requires s.period > 0
    ensures AfterSide(s, entry, Unanswered(at)) == s.(history := Then(s.history, FailedQuery(s, entry, at)))
  {
  }

  /** Nothing has stopped the session yet. */
  predicate GoesOn(s: Standing) {
    FirstStop(s.history).None? && !Has(s.history, SessionCancelled) && s.period > 0
  }

  /** The last query of the side was answered. */
  predicate JustAnswered(h: Ops, entry: bool) {
    Queries(h, entry).Then? && Queries(h, entry).last.Answered?
  }

  /** The side has been asked and never answered, and at `at` it has been failing for less than a minute. */
  predicate SilentAt(h: Ops, entry: bool, at: Instant) {
    && !Has(h, QueryAnswered(entry))
    && QH.Streak(Queries(h, entry)) != []
    && at < QH.Streak(Queries(h, entry))[0] + QH.FIRST_ANSWER_GRACE
  }

  /** A failure of a silent side within its minute stops nothing, and the side stays silent. */
  lemma SilenceGoesOn(h: Ops, entry: bool, err: SpecificGatewayError, at: Instant)
    requires SilentAt(h, entry, at)
    ensures !Stops(h, QueryFailed(entry, err, at)) && SilentAt(Then(h, QueryFailed(entry, err, at)), entry, at)
    ensures Queries(Then(h, QueryFailed(entry, err, at)), !entry) == Queries(h, !entry)
  {
    AnsweredInQueries(h, entry);
  }

  /** A side that has just answered may fail once; the second failure stops the session, as one that had worked. */
  lemma TwoFailuresStop(h: Ops, entry: bool, err: SpecificGatewayError, at: Instant)
    requires JustAnswered(h, entry)
    ensures !Stops(h, QueryFailed(entry, err, at)) && Has(h, QueryAnswered(entry))
    ensures Queries(Then(h, QueryFailed(entry, err, at)), !entry) == Queries(h, !entry)
    ensures forall h' :: Queries(h', entry) == Queries(Then(h, QueryFailed(entry, err, at)), entry) ==>
                         Stops(h', QueryFailed(entry, err, at)) && Has(h', QueryAnswered(entry))
  {
    AnsweredInQueries(h, entry);
    var q := Queries(Then(h, QueryFailed(entry, err, at)), entry);
    assert QH.Streak(q) == [at] && QH.EverAnswered(q);
    forall h' | Queries(h', entry) == q ensures Has(h', QueryAnswered(entry)) {
      AnsweredInQueries(h', entry);
    }
  }

  /** A turn in which neither side answers, while one is silent within its minute. */
  function Silence(at: Instant): Tick {
    Tick(false, Unanswered(at), Unanswered(at))
  }

  function AfterSilence(s: Standing, at: Instant): Standing {
    s.(history := Then(Then(s.history, FailedQuery(s, true, at)), FailedQuery(s, false, at)))
  }

  lemma SilentTurn(s: Standing, at: Instant)
    requires GoesOn(s)
    ensures Next(s, Silence(at)) == Some(AfterSilence(s, at))
  {
    UnansweredSide(s, true, at);
    UnansweredSide(AfterSide(s, true, Unanswered(at)), false, at);
  }

  /** The first of the two failures: with one side just answering and the other silent, it stops nothing. */
  lemma FirstSilence(s: Standing, answering: bool, at: Instant)
    requires GoesOn(s) && JustAnswered(s.history, answering) && SilentAt(s.history, !answering, at)
    ensures Next(s, Silence(at)) == Some(AfterSilence(s, at)) && GoesOn(AfterSilence(s, at))
    ensures SilentAt(AfterSilence(s, at).history, !answering, at)
    ensures Queries(AfterSilence(s, at).history, answering)
            == Then(Queries(s.history, answering), QH.FailedAt(at))
  {
    SilentTurn(s, at);
    var h, e, x := s.history, FailedQuery(s, true, at), FailedQuery(s, false, at);
    var own, other := if answering then e else x, if answering then x else e;
    TwoFailuresStop(h, answering, own.err, at);
    SilenceGoesOn(h, !answering, other.err, at);
    if answering {
      SilenceGoesOn(Then(h, e), false, x.err, at);
    } else {
      TwoFailuresStop(Then(h, e), false, x.err, at);
    }
  }

  /** The entry answered last, the exit never: two more failing turns, and the outcome is more than promised. */
  lemma EntryFailsTwice(s: Standing, at: Instant) returns (s': Standing)
    requires GoesOn(s) && JustAnswered(s.history, true) && SilentAt(s.history, false, at)
    ensures Machines.Run(Next, s, [Silence(at), Tick(false, Unanswered(at), NotReached())], s')
    ensures SideSilent(s'.history)
  {
    FirstSilence(s, true, at);
    var s1 := AfterSilence(s, at);
    var last := Tick(false, Unanswered(at), NotReached());
    TwoFailuresStop(s.history, true, FailedQuery(s, true, at).err, at);
    UnansweredSide(s1, true, at);
    s' := AfterSide(s1, true, Unanswered(at));
    assert FirstStop(s'.history) == Some(s'.history);
    assert Next(s1, last) == Some(s');
    Machines.RunFrom(Next, s1, last, [], s');
    assert [last] + [] == [last];
    Machines.RunFrom(Next, s, Silence(at), [last], s');
    assert [Silence(at)] + [last] == [Silence(at), last];
  }

  /** The same the other way round. */
  lemma ExitFailsTwice(s: Standing, at: Instant) returns (s': Standing)
    requires GoesOn(s) && JustAnswered(s.history, false) && SilentAt(s.history, true, at)
    ensures Machines.Run(Next, s, [Silence(at), Silence(at)], s') && SideSilent(s'.history)
  {
    FirstSilence(s, false, at);
    var s1 := AfterSilence(s, at);
    SilentTurn(s1, at);
    s' := AfterSilence(s1, at);
    SilenceGoesOn(s1.history, true, FailedQuery(s, true, at).err, at);
    TwoFailuresStop(s.history, false, FailedQuery(s, false, at).err, at);
    assert Stops(s'.history.before, s'.history.last);
    assert FirstStop(s'.history) == Some(s'.history);
    Machines.RunFrom(Next, s1, Silence(at), [], s');
    assert [Silence(at)] + [] == [Silence(at)];
    Machines.RunFrom(Next, s, Silence(at), [Silence(at)], s');
    assert [Silence(at)] + [Silence(at)] == [Silence(at), Silence(at)];
  }

  /** How the first query of a side is recorded. */
  function FirstQuery(kind: ClientKind, entry: bool, input: CheckInput): Op
    requires input.queries.Ready?
  {
    match QueryResultOfTwo(kind, input.queries.value)
    case Ok(_) => QueryAnswered(entry)
    case Err(err) => QueryFailed(entry, err, input.now)
  }

  /** A side's first check measures no use, so it calls for no top-up whatever the gateway says. */
  lemma FirstCheck(s: Standing, entry: bool, input: CheckInput)
    requires input.queries.Ready? && s.period > 0 && (if entry then s.entryLeft else s.exitLeft) == 0
    ensures AfterSide(s, entry, input).history == Then(s.history, FirstQuery(s.KindOf(entry), entry, input))
    ensures var s' := AfterSide(s, entry, input);
            && s'.period == s.period && s'.entryKind == s.entryKind && s'.exitKind == s.exitKind
            && (entry ==> s'.exitLeft == s.exitLeft) && (!entry ==> s'.entryLeft == s.entryLeft)
            && (!Answers(s.KindOf(entry), input) ==> s' == s.(history := s'.history))
  {
  }

  /** A first turn in which no await is dropped. */
  predicate FirstTurn(tick: Tick) {
    !tick.cancelled && AllReady(tick.entry) && AllReady(tick.exit)
  }

  function AfterFirst(entryKind: ClientKind, exitKind: ClientKind, first: Tick): Standing
    requires FirstTurn(first)
  {
    AfterTurn(Fresh(entryKind, exitKind), first)
  }

  /** It leaves one query of each side, and stops nothing. */
  lemma FirstTurnRecorded(entryKind: ClientKind, exitKind: ClientKind, first: Tick)
    requires FirstTurn(first)
    ensures var s := AfterFirst(entryKind, exitKind, first);
            && Next(Fresh(entryKind, exitKind), first) == Some(s) && GoesOn(s)
            && s.history == Then(Then(Start, FirstQuery(entryKind, true, first.entry)),
                                 FirstQuery(exitKind, false, first.exit))
            && s.period == DR.DEFAULT_BANDWIDTH_CHECK
            && (!Answers(entryKind, first.entry) ==> s.entryLeft == 0)
            && s.entryKind == entryKind && s.exitKind == exitKind
  {
    var s0 := Fresh(entryKind, exitKind);
    FirstCheck(s0, true, first.entry);
    var s1 := AfterSide(s0, true, first.entry);
    FirstCheck(s1, false, first.exit);
    assert FirstStop(s1.history).None?;
    assert Queries(s1.history, false) == Start;
  }

  /** Within a minute of `since`, and no earlier than `now` if that is. */
  function Soon(since: Instant, now: Instant): Instant {
    if since <= now < since + QH.FIRST_ANSWER_GRACE then now else since
  }

  /** After one query of each side, a side has just answered or is silent within its minute. */
  lemma OneQueryEach(a: Op, b: Op, now: Instant)
    requires IsQuery(a, true) && IsQuery(b, false)
    ensures var h := Then(Then(Start, a), b);
            && (a.QueryAnswered? ==> JustAnswered(h, true)) && (b.QueryAnswered? ==> JustAnswered(h, false))
            && (a.QueryFailed? ==> SilentAt(h, true, Soon(a.at, now)))
            && (b.QueryFailed? ==> SilentAt(h, false, b.at))
  {
    var h1 := Then(Start, a);
    var h := Then(h1, b);
    assert !IsQuery(a, false) && !IsQuery(b, true) && h.before == h1;
    assert Queries(h1, false) == Start;
    assert Queries(h, true) == Queries(h1, true);
    assert a.QueryFailed? ==> Queries(h1, true) == Then(Start, QH.FailedAt(a.at));
    assert a.QueryFailed? ==> QH.Streak(Queries(h1, true)) == [a.at];
    assert b.QueryFailed? ==> Queries(h, false) == Then(Start, QH.FailedAt(b.at));
    assert b.QueryFailed? ==> QH.Streak(Queries(h, false)) == [b.at];
    assert a.QueryFailed? ==> !Has(h1, QueryAnswered(true));
    assert !Has(h1, QueryAnswered(false));
  }

  /** The turns after a first one in which a side did not answer, to an outcome that is more than promised. */
  function Misleading(entryKind: ClientKind, exitKind: ClientKind, first: Tick): seq<Tick>
    requires FirstTurn(first)
  {
    if Answers(exitKind, first.exit) then
      var at := Soon(first.entry.now, first.exit.now);
      [Silence(at), Silence(at)]
    else
      var at := first.exit.now;
      (if Answers(entryKind, first.entry) then []
       else [Tick(false, Answered(1_000_000_000, None, true), Unanswered(at))])
      + [Silence(at), Tick(false, Unanswered(at), NotReached())]
  }

  /** Neither answered at first: the entry answers next, while the exit stays silent. */
  lemma EntryAnswersNext(s: Standing, at: Instant) returns (s': Standing)
    requires GoesOn(s) && s.entryLeft == 0 && SilentAt(s.history, false, at)
    ensures Next(s, Tick(false, Answered(1_000_000_000, None, true), Unanswered(at))) == Some(s')
    ensures GoesOn(s') && JustAnswered(s'.history, true) && SilentAt(s'.history, false, at)
  {
    var entry := Answered(1_000_000_000, None, true);
    FirstCheck(s, true, entry);
    var s1 := AfterSide(s, true, entry);
    UnansweredSide(s1, false, at);
    SilenceGoesOn(s1.history, false, FailedQuery(s1, false, at).err, at);
    s' := AfterTurn(s, Tick(false, entry, Unanswered(at)));
  }

  lemma NeitherThenEntry(s: Standing, at: Instant) returns (s': Standing)
    requires GoesOn(s) && s.entryLeft == 0 && SilentAt(s.history, false, at)
    ensures Machines.Run(Next, s, [Tick(false, Answered(1_000_000_000, None, true), Unanswered(at))]
                                  + [Silence(at), Tick(false, Unanswered(at), NotReached())], s')
    ensures SideSilent(s'.history)
  {
    var s1 := EntryAnswersNext(s, at);
    s' := EntryFailsTwice(s1, at);
    Machines.RunFrom(Next, s, Tick(false, Answered(1_000_000_000, None, true), Unanswered(at)),
                     [Silence(at), Tick(false, Unanswered(at), NotReached())], s');
  }

  lemma MisleadingSession(entryKind: ClientKind, exitKind: ClientKind, first: Tick) returns (s': Standing)
    requires FirstTurn(first) && !(Answers(entryKind, first.entry) && Answers(exitKind, first.exit))
    ensures Machines.Run(Next, Fresh(entryKind, exitKind), [first] + Misleading(entryKind, exitKind, first), s')
    ensures SideSilent(s'.history)
  {
    FirstTurnRecorded(entryKind, exitKind, first);
    var s := AfterFirst(entryKind, exitKind, first);
    OneQueryEach(s.history.before.last, s.history.last, first.exit.now);
    if Answers(exitKind, first.exit) {
      s' := ExitFailsTwice(s, Soon(first.entry.now, first.exit.now));
    } else if Answers(entryKind, first.entry) {
      s' := EntryFailsTwice(s, first.exit.now);
      assert Misleading(entryKind, exitKind, first)
             == [Silence(first.exit.now), Tick(false, Unanswered(first.exit.now), NotReached())];
    } else {
      s' := NeitherThenEntry(s, first.exit.now);
    }
    Machines.RunFrom(Next, Fresh(entryKind, exitKind), first, Misleading(entryKind, exitKind, first), s');
  }

  /** The outcome of a session that starts with `first` can be more than promised. */
  ghost predicate CanMislead(entryKind: ClientKind, exitKind: ClientKind, first: Tick) {
    exists rest, s' ::
      Machines.Run(Next, Fresh(entryKind, exitKind), [first] + rest, s') && Worked(s'.history) && !Promised(s'.history)
  }

  /**
   * Whatever the gateways speak: after a first turn in which nothing is dropped, the outcome of
   * the session can be more than promised exactly if a side did not answer in that turn.
   */
  lemma MisleadsExactly(entryKind: ClientKind, exitKind: ClientKind, first: Tick)
    requires FirstTurn(first)
    ensures CanMislead(entryKind, exitKind, first) <==>
            !(Answers(entryKind, first.entry) && Answers(exitKind, first.exit))
  {
    if Answers(entryKind, first.entry) && Answers(exitKind, first.exit) {
      forall rest, s' | Machines.Run(Next, Fresh(entryKind, exitKind), [first] + rest, s')
        ensures !(Worked(s'.history) && !Promised(s'.history))
      {
        FirstTurnRecorded(entryKind, exitKind, first);
        assert ([first] + rest)[1..] == rest;
        var s := AfterFirst(entryKind, exitKind, first);
        RunRecorded(s, rest, s');
        StillBothAnswered(s.history, s'.history);
        WorkedAsPromisedExactly(s'.history);
      }
    } else {
      var s' := MisleadingSession(entryKind, exitKind, first);
      WorkedAsPromisedExactly(s'.history);
    }
  }

  // ---- A session whose outcome is less than promised ----

  // Upgrade mode ends, which is reported; the entry gateway is still short at the next check, and
  // this time the report fails. The exit gateway has plenty.

  function WithExit(entry: CheckInput): Tick {
    Tick(false, entry, Answered(1_000_000_000, None, true))
  }

  const REPORTING: seq<Tick> := [
    WithExit(Answered(1_000_000_000, None, true)),
    WithExit(Answered(1_000_000, Some(true), true)),
    WithExit(Answered(100_000, Some(false), true)),
    Tick(false, Answered(0, Some(false), false), NotReached())]

  const IDLE: Ops := Then(Then(Start, QueryAnswered(true)), QueryAnswered(false))
  const UPGRADING: Ops := Then(Then(IDLE, QueryAnswered(true)), QueryAnswered(false))
  const REPORTED: Ops :=
    Then(Then(Then(Then(UPGRADING, QueryAnswered(true)), EndReported), TicketMissing(true)), QueryAnswered(false))
  const FORGOTTEN: Ops := Then(Then(REPORTED, QueryAnswered(true)), EndReportFailed)

  function Reporting(kind: ClientKind, h: Ops, seen: bool, entryLeft: nat): Standing {
    Standing(kind, kind, h, seen, entryLeft, 1_000_000_000, 5)
  }

  lemma ForgottenReport()
    ensures FirstStop(REPORTED).None? && LaterReportFailed(FORGOTTEN)
    ensures FirstStop(IDLE).None? && FirstStop(UPGRADING).None?
  {
    assert FirstStop(IDLE).None?;
    assert FirstStop(UPGRADING).None?;
    assert FirstStop(REPORTED).None?;
    assert Has(REPORTED, EndReported) && Has(FORGOTTEN.before, EndReported);
    assert BothAnswered(IDLE);
    assert Prefix(UPGRADING, REPORTED) && Prefix(IDLE, UPGRADING) && Prefix(REPORTED, FORGOTTEN);
    PrefixTrans(IDLE, UPGRADING, REPORTED);
    PrefixTrans(IDLE, REPORTED, FORGOTTEN);
    StillBothAnswered(IDLE, FORGOTTEN);
  }

  lemma NotCancelled()
    ensures !Has(IDLE, SessionCancelled) && !Has(UPGRADING, SessionCancelled) && !Has(REPORTED, SessionCancelled)
  {
    assert !Has(IDLE, SessionCancelled);
    assert !Has(UPGRADING, SessionCancelled);
  }

  lemma ReportingTurns(kind: ClientKind)
    ensures Next(Fresh(kind, kind), REPORTING[0]) == Some(Reporting(kind, IDLE, false, 1_000_000_000))
    ensures Next(Reporting(kind, IDLE, false, 1_000_000_000), REPORTING[1])
            == Some(Reporting(kind, UPGRADING, true, 1_000_000))
    ensures Next(Reporting(kind, UPGRADING, true, 1_000_000), REPORTING[2])
            == Some(Reporting(kind, REPORTED, true, 100_000))
    ensures Next(Reporting(kind, REPORTED, true, 100_000), REPORTING[3])
            == Some(Reporting(kind, FORGOTTEN, true, 0))
  {
    ForgottenReport();
    NotCancelled();
  }

  lemma ReportingSession(kind: ClientKind)
    ensures Machines.Run(Next, Fresh(kind, kind), REPORTING, Reporting(kind, FORGOTTEN, true, 0))
    ensures !Worked(FORGOTTEN) && Promised(FORGOTTEN)
  {
    ReportingTurns(kind);
    ForgottenReport();
    WorkedAsPromisedExactly(FORGOTTEN);
    var s' := Reporting(kind, FORGOTTEN, true, 0);
    assert Machines.Run(Next, s', REPORTING[4..], s');
    assert REPORTING[3..][1..] == REPORTING[4..];
    assert Machines.Run(Next, Reporting(kind, REPORTED, true, 100_000), REPORTING[3..], s');
    assert REPORTING[2..][1..] == REPORTING[3..];
    assert Machines.Run(Next, Reporting(kind, UPGRADING, true, 1_000_000), REPORTING[2..], s');
    assert REPORTING[1..][1..] == REPORTING[2..];
    assert Machines.Run(Next, Reporting(kind, IDLE, false, 1_000_000_000), REPORTING[1..], s');
  }
}
