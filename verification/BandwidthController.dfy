/** What the gateways and the account service answer, and what the controller makes of it. */
module BandwidthErrors {
  import opened Prelude

  datatype SpecificGatewayError =
    | RequestCredential
    | DeprecatedTopUpWireguard
    | TopUpWireguard
    | DeprecatedQueryBandwidth
    | QueryBandwidth
    | DeprecatedUpgradeModeRecheck
    | UpgradeModeRecheck
    | GatewayTimeout
    | Internal
  {
    /** Every error but the one for lack of a ticket blames the gateway. */
    predicate IsGatewayFault() {
      !RequestCredential?
    }
  }

  datatype Error =
    | EntryGateway(err: SpecificGatewayError)
    | ExitGateway(err: SpecificGatewayError)
    | ReportFailed
  {
    static function Gateway(entry: bool, err: SpecificGatewayError): Error {
      if entry then EntryGateway(err) else ExitGateway(err)
    }

    function EntryCulpable(): Option<bool> {
      match this
      case EntryGateway(err) => if err.IsGatewayFault() then Some(true) else None
      case ExitGateway(err) => if err.IsGatewayFault() then Some(false) else None
      case ReportFailed => None
    }
  }

  /** The two protocols a gateway may speak. */
  datatype ClientKind = Deprecated | Latest

  type I64 = x: int | -0x8000_0000_0000_0000 <= x < 0x8000_0000_0000_0000

  /** The cast of the reported bytes: a negative number wraps around. */
  function AsU64(x: I64): nat {
    if x < 0 then x + U64_MAX + 1 else x
  }

  datatype Available = Available(bytes: I64, upgradeMode: Option<bool>)

  datatype RawQuery = Answer(available: Available) | NoSuchPeer | QueryTimeout | QueryError

  datatype RawTopUp = Credited | TopUpTimeout | TopUpError

  function QueryResult(kind: ClientKind, raw: RawQuery): Result<Available, SpecificGatewayError> {
    match raw
    case Answer(available) => Ok(available)
    case NoSuchPeer => Err(if kind.Deprecated? then Internal else QueryBandwidth)
    case QueryTimeout => Err(if kind.Deprecated? then GatewayTimeout else QueryBandwidth)
    case QueryError => Err(if kind.Deprecated? then DeprecatedQueryBandwidth else QueryBandwidth)
  }

  function TopUpResult(kind: ClientKind, raw: RawTopUp): Result<(), SpecificGatewayError> {
    match raw
    case Credited => Ok(())
    case TopUpTimeout => Err(if kind.Deprecated? then GatewayTimeout else TopUpWireguard)
    case TopUpError => Err(if kind.Deprecated? then DeprecatedTopUpWireguard else TopUpWireguard)
  }

  /** What two attempts amount to: the second counts only if the first timed out. */
  function QueryResultOfTwo(kind: ClientKind, raw: (RawQuery, RawQuery)): Result<Available, SpecificGatewayError> {
    if QueryResult(kind, raw.0) == Err(GatewayTimeout) then QueryResult(kind, raw.1) else QueryResult(kind, raw.0)
  }

  /** The cast keeps the value modulo 2^64. */
  lemma AsU64Means(x: I64)
    ensures 0 <= AsU64(x) < 0x1_0000_0000_0000_0000 && (AsU64(x) - x) % 0x1_0000_0000_0000_0000 == 0
  {
  }

  /** Two attempts yield an answer exactly if the first is it, or timed out on the old protocol and the second is it. */
  lemma QueryAnsweredExactly(kind: ClientKind, raw: (RawQuery, RawQuery), answer: Available)
    ensures QueryResultOfTwo(kind, raw) == Ok(answer) <==>
            raw.0 == Answer(answer) || (kind == Deprecated && raw.0 == QueryTimeout && raw.1 == Answer(answer))
    ensures QueryResultOfTwo(kind, raw).Err? ==> QueryResultOfTwo(kind, raw).error.IsGatewayFault()
  {
  }

  /** A top-up succeeds exactly if the gateway credits it, and any other end is the gateway's fault. */
  lemma ToppedUpExactly(kind: ClientKind, raw: RawTopUp)
    ensures TopUpResult(kind, raw).Ok? <==> raw == Credited
    ensures raw == TopUpTimeout ==>
            TopUpResult(kind, raw) == Err(if kind == Deprecated then GatewayTimeout else TopUpWireguard)
    ensures raw == TopUpError ==>
            TopUpResult(kind, raw) == Err(if kind == Deprecated then DeprecatedTopUpWireguard else TopUpWireguard)
    ensures TopUpResult(kind, raw).Err? ==> TopUpResult(kind, raw).error != RequestCredential
  {
  }

  /** A retry follows only a timeout, and the last answer got is the result. */
  method QueryWithRetries(kind: ClientKind, raw: seq<RawQuery>, retries: nat)
    returns (r: Result<Available, SpecificGatewayError>, attempts: nat)
    requires |raw| > retries
    ensures 1 <= attempts <= retries + 1 && r == QueryResult(kind, raw[attempts - 1])
    ensures forall i :: 0 <= i < attempts - 1 ==> QueryResult(kind, raw[i]) == Err(GatewayTimeout)
    ensures attempts <= retries ==> r != Err(GatewayTimeout)
  {
    r := QueryResult(kind, raw[0]);
    attempts := 1;
    while attempts < retries + 1 && r == Err(GatewayTimeout)
      invariant 1 <= attempts <= retries + 1 && r == QueryResult(kind, raw[attempts - 1])
      invariant forall i :: 0 <= i < attempts - 1 ==> QueryResult(kind, raw[i]) == Err(GatewayTimeout)
    {
      r := QueryResult(kind, raw[attempts]);
      attempts := attempts + 1;
    }
  }
}

/** A session's bandwidth operations in the order they ended, and what they mean for its outcome. */
module BandwidthHistory {
  import opened Prelude
  import opened Histories
  import opened BandwidthErrors
  import QH = QueryHealth

  datatype Op =
    | QueryAnswered(entry: bool)
    | QueryFailed(entry: bool, err: SpecificGatewayError, at: Instant)
    | ToppedUp(entry: bool)
    | TicketMissing(entry: bool)
    | TopUpFailed(entry: bool, err: SpecificGatewayError)
    | EndReported
    | EndReportFailed
    | SessionCancelled

  type Ops = History<Op>

  predicate IsTopUp(op: Op, entry: bool) {
    (op.ToppedUp? || op.TicketMissing? || op.TopUpFailed?) && op.entry == entry
  }

  /** The operation is a query of that side. */
  predicate IsQuery(op: Op, entry: bool) {
    (op.QueryAnswered? || op.QueryFailed?) && op.entry == entry
  }

  /** The queries of one side, in order. */
  function Queries(h: Ops, entry: bool): QH.Queries {
    if h.Start? then Start
    else if IsQuery(h.last, entry) then
      Then(Queries(h.before, entry), if h.last.QueryAnswered? then QH.Answered else QH.FailedAt(h.last.at))
    else Queries(h.before, entry)
  }

  function QueryCount(h: Ops, entry: bool): nat {
    if h.Start? then 0 else QueryCount(h.before, entry) + if IsQuery(h.last, entry) then 1 else 0
  }

  /** `h'` continues `h` with operations other than queries. */
  predicate NoQuerySince(h: Ops, h': Ops) {
    h == h' || (h'.Then? && !h'.last.QueryAnswered? && !h'.last.QueryFailed? && NoQuerySince(h, h'.before))
  }

  lemma {:induction false} NoQuerySinceMeans(h: Ops, h': Ops)
    requires NoQuerySince(h, h')
    ensures Prefix(h, h') && forall e :: QueryCount(h', e) == QueryCount(h, e)
    decreases h'
  {
    if h != h' { NoQuerySinceMeans(h, h'.before); }
  }

  /** The operation stops the checks: a rejected top-up or report, or a query failure that escalates. */
  predicate Stops(before: Ops, op: Op) {
    match op
    case QueryFailed(entry, _, at) => QH.Escalates(Queries(before, entry), at)
    case TopUpFailed(_, _) => true
    case EndReportFailed => true
    case _ => false
  }

  /** The history up to and including the first operation that stopped the checks. */
  function FirstStop(h: Ops): (r: Option<Ops>)
    ensures r.Some? ==> r.value.Then? && Stops(r.value.before, r.value.last)
  {
    if h.Start? then None
    else if FirstStop(h.before).Some? then FirstStop(h.before)
    else if Stops(h.before, h.last) then Some(h)
    else None
  }

  /** What the controller records as "had worked earlier in the session". */
  predicate HadWorked(before: Ops, op: Op) {
    match op
    case QueryFailed(entry, _, _) => Has(before, QueryAnswered(entry))
    case TopUpFailed(entry, _) => Has(before, ToppedUp(entry))
    case _ => false
  }

  /** What a failed operation would have been, had it succeeded. */
  function SuccessOf(op: Op): Op
    requires op.QueryFailed? || op.TopUpFailed? || op.EndReportFailed?
  {
    match op
    case QueryFailed(entry, _, _) => QueryAnswered(entry)
    case TopUpFailed(entry, _) => ToppedUp(entry)
    case EndReportFailed => EndReported
  }

  function ErrorOf(op: Op): Error
    requires op.QueryFailed? || op.TopUpFailed? || op.EndReportFailed?
  {
    match op
    case QueryFailed(entry, err, _) => Error.Gateway(entry, err)
    case TopUpFailed(entry, err) => Error.Gateway(entry, err)
    case EndReportFailed => ReportFailed
  }

  /** The reason to record for a session with this history, if failures end it. */
  function FirstError(h: Ops): Option<Error> {
    match FirstStop(h)
    case None => None
    case Some(stop) => Some(ErrorOf(stop.last))
  }

  function FirstStopHadWorked(h: Ops): Option<bool> {
    match FirstStop(h)
    case None => None
    case Some(stop) => Some(HadWorked(stop.before, stop.last))
  }

  /** What is returned: every side answered and nothing stopped the checks, or what did had worked before. */
  predicate Worked(h: Ops) {
    match FirstStop(h)
    case None => BothAnswered(h)
    case Some(stop) => HadWorked(stop.before, stop.last)
  }

  predicate BothAnswered(h: Ops) {
    Has(h, QueryAnswered(true)) && Has(h, QueryAnswered(false))
  }

  /** What `worked` promises: every side answered, and what stopped the checks had worked earlier. */
  predicate Promised(h: Ops) {
    BothAnswered(h) && (FirstStop(h).Some? ==> Has(FirstStop(h).value.before, SuccessOf(FirstStop(h).value.last)))
  }

  /** A query or top-up that had succeeded earlier stopped the checks, but a side never answered. */
  predicate SideSilent(h: Ops) {
    && FirstStop(h).Some? && !FirstStop(h).value.last.EndReportFailed?
    && Has(FirstStop(h).value.before, SuccessOf(FirstStop(h).value.last)) && !BothAnswered(h)
  }

  /** Both sides answered, and the checks were stopped by a report after one that had succeeded. */
  predicate LaterReportFailed(h: Ops) {
    && BothAnswered(h)
    && FirstStop(h).Some? && FirstStop(h).value.last.EndReportFailed? && Has(FirstStop(h).value.before, EndReported)
  }

  /** No recorded gateway error is a ticket missing on our side. */
  predicate GatewayErrorsOnly(h: Ops) {
    h.Then? ==>
      && GatewayErrorsOnly(h.before)
      && (h.last.QueryFailed? || h.last.TopUpFailed? ==> h.last.err.IsGatewayFault())
  }

  /** The first stop is in the history, and no shorter part of the history ends in a stop. */
  lemma {:induction false} FirstStopIsFirst(h: Ops, p: Ops)
    requires Prefix(p, h) && p.Then? && Stops(p.before, p.last)
    ensures FirstStop(h).Some? && Prefix(FirstStop(h).value, p) && Prefix(FirstStop(h).value, h)
    decreases h
  {
    if p == h {
      if FirstStop(h.before).Some? {
        FirstStopInside(h.before);
      }
    } else {
      FirstStopIsFirst(h.before, p);
    }
  }

  lemma {:induction false} FirstStopInside(h: Ops)
    requires FirstStop(h).Some?
    ensures Prefix(FirstStop(h).value, h)
  {
    if FirstStop(h.before).Some? { FirstStopInside(h.before); }
  }

  /** One operation more changes the first stop only if there was none. */
  lemma StopKept(h: Ops, op: Op)
    ensures FirstStop(h).Some? ==> FirstStop(Then(h, op)) == FirstStop(h)
    ensures FirstStop(h).None? ==> FirstStop(Then(h, op)) == if Stops(h, op) then Some(Then(h, op)) else None
    ensures Has(Then(h, op), SessionCancelled) <==> op.SessionCancelled? || Has(h, SessionCancelled)
  {
  }

  lemma {:induction false} AnsweredInQueries(h: Ops, entry: bool)
    ensures QH.EverAnswered(Queries(h, entry)) <==> Has(h, QueryAnswered(entry))
  {
    if h.Then? { AnsweredInQueries(h.before, entry); }
  }

  /** The history with every operation of the other side, and every one of no side, taken out. */
  function OfSide(h: Ops, entry: bool): Ops {
    if h.Start? then Start
    else if IsQuery(h.last, entry) || IsTopUp(h.last, entry) then Then(OfSide(h.before, entry), h.last)
    else OfSide(h.before, entry)
  }

  lemma {:induction false} QueriesOfSide(h: Ops, entry: bool)
    ensures Queries(OfSide(h, entry), entry) == Queries(h, entry)
  {
    if h.Then? { QueriesOfSide(h.before, entry); }
  }

  /**
   * What happens on the other side never matters for whether a query failure stops the checks: in
   * any two histories that agree on this side it does in both or in neither.
   */
  lemma SidesApart(h: Ops, h': Ops, entry: bool, err: SpecificGatewayError, at: Instant)
    requires OfSide(h, entry) == OfSide(h', entry) || Queries(h, entry) == Queries(h', entry)
    ensures Stops(h, QueryFailed(entry, err, at)) <==> Stops(h', QueryFailed(entry, err, at))
  {
    QueriesOfSide(h, entry);
    QueriesOfSide(h', entry);
  }

  /**
   * What is returned is more than promised exactly if a side never answered, and less exactly if
   * an earlier report is forgotten; so the two agree exactly if neither is the case.
   */
  lemma WorkedAsPromisedExactly(h: Ops)
    ensures Worked(h) && !Promised(h) <==> SideSilent(h)
    ensures !Worked(h) && Promised(h) <==> LaterReportFailed(h)
    ensures LaterReportFailed(h) ==> Has(h, EndReported) && Has(h, EndReportFailed)
  {
    if FirstStop(h).Some? {
      FirstStopInside(h);
      if LaterReportFailed(h) {
        HasInside(FirstStop(h).value, h, EndReported);
        HasInside(FirstStop(h).value, h, EndReportFailed);
      }
    }
  }

  lemma StillBothAnswered(h: Ops, h': Ops)
    requires Prefix(h, h') && BothAnswered(h)
    ensures BothAnswered(h')
  {
    HasInside(h, h', QueryAnswered(true));
    HasInside(h, h', QueryAnswered(false));
  }

  /** Only the queries of a side count for it, each as it ended. */
  lemma QueriesMean(h: Ops, op: Op, entry: bool)
    ensures Queries(Start, entry) == Start
    ensures Queries(Then(h, op), entry) ==
            if op == QueryAnswered(entry) then Then(Queries(h, entry), QH.Answered)
            else if op.QueryFailed? && op.entry == entry then Then(Queries(h, entry), QH.FailedAt(op.at))
            else Queries(h, entry)
  {
  }

  /**
   * A rejected top-up and a failed report always stop the checks, and besides them only a failed
   * query can: exactly if the side's query before it failed too, and the side has answered at some
   * time or its failures began a minute ago.
   */
  lemma StopsExactly(before: Ops, op: Op)
    ensures op.TopUpFailed? || op.EndReportFailed? ==> Stops(before, op)
    ensures op.QueryAnswered? || op.ToppedUp? || op.TicketMissing? || op.EndReported? || op.SessionCancelled? ==>
            !Stops(before, op)
    ensures op.QueryFailed? ==>
            var failing := QH.Streak(Queries(before, op.entry));
            (Stops(before, op) <==>
               failing != [] && (Has(before, QueryAnswered(op.entry)) || op.at >= failing[0] + 60))
  {
    if op.QueryFailed? { AnsweredInQueries(before, op.entry); }
  }

  /** The outcome in terms of the operation that stopped the checks, case by case. */
  lemma OutcomeMeans(h: Ops)
    ensures FirstStop(h).None? ==> FirstError(h).None?
    ensures FirstStop(h).None? ==>
            (Worked(h) <==> Has(h, QueryAnswered(true)) && Has(h, QueryAnswered(false))) && (Promised(h) <==> Worked(h))
    ensures FirstStop(h).Some? ==>
            var stop := FirstStop(h).value;
            var both := Has(h, QueryAnswered(true)) && Has(h, QueryAnswered(false));
            match stop.last
            case QueryFailed(entry, err, _) =>
              && FirstError(h) == Some(if entry then EntryGateway(err) else ExitGateway(err))
              && (Worked(h) <==> Has(stop.before, QueryAnswered(entry)))
              && (Promised(h) <==> both && Has(stop.before, QueryAnswered(entry)))
            case TopUpFailed(entry, err) =>
              && FirstError(h) == Some(if entry then EntryGateway(err) else ExitGateway(err))
              && (Worked(h) <==> Has(stop.before, ToppedUp(entry)))
              && (Promised(h) <==> both && Has(stop.before, ToppedUp(entry)))
            case EndReportFailed =>
              && FirstError(h) == Some(ReportFailed) && !Worked(h)
              && (Promised(h) <==> both && Has(stop.before, EndReported))
            case _ => false
  {
  }

  /** A session that ended for a gateway's failure blames the gateway of the failing side. */
  lemma {:induction false} RecordedGatewayIsCulpable(h: Ops)
    requires GatewayErrorsOnly(h) && FirstStop(h).Some?
    ensures var op := FirstStop(h).value.last;
            FirstError(h).value.EntryCulpable() == if op.EndReportFailed? then None else Some(op.entry)
  {
    if FirstStop(h.before).Some? { RecordedGatewayIsCulpable(h.before); }
  }
}

/** The bandwidth controller of one session, from its first check to its outcome. */
module BandwidthController {
  import opened Prelude
  import opened Histories
  import opened BandwidthErrors
  import opened BandwidthHistory
  import opened BandwidthSession
  import QH = QueryHealth
  import DR = DepletionRate
  import Machines

  const DEFAULT_CLIENT_RETRIES: nat := 1

  datatype Outcome = Outcome(failure: Option<Error>, worked: bool)

  class BandwidthController {
    const entryHealth: QH.QueryHealth
    const exitHealth: QH.QueryHealth
    const entryRate: DR.DepletionRate
    const exitRate: DR.DepletionRate
    const entryKind: ClientKind
    const exitKind: ClientKind
    const endSessionOnFailure: bool
    var shutdownCancelled: bool
    var stopCancelled: bool
    var failure: Option<Error>
    var failureHadWorked: Option<bool>
    var upgradeModeSeen: bool
    var period: Duration
    ghost var history: Ops

    ghost predicate HealthMatches(health: QH.QueryHealth, entry: bool)
      reads this`history, health
    {
      && health.Valid() && health.history == Queries(history, entry)
      && (health.toppedUp <==> Has(history, ToppedUp(entry)))
    }

    /** The first stop and nothing else decides what is recorded and what is cancelled. */
    ghost predicate OutcomeMatches(h: Ops)
      reads this`failure, this`failureHadWorked, this`shutdownCancelled, this`stopCancelled
    {
      && failureHadWorked == FirstStopHadWorked(h)
      && failure == (if endSessionOnFailure then FirstError(h) else None)
      && (shutdownCancelled <==> (endSessionOnFailure && FirstStop(h).Some?) || Has(h, SessionCancelled))
      && (stopCancelled <==> !endSessionOnFailure && FirstStop(h).Some?)
    }

    ghost predicate Valid()
      reads this, entryHealth, exitHealth
    {
      && entryHealth != exitHealth && entryRate != exitRate
      && HealthMatches(entryHealth, true)
      && HealthMatches(exitHealth, false)
      && OutcomeMatches(history)
      && GatewayErrorsOnly(history)
      && CheckPeriod(period)
      && (Has(history, EndReported) || Has(history, EndReportFailed) ==> upgradeModeSeen)
    }

    ghost function View(): Standing
      reads this`history, this`upgradeModeSeen, this`period, entryRate`available, exitRate`available
    {
      Standing(entryKind, exitKind, history, upgradeModeSeen, entryRate.available, exitRate.available, period)
    }

    constructor (entryKind: ClientKind, exitKind: ClientKind, endSessionOnFailure: bool)
      ensures Valid() && View() == Fresh(entryKind, exitKind)
      ensures this.endSessionOnFailure == endSessionOnFailure
      ensures fresh(entryHealth) && fresh(exitHealth) && fresh(entryRate) && fresh(exitRate)
    {
      entryHealth := new QH.QueryHealth();
      exitHealth := new QH.QueryHealth();
      entryRate := new DR.DepletionRate();
      exitRate := new DR.DepletionRate();
      this.entryKind, this.exitKind, this.endSessionOnFailure := entryKind, exitKind, endSessionOnFailure;
      shutdownCancelled, stopCancelled, failure, failureHadWorked := false, false, None, None;
      upgradeModeSeen, period := false, DR.DEFAULT_BANDWIDTH_CHECK;
      history := Start;
    }

    function KindOf(entry: bool): ClientKind {
      if entry then entryKind else exitKind
    }

    function HealthOf(entry: bool): QH.QueryHealth {
      if entry then entryHealth else exitHealth
    }

    /** The checks' own token is a child of the session's. */
    predicate StopRequested()
      reads this
    {
      stopCancelled || shutdownCancelled
    }

    /** Keeps the first reason; with failures tolerated, only the checks stop. */
    method Fail(err: Error, hadWorked: bool)
      modifies this`failure, this`failureHadWorked, this`shutdownCancelled, this`stopCancelled
      ensures failureHadWorked == if old(failureHadWorked).Some? then old(failureHadWorked) else Some(hadWorked)
      ensures failure == if endSessionOnFailure && old(failure).None? then Some(err) else old(failure)
      ensures shutdownCancelled == (old(shutdownCancelled) || endSessionOnFailure)
      ensures stopCancelled == (old(stopCancelled) || !endSessionOnFailure)
    {
      if failureHadWorked.None? {
        failureHadWorked := Some(hadWorked);
      }
      if endSessionOnFailure {
        if failure.None? {
          failure := Some(err);
        }
        shutdownCancelled := true;
      } else {
        stopCancelled := true;
      }
    }

    /** Brings the outcome up to date with one operation more, which stops the checks or not. */
    method Conclude(ghost h: Ops, ghost op: Op, stops: bool, err: Error, hadWorked: bool)
      requires OutcomeMatches(h) && stops == Stops(h, op) && !op.SessionCancelled?
      requires stops ==> err == ErrorOf(op) && hadWorked == HadWorked(h, op)
      modifies this`failure, this`failureHadWorked, this`shutdownCancelled, this`stopCancelled
      ensures OutcomeMatches(Then(h, op))
    {
      StopKept(h, op);
      if stops {
        Fail(err, hadWorked);
      }
    }

    /** Notes an operation that neither stops the checks nor is a query or a top-up. */
    ghost method Note(op: Op)
      requires Valid() && (op.TicketMissing? || op.EndReported?) && (op.EndReported? ==> upgradeModeSeen)
      modifies this`history
      ensures Valid() && history == Then(old(history), op)
    {
      StopKept(history, op);
      history := Then(history, op);
    }

    /** An operation other than a query stops the checks. */
    method FailOn(ghost op: Op, err: Error, hadWorked: bool)
      requires Valid() && (op.TopUpFailed? || op.EndReportFailed?) && ErrorOf(op) == err
      requires op.TopUpFailed? ==> op.err.IsGatewayFault()
      requires hadWorked == HadWorked(history, op) && (op.EndReportFailed? ==> upgradeModeSeen)
      modifies this`failure, this`failureHadWorked, this`shutdownCancelled, this`stopCancelled, this`history
      ensures Valid() && history == Then(old(history), op)
    {
      Conclude(history, op, true, err, hadWorked);
      history := Then(history, op);
    }

    method RecordFailure(entry: bool, err: SpecificGatewayError, now: Instant) returns (escalate: bool)
      requires entryHealth != exitHealth && HealthMatches(entryHealth, true) && HealthMatches(exitHealth, false)
      modifies HealthOf(entry), this`history
      ensures history == Then(old(history), QueryFailed(entry, err, now))
      ensures HealthMatches(entryHealth, true) && HealthMatches(exitHealth, false)
      ensures escalate == Stops(old(history), history.last)
      ensures HealthOf(entry).answered == Has(old(history), QueryAnswered(entry))
    {
      AnsweredInQueries(history, entry);
      escalate := HealthOf(entry).RecordFailure(now);
      history := Then(history, QueryFailed(entry, err, now));
    }

    method HandleBandwidthQueryError(entry: bool, err: SpecificGatewayError, now: Instant)
      requires Valid() && err.IsGatewayFault()
      modifies this`failure, this`failureHadWorked, this`shutdownCancelled, this`stopCancelled, this`history
      modifies HealthOf(entry)
      ensures Valid() && history == Then(old(history), QueryFailed(entry, err, now))
    {
      var escalate := RecordFailure(entry, err, now);
      var health := HealthOf(entry);
      Conclude(old(history), history.last, escalate, Error.Gateway(entry, err), health.answered);
    }

    method TopUpBandwidth(entry: bool, input: CheckInput) returns (dropped: bool)
      requires Valid()
      modifies this`failure, this`failureHadWorked, this`shutdownCancelled, this`stopCancelled, this`history
      modifies HealthOf(entry)`toppedUp
      ensures Valid()
      ensures dropped ==> history == old(history)
      ensures dropped <==> input.ticket.Dropped? || (input.ticket.value && input.topUp.Dropped?)
      ensures !dropped ==>
              history == Then(old(history), TopUpOp(entry, KindOf(entry), input.ticket.value,
                                                    if input.topUp.Ready? then input.topUp.value else Credited))
      ensures !dropped && !input.ticket.value ==> history.last == TicketMissing(entry)
      ensures !dropped && input.ticket.value ==>
              && (input.topUp.value == Credited ==> history.last == ToppedUp(entry))
              && (input.topUp.value != Credited ==>
                    history.last.TopUpFailed? && history.last.entry == entry && history.last.err.IsGatewayFault())
    {
      if input.ticket.Dropped? {
        return true;
      }
      if !input.ticket.value {
        Note(TicketMissing(entry));
        return false;
      }
      if input.topUp.Dropped? {
        return true;
      }
      var result := TopUpResult(KindOf(entry), input.topUp.value);
      match result {
        case Ok(_) =>
          ghost var op := ToppedUp(entry);
          history := Then(history, op);
          HealthOf(entry).toppedUp := true;
        case Err(err) =>
          FailOn(TopUpFailed(entry, err), Error.Gateway(entry, err), HealthOf(entry).toppedUp);
      }
      return false;
    }

    function RateOf(entry: bool): DR.DepletionRate {
      if entry then entryRate else exitRate
    }

    method RecordAnswer(entry: bool)
      requires Valid()
      modifies HealthOf(entry), this`history
      ensures Valid() && history == Then(old(history), QueryAnswered(entry))
    {
      StopKept(history, QueryAnswered(entry));
      HealthOf(entry).RecordSuccess();
      history := Then(history, QueryAnswered(entry));
    }

    /** Reports the end of upgrade mode; a report that fails ends the session. */
    method ReportEnd(report: bool)
      requires Valid() && upgradeModeSeen
      modifies this`failure, this`failureHadWorked, this`shutdownCancelled, this`stopCancelled, this`history
      ensures Valid() && history == Then(old(history), if report then EndReported else EndReportFailed)
    {
      if report {
        Note(EndReported);
      } else {
        FailOn(EndReportFailed, ReportFailed, false);
      }
    }

    /** Whether to go on and top up a gateway that is not in upgrade mode. */
    method LeaveUpgradeMode(upgradeMode: Option<bool>, input: CheckInput) returns (proceed: Await<bool>)
      requires Valid() && input.attestation.Ready?
      modifies this`failure, this`failureHadWorked, this`shutdownCancelled, this`stopCancelled, this`history
      ensures Valid()
      ensures var due := upgradeMode == Some(false) && input.attestation == Ready(true) && upgradeModeSeen;
              && (due && input.report.Ready? ==>
                    && proceed == Ready(input.report.value)
                    && history == Then(old(history), if input.report.value then EndReported else EndReportFailed))
              && (due && input.report.Dropped? ==> proceed.Dropped? && history == old(history))
              && (!due ==> proceed in {Dropped, Ready(true)} && history == old(history))
      ensures input.recheck.Ready? && input.report.Ready? ==> proceed.Ready?
    {
      if upgradeMode == Some(false) && input.attestation.value {
        if !upgradeModeSeen {
          return if input.recheck.Dropped? then Dropped else Ready(true);
        }
        if input.report.Dropped? {
          return Dropped;
        }
        ReportEnd(input.report.value);
        return input.report;
      }
      return Ready(true);
    }

    /**
     * A gateway in upgrade mode is left alone; any other is topped up, after the end of upgrade
     * mode was reported if that is due. A report that fails ends the session instead.
     */
    method RespondToDepletion(entry: bool, upgradeMode: Option<bool>, input: CheckInput) returns (dropped: bool)
      requires Valid()
      modifies this`failure, this`failureHadWorked, this`shutdownCancelled, this`stopCancelled, this`history
      modifies this`upgradeModeSeen, HealthOf(entry)`toppedUp
      ensures Valid() && NoQuerySince(old(history), history)
      ensures upgradeMode == Some(true) ==> history == old(history)
      ensures !dropped ==>
              history == AfterDepletion(old(history), old(upgradeModeSeen), entry, KindOf(entry), upgradeMode, input)
      ensures !dropped && upgradeMode != Some(true) ==>
              || input.ticket.Ready?
              || (old(ReportDue(upgradeModeSeen, upgradeMode, input)) && input.report == Ready(false))
      ensures AllReady(input) ==> !dropped
      ensures upgradeModeSeen == (old(upgradeModeSeen) || (!dropped && upgradeMode == Some(true)))
    {
      if input.attestation.Dropped? {
        return true;
      }
      if upgradeMode == Some(true) {
        upgradeModeSeen := true;
        return false;
      }
      var proceed := LeaveUpgradeMode(upgradeMode, input);
      if proceed.Dropped? {
        return true;
      }
      if !proceed.value {
        return false;
      }
      dropped := TopUpBandwidth(entry, input);
    }

    /** An answered query yields the next period, unless the bandwidth left calls for a top-up. */
    method HandleBandwidthQuery(entry: bool, available: Available, input: CheckInput)
      returns (r: Await<Option<Duration>>)
      requires Valid()
      modifies this, HealthOf(entry), RateOf(entry)
      ensures Valid() && period == old(period)
      ensures Prefix(Then(old(history), QueryAnswered(entry)), history)
      ensures QueryCount(history, entry) == QueryCount(old(history), entry) + 1
      ensures QueryCount(history, !entry) == QueryCount(old(history), !entry)
      ensures RateOf(entry).available == AsU64(available.bytes)
      ensures AllReady(input) ==> r.Ready?
      ensures available.upgradeMode != Some(true) ==> upgradeModeSeen == old(upgradeModeSeen)
      ensures var next := DR.NextPeriod(old(RateOf(entry).available), AsU64(available.bytes), period);
              var h := Then(old(history), QueryAnswered(entry));
              && (next.Some? ==> r == Ready(next) && history == h && upgradeModeSeen == old(upgradeModeSeen))
              && (next.None? ==> r.Dropped? || r.value.None?)
              && (next.None? && available.upgradeMode == Some(true) ==> history == h)
              && (next.None? && r.Ready? ==>
                    && history == AfterDepletion(h, old(upgradeModeSeen), entry, KindOf(entry),
                                                 available.upgradeMode, input)
                    && upgradeModeSeen == (old(upgradeModeSeen) || available.upgradeMode == Some(true)))
    {
      RecordAnswer(entry);
      var interval := RateOf(entry).UpdateDynamicCheckInterval(period, AsU64(available.bytes));
      if interval.Err? {
        return Ready(None);
      }
      if interval.value.Some? {
        return Ready(interval.value);
      }
      var dropped := RespondToDepletion(entry, available.upgradeMode, input);
      NoQuerySinceMeans(Then(old(history), QueryAnswered(entry)), history);
      return if dropped then Dropped else Ready(None);
    }

    /** A completed check queries its side once, and asks for the period the answer calls for. */
    method CheckBandwidth(entry: bool, input: CheckInput) returns (r: Await<Option<Duration>>)
      requires Valid()
      modifies this, HealthOf(entry), RateOf(entry)
      ensures Valid() && period == old(period) && Prefix(old(history), history)
      ensures r.Ready? ==>
              && input.queries.Ready?
              && QueryCount(history, entry) == QueryCount(old(history), entry) + 1
              && QueryCount(history, !entry) == QueryCount(old(history), !entry)
              && var result := QueryResultOfTwo(KindOf(entry), input.queries.value);
                 r.value == SidePeriod(old(RateOf(entry).available), period, result)
      ensures r.Ready? ==> View() == AfterSide(old(View()), entry, input)
      ensures AllReady(input) ==> r.Ready?
      ensures input.queries.Dropped? ==> r.Dropped? && View() == old(View())
      ensures upgradeModeSeen ==> old(upgradeModeSeen) || MentionsUpgradeMode(KindOf(entry), input)
    {
      if input.queries.Dropped? {
        return Dropped;
      }
      var answers := [input.queries.value.0, input.queries.value.1];
      var result, attempts := QueryWithRetries(KindOf(entry), answers, DEFAULT_CLIENT_RETRIES);
      assert result == QueryResultOfTwo(KindOf(entry), input.queries.value) by {
        assert attempts == 2 ==> QueryResult(KindOf(entry), answers[0]) == Err(GatewayTimeout);
      }
      match result {
        case Ok(available) =>
          r := HandleBandwidthQuery(entry, available, input);
          PrefixTrans(old(history), Then(old(history), QueryAnswered(entry)), history);
        case Err(err) =>
          HandleBandwidthQueryError(entry, err, input.now);
          r := Ready(None);
      }
    }

    /** What the entry's and the exit's check ask for, in that order; a dropped one ends both. */
    method CheckSides(entry: CheckInput, exit: CheckInput)
      returns (r: Await<(Option<Duration>, Option<Duration>)>)
      requires Valid()
      modifies this, entryHealth, exitHealth, entryRate, exitRate
      ensures Valid() && period == old(period) && Prefix(old(history), history)
      ensures r.Ready? ==>
              && entry.queries.Ready? && exit.queries.Ready?
              && var e := QueryResultOfTwo(entryKind, entry.queries.value);
                 var x := QueryResultOfTwo(exitKind, exit.queries.value);
                 && r.value.0 == SidePeriod(old(entryRate.available), period, e)
                 && r.value.1 == SidePeriod(old(exitRate.available), period, x)
      ensures r.Ready? ==>
              && (forall e :: QueryCount(history, e) == QueryCount(old(history), e) + 1)
              && View() == AfterBoth(old(View()), entry, exit)
              && (r.value.0.Some? ==> CheckPeriod(r.value.0.value))
              && (r.value.1.Some? ==> CheckPeriod(r.value.1.value))
      ensures AllReady(entry) && AllReady(exit) ==> r.Ready?
      ensures AllReady(entry) && exit.queries.Dropped? ==>
              r.Dropped? && View() == AfterSide(old(View()), true, entry)
      ensures upgradeModeSeen ==>
              old(upgradeModeSeen) || MentionsUpgradeMode(entryKind, entry) || MentionsUpgradeMode(exitKind, exit)
    {
      var first := CheckBandwidth(true, entry);
      if first.Dropped? {
        return Dropped;
      }
      ghost var middle := history;
      var second := CheckBandwidth(false, exit);
      PrefixTrans(old(history), middle, history);
      return if second.Dropped? then Dropped else Ready((first.value, second.value));
    }

    /** Entry first, then exit; the shorter of the two periods wins. */
    method CheckBoth(entry: CheckInput, exit: CheckInput) returns (r: Await<Option<Duration>>)
      requires Valid()
      modifies this, entryHealth, exitHealth, entryRate, exitRate
      ensures Valid() && period == old(period) && Prefix(old(history), history)
      ensures r.Ready? ==>
              && entry.queries.Ready? && exit.queries.Ready?
              && r.value == AskedPeriod(old(View()), entry, exit)
              && (forall e :: QueryCount(history, e) == QueryCount(old(history), e) + 1)
      ensures r.Ready? ==>
              var e := QueryResultOfTwo(entryKind, entry.queries.value);
              var x := QueryResultOfTwo(exitKind, exit.queries.value);
              var asks := if e.Ok? then DR.NextPeriod(old(entryRate.available), AsU64(e.value.bytes), period) else None;
              var asks' := if x.Ok? then DR.NextPeriod(old(exitRate.available), AsU64(x.value.bytes), period) else None;
              && (r.value.None? <==> asks.None? && asks'.None?)
              && (r.value.Some? ==> r.value == asks || r.value == asks')
              && (asks.Some? ==> r.value.value <= asks.value) && (asks'.Some? ==> r.value.value <= asks'.value)
      ensures r.Ready? ==> View() == AfterBoth(old(View()), entry, exit)
      ensures r.Ready? && r.value.Some? ==> CheckPeriod(r.value.value)
      ensures AllReady(entry) && AllReady(exit) ==> r.Ready?
      ensures AllReady(entry) && exit.queries.Dropped? ==>
              r.Dropped? && View() == AfterSide(old(View()), true, entry)
      ensures upgradeModeSeen ==>
              old(upgradeModeSeen) || MentionsUpgradeMode(entryKind, entry) || MentionsUpgradeMode(exitKind, exit)
    {
      var sides := CheckSides(entry, exit);
      if sides.Dropped? {
        return Dropped;
      }
      match sides.value {
        case (Some(d1), Some(d2)) => r := Ready(Some(Min(d1, d2)));
        case (None, d2) => r := Ready(d2);
        case (d1, None) => r := Ready(d1);
      }
    }

    /** The session is cancelled from outside. */
    method CancelSession()
      requires Valid()
      modifies this`shutdownCancelled, this`history
      ensures Valid() && history == Then(old(history), SessionCancelled) && shutdownCancelled
    {
      StopKept(history, SessionCancelled);
      shutdownCancelled := true;
      history := Then(history, SessionCancelled);
    }

    /** A check is dropped only once a token was cancelled, by us or from outside. */
    method Abandon()
      requires Valid()
      modifies this`shutdownCancelled, this`history
      ensures Valid() && StopRequested() && Prefix(old(history), history)
      ensures FirstStop(old(history)).Some? ==> history == old(history)
    {
      if !StopRequested() {
        CancelSession();
      }
    }

    predicate MentionsUpgrade(tick: Tick) {
      MentionsUpgradeMode(entryKind, tick.entry) || MentionsUpgradeMode(exitKind, tick.exit)
    }

    /** The interval to the next turn is replaced, if a check asked for another. */
    method Switch(next: Option<Duration>)
      requires Valid() && (next.Some? ==> CheckPeriod(next.value))
      modifies this`period
      ensures Valid() && period == if next.Some? then next.value else old(period)
    {
      if next.Some? {
        period := next.value;
      }
    }

    /** One turn of the run loop; `done` if it was the last. */
    method Turn(tick: Tick) returns (done: bool)
      requires Valid()
      modifies this, entryHealth, exitHealth, entryRate, exitRate
      ensures Valid() && Prefix(old(history), history)
      ensures tick.cancelled ==> done && history == Then(old(history), SessionCancelled)
      ensures done ==> StopRequested()
      ensures !done ==>
              && tick.entry.queries.Ready? && tick.exit.queries.Ready?
              && (forall e :: QueryCount(history, e) == QueryCount(old(history), e) + 1)
              && View() == AfterTurn(old(View()), tick)
      ensures !tick.cancelled && AllReady(tick.entry) && AllReady(tick.exit) ==> !done
      ensures Next(old(View()), tick).Some? ==> View() == Next(old(View()), tick).value
      ensures upgradeModeSeen ==> old(upgradeModeSeen) || MentionsUpgrade(tick)
    {
      if tick.cancelled {
        CancelSession();
        return true;
      }
      var next := CheckBoth(tick.entry, tick.exit);
      if next.Dropped? {
        ghost var before := history;
        Abandon();
        PrefixTrans(old(history), before, history);
        return true;
      }
      Switch(next.value);
      return false;
    }

    method Conclusion() returns (outcome: Outcome)
      requires Valid()
      ensures outcome.worked == Worked(history)
      ensures outcome.failure == if endSessionOnFailure then FirstError(history) else None
      ensures outcome.worked == Promised(history) <==> !SideSilent(history) && !LaterReportFailed(history)
      ensures LaterReportFailed(history) ==> upgradeModeSeen
    {
      WorkedAsPromisedExactly(history);
      AnsweredInQueries(history, true);
      AnsweredInQueries(history, false);
      var answered := entryHealth.answered && exitHealth.answered;
      outcome := Outcome(failure, if failureHadWorked.Some? then failureHadWorked.value else answered);
    }

    /** No await of the turn is dropped, and both gateways answer. */
    predicate BothAnswer(tick: Tick) {
      FirstTurn(tick) && Answers(entryKind, tick.entry) && Answers(exitKind, tick.exit)
    }

    /** A turn, with what both gateways answered on record. */
    method RecordedTurn(tick: Tick) returns (done: bool)
      requires Valid()
      modifies this, entryHealth, exitHealth, entryRate, exitRate
      ensures Valid() && Prefix(old(history), history) && (done ==> StopRequested())
      ensures !done ==> forall e :: QueryCount(history, e) == QueryCount(old(history), e) + 1
      ensures Next(old(View()), tick).Some? ==> View() == Next(old(View()), tick).value
      ensures upgradeModeSeen ==> old(upgradeModeSeen) || MentionsUpgrade(tick)
      ensures BothAnswer(tick) ==> BothAnswered(history)
    {
      done := Turn(tick);
      if BothAnswer(tick) {
        BothRecorded(old(View()), tick.entry, tick.exit);
      }
    }

    method CheckUntilStopped(ticks: seq<Tick>)
      requires Valid()
      modifies this, entryHealth, exitHealth, entryRate, exitRate
      ensures Valid() && Prefix(old(history), history)
      ensures StopRequested() || forall e :: QueryCount(history, e) == QueryCount(old(history), e) + |ticks|
      ensures upgradeModeSeen ==> old(upgradeModeSeen) || exists i :: 0 <= i < |ticks| && MentionsUpgrade(ticks[i])
      ensures forall s' :: Machines.Run(Next, old(View()), ticks, s') ==> View() == s'
      ensures old(!StopRequested()) && |ticks| > 0 && BothAnswer(ticks[0]) ==> BothAnswered(history)
    {
      var i, done := 0, false;
      while i < |ticks| && !done && !StopRequested()
        invariant 0 <= i <= |ticks| && (done ==> StopRequested())
        invariant Valid() && Prefix(old(history), history)
        invariant StopRequested() || forall e :: QueryCount(history, e) == QueryCount(old(history), e) + i
        invariant upgradeModeSeen ==> old(upgradeModeSeen) || exists k :: 0 <= k < i && MentionsUpgrade(ticks[k])
        invariant LeadsTo(old(View()), ticks, View(), ticks[i..])
        invariant i == 0 ==> StopRequested() == old(StopRequested())
        invariant i > 0 && BothAnswer(ticks[0]) ==> BothAnswered(history)
      {
        ghost var before, at := history, View();
        done := RecordedTurn(ticks[i]);
        PrefixTrans(old(history), before, history);
        LeadsOn(old(View()), ticks, at, i, View());
        if i > 0 && BothAnswer(ticks[0]) {
          StillBothAnswered(before, history);
        }
        i := i + 1;
      }
    }

    /**
     * Runs until stopped, for every sequence of turns. The outcome is read off the operations of
     * the session: the first stop gives the reason and whether the checks worked; tolerated
     * failures give no reason and never cancel the session. The period is 5 s or 30 s throughout.
     * `worked` is as promised exactly unless a side never answered or an earlier report is
     * forgotten; so it is if both sides answer in the first turn and no answer ever mentions
     * upgrade mode. A run of turns as in `Next` ends where that says.
     */
    method Run(ticks: seq<Tick>) returns (outcome: Outcome)
      requires Valid()
      modifies this, entryHealth, exitHealth, entryRate, exitRate
      ensures Valid() && CheckPeriod(period) && Prefix(old(history), history)
      ensures outcome.worked == Worked(history)
      ensures outcome.failure == if endSessionOnFailure then FirstError(history) else None
      ensures !endSessionOnFailure && shutdownCancelled ==> Has(history, SessionCancelled)
      ensures StopRequested() || forall e :: QueryCount(history, e) == QueryCount(old(history), e) + |ticks|
      ensures outcome.worked == Promised(history) <==> !SideSilent(history) && !LaterReportFailed(history)
      ensures LaterReportFailed(history) ==> upgradeModeSeen
      ensures old(BothAnswered(history)) ==> !SideSilent(history)
      ensures old(!StopRequested()) && |ticks| > 0 && BothAnswer(ticks[0]) ==> !SideSilent(history)
      ensures forall s' :: Machines.Run(Next, old(View()), ticks, s') ==> View() == s'
      ensures upgradeModeSeen ==> old(upgradeModeSeen) || exists i :: 0 <= i < |ticks| && MentionsUpgrade(ticks[i])
    {
      CheckUntilStopped(ticks);
      outcome := Conclusion();
      if old(BothAnswered(history)) {
        StillBothAnswered(old(history), history);
      }
    }
  }

  /** A reason the controller recorded that is a gateway error names the gateway of the failing side. */
  lemma RecordedFailureNamesSide(c: BandwidthController)
    requires c.Valid() && c.failure.Some?
    ensures FirstStop(c.history).Some?
    ensures var op := FirstStop(c.history).value.last;
            c.failure.value.EntryCulpable() == if op.EndReportFailed? then None else Some(op.entry)
  {
    RecordedGatewayIsCulpable(c.history);
  }

  /** A session of the controller whose outcome is less than promised. */
  method ReportForgotten(kind: ClientKind, endSessionOnFailure: bool) returns (c: BandwidthController, outcome: Outcome)
    ensures fresh(c) && c.Valid() && c.history == FORGOTTEN
    ensures !outcome.worked && Promised(c.history)
  {
    ReportingSession(kind);
    c := new BandwidthController(kind, kind, endSessionOnFailure);
    outcome := c.Run(REPORTING);
  }

  /**
   * Sessions of the controller whose outcome is more than promised: every first turn in which a
   * side does not answer has such a continuation.
   */
  method SilentSideWorked(entryKind: ClientKind, exitKind: ClientKind, endSessionOnFailure: bool, first: Tick)
    returns (c: BandwidthController, outcome: Outcome)
    requires FirstTurn(first) && !(Answers(entryKind, first.entry) && Answers(exitKind, first.exit))
    ensures fresh(c) && c.Valid()
    ensures outcome.worked && !BothAnswered(c.history)
  {
    ghost var s' := MisleadingSession(entryKind, exitKind, first);
    WorkedAsPromisedExactly(s'.history);
    c := new BandwidthController(entryKind, exitKind, endSessionOnFailure);
    outcome := c.Run([first] + Misleading(entryKind, exitKind, first));
  }
}
