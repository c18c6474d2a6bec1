/** The account states the controller enters, and the validation that stands after them. */
module AccountValidation {
  import opened Prelude
  import opened Histories

  datatype AccountState =
    | Offline
    | Syncing
    | LoggedOut
    | ReadyToConnect
    | Decentralised
    | UpgradeMode
    | Error(reason: nat)
    | RequestingZkNyms

  datatype Move = Boot(state: AccountState) | Enter(state: AccountState, at: Instant) | DropValidation

  /** What the controller and its handlers did, from the boot on. */
  type Moves = History<Move>

  function StateOf(h: Moves): AccountState {
    if h.Start? then Offline
    else if h.last.DropValidation? then StateOf(h.before)
    else h.last.state
  }

  function NextValidation(
    state: AccountState, wasReady: bool, lastValidated: Option<Instant>, now: Instant): Option<Instant>
  {
    match state
    case ReadyToConnect => if wasReady then lastValidated else Some(now)
    case Syncing => lastValidated
    case RequestingZkNyms => lastValidated
    case _ => None
  }

  function ValidationOf(h: Moves): Option<Instant> {
    if h.Start? || !h.last.Enter? then None
    else NextValidation(h.last.state, StateOf(h.before).ReadyToConnect?, ValidationOf(h.before), h.last.at)
  }

  function AsSeq(h: Moves): seq<Move> {
    if h.Start? then [] else AsSeq(h.before) + [h.last]
  }

  /** The state after the first `i` moves: that of the last of them that enters one. */
  function StateAfter(ms: seq<Move>, i: nat): AccountState
    requires i <= |ms|
  {
    if i == 0 then Offline
    else if ms[i - 1].DropValidation? then StateAfter(ms, i - 1)
    else ms[i - 1].state
  }

  /** The account became ready with move `i`, at `t`, and was only re-checked since. */
  predicate ReadySince(ms: seq<Move>, i: nat, t: Instant) {
    && i < |ms| && ms[i] == Enter(ReadyToConnect, t) && StateAfter(ms, i) != ReadyToConnect
    && forall k :: i < k < |ms| ==>
         ms[k].Enter?
         && (ms[k].state == Syncing || ms[k].state == RequestingZkNyms
             || (ms[k].state == ReadyToConnect && StateAfter(ms, k) == ReadyToConnect))
  }

  /** The account became ready at `t`, and was only re-checked since. */
  ghost predicate ReadyAtAndRecheckedSince(h: Moves, t: Instant) {
    exists i: nat :: ReadySince(AsSeq(h), i, t)
  }

  lemma {:induction false} PrefixStates(ms: seq<Move>, more: seq<Move>, i: nat)
    requires i <= |ms|
    ensures StateAfter(ms + more, i) == StateAfter(ms, i)
  {
    if i > 0 { PrefixStates(ms, more, i - 1); }
  }

  lemma {:induction false} StateInSeq(h: Moves)
    ensures StateOf(h) == StateAfter(AsSeq(h), |AsSeq(h)|)
  {
    if h.Then? {
      StateInSeq(h.before);
      PrefixStates(AsSeq(h.before), [h.last], |AsSeq(h.before)|);
    }
  }

  lemma ReadySinceGrows(ms: seq<Move>, m: Move, i: nat, t: Instant)
    requires i < |ms|
    ensures ReadySince(ms + [m], i, t) <==>
            && ReadySince(ms, i, t) && m.Enter?
            && (m.state == Syncing || m.state == RequestingZkNyms
                || (m.state == ReadyToConnect && StateAfter(ms, |ms|) == ReadyToConnect))
  {
    var ms' := ms + [m];
    forall k | 0 <= k <= |ms| ensures StateAfter(ms', k) == StateAfter(ms, k) { PrefixStates(ms, [m], k); }
    assert ms'[|ms|] == m && forall k :: 0 <= k < |ms| ==> ms'[k] == ms[k];
  }

  lemma {:induction false} ValidatedSince(h: Moves, t: Instant)
    ensures ValidationOf(h) == Some(t) <==> ReadyAtAndRecheckedSince(h, t)
  {
    if h.Then? {
      ValidatedSince(h.before, t);
      StateInSeq(h.before);
      var ms, m := AsSeq(h.before), h.last;
      PrefixStates(ms, [m], |ms|);
      assert AsSeq(h) == ms + [m] && (ms + [m])[|ms|] == m;
      if ValidationOf(h) == Some(t) {
        if m.state == ReadyToConnect && StateOf(h.before) != ReadyToConnect {
          assert ReadySince(AsSeq(h), |ms|, t);
        } else {
          var i: nat :| ReadySince(ms, i, t);
          ReadySinceGrows(ms, m, i, t);
          assert ReadySince(AsSeq(h), i, t);
        }
      }
      if exists i: nat :: ReadySince(AsSeq(h), i, t) {
        var i: nat :| ReadySince(AsSeq(h), i, t);
        if i < |ms| { ReadySinceGrows(ms, m, i, t); }
      }
    }
  }

  /**
   * A validation stands exactly if some move made the account ready at that time, which it was not
   * before, and every move since enters a re-check, or the ready state from the ready state.
   */
  lemma ValidationMeaning(h: Moves, t: Instant)
    ensures ValidationOf(h) == Some(t) <==> ReadyAtAndRecheckedSince(h, t)
    ensures ValidationOf(h) == Some(t) <==>
            var ms := AsSeq(h);
            exists i: nat ::
              && i < |ms| && ms[i] == Enter(ReadyToConnect, t) && StateAfter(ms, i) != ReadyToConnect
              && forall k :: i < k < |ms| ==>
                   ms[k].Enter?
                   && (ms[k].state == Syncing || ms[k].state == RequestingZkNyms
                       || (ms[k].state == ReadyToConnect && StateAfter(ms, k) == ReadyToConnect))
  {
    ValidatedSince(h, t);
    var ms := AsSeq(h);
    if ValidationOf(h) == Some(t) {
      var i: nat :| ReadySince(ms, i, t);
      assert ms[i] == Enter(ReadyToConnect, t);
    }
    forall i: nat
      | && i < |ms| && ms[i] == Enter(ReadyToConnect, t) && StateAfter(ms, i) != ReadyToConnect
        && forall k :: i < k < |ms| ==>
             ms[k].Enter?
             && (ms[k].state == Syncing || ms[k].state == RequestingZkNyms
                 || (ms[k].state == ReadyToConnect && StateAfter(ms, k) == ReadyToConnect))
      ensures ReadyAtAndRecheckedSince(h, t)
    {
      assert ReadySince(ms, i, t);
    }
  }

  /** With a validation standing, the account is ready or being re-checked. */
  lemma ValidatedStates(h: Moves)
    requires ValidationOf(h).Some?
    ensures StateOf(h).ReadyToConnect? || StateOf(h).Syncing? || StateOf(h).RequestingZkNyms?
  {
  }
}

/**
 * The controller publishes a validation and then the state, each on its own channel, while a
 * connect waits on both. Every access to a channel is one step.
 */
module AccountPublication {
  import opened Prelude
  import Machines
  import opened Histories
  import opened AccountValidation

  const ACCOUNT_VALIDATION_FRESHNESS: Duration := 30 * 60

  datatype ConnectError = IsOffline | NoAccountStored | ErrorState(reason: nat) | ChannelClosed

  /** A published value with the number of sends before it. */
  datatype Channel<T> = Channel(value: T, version: nat)

  /** `moves` is what the controller had done when the state read was the current one. */
  datatype Reading = Reading(state: AccountState, version: nat, moves: Moves)

  datatype Answer =
    | AlreadyUsable(reading: Reading)
    | RecentlyValidated(reading: Reading, validated: Instant, now: Instant, moves: Moves)
    | Refused(reading: Reading, error: ConnectError)
    | Closed

  /**
   * The loop of a waiting connect: about to read the state, holding it, waiting for a change, or
   * back. One that waits read the validation at `now`, when the controller had done `moves`.
   */
  datatype Waiter =
    | Looking
    | Holding(reading: Reading)
    | Waiting(reading: Reading, moves: Moves, now: Instant)
    | Returned(answer: Answer)

  /** `moves` runs ahead of the state channel between the two publishes of the controller. */
  datatype State = State(
    moves: Moves,
    published: Moves,
    state: Channel<AccountState>,
    validation: Option<Instant>,
    closed: bool,
    waiter: Waiter,
    seen: nat)

  datatype Step =
    | PublishValidation(state: AccountState, now: Instant)
    | PublishState
    | HandlerDrops
    | CloseChannel
    | ReadState
    | ReadValidation(now: Instant)
    | StateChanged
    | SeesClosed
    | ConnectAgain(seen: nat)

  predicate Rechecking(s: AccountState) {
    s.Syncing? || s.RequestingZkNyms?
  }

  function AnswerTo(r: Reading): Option<Answer> {
    match r.state
    case Offline => Some(Refused(r, IsOffline))
    case LoggedOut => Some(Refused(r, NoAccountStored))
    case Error(reason) => Some(Refused(r, ErrorState(reason)))
    case Syncing => None
    case RequestingZkNyms => None
    case _ => Some(AlreadyUsable(r))
  }

  predicate IsRecent(validation: Option<Instant>, now: Instant) {
    validation.Some? && (if validation.value <= now then now - validation.value else 0) < ACCOUNT_VALIDATION_FRESHNESS
  }

  predicate Publishing(s: State) {
    s.published != s.moves
  }

  predicate Init(s: State) {
    && s.moves == Then(Start, Boot(s.state.value)) && s.published == s.moves && s.state.version == 0
    && s.validation.None? && !s.closed && s.waiter.Looking? && s.seen == 0
  }

  predicate Enabled(s: State, step: Step) {
    match step
    case PublishValidation(_, _) => !Publishing(s) && !s.closed
    case PublishState => Publishing(s)
    case HandlerDrops => !Publishing(s) && !s.closed
    case CloseChannel => !Publishing(s) && !s.closed
    case ReadState => s.waiter.Looking?
    case ReadValidation(_) => s.waiter.Holding?
    case StateChanged => s.waiter.Waiting? && s.seen != s.state.version
    case SeesClosed => s.waiter.Waiting? && s.seen == s.state.version && s.closed
    case ConnectAgain(seen) => (s.waiter.Returned? || s.waiter.Waiting?) && seen <= s.state.version
  }

  function Apply(s: State, step: Step): State
    requires Enabled(s, step)
  {
    match step
    case PublishValidation(state, now) =>
      s.(moves := Then(s.moves, Enter(state, now)),
         validation := NextValidation(state, s.state.value.ReadyToConnect?, s.validation, now))
    case PublishState =>
      s.(published := s.moves, state := Channel(StateOf(s.moves), s.state.version + 1))
    case HandlerDrops =>
      s.(moves := Then(s.moves, DropValidation), published := Then(s.published, DropValidation), validation := None)
    case CloseChannel => s.(closed := true)
    case ReadState =>
      var r := Reading(s.state.value, s.state.version, s.published);
      s.(waiter := if AnswerTo(r).Some? then Returned(AnswerTo(r).value) else Holding(r))
    case ReadValidation(now) =>
      var r := s.waiter.reading;
      s.(waiter := if IsRecent(s.validation, now)
                   then Returned(RecentlyValidated(r, s.validation.value, now, s.moves))
                   else Waiting(r, s.moves, now))
    case StateChanged => s.(seen := s.state.version, waiter := Looking)
    case SeesClosed => s.(waiter := Returned(Closed))
    case ConnectAgain(seen) => s.(waiter := Looking, seen := seen)
  }

  function Next(s: State, step: Step): Option<State> {
    if Enabled(s, step) then Some(Apply(s, step)) else None
  }

  /** `s'` is reached from `s` by the interleaving `steps`. */
  predicate Run(s: State, steps: seq<Step>, s': State) {
    Machines.Run(Next, s, steps, s')
  }

  ghost predicate Reachable(s: State) {
    exists s0, steps :: Init(s0) && Run(s0, steps, s)
  }

  // ---- What every step keeps ----

  predicate ChannelsMatch(s: State) {
    && s.validation == ValidationOf(s.moves)
    && s.state.value == StateOf(s.published)
    && (Publishing(s) ==> s.moves.Then? && s.moves.last.Enter? && s.moves.before == s.published)
  }

  /** The state read is the one `version` names, and everything done by then is still part of the record. */
  predicate ReadingMatches(s: State, r: Reading) {
    && r.version <= s.state.version
    && Prefix(r.moves, s.moves)
    && StateOf(r.moves) == r.state
    && (r.version == s.state.version ==> r.state == s.state.value)
  }

  predicate AnswerSound(s: State, a: Answer) {
    match a
    case AlreadyUsable(r) =>
      StateOf(r.moves) == r.state && (r.state.ReadyToConnect? || r.state.Decentralised? || r.state.UpgradeMode?)
    case RecentlyValidated(r, validated, now, moves) =>
      && StateOf(r.moves) == r.state && Rechecking(r.state)
      && Prefix(r.moves, moves) && Prefix(moves, s.moves)
      && ValidationOf(moves) == Some(validated) && now < validated + ACCOUNT_VALIDATION_FRESHNESS
    case Refused(r, error) =>
      && StateOf(r.moves) == r.state
      && (error == IsOffline <==> r.state.Offline?) && (error == NoAccountStored <==> r.state.LoggedOut?)
      && (error.ErrorState? ==> r.state == Error(error.reason)) && !error.ChannelClosed?
    case Closed => s.closed
  }

  predicate WaiterMatches(s: State) {
    && s.seen <= s.state.version
    && match s.waiter
       case Looking => true
       case Holding(r) => ReadingMatches(s, r) && s.seen <= r.version && Rechecking(r.state)
       case Waiting(r, moves, now) =>
         && ReadingMatches(s, r) && s.seen <= r.version && Rechecking(r.state)
         && Prefix(r.moves, moves) && Prefix(moves, s.moves) && !IsRecent(ValidationOf(moves), now)
       case Returned(a) => AnswerSound(s, a)
  }

  predicate Inv(s: State) {
    ChannelsMatch(s) && WaiterMatches(s)
  }

  lemma StepKeepsChannels(s: State, step: Step)
    requires ChannelsMatch(s) && Enabled(s, step)
    ensures ChannelsMatch(Apply(s, step))
  {
  }

  lemma StepExtendsMoves(s: State, step: Step)
    requires Enabled(s, step)
    ensures Prefix(s.moves, Apply(s, step).moves)
  {
    assert Prefix(s.moves, s.moves);
  }

  lemma StepKeepsWaiter(s: State, step: Step)
    requires Inv(s) && Enabled(s, step)
    ensures WaiterMatches(Apply(s, step))
  {
    StepExtendsMoves(s, step);
    StepKeepsChannels(s, step);
    var s' := Apply(s, step);
    match s.waiter
    case Holding(r) => PrefixTrans(r.moves, s.moves, s'.moves);
    case Waiting(r, moves, _) =>
      PrefixTrans(r.moves, s.moves, s'.moves);
      PrefixTrans(moves, s.moves, s'.moves);
    case Returned(RecentlyValidated(_, _, _, moves)) => PrefixTrans(moves, s.moves, s'.moves);
    case _ =>
      if Publishing(s) { assert Prefix(s.published, s.moves); }
  }

  lemma RunKeepsInv(s: State, steps: seq<Step>, s': State)
    requires Inv(s) && Run(s, steps, s')
    ensures Inv(s')
  {
    forall x, step | Inv(x) && Next(x, step).Some? ensures Inv(Next(x, step).value) {
      StepKeepsChannels(x, step);
      StepKeepsWaiter(x, step);
    }
    Machines.RunKeeps(Next, Inv, s, steps, s');
  }

  lemma ReachableInv(s: State)
    requires Reachable(s)
    ensures Inv(s)
  {
    var s0, steps :| Init(s0) && Run(s0, steps, s);
    RunKeepsInv(s0, steps, s);
  }

  lemma ReachableStep(s: State, step: Step)
    requires Reachable(s) && Enabled(s, step)
    ensures Reachable(Apply(s, step))
  {
    var s0, steps :| Init(s0) && Run(s0, steps, s);
    Machines.RunThenStep(Next, s0, steps, s, step);
    assert Run(s0, steps + [step], Apply(s, step));
  }

  // ---- What holds in every interleaving ----

  /**
   * A connect let through on a recent validation: its state was a re-check, the validation it
   * then read is no older than the one published with that state, and when it read it the
   * account had become ready less than half an hour before with only re-checks since.
   */
  lemma RecheckedConnectWasValidated(s: State)
    requires Reachable(s) && s.waiter.Returned? && s.waiter.answer.RecentlyValidated?
    ensures var a := s.waiter.answer;
            && Rechecking(a.reading.state) && StateOf(a.reading.moves) == a.reading.state
            && Prefix(a.reading.moves, a.moves) && Prefix(a.moves, s.moves)
            && ReadyAtAndRecheckedSince(a.moves, a.validated)
            && a.now < a.validated + ACCOUNT_VALIDATION_FRESHNESS
            && (StateOf(a.moves).ReadyToConnect? || Rechecking(StateOf(a.moves)))
  {
    ReachableInv(s);
    var a := s.waiter.answer;
    ValidationMeaning(a.moves, a.validated);
    ValidatedStates(a.moves);
  }

  /**
   * The other half: a connect made to wait read, after its state was published, that the account
   * had not become ready within half an hour with only re-checks since.
   */
  lemma WaitingConnectWasNotValidated(s: State, t: Instant)
    requires Reachable(s) && s.waiter.Waiting?
    ensures var w := s.waiter;
            && Rechecking(w.reading.state)
            && Prefix(w.reading.moves, w.moves) && Prefix(w.moves, s.moves)
            && (ReadyAtAndRecheckedSince(w.moves, t) ==> t + ACCOUNT_VALIDATION_FRESHNESS <= w.now)
  {
    ReachableInv(s);
    ValidationMeaning(s.waiter.moves, t);
  }

  /** Any other answer is the one for the state that was read. */
  lemma AnswerFitsState(s: State)
    requires Reachable(s) && s.waiter.Returned?
    ensures AnswerSound(s, s.waiter.answer)
    ensures match s.waiter.answer
            case AlreadyUsable(r) => r.state == ReadyToConnect || r.state == Decentralised || r.state == UpgradeMode
            case RecentlyValidated(r, _, _, _) => r.state == Syncing || r.state == RequestingZkNyms
            case Refused(r, IsOffline) => r.state == Offline
            case Refused(r, NoAccountStored) => r.state == LoggedOut
            case Refused(r, ErrorState(reason)) => r.state == Error(reason)
            case Refused(_, ChannelClosed) => false
            case Closed => s.closed
  {
    ReachableInv(s);
  }

  /** A connect that blocks has read the state now published, so it misses none. */
  lemma BlockedConnectReadCurrentState(s: State)
    requires Reachable(s) && s.waiter.Waiting? && s.seen == s.state.version
    ensures s.waiter.reading.version == s.state.version && s.waiter.reading.state == s.state.value
    ensures Rechecking(s.state.value)
  {
    ReachableInv(s);
  }

  // ---- What the steps taken so far say ----

  /** What the controller and its handlers did, by the steps they took. */
  function MovesOf(initial: AccountState, h: History<Step>): Moves {
    if h.Start? then Then(Start, Boot(initial))
    else
      match h.last
      case PublishValidation(state, now) => Then(MovesOf(initial, h.before), Enter(state, now))
      case HandlerDrops => Then(MovesOf(initial, h.before), DropValidation)
      case _ => MovesOf(initial, h.before)
  }

  function StatesPublished(h: History<Step>): nat {
    if h.Start? then 0 else StatesPublished(h.before) + if h.last.PublishState? then 1 else 0
  }

  /**
   * For every past: the record is of what was done, the validation channel carries the validation of
   * all of it, and the state channel the state of all of it but for a state about to be published.
   */
  lemma {:induction false} ChannelsCarryWhatWasDone(s0: State, h: History<Step>, s: State)
    requires Init(s0) && Machines.After(Next, s0, h) == Some(s)
    ensures Inv(s) && s.moves == MovesOf(s0.state.value, h) && s.state.version == StatesPublished(h)
    ensures s.validation == ValidationOf(s.moves) && s.state.value == StateOf(s.published)
    ensures s.published == s.moves || (s.moves.Then? && s.moves.last.Enter? && s.published == s.moves.before)
  {
    if h.Then? {
      var before := Machines.After(Next, s0, h.before).value;
      ChannelsCarryWhatWasDone(s0, h.before, before);
      StepKeepsChannels(before, h.last);
      StepKeepsWaiter(before, h.last);
    }
  }

  /** The state after a move is the one it enters, or the one before if it only drops the validation. */
  lemma StateMeans(h: Moves, state: AccountState, at: Instant)
    ensures StateOf(Then(h, Boot(state))) == state && StateOf(Then(h, Enter(state, at))) == state
    ensures StateOf(Then(h, DropValidation)) == StateOf(h)
  {
  }

  /** What each access of a connect leaves: it has seen the change it was woken by, and reads what is published. */
  lemma ConnectMeans(s: State, now: Instant)
    ensures Next(s, StateChanged).Some? <==> s.waiter.Waiting? && s.seen != s.state.version
    ensures Next(s, StateChanged).Some? ==>
            Next(s, StateChanged).value == s.(waiter := Looking, seen := s.state.version)
    ensures s.waiter == Looking ==>
            && Next(s, ReadState).Some?
            && var w := Next(s, ReadState).value.waiter;
               && (s.state.value == Syncing || s.state.value == RequestingZkNyms ==>
                     w.Holding? && w.reading.state == s.state.value && w.reading.version == s.state.version)
               && (s.state.value != Syncing && s.state.value != RequestingZkNyms ==> w.Returned?)
    ensures s.waiter.Holding? ==>
            && Next(s, ReadValidation(now)).Some?
            && var w := Next(s, ReadValidation(now)).value.waiter;
               (w.Returned? <==> s.validation.Some? && now < s.validation.value + 30 * 60)
  {
  }

  // ---- The channels as controller and connect use them ----

  /** The channels with one connect waiting on them; each method is one access to a channel. */
  class AccountChannels {
    var moves: Moves
    var published: Moves
    var state: AccountState
    var stateVersion: nat
    var lastValidated: Option<Instant>
    var closed: bool
    var waiter: Waiter
    var seen: nat

    function View(): State
      reads this
    {
      State(moves, published, Channel(state, stateVersion), lastValidated, closed, waiter, seen)
    }

    ghost predicate Valid()
      reads this
    {
      Inv(View())
    }

    constructor (initial: AccountState)
      ensures Valid() && Init(View()) && Reachable(View())
    {
      moves, published, state, stateVersion := Then(Start, Boot(initial)), Then(Start, Boot(initial)), initial, 0;
      lastValidated, closed, waiter, seen := None, false, Looking, 0;
      new;
      assert Run(View(), [], View());
    }

    /** The validation goes out ahead of the state. */
    method SendValidation(newState: AccountState, now: Instant)
      requires Valid() && Enabled(View(), PublishValidation(newState, now))
      modifies this`moves, this`lastValidated
      ensures Valid() && View() == Apply(old(View()), PublishValidation(newState, now))
    {
      StepKeepsChannels(View(), PublishValidation(newState, now));
      StepKeepsWaiter(View(), PublishValidation(newState, now));
      var wasReady := state == ReadyToConnect;
      lastValidated := NextValidation(newState, wasReady, lastValidated, now);
      moves := Then(moves, Enter(newState, now));
    }

    method SendState()
      requires Valid() && Enabled(View(), PublishState)
      modifies this`published, this`state, this`stateVersion
      ensures Valid() && View() == Apply(old(View()), PublishState)
    {
      StepKeepsChannels(View(), PublishState);
      StepKeepsWaiter(View(), PublishState);
      published := moves;
      state := StateOf(moves);
      stateVersion := stateVersion + 1;
    }

    /** A handler withdraws the validation without leaving the state. */
    method DropValidation()
      requires Valid() && Enabled(View(), HandlerDrops)
      modifies this`moves, this`published, this`lastValidated
      ensures Valid() && View() == Apply(old(View()), HandlerDrops)
    {
      StepKeepsChannels(View(), HandlerDrops);
      StepKeepsWaiter(View(), HandlerDrops);
      lastValidated := None;
      moves := Then(moves, Move.DropValidation);
      published := Then(published, Move.DropValidation);
    }

    /** The controller is gone, and with it the sending half of the channels. */
    method Close()
      requires Valid() && Enabled(View(), CloseChannel)
      modifies this`closed
      ensures Valid() && View() == Apply(old(View()), CloseChannel)
    {
      StepKeepsChannels(View(), CloseChannel);
      StepKeepsWaiter(View(), CloseChannel);
      closed := true;
    }

    /** One turn of the waiting loop up to its next access to a channel. */
    method PollWaiter(now: Instant) returns (step: Step)
      requires Valid() && !waiter.Returned?
      requires waiter.Waiting? ==> seen != stateVersion || closed
      modifies this`waiter, this`seen
      ensures step in {ReadState, ReadValidation(now), StateChanged, SeesClosed} && Enabled(old(View()), step)
      ensures Valid() && View() == Apply(old(View()), step)
    {
      match waiter {
        case Looking => step := ReadState;
        case Holding(_) => step := ReadValidation(now);
        case Waiting(_, _, _) => step := if seen != stateVersion then StateChanged else SeesClosed;
        case Returned(_) =>
      }
      StepKeepsChannels(View(), step);
      StepKeepsWaiter(View(), step);
      match waiter {
        case Looking =>
          var r := Reading(state, stateVersion, published);
          var answer := AnswerTo(r);
          waiter := if answer.Some? then Returned(answer.value) else Holding(r);
        case Holding(r) =>
          if IsRecent(lastValidated, now) {
            waiter := Returned(RecentlyValidated(r, lastValidated.value, now, moves));
          } else {
            waiter := Waiting(r, moves, now);
          }
        case Waiting(_, _, _) =>
          if seen != stateVersion {
            seen := stateVersion;
            waiter := Looking;
          } else {
            waiter := Returned(Closed);
          }
        case Returned(_) =>
      }
    }

    /**
     * The next connect, once the last one is back or was given up, on a receiver that has seen
     * `seenBefore` of the states sent: the one used before, an older copy, or a new one.
     */
    method StartConnect(seenBefore: nat)
      requires Valid() && Enabled(View(), ConnectAgain(seenBefore))
      modifies this`waiter, this`seen
      ensures Valid() && View() == Apply(old(View()), ConnectAgain(seenBefore))
    {
      StepKeepsChannels(View(), ConnectAgain(seenBefore));
      StepKeepsWaiter(View(), ConnectAgain(seenBefore));
      waiter := Looking;
      seen := seenBefore;
    }

    /** Lets the controller, a handler or the waiting connect take `step`. */
    method Perform(step: Step)
      requires Valid() && Enabled(View(), step)
      modifies this
      ensures Valid() && View() == Apply(old(View()), step)
    {
      match step {
        case PublishValidation(newState, now) => SendValidation(newState, now);
        case PublishState => SendState();
        case HandlerDrops => DropValidation();
        case CloseChannel => Close();
        case ReadState => var _ := PollWaiter(0);
        case ReadValidation(now) => var _ := PollWaiter(now);
        case StateChanged => var _ := PollWaiter(0);
        case SeesClosed => var _ := PollWaiter(0);
        case ConnectAgain(seenBefore) => StartConnect(seenBefore);
      }
    }

    /**
     * Any schedule of controller, handlers and connect: each step is taken if it is possible when
     * its turn comes. However they interleave, a connect let through during a re-check had an
     * account that was ready within the last half hour and only re-checked since, any other
     * answer fits the state read, and a connect left blocked has seen the state now published.
     */
    method Drive(schedule: seq<Step>)
      requires Valid() && Reachable(View())
      modifies this
      ensures Valid() && Reachable(View()) && View() == Machines.Followed(Next, old(View()), schedule)
      ensures waiter.Returned? ==> AnswerSound(View(), waiter.answer)
      ensures waiter.Returned? && waiter.answer.RecentlyValidated? ==>
              && ReadyAtAndRecheckedSince(waiter.answer.moves, waiter.answer.validated)
              && waiter.answer.now < waiter.answer.validated + ACCOUNT_VALIDATION_FRESHNESS
      ensures waiter.Waiting? && seen == stateVersion ==> waiter.reading.state == state && Rechecking(state)
    {
      for i := 0 to |schedule|
        invariant Valid() && Reachable(View()) && View() == Machines.Followed(Next, old(View()), schedule[..i])
      {
        assert schedule[..i + 1][..i] == schedule[..i];
        if Enabled(View(), schedule[i]) {
          ReachableStep(View(), schedule[i]);
          Perform(schedule[i]);
        }
      }
      assert schedule[..|schedule|] == schedule;
      if waiter.Returned? && waiter.answer.RecentlyValidated? {
        RecheckedConnectWasValidated(View());
      }
    }
  }
}
