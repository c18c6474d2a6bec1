/** Whether one gateway's bandwidth queries work, and when their failures end the session. */
module QueryHealth {
  import opened Prelude
  import opened Histories

  const QUERY_FAILURES_TO_ESCALATE: nat := 2
  const FIRST_ANSWER_GRACE: Duration := 60

  datatype Query = Answered | FailedAt(at: Instant)

  type Queries = History<Query>

  predicate EverAnswered(h: Queries) {
    h.Then? && (h.last.Answered? || EverAnswered(h.before))
  }

  /** The failures since the last answer, oldest first. */
  function Streak(h: Queries): seq<Instant> {
    if h.Start? || h.last.Answered? then [] else Streak(h.before) + [h.last.at]
  }

  /**
   * A failure at `now` after the queries `h` ends the session: it is at least the second in a
   * row, and the side has answered before or has been failing for a minute.
   */
  predicate Escalates(h: Queries, now: Instant) {
    && |Streak(h)| + 1 >= QUERY_FAILURES_TO_ESCALATE
    && (EverAnswered(h) || now >= Streak(h)[0] + FIRST_ANSWER_GRACE)
  }

  function SaturatingSince(now: Instant, since: Instant): Duration {
    if now < since then 0 else now - since
  }

  class QueryHealth {
    var answered: bool
    var toppedUp: bool
    var consecutiveFailures: nat
    var failingSince: Option<Instant>
    ghost var history: Queries

    ghost predicate Valid()
      reads this
    {
      && (answered <==> EverAnswered(history))
      && consecutiveFailures == Min(|Streak(history)|, U32_MAX)
      && failingSince == if Streak(history) == [] then None else Some(Streak(history)[0])
    }

    constructor ()
      ensures Valid() && history == Start && !toppedUp
    {
      answered, toppedUp, consecutiveFailures, failingSince := false, false, 0, None;
      history := Start;
    }

    method RecordSuccess()
      requires Valid()
      modifies this`answered, this`consecutiveFailures, this`failingSince, this`history
      ensures Valid() && history == Then(old(history), Answered)
    {
      answered := true;
      consecutiveFailures := 0;
      failingSince := None;
      history := Then(history, Answered);
    }

    method RecordFailure(now: Instant) returns (escalate: bool)
      requires Valid()
      modifies this`consecutiveFailures, this`failingSince, this`history
      ensures Valid() && history == Then(old(history), FailedAt(now))
      ensures escalate == Escalates(old(history), now)
    {
      if consecutiveFailures < U32_MAX {
        consecutiveFailures := consecutiveFailures + 1;
      }
      if failingSince.None? {
        failingSince := Some(now);
      }
      escalate := consecutiveFailures >= QUERY_FAILURES_TO_ESCALATE
                  && (answered || SaturatingSince(now, failingSince.value) >= FIRST_ANSWER_GRACE);
      history := Then(history, FailedAt(now));
    }
  }

  function AsHistory(s: seq<Query>): Queries {
    if s == [] then Start else Then(AsHistory(s[..|s| - 1]), s[|s| - 1])
  }

  /** The last answer is just before `start`, or there is none and `start` is zero. */
  predicate LastAnswerBefore(s: seq<Query>, start: nat) {
    && start <= |s|
    && (start == 0 || s[start - 1].Answered?)
    && forall i :: start <= i < |s| ==> s[i].FailedAt?
  }

  lemma {:induction false} StreakIsTail(s: seq<Query>, start: nat)
    requires LastAnswerBefore(s, start)
    ensures |Streak(AsHistory(s))| == |s| - start
    ensures forall i :: start <= i < |s| ==> Streak(AsHistory(s))[i - start] == s[i].at
    ensures EverAnswered(AsHistory(s)) <==> start > 0
    decreases |s|
  {
    if start < |s| {
      StreakIsTail(s[..|s| - 1], start);
    }
  }

  /**
   * For every sequence of queries, a further failure ends the session exactly if the one
   * before it failed too, and there was an answer at some time or a minute has passed since
   * the first failure after the last answer.
   */
  lemma EscalationFromHistory(s: seq<Query>, start: nat, now: Instant)
    requires LastAnswerBefore(s, start)
    ensures Escalates(AsHistory(s), now) <==>
            start < |s| && (start > 0 || now >= s[start].at + FIRST_ANSWER_GRACE)
  {
    StreakIsTail(s, start);
  }
}
