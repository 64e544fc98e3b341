/**
 What a provider's answer does to every later attempt (executeStagingDNSAttemptAt in
 internal/inventorystore/dns_operation.go, Apply in internal/providerretry/policy.go), told in grants:
 when an attempt is granted at all, and how long a failed one keeps the next ones waiting.
 */
module DnsWaits {
  import opened Common
  import opened RetryPolicy
  import opened DnsRecord
  import opened DnsTransitions
  import opened DnsLife

  // ---- When an attempt is granted ----

  // The wait the policy itself takes after its n-th attempt, before any jitter.
  const WAITS := [30, 60, 120, 240, 480, 960]

  predicate Suits(state: Phase, mode: Mode) {
    match mode
    case Add => state == New || state == Creating
    case Cleanup => state == Created
    case Check | Recover | Maintain => state == Creating || state == Deleting
  }

  // The clock is within the years that can be recorded and behind nothing on record, and making a new
  // record is still of use to its order.
  predicate Timely(r: Record, at: Instant, scope: Scope) {
    && YEAR_2020 <= at.sec < YEAR_2101
    && scope.prepared <= at.sec && r.checkedAt <= at.sec && r.outcomeAt <= at.sec
    && (r.state == New ==> at.sec < scope.deadline && scope.orderOpen && scope.required)
  }

  // A further attempt of one policy, its wait over, the next wait still within the calendar.
  predicate Continues(p: Retry, at: Instant, jitter: int) {
    && 0 <= p.attempts < 6 && (p.attempts > 0 ==> at.sec >= p.notBefore)
    && 0 <= jitter <= 30 && Second(at) + WAITS[p.attempts] + jitter < YEAR_2101
  }

  // Nothing is left of a half's policies, and how long maintenance keeps clear of the last attempt.
  predicate Exhausted(h: Half) {
    && h.policy.attempts > 0
    && (h.blocked
        || (h.policy.attempts == 6 && h.recovery.Some?
            && (h.recovery.value.blocked || h.recovery.value.retry.attempts == 6)))
  }

  predicate MaintenanceDue(h: Half, at: Instant) {
    var wait := if h.blocked || (h.recovery.Some? && h.recovery.value.blocked) then 7 * 86400 else 86400;
    && Exhausted(h)
    && at.sec >= h.policy.notBefore && at.sec >= h.policy.lastAt + wait
    && (h.recovery.Some? ==>
          at.sec >= h.recovery.value.retry.notBefore && at.sec >= h.recovery.value.retry.lastAt + wait)
    && (h.maintenance.Some? ==> h.maintenance.value.attempts < 65535 && at.sec >= h.maintenance.value.notBefore)
    && at.sec + 86400 < YEAR_2101
  }

  predicate AttemptDue(h: Half, mode: Mode, at: Instant, jitter: int) {
    match mode
    case Maintain => MaintenanceDue(h, at)
    case Recover =>
      && !h.blocked && h.policy.attempts == 6 && at.sec >= h.policy.notBefore
      && if h.recovery.None? then Continues(Retry(0, NONE, NONE), at, jitter)
         else !h.recovery.value.blocked && Continues(h.recovery.value.retry, at, jitter)
    case Add | Check | Cleanup => !h.blocked && Continues(h.policy, at, jitter)
  }

  // A record's removal is under way from the moment there is something of its own to remove.
  predicate Removing(r: Record) { r.state == Created || r.state == Deleting }

  function ActiveHalf(r: Record): Half { if Removing(r) then r.removal else r.making }

  // What a granted attempt leaves of its half: one attempt more, started now, its wait on record.
  function Attempted(h: Half, mode: Mode, at: Instant, jitter: int): Half
    requires AttemptDue(h, mode, at, jitter)
  {
    match mode
    case Maintain =>
      h.(maintenance := Some(Maintenance(if h.maintenance.Some? then h.maintenance.value.attempts + 1 else 1,
         at.sec, at.sec + 86400, NONE, false, false)))
    case Recover =>
      var n := if h.recovery.Some? then h.recovery.value.retry.attempts else 0;
      h.(recovery := Some(Recovery(Retry(n + 1, at.sec, Second(at) + WAITS[n] + jitter), false)))
    case Add | Check | Cleanup =>
      h.(policy := Retry(h.policy.attempts + 1, at.sec, Second(at) + WAITS[h.policy.attempts] + jitter))
  }

  lemma BackoffIsTheTable(n: nat)
    requires n < 6
    ensures Backoff(n) == WAITS[n]
  {
    assert Backoff(0) == 30 && Backoff(1) == 60 && Backoff(2) == 120;
    assert Backoff(3) == 240 && Backoff(4) == 480;
  }

  lemma PolicyBegins(p: Retry, at: Instant, jitter: int)
    requires RetryPolicy.Valid(p) && YEAR_2020 <= at.sec < YEAR_2101
    ensures RetryPolicy.Begin(p, at, jitter).Some? <==> Continues(p, at, jitter)
    ensures Continues(p, at, jitter) ==>
              RetryPolicy.Begin(p, at, jitter)
                == Some(Retry(p.attempts + 1, at.sec, Second(at) + WAITS[p.attempts] + jitter))
  {
    hide Backoff;
    if 0 <= p.attempts < 6 { BackoffIsTheTable(p.attempts); }
  }

  lemma HalfBegins(h: Half, mode: Mode, latest: Stamp, at: Instant, jitter: int)
    requires RetryPolicy.Valid(h.policy) && (h.recovery.Some? ==> RetryPolicy.Valid(h.recovery.value.retry))
    requires YEAR_2020 <= at.sec < YEAR_2101 && latest <= at.sec
    ensures BeginHalf(h, KindOf(mode), latest, at, jitter)
              == if AttemptDue(h, mode, at, jitter) then Some(Attempted(h, mode, at, jitter)) else None
  {
    PolicyBegins(h.policy, at, jitter);
    PolicyBegins(FRESH, at, jitter);
    if h.recovery.Some? { PolicyBegins(h.recovery.value.retry, at, jitter); }
    hide RetryPolicy.Begin, RetryPolicy.Valid, Continues;
  }

  /** An attempt is granted if and only if its mode suits the record's state, the clock fits and the half it
      draws on is due; it leaves its intent on record, one attempt more on that half, nothing else changed,
      and authority to write only where no call of this kind was made before. */
  lemma AttemptsAreGrantedExactly(r: Record, mode: Mode, at: Instant, jitter: int, scope: Scope)
    requires Accepted(r, scope.prepared, false)
    ensures DnsTransitions.Begin(r, mode, at, jitter, scope).Some? <==>
              Suits(r.state, mode) && Timely(r, at, scope) && AttemptDue(ActiveHalf(r), mode, at, jitter)
    ensures DnsTransitions.Begin(r, mode, at, jitter, scope).Some? ==>
              var (r', l) := DnsTransitions.Begin(r, mode, at, jitter, scope).value;
              var half := Attempted(ActiveHalf(r), mode, at, jitter);
              && l.cleanup == Removing(r) && (l.readOnly <==> r.state == Creating || r.state == Deleting)
              && l.kind == (if mode == Recover then Recovering else if mode == Maintain then Maintaining else Policy)
              && r' == (if Removing(r) then Record(Deleting, r.id, r.checkedAt, NONE, r.making, half)
                        else Record(Creating, r.id, r.checkedAt, NONE, half, r.removal))
  {
    hide ValidMaintenance, LatestStart, Hex32, Attempted, AttemptDue, BeginHalf, RetryPolicy.Valid;
    if YEAR_2020 <= at.sec < YEAR_2101 && Max(r.outcomeAt, r.checkedAt) <= at.sec {
      RemovalPolicyIsValid(r, scope.prepared);
      HalfBegins(ActiveHalf(r), mode, Max(r.outcomeAt, r.checkedAt), at, jitter);
    }
  }

  lemma RemovalPolicyIsValid(r: Record, prepared: Stamp)
    requires Accepted(r, prepared, false)
    ensures var h := ActiveHalf(r);
            RetryPolicy.Valid(h.policy) && (h.recovery.Some? ==> RetryPolicy.Valid(h.recovery.value.retry))
  {
    hide ValidMaintenance, LatestStart, Hex32;
  }

  /** A lease may be used if and only if its half is still unsettled and stands where the lease was minted: an
      ordinary attempt writes if it is the first and only looks if it is not, a recovery or a maintenance
      read only looks, a recovery while it is not blocked, a read while nothing came of it yet. */
  lemma LeasesAreHonouredExactly(r: Record, l: Lease)
    ensures var h := if l.cleanup then r.removal else r.making;
            Admitted(r, l) <==>
              && r.state == (if l.cleanup then Deleting else Creating)
              && (l.cleanup ==> h.policy != Retry(0, NONE, NONE))
              && match l.kind
                 case Policy => if l.readOnly then h.policy.attempts > 1 else h.policy.attempts <= 1
                 case Recovering =>
                   l.readOnly && h.policy.attempts == 6 && h.recovery.Some? && !h.recovery.value.blocked
                 case Maintaining =>
                   && l.readOnly && h.maintenance.Some? && !h.maintenance.value.resolved
                   && h.maintenance.value.outcomeAt == NONE && r.outcomeAt == NONE
  {
  }

  // ---- What a failed call leaves ----

  // A call in progress that failed at a time that can be recorded.
  predicate FailsRecorded(s: Life, hint: Hint, entry: Instant, at: Instant, deadline: Stamp) {
    && s.lease.Some? && Allowed(s.record, s.lease.value, entry, deadline) && entry.sec <= at.sec < YEAR_2101
    && WaitOf(HalfOf(s.record, s.lease.value.cleanup), s.lease.value.kind).Some?
    && var w := WaitOf(HalfOf(s.record, s.lease.value.cleanup), s.lease.value.kind).value;
       (s.lease.value.kind == Maintaining && Refuses(hint, w.started) ==> w.started + 7 * 86400 < YEAR_2101)
  }

  lemma FittingHalf(r: Record, l: Lease, prepared: Stamp)
    requires Accepted(r, prepared, false) && Fits(r, l)
    ensures var h := HalfOf(r, l.cleanup);
            && HalfFits(h, l.kind) && RetryPolicy.Valid(h.policy) && h.policy.attempts >= 1
            && (h.recovery.Some? ==> RetryPolicy.Valid(h.recovery.value.retry) && h.recovery.value.retry.attempts >= 1)
            && (h.maintenance.Some? ==> h.maintenance.value.notBefore <= h.maintenance.value.lastAt + MAX_PROVIDER_WAIT)
  {
    hide LatestStart, Hex32, HalfFits, RetryPolicy.Valid, MaintenanceFloor;
  }

  /** A failed call that can be recorded leaves the record as it was but for its outcome's stamp and the
      wait of its own kind, and that wait is what the provider asked for. */
  lemma FailuresLeaveTheirWait(prepared: Stamp, events: seq<DnsLife.Event>, hint: Hint, entry: Instant, at: Instant,
      deadline: Stamp)
    requires Canonical(prepared) && FailsRecorded(Run(prepared, events), hint, entry, at, deadline)
    ensures var s, now := Run(prepared, events), Run(prepared, events + [Fail(hint, at)]);
            var l := s.lease.value;
            var before, after := WaitOf(HalfOf(s.record, l.cleanup), l.kind),
                WaitOf(HalfOf(now.record, l.cleanup), l.kind);
            && now.record.outcomeAt == at.sec && now.lease.None? && now.grants == s.grants
            && OnlyWaits(s.record, now.record, l)
            && after.Some? && Honours(before.value, hint, l.kind, after.value)
  {
    hide Accepted, Fits, HalfFits, StartedAt, Allowed, FailHalf, Run, OnlyWaits, WaitOf, Honours, FitsCalendar;
    var s := Run(prepared, events);
    var l := s.lease.value;
    LivesStayAccepted(prepared, events);
    FittingHalf(s.record, l, prepared);
    FailHalfHonours(HalfOf(s.record, l.cleanup), l.kind, hint, at);
    if l.kind == Maintaining { CalendarFits(s, hint, entry, at, deadline); }
    FailuresAreSaved(prepared, events, hint, entry, at, deadline);
    FailureEnds(prepared, events, hint, at);
    FailureChangesWaitsOnly(s.record, l, hint, at);
  }

  lemma CalendarFits(s: Life, hint: Hint, entry: Instant, at: Instant, deadline: Stamp)
    requires FailsRecorded(s, hint, entry, at, deadline) && s.lease.value.kind == Maintaining
    ensures FitsCalendar(HalfOf(s.record, s.lease.value.cleanup), hint)
  {
  }

  // ---- Every later attempt waits ----

  // No further attempt of this kind, or none before then.
  predicate Holds(h: Half, kind: Kind, until: Option<Stamp>) {
    match kind
    case Policy =>
      if until.None? then h.blocked else h.policy.attempts >= 1 && h.policy.notBefore >= until.value
    case Recovering =>
      && h.recovery.Some?
      && if until.None? then h.recovery.value.blocked
         else h.recovery.value.retry.attempts >= 1 && h.recovery.value.retry.notBefore >= until.value
    case Maintaining => until.Some? && Heeds(h, until.value)
  }

  predicate OfKind(g: Grant, kind: Kind, cleanup: bool) { g.lease.kind == kind && g.lease.cleanup == cleanup }

  predicate GrantsWait(grants: seq<Grant>, n: nat, kind: Kind, cleanup: bool, until: Option<Stamp>) {
    forall i | n <= i < |grants| && OfKind(grants[i], kind, cleanup) :: until.Some? && grants[i].at >= until.value
  }

  lemma BeginHalfHolds(h: Half, kind: Kind, until: Option<Stamp>, begun: Kind, latest: Stamp, at: Instant,
      jitter: int)
    requires Holds(h, kind, until) && BeginHalf(h, begun, latest, at, jitter).Some?
    ensures Holds(BeginHalf(h, begun, latest, at, jitter).value, kind, until)
    ensures begun == kind ==> until.Some? && at.sec >= until.value
  {
    hide MaintenanceFloor;
  }

  lemma OutcomesHold(h: Half, kind: Kind, until: Option<Stamp>, failed: Kind, hint: Hint, at: Instant,
      settled: bool, checkedAt: Stamp)
    requires Holds(h, kind, until)
    ensures Holds(FailHalf(h, failed, hint, at), kind, until)
    ensures Holds(PublishHalf(h, settled, checkedAt, at), kind, until)
  {
  }

  lemma StartHolds(s: Life, e: DnsLife.Event, n: nat, kind: Kind, cleanup: bool, until: Option<Stamp>)
    requires e.Start? && Holds(HalfOf(s.record, cleanup), kind, until) && n <= |s.grants|
    requires GrantsWait(s.grants, n, kind, cleanup, until)
    ensures var s' := Step(s, e);
            && Holds(HalfOf(s'.record, cleanup), kind, until) && n <= |s'.grants|
            && GrantsWait(s'.grants, n, kind, cleanup, until)
  {
    hide Holds, BeginHalf, ModeFits, ClockFits;
    var scope := e.scope.(prepared := s.prepared);
    var b := DnsTransitions.Begin(s.record, e.mode, e.at, e.jitter, scope);
    if b.Some? && b.value.1.cleanup == cleanup {
      BeginHalfHolds(HalfOf(s.record, cleanup), kind, until, KindOf(e.mode),
                     Max(s.record.outcomeAt, s.record.checkedAt), e.at, e.jitter);
    }
  }

  lemma OutcomeHolds(s: Life, e: DnsLife.Event, kind: Kind, cleanup: bool, until: Option<Stamp>)
    requires !e.Start? && Holds(HalfOf(s.record, cleanup), kind, until)
    ensures Holds(HalfOf(Step(s, e).record, cleanup), kind, until) && Step(s, e).grants == s.grants
  {
    hide FailHalf, PublishHalf, HalfAdmitted, Hex32, Accepted, Holds;
    var h := HalfOf(s.record, cleanup);
    match e
    case Fail(hint, at) =>
      if s.lease.Some? { OutcomesHold(h, kind, until, s.lease.value.kind, hint, at, false, NONE); }
    case Succeed(_, _, readings) =>
      forall settled, checkedAt {
        OutcomesHold(h, kind, until, Policy, Hint(None, false), readings.outcome, settled, checkedAt);
      }
    case Lose =>
  }

  lemma {:induction false} HoldsFromThenOn(prepared: Stamp, events: seq<DnsLife.Event>, more: seq<DnsLife.Event>,
      kind: Kind, cleanup: bool, until: Option<Stamp>)
    requires Holds(HalfOf(Run(prepared, events).record, cleanup), kind, until)
    ensures var n, later := |Run(prepared, events).grants|, Run(prepared, events + more);
            && Holds(HalfOf(later.record, cleanup), kind, until) && n <= |later.grants|
            && GrantsWait(later.grants, n, kind, cleanup, until)
    decreases |more|
  {
    if more == [] {
      assert events + more == events;
    } else {
      hide Step, Run, Holds;
      HoldsFromThenOn(prepared, events, more[..|more| - 1], kind, cleanup, until);
      LastStep(prepared, events, more);
      var before, last := Run(prepared, events + more[..|more| - 1]), more[|more| - 1];
      if last.Start? { StartHolds(before, last, |Run(prepared, events).grants|, kind, cleanup, until); }
      else { OutcomeHolds(before, last, kind, cleanup, until); }
    }
  }

  // Until when, if ever, an answer keeps the next attempt of its kind waiting.
  function Until(w: Wait, hint: Hint, kind: Kind): Option<Stamp> {
    if Refuses(hint, w.started) then if kind == Maintaining then Some(w.started + 7 * 86400) else None
    else if hint.notBefore.Some? then Some(Max(w.notBefore, Second(hint.notBefore.value)))
    else Some(w.notBefore)
  }

  /** However a life goes on after a failed call that can be recorded: no later attempt of its kind on that
      half starts before the wait already on record, none before the second the provider asked for, and
      after a refusal none at all, or for a maintenance read none within a week of the one refused. */
  lemma ProviderWaitsAreHeeded(prepared: Stamp, events: seq<DnsLife.Event>, hint: Hint, entry: Instant, at: Instant,
      deadline: Stamp, more: seq<DnsLife.Event>)
    requires Canonical(prepared) && FailsRecorded(Run(prepared, events), hint, entry, at, deadline)
    ensures var s, later := Run(prepared, events), Run(prepared, events + [Fail(hint, at)] + more);
            var l := s.lease.value;
            var until := Until(WaitOf(HalfOf(s.record, l.cleanup), l.kind).value, hint, l.kind);
            forall i | |s.grants| <= i < |later.grants| && OfKind(later.grants[i], l.kind, l.cleanup) ::
              until.Some? && later.grants[i].at >= until.value
  {
    hide Run, Allowed, Holds, OnlyWaits, Accepted;
    var s, failed := Run(prepared, events), events + [Fail(hint, at)];
    var l := s.lease.value;
    FailuresLeaveTheirWait(prepared, events, hint, entry, at, deadline);
    LivesStayAccepted(prepared, events);
    FittingHalf(s.record, l, prepared);
    AnswerHolds(s.record, Run(prepared, failed).record, l, hint);
    HoldsFromThenOn(prepared, failed, more, l.kind, l.cleanup,
                    Until(WaitOf(HalfOf(s.record, l.cleanup), l.kind).value, hint, l.kind));
  }

  lemma AnswerHolds(r: Record, r': Record, l: Lease, hint: Hint)
    requires OnlyWaits(r, r', l)
    requires var h, h' := HalfOf(r, l.cleanup), HalfOf(r', l.cleanup);
             && HalfFits(h, l.kind) && h.policy.attempts >= 1
             && (h.recovery.Some? ==> h.recovery.value.retry.attempts >= 1)
             && WaitOf(h, l.kind).Some? && WaitOf(h', l.kind).Some?
             && Honours(WaitOf(h, l.kind).value, hint, l.kind, WaitOf(h', l.kind).value)
    requires l.kind == Maintaining ==>
               HalfOf(r, l.cleanup).maintenance.value.notBefore
                 <= HalfOf(r, l.cleanup).maintenance.value.lastAt + MAX_PROVIDER_WAIT
    ensures Holds(HalfOf(r', l.cleanup), l.kind, Until(WaitOf(HalfOf(r, l.cleanup), l.kind).value, hint, l.kind))
  {
    hide Terminal;
  }
}
