/**
 Whole lives of a plan record: any list of starts, failures, observations and lost leases,
 under any clock readings at all, and what the grants on record then obey.
 */
module DnsLife {
  import opened Common
  import opened RetryPolicy
  import opened DnsRecord
  import opened DnsTransitions

  datatype Event =
    | Start(mode: Mode, at: Instant, jitter: int, scope: Scope)
    | Fail(hint: Hint, at: Instant)
    | Succeed(seen: Observed, checkpointed: bool, readings: Readings)
    | Lose  // a crash, a refusal or an unconfirmed write: the lease is gone, the intent stays

  // A granted lease, when it was granted, and the half it was granted on.
  datatype Grant = Grant(lease: Lease, at: Stamp, half: Half)

  // prepared: when the plan was prepared, which no attempt may precede.
  datatype Life = Life(prepared: Stamp, record: Record, lease: Option<Lease>, grants: seq<Grant>)

  // Every outcome is read back as it is sealed: one that would not be accepted is not saved, and the
  // intent stays as it was.
  function Sealed(s: Life, r: Record): Record { if Accepted(r, s.prepared, false) then r else s.record }

  function Step(s: Life, e: Event): Life {
    match e
    case Start(mode, at, jitter, scope) =>
      var b := DnsTransitions.Begin(s.record, mode, at, jitter, scope.(prepared := s.prepared));
      if b.None? then s
      else Life(s.prepared, b.value.0, Some(b.value.1),
                s.grants + [Grant(b.value.1, at.Floor(), HalfOf(s.record, b.value.1.cleanup))])
    case Fail(hint, at) =>
      if s.lease.None? || !Admitted(s.record, s.lease.value) then s.(lease := None)
      else s.(record := Sealed(s, AfterFailure(s.record, s.lease.value, hint, at)), lease := None)
    case Succeed(seen, checkpointed, readings) =>
      if s.lease.None? || !Admitted(s.record, s.lease.value) then s.(lease := None)
      else
        var r := AfterSuccess(s.record, s.lease.value, seen, checkpointed, readings);
        s.(record := if r.Some? then Sealed(s, r.value) else s.record, lease := None)
    case Lose => s.(lease := None)
  }

  function Run(prepared: Stamp, events: seq<Event>): Life {
    if events == [] then Life(prepared, PREPARED, None, []) else
    Step(Run(prepared, events[..|events| - 1]), events[|events| - 1])
  }

  predicate Mutates(g: Grant, cleanup: bool) { !g.lease.readOnly && g.lease.cleanup == cleanup }

  predicate Reads(g: Grant, cleanup: bool) { g.lease.kind == Maintaining && g.lease.cleanup == cleanup }

  function CountMutations(grants: seq<Grant>, cleanup: bool): nat {
    if grants == [] then 0 else
    CountMutations(grants[..|grants| - 1], cleanup) + if Mutates(grants[|grants| - 1], cleanup) then 1 else 0
  }

  // The maintenance reads of one half, oldest first.
  function MaintenanceReads(grants: seq<Grant>, cleanup: bool): seq<Grant> {
    if grants == [] then [] else
    var rest := MaintenanceReads(grants[..|grants| - 1], cleanup);
    if Reads(grants[|grants| - 1], cleanup) then rest + [grants[|grants| - 1]] else rest
  }

  function Rank(p: Phase): nat {
    match p
    case New => 0 case Creating => 1 case Created => 2 case Borrowed => 3 case Deleting => 3 case Deleted => 4
  }

  // One event seen from outside: at most one grant, and a move along the life cycle.
  predicate Moves(s: Life, s': Life) {
    if s'.grants == s.grants then
      || s'.record.state == s.record.state
      || (s.record.state == Creating && s'.record.state in {Created, Borrowed})
      || (s.record.state == Deleting && s'.record.state == Deleted)
    else
      && |s'.grants| == |s.grants| + 1 && s'.grants[..|s.grants|] == s.grants
      && var l := s'.grants[|s.grants|].lease;
         && (l.cleanup ==> s.record.state in {Created, Deleting} && s'.record.state == Deleting
                           && l.readOnly == (s.record.state == Deleting))
         && (!l.cleanup ==> s.record.state in {New, Creating} && s'.record.state == Creating
                            && l.readOnly == (s.record.state == Creating))
  }

  lemma StepMoves(s: Life, e: Event)
    ensures Moves(s, Step(s, e))
  {
    hide BeginHalf, FailHalf, PublishHalf, HalfAdmitted, ClockFits, Hex32, Accepted;
  }

  // What has been minted so far, told by the state alone.
  predicate Minted(s: Life) {
    && CountMutations(s.grants, false) == (if s.record.state == New then 0 else 1)
    && CountMutations(s.grants, true) == (if s.record.state in {Deleting, Deleted} then 1 else 0)
  }

  lemma MovesKeepMinted(s: Life, s': Life)
    requires Moves(s, s') && Minted(s)
    ensures Minted(s')
  {
    if s'.grants != s.grants {
      hide Rank;
      assert s'.grants[..|s'.grants| - 1] == s.grants;
    }
  }

  lemma MovesAdvance(s: Life, s': Life)
    requires Moves(s, s')
    ensures Rank(s.record.state) <= Rank(s'.record.state)
    ensures s.record.state in {Borrowed, Deleted} ==> s'.record.state == s.record.state
  {
    hide CountMutations, Mutates;
  }

  /** Over any life the authority to create is minted at most once and so is the authority to delete;
      neither exists before its intent is on record, and a borrowed record never gains the second. */
  lemma {:induction false} MutationsAreMintedOnce(prepared: Stamp, events: seq<Event>)
    ensures var s := Run(prepared, events);
            && CountMutations(s.grants, false) == (if s.record.state == New then 0 else 1)
            && CountMutations(s.grants, true) == (if s.record.state in {Deleting, Deleted} then 1 else 0)
  {
    if events != [] {
      hide Step, Moves, CountMutations;
      var before := events[..|events| - 1];
      MutationsAreMintedOnce(prepared, before);
      StepMoves(Run(prepared, before), events[|events| - 1]);
      MovesKeepMinted(Run(prepared, before), Run(prepared, events));
    }
  }

  lemma LastStep(prepared: Stamp, events: seq<Event>, more: seq<Event>)
    requires more != []
    ensures Run(prepared, events + more) == Step(Run(prepared, events + more[..|more| - 1]), more[|more| - 1])
  {
    hide Step;
    var all := events + more;
    assert all[..|all| - 1] == events + more[..|more| - 1];
  }

  /** The life cycle only moves forward: once borrowed or deleted a record never changes state again. */
  lemma {:induction false} StatesOnlyAdvance(prepared: Stamp, events: seq<Event>, more: seq<Event>)
    ensures Rank(Run(prepared, events).record.state) <= Rank(Run(prepared, events + more).record.state)
    ensures Run(prepared, events).record.state in {Borrowed, Deleted} ==>
              Run(prepared, events + more).record.state == Run(prepared, events).record.state
  {
    if more == [] {
      assert events + more == events;
    } else {
      hide Step, Moves, Rank, Run;
      var front := events + more[..|more| - 1];
      StatesOnlyAdvance(prepared, events, more[..|more| - 1]);
      LastStep(prepared, events, more);
      StepMoves(Run(prepared, front), more[|more| - 1]);
      MovesAdvance(Run(prepared, front), Run(prepared, events + more));
    }
  }

  // ---- Maintenance reads keep their distance ----

  // Every read waits a day after the last attempt of either policy, or a week when one is on record as blocked.
  predicate AfterTerminal(g: Grant) {
    var wait := if g.half.blocked || (g.half.recovery.Some? && g.half.recovery.value.blocked) then MAX_PROVIDER_WAIT
        else DAY;
    && Terminal(g.half)
    && g.at >= g.half.policy.lastAt + wait
    && (g.half.recovery.Some? ==> g.at >= g.half.recovery.value.retry.lastAt + wait)
  }

  // What a half remembers of the reads already made.
  predicate Remembered(h: Half, log: seq<Grant>) {
    if h.maintenance.None? then log == [] else
    var m := h.maintenance.value;
    && |log| == m.attempts <= MAX_MAINTENANCE
    && log != [] && log[|log| - 1].at == m.lastAt
    && m.notBefore >= m.lastAt + DAY
    && (m.blocked ==> m.notBefore >= m.lastAt + MAX_PROVIDER_WAIT)
  }

  // A read that found its predecessor blocked.
  predicate AfterBlock(g: Grant) { g.half.maintenance.Some? && g.half.maintenance.value.blocked }

  predicate Spaced(log: seq<Grant>) {
    && (forall i | 0 <= i < |log| :: AfterTerminal(log[i]))
    && (forall i | 0 < i < |log| ::
          && log[i - 1].at + DAY <= log[i].at
          && (AfterBlock(log[i]) ==> log[i - 1].at + MAX_PROVIDER_WAIT <= log[i].at))
  }

  lemma ReadIsDue(h: Half, latest: Stamp, at: Instant, g: Grant)
    requires BeginMaintenance(h, latest, at).Some? && g.half == h && g.at == at.Floor()
    ensures var done := if h.maintenance.Some? then h.maintenance.value.attempts else 0;
            && AfterTerminal(g) && (h.maintenance.Some? ==> g.at >= h.maintenance.value.notBefore)
                && done < MAX_MAINTENANCE
            && BeginMaintenance(h, latest, at).value
                == h.(maintenance := Some(Maintenance(done + 1, g.at, g.at + DAY, NONE, false, false)))
  {
  }

  lemma BeginHalfKeepsDistance(h: Half, kind: Kind, latest: Stamp, at: Instant, jitter: int, log: seq<Grant>, g: Grant)
    requires Remembered(h, log) && Spaced(log) && BeginHalf(h, kind, latest, at, jitter).Some?
    requires g.half == h && g.at == at.Floor() && g.lease.kind == kind
    ensures var log' := if kind == Maintaining then log + [g] else log;
            Remembered(BeginHalf(h, kind, latest, at, jitter).value, log') && Spaced(log')
  {
    var h' := BeginHalf(h, kind, latest, at, jitter).value;
    if kind == Maintaining {
      hide BeginMaintenance, AfterTerminal;
      ReadIsDue(h, latest, at, g);
      assert log != [] ==> h.maintenance.Some? && log[|log| - 1].at == h.maintenance.value.lastAt;
    } else {
      hide Spaced, AfterTerminal;
      assert h'.maintenance == h.maintenance;
    }
  }

  lemma OutcomesKeepDistance(h: Half, kind: Kind, hint: Hint, at: Instant, settled: bool, checkedAt: Stamp,
      log: seq<Grant>)
    requires Remembered(h, log)
    ensures Remembered(FailHalf(h, kind, hint, at), log)
    ensures Remembered(PublishHalf(h, settled, checkedAt, at), log)
  {
  }

  predicate KeepsDistance(s: Life, cleanup: bool) {
    && Remembered(HalfOf(s.record, cleanup), MaintenanceReads(s.grants, cleanup))
    && Spaced(MaintenanceReads(s.grants, cleanup))
  }

  lemma StartKeepsDistance(s: Life, e: Event, cleanup: bool)
    requires KeepsDistance(s, cleanup) && e.Start?
    ensures KeepsDistance(Step(s, e), cleanup)
  {
    hide Spaced, Remembered, BeginHalf, ClockFits;
    var s' := Step(s, e);
    if s'.grants != s.grants {
      assert s'.grants[..|s'.grants| - 1] == s.grants;
      var g := s'.grants[|s'.grants| - 1];
      if g.lease.cleanup == cleanup {
        BeginHalfKeepsDistance(g.half, g.lease.kind, Max(s.record.outcomeAt, s.record.checkedAt), e.at, e.jitter,
                               MaintenanceReads(s.grants, cleanup), g);
      }
    }
  }

  lemma OutcomeKeepsDistance(s: Life, e: Event, cleanup: bool)
    requires KeepsDistance(s, cleanup) && !e.Start?
    ensures KeepsDistance(Step(s, e), cleanup)
  {
    hide Spaced, Remembered, FailHalf, PublishHalf, HalfAdmitted, Hex32, MaintenanceReads, Accepted;
    var h, log := HalfOf(s.record, cleanup), MaintenanceReads(s.grants, cleanup);
    match e
    case Fail(hint, at) =>
      if s.lease.Some? {
        OutcomesKeepDistance(h, s.lease.value.kind, hint, at, false, NONE, log);
      }
    case Succeed(_, _, readings) =>
      forall settled, checkedAt {
        OutcomesKeepDistance(h, Policy, Hint(None, false), readings.outcome, settled, checkedAt, log);
      }
    case Lose =>
  }

  /** Whatever the clocks, answers and crashes: the maintenance reads of a half start at least a day
      after its last ordinary attempt, at least a day apart, at least a week after an attempt or read
      whose answer is on record as blocked, and there are never more than 65535 of them. */
  lemma {:induction false} MaintenanceReadsKeepTheirDistance(prepared: Stamp, events: seq<Event>, cleanup: bool)
    ensures var s := Run(prepared, events);
            KeepsDistance(s, cleanup) && |MaintenanceReads(s.grants, cleanup)| <= MAX_MAINTENANCE
  {
    if events != [] {
      var before, last := Run(prepared, events[..|events| - 1]), events[|events| - 1];
      MaintenanceReadsKeepTheirDistance(prepared, events[..|events| - 1], cleanup);
      hide Step;
      if last.Start? { StartKeepsDistance(before, last, cleanup); }
      else { OutcomeKeepsDistance(before, last, cleanup); }
    }
  }

  // ---- Lives stay acceptable ----

  predicate Sound(s: Life) {
    Accepted(s.record, s.prepared, false) && (s.lease.Some? ==> Fits(s.record, s.lease.value))
  }

  lemma StepStaysSound(s: Life, e: Event)
    requires Canonical(s.prepared) && Sound(s)
    ensures Sound(Step(s, e)) && Step(s, e).prepared == s.prepared
  {
    hide Accepted, AfterFailure, AfterSuccess, DnsTransitions.Begin, HalfFits, HalfAdmitted;
    match e
    case Start(mode, at, jitter, scope) =>
      if DnsTransitions.Begin(s.record, mode, at, jitter, scope.(prepared := s.prepared)).Some? {
        BeginKeepsAccepted(s.record, mode, at, jitter, scope.(prepared := s.prepared));
      }
    case _ =>
  }

  /** Under any clock readings, answers and crashes the record on file is acceptable, and a lease still held
      fits the record it was minted for. */
  lemma {:induction false} LivesStayAccepted(prepared: Stamp, events: seq<Event>)
    requires Canonical(prepared)
    ensures Sound(Run(prepared, events)) && Run(prepared, events).prepared == prepared
  {
    if events != [] {
      LivesStayAccepted(prepared, events[..|events| - 1]);
      hide Step;
      StepStaysSound(Run(prepared, events[..|events| - 1]), events[|events| - 1]);
    }
  }

  /** In any life, the outcome of a failed call admitted by the clock is saved exactly when it is stamped
      before 2101 and a blocking answer to a maintenance read still fits the calendar. */
  lemma FailuresAreSaved(prepared: Stamp, events: seq<Event>, hint: Hint, entry: Instant, at: Instant, deadline: Stamp)
    requires Canonical(prepared)
    requires var s := Run(prepared, events);
             s.lease.Some? && Allowed(s.record, s.lease.value, entry, deadline) && entry.sec <= at.sec
    ensures var s := Run(prepared, events);
            var next := AfterFailure(s.record, s.lease.value, hint, at);
            (Run(prepared, events + [Fail(hint, at)]).record == next) <==>
            at.sec < YEAR_2101 && (s.lease.value.kind == Maintaining
                ==> FitsCalendar(HalfOf(s.record, s.lease.value.cleanup), hint))
  {
    hide Accepted, FitsCalendar, AfterFailure, HalfFits, HalfAdmitted, StartedAt, Allowed;
    var s, more := Run(prepared, events), events + [Fail(hint, at)];
    assert more[..|more| - 1] == events;
    LivesStayAccepted(prepared, events);
    FailureKeepsAccepted(s.record, s.lease.value, hint, prepared, entry, at, deadline);
    OutcomeIsStamped(s.record, s.lease.value, hint, entry, at, deadline);
  }

  lemma OutcomeIsStamped(r: Record, l: Lease, hint: Hint, entry: Instant, at: Instant, deadline: Stamp)
    requires Fits(r, l) && Allowed(r, l, entry, deadline) && entry.sec <= at.sec
    ensures AfterFailure(r, l, hint, at) != r
  {
    assert AfterFailure(r, l, hint, at).outcomeAt == at.sec;
  }

  /** In any life, an observation admitted by the clock is saved exactly when it is stamped before 2101. */
  lemma ObservationsAreSaved(prepared: Stamp, events: seq<Event>, seen: Observed, checkpointed: bool, c: Readings,
      deadline: Stamp)
    requires Canonical(prepared)
    requires var s := Run(prepared, events);
             && s.lease.Some? && Ordered(c)
             && Allowed(s.record, s.lease.value, c.entry, deadline)
                 && Allowed(s.record, s.lease.value, c.last, deadline)
             && AfterSuccess(s.record, s.lease.value, seen, checkpointed, c).Some?
    ensures var s := Run(prepared, events);
            var next := AfterSuccess(s.record, s.lease.value, seen, checkpointed, c).value;
            (Run(prepared, events + [Succeed(seen, checkpointed, c)]).record == next) <==> c.outcome.sec < YEAR_2101
  {
    hide Accepted, AfterSuccess, HalfFits, HalfAdmitted, StartedAt, Allowed, Ordered;
    var s, more := Run(prepared, events), events + [Succeed(seen, checkpointed, c)];
    assert more[..|more| - 1] == events;
    LivesStayAccepted(prepared, events);
    SuccessKeepsAccepted(s.record, s.lease.value, seen, checkpointed, prepared, c, deadline);
    ObservationIsStamped(s.record, s.lease.value, seen, checkpointed, c, deadline);
  }

  lemma ObservationIsStamped(r: Record, l: Lease, seen: Observed, checkpointed: bool, c: Readings, deadline: Stamp)
    requires Fits(r, l) && Ordered(c) && Allowed(r, l, c.entry, deadline)
              && AfterSuccess(r, l, seen, checkpointed, c).Some?
    ensures AfterSuccess(r, l, seen, checkpointed, c).value != r
  {
    hide Observe, PublishHalf;
    assert AfterSuccess(r, l, seen, checkpointed, c).value.outcomeAt == c.outcome.sec;
  }

  // ---- How long a blocking answer to a maintenance read is heeded ----

  // The read in progress on a half; a blocking answer asks for a week from its start.
  predicate InProgress(s: Life, cleanup: bool) {
    && s.lease.Some? && s.lease.value.kind == Maintaining && s.lease.value.cleanup == cleanup
    && HalfOf(s.record, cleanup).maintenance.Some?
  }

  function Asked(s: Life, cleanup: bool): Stamp
    requires InProgress(s, cleanup)
  { HalfOf(s.record, cleanup).maintenance.value.lastAt + MAX_PROVIDER_WAIT }

  // Reads granted on a half beyond the first n grants start no earlier than the bound.
  predicate ReadsWait(grants: seq<Grant>, n: nat, cleanup: bool, bound: Stamp) {
    forall i | n <= i < |grants| :: Reads(grants[i], cleanup) ==> grants[i].at >= bound
  }

  // A half that keeps to the bound, whatever is answered next.
  predicate Heeds(h: Half, bound: Stamp) {
    h.maintenance.Some? && h.maintenance.value.notBefore >= bound
        && h.maintenance.value.lastAt + MAX_PROVIDER_WAIT >= bound
  }

  lemma OutcomesHeed(h: Half, kind: Kind, hint: Hint, at: Instant, settled: bool, checkedAt: Stamp, bound: Stamp)
    requires Heeds(h, bound)
    ensures Heeds(FailHalf(h, kind, hint, at), bound) && Heeds(PublishHalf(h, settled, checkedAt, at), bound)
  {
    hide RetryPolicy.Apply;
  }

  lemma StartHeeds(s: Life, e: Event, n: nat, cleanup: bool, bound: Stamp)
    requires e.Start? && Heeds(HalfOf(s.record, cleanup), bound) && n <= |s.grants|
              && ReadsWait(s.grants, n, cleanup, bound)
    ensures var s' := Step(s, e);
            Heeds(HalfOf(s'.record, cleanup), bound) && n <= |s'.grants| && ReadsWait(s'.grants, n, cleanup, bound)
  {
    hide RetryPolicy.Begin, ModeFits, ClockFits, MaintenanceFloor;
  }

  lemma OutcomeHeeds(s: Life, e: Event, cleanup: bool, bound: Stamp)
    requires !e.Start? && Heeds(HalfOf(s.record, cleanup), bound)
    ensures Heeds(HalfOf(Step(s, e).record, cleanup), bound) && Step(s, e).grants == s.grants
  {
    hide FailHalf, PublishHalf, HalfAdmitted, Hex32, Accepted, Heeds;
    var h := HalfOf(s.record, cleanup);
    match e
    case Fail(hint, at) =>
      if s.lease.Some? { OutcomesHeed(h, s.lease.value.kind, hint, at, false, NONE, bound); }
    case Succeed(_, _, readings) =>
      forall settled, checkedAt {
        OutcomesHeed(h, Policy, Hint(None, false), readings.outcome, settled, checkedAt, bound);
      }
    case Lose =>
  }

  lemma {:induction false} HeededFromThenOn(prepared: Stamp, events: seq<Event>, more: seq<Event>, cleanup: bool,
      bound: Stamp)
    requires Heeds(HalfOf(Run(prepared, events).record, cleanup), bound)
    ensures var n, later := |Run(prepared, events).grants|, Run(prepared, events + more);
            Heeds(HalfOf(later.record, cleanup), bound) && n <= |later.grants|
                && ReadsWait(later.grants, n, cleanup, bound)
    decreases |more|
  {
    if more == [] {
      assert events + more == events;
    } else {
      hide Step, Run, Heeds;
      HeededFromThenOn(prepared, events, more[..|more| - 1], cleanup, bound);
      LastStep(prepared, events, more);
      var before, last := Run(prepared, events + more[..|more| - 1]), more[|more| - 1];
      if last.Start? { StartHeeds(before, last, |Run(prepared, events).grants|, cleanup, bound); }
      else { OutcomeHeeds(before, last, cleanup, bound); }
    }
  }

  // A lease keeps the dates of the read it was minted for.
  predicate FreshRead(s: Life) {
    s.lease.Some? && s.lease.value.kind == Maintaining ==>
      && InProgress(s, s.lease.value.cleanup)
      && var m := HalfOf(s.record, s.lease.value.cleanup).maintenance.value; m.notBefore == m.lastAt + DAY
  }

  lemma {:induction false} HeldReadsAreFresh(prepared: Stamp, events: seq<Event>)
    ensures FreshRead(Run(prepared, events))
  {
    if events != [] {
      HeldReadsAreFresh(prepared, events[..|events| - 1]);
      StepKeepsFresh(Run(prepared, events[..|events| - 1]), events[|events| - 1]);
    }
  }

  lemma StepKeepsFresh(s: Life, e: Event)
    requires FreshRead(s)
    ensures FreshRead(Step(s, e))
  {
    hide RetryPolicy.Begin, ModeFits, ClockFits, MaintenanceFloor, AfterFailure, AfterSuccess, Accepted, Admitted;
  }

  // When the calendar and the count leave room for one more read a day on.
  predicate RoomForAnother(m: Maintenance) { m.attempts < MAX_MAINTENANCE && m.lastAt + 2 * DAY < YEAR_2101 }

  const ANY_SCOPE := Scope(NONE, NONE, false, false)

  // The read a day after the one in progress, asked for as early as possible.
  function NextDay(m: Maintenance): Event { Start(Maintain, Instant(m.lastAt + DAY, false), 0, ANY_SCOPE) }

  // Whatever ended a read without leaving anything on record, the next is granted a day after its start.
  lemma ForgottenReadsWaitADay(s: Life, cleanup: bool)
    requires Canonical(s.prepared) && Sound(s) && FreshRead(s) && InProgress(s, cleanup)
    requires RoomForAnother(HalfOf(s.record, cleanup).maintenance.value)
    ensures var m := HalfOf(s.record, cleanup).maintenance.value;
            var next := Step(s.(lease := None), NextDay(m));
            && |next.grants| == |s.grants| + 1 && next.grants[..|s.grants|] == s.grants
            && Reads(next.grants[|s.grants|], cleanup) && next.grants[|s.grants|].at == m.lastAt + DAY
  {
    hide RetryPolicy.Begin, RetryPolicy.Valid, ValidRecovery, Hex32;
  }

  // A half that no further read can start on.
  predicate Spent(h: Half, m: Maintenance) {
    && h.maintenance.Some?
    && h.maintenance.value.attempts == m.attempts && h.maintenance.value.lastAt == m.lastAt
    && h.maintenance.value.notBefore >= m.lastAt + DAY
  }

  predicate NoReads(grants: seq<Grant>, n: nat, cleanup: bool) {
    forall i | n <= i < |grants| :: !Reads(grants[i], cleanup)
  }

  lemma StartStaysSpent(s: Life, e: Event, n: nat, cleanup: bool, m: Maintenance)
    requires e.Start? && !RoomForAnother(m) && Spent(HalfOf(s.record, cleanup), m)
    requires n <= |s.grants| && NoReads(s.grants, n, cleanup)
    ensures var s' := Step(s, e);
            Spent(HalfOf(s'.record, cleanup), m) && n <= |s'.grants| && NoReads(s'.grants, n, cleanup)
  {
    hide RetryPolicy.Begin, ModeFits, ClockFits, MaintenanceFloor;
  }

  lemma OutcomeStaysSpent(s: Life, e: Event, cleanup: bool, m: Maintenance)
    requires !e.Start? && Spent(HalfOf(s.record, cleanup), m)
    ensures Spent(HalfOf(Step(s, e).record, cleanup), m) && Step(s, e).grants == s.grants
  {
    hide FailHalf, PublishHalf, HalfAdmitted, Hex32, Accepted, Spent;
    var h := HalfOf(s.record, cleanup);
    match e
    case Fail(hint, at) =>
      if s.lease.Some? { HalfStaysSpent(h, s.lease.value.kind, hint, at, false, NONE, m); }
    case Succeed(_, _, readings) =>
      forall settled, checkedAt {
        HalfStaysSpent(h, Policy, Hint(None, false), readings.outcome, settled, checkedAt, m);
      }
    case Lose =>
  }

  lemma HalfStaysSpent(h: Half, kind: Kind, hint: Hint, at: Instant, settled: bool, checkedAt: Stamp, m: Maintenance)
    requires Spent(h, m)
    ensures Spent(FailHalf(h, kind, hint, at), m) && Spent(PublishHalf(h, settled, checkedAt, at), m)
  {
    hide RetryPolicy.Apply;
  }

  lemma {:induction false} NoFurtherRead(prepared: Stamp, events: seq<Event>, more: seq<Event>, cleanup: bool,
      m: Maintenance)
    requires !RoomForAnother(m) && Spent(HalfOf(Run(prepared, events).record, cleanup), m)
    ensures var n, later := |Run(prepared, events).grants|, Run(prepared, events + more);
            Spent(HalfOf(later.record, cleanup), m) && n <= |later.grants| && NoReads(later.grants, n, cleanup)
    decreases |more|
  {
    if more == [] {
      assert events + more == events;
    } else {
      hide Step, Run, Spent, RoomForAnother;
      NoFurtherRead(prepared, events, more[..|more| - 1], cleanup, m);
      LastStep(prepared, events, more);
      var before, last := Run(prepared, events + more[..|more| - 1]), more[|more| - 1];
      if last.Start? { StartStaysSpent(before, last, |Run(prepared, events).grants|, cleanup, m); }
      else { OutcomeStaysSpent(before, last, cleanup, m); }
    }
  }

  // What a failure leaves of a life: its outcome on record, or the record as it was.
  lemma FailureEnds(prepared: Stamp, events: seq<Event>, hint: Hint, at: Instant)
    requires Run(prepared, events).lease.Some?
    ensures var s, now := Run(prepared, events), Run(prepared, events + [Fail(hint, at)]);
            now == s.(record := now.record, lease := None)
            && now.record in {s.record, AfterFailure(s.record, s.lease.value, hint, at)}
  {
    hide AfterFailure, Accepted, Admitted;
    LastStep(prepared, events, [Fail(hint, at)]);
    assert [Fail(hint, at)][..0] == [] && events + [] == events;
  }

  lemma BlockIsRecorded(s: Life, cleanup: bool, hint: Hint, at: Instant)
    requires InProgress(s, cleanup) && Blocking(HalfOf(s.record, cleanup).maintenance.value, hint)
    ensures Heeds(HalfOf(AfterFailure(s.record, s.lease.value, hint, at), cleanup), Asked(s, cleanup))
  {
    hide Blocking;
  }

  lemma AdmittedBlockIsSavedExactly(prepared: Stamp, events: seq<Event>, hint: Hint, entry: Instant, at: Instant,
      deadline: Stamp, cleanup: bool)
    requires Canonical(prepared) && InProgress(Run(prepared, events), cleanup)
    requires var s := Run(prepared, events);
             && Allowed(s.record, s.lease.value, entry, deadline) && entry.sec <= at.sec
             && Blocking(HalfOf(s.record, cleanup).maintenance.value, hint)
    ensures var s, now := Run(prepared, events), Run(prepared, events + [Fail(hint, at)]);
            && now == s.(record := now.record, lease := None)
            && now.record == (if at.sec < YEAR_2101 && Asked(s, cleanup) < YEAR_2101
                              then AfterFailure(s.record, s.lease.value, hint, at) else s.record)
  {
    hide Run, AfterFailure, Allowed, Blocking;
    FailuresAreSaved(prepared, events, hint, entry, at, deadline);
    FailureEnds(prepared, events, hint, at);
  }

  /** A blocking answer to a maintenance read, admitted by the clock, is heeded for a week from that
      read's start in every continuation if and only if it is saved, that is stamped before 2101 with the
      week still fitting the calendar, or no further read is possible at all. Otherwise only a day is kept. */
  lemma BlocksAreHeededExactly(prepared: Stamp, events: seq<Event>, hint: Hint, entry: Instant, at: Instant,
      deadline: Stamp, cleanup: bool)
    requires Canonical(prepared) && InProgress(Run(prepared, events), cleanup)
    requires var s := Run(prepared, events);
             && Allowed(s.record, s.lease.value, entry, deadline) && entry.sec <= at.sec
             && Blocking(HalfOf(s.record, cleanup).maintenance.value, hint)
    ensures var s := Run(prepared, events);
            var m := HalfOf(s.record, cleanup).maintenance.value;
            (forall more: seq<Event> ::
               ReadsWait(Run(prepared, events + [Fail(hint, at)] + more).grants, |s.grants|, cleanup,
                   Asked(s, cleanup)))
            <==> (at.sec < YEAR_2101 && Asked(s, cleanup) < YEAR_2101) || !RoomForAnother(m)
  {
    hide Run, AfterFailure, Sound, FreshRead, Allowed, Blocking, Step, Heeds, RoomForAnother;
    var s, failed, bound := Run(prepared, events), events + [Fail(hint, at)], Asked(Run(prepared, events), cleanup);
    var m := HalfOf(s.record, cleanup).maintenance.value;
    LivesStayAccepted(prepared, events);
    HeldReadsAreFresh(prepared, events);
    AdmittedBlockIsSavedExactly(prepared, events, hint, entry, at, deadline, cleanup);
    if at.sec < YEAR_2101 && bound < YEAR_2101 {
      BlockIsRecorded(s, cleanup, hint, at);
      forall more: seq<Event> ensures ReadsWait(Run(prepared, failed + more).grants, |s.grants|, cleanup, bound) {
        HeededFromThenOn(prepared, failed, more, cleanup, bound);
      }
    } else if !RoomForAnother(m) {
      FreshReadIsSpent(s, cleanup);
      forall more: seq<Event> ensures ReadsWait(Run(prepared, failed + more).grants, |s.grants|, cleanup, bound) {
        NoFurtherRead(prepared, failed, more, cleanup, m);
      }
    } else {
      assert Run(prepared, failed) == s.(lease := None);
      ForgottenReadsWaitADay(s, cleanup);
      LastStep(prepared, failed, [NextDay(m)]);
      assert failed + [NextDay(m)][..0] == failed;
      assert !ReadsWait(Run(prepared, failed + [NextDay(m)]).grants, |s.grants|, cleanup, bound);
    }
  }

  lemma FreshReadIsSpent(s: Life, cleanup: bool)
    requires FreshRead(s) && InProgress(s, cleanup)
    ensures Spent(HalfOf(s.record, cleanup), HalfOf(s.record, cleanup).maintenance.value)
  {
  }

  const BLOCKED := Hint(None, true)

  lemma OneMore(prepared: Stamp, events: seq<Event>, e: Event)
    ensures Run(prepared, events + [e]) == Step(Run(prepared, events), e)
  {
    assert (events + [e])[..|events|] == events;
  }

  /** A life in which a blocking answer is admitted in the last week of 2100 and refused when it is to be
      saved: the record stays as it was, and the next read is granted one day on instead of seven. */
  lemma BlockForgotten() returns (prepared: Stamp, events: seq<Event>, at: Instant)
    ensures Canonical(prepared) && InProgress(Run(prepared, events), false)
    ensures var s := Run(prepared, events);
            && Allowed(s.record, s.lease.value, at, NONE) && at.sec < YEAR_2101
            && Blocking(s.record.making.maintenance.value, BLOCKED) && !FitsCalendar(s.record.making, BLOCKED)
            && Run(prepared, events + [Fail(BLOCKED, at)]).record == s.record
            && var next := Run(prepared, events + [Fail(BLOCKED, at), NextDay(s.record.making.maintenance.value)]);
               && |next.grants| == |s.grants| + 1 && Reads(next.grants[|s.grants|], false)
               && next.grants[|s.grants|].at == Asked(s, false) - 6 * DAY
  {
    hide Run;
    prepared := YEAR_2101 - 20 * DAY;
    at := Instant(YEAR_2101 - 3 * DAY + 1, false);
    var open := Scope(prepared, prepared + DAY, true, true);
    var add := Start(Add, Instant(prepared, false), 0, open);
    var block := Fail(BLOCKED, Instant(prepared + 1, false));
    var maintain := Start(Maintain, Instant(YEAR_2101 - 3 * DAY, false), 0, ANY_SCOPE);
    events := [add, block, maintain];
    var s := PendingRead(prepared, add, block, maintain);
    assert Run(prepared, events) == s;
    HeldReadsAreFresh(prepared, events);
    LivesStayAccepted(prepared, events);
    AdmittedBlockIsSavedExactly(prepared, events, BLOCKED, at, at, NONE, false);
    var failed, again := events + [Fail(BLOCKED, at)], NextDay(s.record.making.maintenance.value);
    assert events + [Fail(BLOCKED, at), again] == failed + [again];
    OneMore(prepared, failed, again);
    ForgottenReadsWaitADay(s, false);
  }

  lemma PendingRead(prepared: Stamp, add: Event, block: Event, maintain: Event) returns (s: Life)
    requires prepared == YEAR_2101 - 20 * DAY
    requires add == Start(Add, Instant(prepared, false), 0, Scope(prepared, prepared + DAY, true, true))
    requires block == Fail(BLOCKED, Instant(prepared + 1, false))
    requires maintain == Start(Maintain, Instant(YEAR_2101 - 3 * DAY, false), 0, ANY_SCOPE)
    ensures Run(prepared, [add, block, maintain]) == s && s.record.state == Creating
    ensures InProgress(s, false)
              && s.record.making.maintenance.value
              == Maintenance(1, YEAR_2101 - 3 * DAY, YEAR_2101 - 2 * DAY, NONE, false, false)
  {
    var none: seq<Event> := [];
    assert none + [add] == [add] && [add] + [block] == [add, block]
        && [add, block] + [maintain] == [add, block, maintain];
    OneMore(prepared, none, add);
    OneMore(prepared, [add], block);
    OneMore(prepared, [add, block], maintain);
    hide Step;
    var started := Step(Life(prepared, PREPARED, None, []), add);
    var policy := Retry(1, prepared, prepared + 30);
    Added(prepared, add);
    Stuck(started, block, policy);
    s := Step(Step(started, block), maintain);
    Asking(Step(started, block), maintain, policy);
  }

  lemma Added(prepared: Stamp, add: Event)
    requires prepared == YEAR_2101 - 20 * DAY
    requires add == Start(Add, Instant(prepared, false), 0, Scope(prepared, prepared + DAY, true, true))
    ensures var s := Step(Life(prepared, PREPARED, None, []), add);
            && s.record == Record(Creating, "", NONE, NONE, Half(Retry(1, prepared, prepared + 30), false, None, None),
                IDLE)
            && s.lease == Some(Lease(false, false, Policy)) && s.prepared == prepared
  {
    assert RetryPolicy.Begin(FRESH, Instant(prepared, false), 0) == Some(Retry(1, prepared, prepared + 30));
  }

  lemma Stuck(s: Life, block: Event, policy: Retry)
    requires policy == Retry(1, s.prepared, s.prepared + 30) && s.prepared == YEAR_2101 - 20 * DAY
    requires s.record == Record(Creating, "", NONE, NONE, Half(policy, false, None, None), IDLE)
    requires s.lease == Some(Lease(false, false, Policy)) && block == Fail(BLOCKED, Instant(s.prepared + 1, false))
    ensures var s' := Step(s, block);
            && s'.record == Record(Creating, "", NONE, s.prepared + 1, Half(policy, true, None, None), IDLE)
            && s'.prepared == s.prepared
  {
  }

  lemma Asking(s: Life, maintain: Event, policy: Retry)
    requires policy == Retry(1, s.prepared, s.prepared + 30) && s.prepared == YEAR_2101 - 20 * DAY
    requires s.record == Record(Creating, "", NONE, s.prepared + 1, Half(policy, true, None, None), IDLE)
    requires maintain == Start(Maintain, Instant(YEAR_2101 - 3 * DAY, false), 0, ANY_SCOPE)
    ensures var s' := Step(s, maintain);
            && InProgress(s', false) && s'.record.state == Creating
            && s'.record.making.maintenance.value
                == Maintenance(1, YEAR_2101 - 3 * DAY, YEAR_2101 - 2 * DAY, NONE, false, false)
  {
  }
}
