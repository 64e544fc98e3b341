/**
 Starting a DNS attempt and recording its outcome on one plan record
 (beginDNSOperationAt in internal/inventorystore/dns_plan.go, executeStagingDNSAttemptAt in
 dns_operation.go, beginDNSMaintenance and deferDNSMaintenance in dns_maintenance.go).
 */
module DnsTransitions {
  import opened Common
  import opened RetryPolicy
  import opened DnsRecord

  datatype Mode = Add | Check | Cleanup | Recover | Maintain

  datatype Kind = Policy | Recovering | Maintaining

  // Single-use authority for one provider call.
  datatype Lease = Lease(readOnly: bool, cleanup: bool, kind: Kind)

  // The order and plan around the record: preparation stamp, the earlier of the two deadlines,
  // whether the order still awaits its challenge records and still lists this one.
  datatype Scope = Scope(prepared: Stamp, deadline: Stamp, orderOpen: bool, required: bool)

  // What the provider connector is told and reports back.
  datatype Observed = Observed(state: Phase, id: string)

  function HalfOf(r: Record, cleanup: bool): Half {
    if cleanup then r.removal else r.making
  }

  function WithHalf(r: Record, cleanup: bool, h: Half): Record {
    if cleanup then r.(removal := h) else r.(making := h)
  }

  predicate Pending(r: Record, cleanup: bool) {
    r.state == (if cleanup then Deleting else Creating)
  }

  // ---- Starting ----

  // The earliest next maintenance read of a half whose policies are exhausted.
  function NextMaintenance(h: Half): Option<Stamp> {
    match MaintenanceFloor(h)
    case NotTerminal => None
    case Floor(at, _) => Some(if h.maintenance.Some? then Max(at, h.maintenance.value.notBefore) else at)
  }

  function BeginMaintenance(h: Half, latest: Stamp, at: Instant): Option<Half> {
    var due := NextMaintenance(h);
    var done := if h.maintenance.Some? then h.maintenance.value.attempts else 0;
    if due.None? || done >= MAX_MAINTENANCE || !ClockInRange(at) then None else
    var now := at.Floor();
    if now < due.value || now < latest || now + DAY >= YEAR_2101 then None
    else Some(h.(maintenance := Some(Maintenance(done + 1, now, now + DAY, NONE, false, false))))
  }

  // The policy an attempt of this mode draws on; None when it is blocked or recovery is not yet due.
  function PolicyFor(h: Half, recovering: bool, at: Instant): Option<Retry> {
    if h.blocked then None
    else if !recovering then Some(h.policy)
    else if h.policy.attempts != MAX_ATTEMPTS || at.Floor() < h.policy.notBefore then None
    else if h.recovery.None? then Some(FRESH)
    else if h.recovery.value.blocked then None
    else Some(h.recovery.value.retry)
  }

  function BeginHalf(h: Half, kind: Kind, latest: Stamp, at: Instant, jitter: int): Option<Half> {
    if kind == Maintaining then BeginMaintenance(h, latest, at) else
    var prior := PolicyFor(h, kind == Recovering, at);
    if prior.None? then None else
    var retry := RetryPolicy.Begin(prior.value, at, jitter);
    if retry.None? then None
    else if kind == Recovering then Some(h.(recovery := Some(Recovery(retry.value, false))))
    else Some(h.(policy := retry.value))
  }

  predicate IsCleanup(r: Record, mode: Mode) {
    mode == Cleanup || (mode in {Check, Recover, Maintain} && r.state == Deleting)
  }

  predicate ModeFits(r: Record, mode: Mode) {
    match mode
    case Add => r.state in {New, Creating}
    case Cleanup => r.state == Created
    case Check | Recover | Maintain => r.state in {Creating, Deleting}
  }

  predicate ClockFits(r: Record, at: Instant, scope: Scope) {
    && ClockInRange(at)
    && at.Floor() >= Max(scope.prepared, Max(r.checkedAt, r.outcomeAt))
    && (r.state == New ==> at.sec < scope.deadline && scope.orderOpen && scope.required)
  }

  function KindOf(mode: Mode): Kind {
    if mode == Recover then Recovering else if mode == Maintain then Maintaining else Policy
  }

  /** The durable intent and the lease it mints, or None when the attempt is refused. */
  function Begin(r: Record, mode: Mode, at: Instant, jitter: int, scope: Scope): Option<(Record, Lease)> {
    if !ModeFits(r, mode) || !ClockFits(r, at, scope) then None else
    var cleanup := IsCleanup(r, mode);
    var half := BeginHalf(HalfOf(r, cleanup), KindOf(mode), Max(r.outcomeAt, r.checkedAt), at, jitter);
    if half.None? then None else
    var r' := WithHalf(r, cleanup, half.value).(
                state := if cleanup then Deleting else Creating, outcomeAt := NONE);
    Some((r', Lease(r.state in {Creating, Deleting}, cleanup, KindOf(mode))))
  }

  // ---- Executing the lease ----

  // The consistency checks on the active half made before the provider is contacted.
  predicate HalfAdmitted(h: Half, readOnly: bool, kind: Kind, outcomeAt: Stamp) {
    match kind
    case Policy => readOnly == (h.policy.attempts > 1)
    case Recovering =>
      readOnly && h.policy.attempts == MAX_ATTEMPTS && h.recovery.Some? && !h.recovery.value.blocked
    case Maintaining =>
      && readOnly && h.maintenance.Some? && !h.maintenance.value.resolved
      && h.maintenance.value.outcomeAt == NONE && outcomeAt == NONE
  }

  predicate Admitted(r: Record, l: Lease) {
    && Pending(r, l.cleanup)
    && (l.cleanup ==> r.removal.policy != FRESH)
    && HalfAdmitted(HalfOf(r, l.cleanup), l.readOnly, l.kind, r.outcomeAt)
  }

  function StartedAt(h: Half, kind: Kind): Stamp {
    match kind
    case Policy => h.policy.lastAt
    case Recovering => if h.recovery.Some? then h.recovery.value.retry.lastAt else NONE
    case Maintaining => if h.maintenance.Some? then h.maintenance.value.lastAt else NONE
  }

  // What the connector is told about the record.
  function Prior(r: Record, l: Lease): Observed {
    if l.cleanup then Observed(if l.readOnly then Deleting else Created, r.id)
    else Observed(if l.readOnly then Creating else New, "")
  }

  // The part of the `allowed` closure that the clock decides.
  predicate Allowed(r: Record, l: Lease, now: Instant, deadline: Stamp) {
    && ClockInRange(now)
    && now.Floor() >= StartedAt(HalfOf(r, l.cleanup), l.kind)
    && (l.cleanup || l.readOnly || now.Floor() < deadline)
  }

  // Whether a provider's answer to a maintenance read cannot be honoured as it stands.
  predicate Blocking(m: Maintenance, h: Hint) {
    h.blocked
    || (h.notBefore.Some?
        && var bound := h.notBefore.value.Ceil(); !Canonical(bound) || bound - m.lastAt > MAX_PROVIDER_WAIT)
  }

  function DeferMaintenance(m: Maintenance, h: Hint, at: Instant): Maintenance {
    (if Blocking(m, h) then m.(blocked := true, notBefore := m.lastAt + MAX_PROVIDER_WAIT)
     else if h.notBefore.Some? then m.(notBefore := Max(m.notBefore, h.notBefore.value.Ceil()))
     else m).(outcomeAt := at.Floor())
  }

  function FailHalf(h: Half, kind: Kind, hint: Hint, at: Instant): Half {
    match kind
    case Policy =>
      var wait := RetryPolicy.Apply(h.policy, hint);
      if wait.None? then h.(blocked := true) else h.(policy := wait.value)
    case Recovering =>
      if h.recovery.None? then h else
      var wait := RetryPolicy.Apply(h.recovery.value.retry, hint);
      h.(recovery := Some(if wait.None? then h.recovery.value.(blocked := true)
          else h.recovery.value.(retry := wait.value)))
    case Maintaining =>
      if h.maintenance.None? then h else
      h.(maintenance := Some(DeferMaintenance(h.maintenance.value, hint, at)))
  }

  /** The record a failed provider call leaves; the intent itself is never undone. */
  function AfterFailure(r: Record, l: Lease, hint: Hint, at: Instant): Record {
    WithHalf(r, l.cleanup, FailHalf(HalfOf(r, l.cleanup), l.kind, hint, at)).(outcomeAt := at.Floor())
  }

  // The whole second an answer asks to wait for, a fraction counting as a second more.
  function Second(i: Instant): Stamp { i.sec + if i.frac then 1 else 0 }

  // What is on record about the latest attempt of one kind: when it started, when the next may, and
  // whether the provider refused any.
  datatype Wait = Wait(started: Stamp, notBefore: Stamp, blocked: bool)

  function WaitOf(h: Half, kind: Kind): Option<Wait> {
    match kind
    case Policy => Some(Wait(h.policy.lastAt, h.policy.notBefore, h.blocked))
    case Recovering =>
      if h.recovery.None? then None
      else
        var recovery := h.recovery.value;
        Some(Wait(recovery.retry.lastAt, recovery.retry.notBefore, recovery.blocked))
    case Maintaining =>
      if h.maintenance.None? then None
      else Some(Wait(h.maintenance.value.lastAt, h.maintenance.value.notBefore, h.maintenance.value.blocked))
  }

  // An answer that ends the attempts of a policy: it blocks, or asks for a time outside the years 2020 to
  // 2100 or more than seven days after the attempt it answers.
  predicate Refuses(hint: Hint, started: Stamp) {
    || hint.blocked
    || (hint.notBefore.Some?
        && var asked := Second(hint.notBefore.value);
           asked < YEAR_2020 || asked >= YEAR_2101 || asked > started + 7 * 86400)
  }

  // What an answer makes of a wait. Maintenance is never over: a refusal costs it a week.
  predicate Honours(before: Wait, hint: Hint, kind: Kind, after: Wait) {
    && after.started == before.started
    && if Refuses(hint, before.started) then
         && after.blocked
         && after.notBefore == (if kind == Maintaining then before.started + 7 * 86400 else before.notBefore)
       else
         && !after.blocked && after.notBefore >= before.notBefore
         && (hint.notBefore.None? ==> after.notBefore == before.notBefore)
         && (hint.notBefore.Some? ==>
               && after.notBefore >= Second(hint.notBefore.value)
               && after.notBefore in {before.notBefore, Second(hint.notBefore.value)})
  }

  // The two records are alike but for one half, and there but for the waits of one kind.
  predicate OnlyWaits(r: Record, r': Record, l: Lease) {
    var h, h' := HalfOf(r, l.cleanup), HalfOf(r', l.cleanup);
    && r'.state == r.state && r'.id == r.id && r'.checkedAt == r.checkedAt
    && HalfOf(r', !l.cleanup) == HalfOf(r, !l.cleanup)
    && h'.policy.attempts == h.policy.attempts
    && (h'.recovery.Some? <==> h.recovery.Some?) && (h'.maintenance.Some? <==> h.maintenance.Some?)
    && (h.recovery.Some? ==> h'.recovery.value.retry.attempts == h.recovery.value.retry.attempts)
    && (h.maintenance.Some? ==> h'.maintenance.value.attempts == h.maintenance.value.attempts)
    && (l.kind != Policy ==> WaitOf(h', Policy) == WaitOf(h, Policy))
    && (l.kind != Recovering ==> WaitOf(h', Recovering) == WaitOf(h, Recovering))
    && (l.kind != Maintaining ==> h'.maintenance == h.maintenance)
  }

  // The state, provider id and check stamp an observation leaves; None when it is refused.
  function Observe(r: Record, l: Lease, seen: Observed, checkpointed: bool, at: Instant): Option<Record> {
    if l.cleanup then
      if seen.id != "" && seen.id != r.id then None
      else if seen.state == Deleted && seen.id == "" then Some(r.(state := Deleted, checkedAt := at.Floor()))
      else if l.readOnly && seen == Prior(r, l) then Some(r)
      else None
    else if seen.state == Borrowed && seen.id == "" && !l.readOnly && !checkpointed then
      Some(r.(state := Borrowed, checkedAt := at.Floor()))
    else if seen.state == Created && Hex32(seen.id) && (l.readOnly || checkpointed) then
      Some(r.(state := Created, id := seen.id, checkedAt := at.Floor()))
    else if l.readOnly && seen == Prior(r, l) then Some(r)
    else None
  }

  // A maintenance receipt carries the check stamp when it settled the record.
  function PublishHalf(h: Half, settled: bool, checkedAt: Stamp, at: Instant): Half {
    if h.maintenance.None? then h else
    h.(maintenance := Some(h.maintenance.value.(
         resolved := settled, outcomeAt := if settled then checkedAt else at.Floor())))
  }

  // Clock readings of a successful execution, in the order they are taken: the one that admitted
  // the provider's answer, the check stamp, the last permission check, the published outcome.
  datatype Readings = Readings(entry: Instant, checked: Instant, last: Instant, outcome: Instant)

  predicate Ordered(c: Readings) {
    c.entry.sec <= c.checked.sec <= c.last.sec <= c.outcome.sec
  }

  function AfterSuccess(r: Record, l: Lease, seen: Observed, checkpointed: bool, c: Readings): Option<Record> {
    var o := Observe(r, l, seen, checkpointed, c.checked);
    if o.None? then None else
    var r' := o.value.(outcomeAt := c.outcome.Floor());
    if l.kind != Maintaining then Some(r') else
    var settled := r'.state == (if l.cleanup then Deleted else Created);
    Some(WithHalf(r', l.cleanup, PublishHalf(HalfOf(r', l.cleanup), settled, r'.checkedAt, c.outcome)))
  }

  // ---- Every lease Begin mints keeps the record acceptable, whatever comes of it ----

  // What a lease knows about the half it was minted for.
  predicate HalfFits(h: Half, kind: Kind) {
    match kind
    case Policy => !h.blocked && h.recovery.None? && h.maintenance.None?
    case Recovering => !h.blocked && h.recovery.Some? && !h.recovery.value.blocked && h.maintenance.None?
    case Maintaining => Terminal(h) && h.maintenance.Some? && !h.maintenance.value.blocked
  }

  predicate Fits(r: Record, l: Lease) {
    Admitted(r, l) && r.outcomeAt == NONE && HalfFits(HalfOf(r, l.cleanup), l.kind)
  }

  predicate HalfValid(h: Half, pending: bool, settled: bool, checkedAt: Stamp, outcomeAt: Stamp) {
    && ValidMaintenance(h, pending, settled, checkedAt, outcomeAt)
    && ValidRecovery(h, pending, settled, checkedAt)
  }

  lemma BeginHalfKeepsValid(h: Half, kind: Kind, latest: Stamp, at: Instant, jitter: int, pending: bool,
      checkedAt: Stamp, outcomeAt: Stamp)
    requires HalfValid(h, pending, false, checkedAt, outcomeAt) && RetryPolicy.Valid(h.policy)
    requires BeginHalf(h, kind, latest, at, jitter).Some?
    requires (kind == Policy || pending) && pending == (h.policy.attempts >= 1)
    ensures var h' := BeginHalf(h, kind, latest, at, jitter).value;
            && HalfValid(h', true, false, checkedAt, NONE) && RetryPolicy.Valid(h'.policy)
            && HalfFits(h', kind) && StartedAt(h', kind) == at.Floor()
            && HalfAdmitted(h', pending, kind, NONE)
            && (kind == Policy ==> h' == h.(policy := h'.policy) && h'.policy.attempts == h.policy.attempts + 1)
            && (kind != Policy ==> h' == h.(recovery := h'.recovery, maintenance := h'.maintenance))
            && LatestRead(h') >= NONE
  {
  }

  /** A failed attempt keeps its half valid, unless a week's wait no longer fits the calendar. */
  lemma FailHalfKeepsValid(h: Half, kind: Kind, hint: Hint, at: Instant, checkedAt: Stamp)
    requires HalfValid(h, true, false, checkedAt, NONE) && RetryPolicy.Valid(h.policy) && h.policy.attempts >= 1
    requires HalfFits(h, kind) && StartedAt(h, kind) <= at.sec && at.sec > NONE
    ensures var h' := FailHalf(h, kind, hint, at);
            && HalfKept(h, h')
            && WaitOf(h, kind).Some? && WaitOf(h', kind).Some?
            && Honours(WaitOf(h, kind).value, hint, kind, WaitOf(h', kind).value)
            && (at.sec < YEAR_2101 ==>
                  (HalfValid(h', true, false, checkedAt, at.sec) <==>
                   (kind == Maintaining ==> FitsCalendar(h, hint))))
  {
    FailHalfStaysValid(h, kind, hint, at, checkedAt);
    hide ValidMaintenance;
    FailHalfHonours(h, kind, hint, at);
  }

  lemma FailHalfStaysValid(h: Half, kind: Kind, hint: Hint, at: Instant, checkedAt: Stamp)
    requires HalfValid(h, true, false, checkedAt, NONE) && RetryPolicy.Valid(h.policy) && h.policy.attempts >= 1
    requires HalfFits(h, kind) && StartedAt(h, kind) <= at.sec && at.sec > NONE
    ensures var h' := FailHalf(h, kind, hint, at);
            && HalfKept(h, h')
            && (at.sec < YEAR_2101 ==>
                  (HalfValid(h', true, false, checkedAt, at.sec) <==>
                   (kind == Maintaining ==> FitsCalendar(h, hint))))
  {
  }

  lemma FailHalfHonours(h: Half, kind: Kind, hint: Hint, at: Instant)
    requires HalfFits(h, kind) && RetryPolicy.Valid(h.policy) && h.policy.attempts >= 1
    requires h.recovery.Some? ==> RetryPolicy.Valid(h.recovery.value.retry) && h.recovery.value.retry.attempts >= 1
    ensures var h' := FailHalf(h, kind, hint, at);
            WaitOf(h, kind).Some? && WaitOf(h', kind).Some?
            && Honours(WaitOf(h, kind).value, hint, kind, WaitOf(h', kind).value)
  {
    hide MaintenanceFloor, Terminal;
  }

  lemma FailureChangesWaitsOnly(r: Record, l: Lease, hint: Hint, at: Instant)
    ensures var r' := AfterFailure(r, l, hint, at);
            && OnlyWaits(r, r', l) && r'.outcomeAt == at.sec
            && HalfOf(r', l.cleanup) == FailHalf(HalfOf(r, l.cleanup), l.kind, hint, at)
  {
    hide Blocking;
  }

  predicate FitsCalendar(h: Half, hint: Hint) {
    h.maintenance.Some? && Blocking(h.maintenance.value, hint) ==>
      h.maintenance.value.lastAt + MAX_PROVIDER_WAIT < YEAR_2101
  }

  // The same attempts on record, a policy still valid.
  predicate HalfKept(h: Half, h': Half) {
    && RetryPolicy.Valid(h'.policy)
    && h'.policy.attempts == h.policy.attempts && h'.policy.lastAt == h.policy.lastAt
    && LatestRead(h') == LatestRead(h)
  }

  lemma SettleHalfKeepsValid(h: Half, kind: Kind, checkedAt: Stamp, checkedAt': Stamp, at: Instant)
    requires HalfValid(h, true, false, checkedAt, NONE)
    requires HalfFits(h, kind) && Canonical(checkedAt') && StartedAt(h, kind) <= checkedAt'
    requires RetryPolicy.Valid(h.policy) && h.policy.attempts >= 1
    ensures var h' := if kind == Maintaining then PublishHalf(h, true, checkedAt', at) else h;
            && HalfKept(h, h') && h'.policy == h.policy && h'.blocked == h.blocked
            && HalfValid(h', false, true, checkedAt', at.sec)
            && (kind == Policy ==> HalfValid(h', false, false, checkedAt', at.sec))
            && (kind != Maintaining ==> !h'.blocked)
            && (h'.blocked ==> Resolved(h', checkedAt'))
  {
  }

  lemma UnsettledReadKeepsValid(h: Half, kind: Kind, checkedAt: Stamp, at: Instant)
    requires HalfValid(h, true, false, checkedAt, NONE)
    requires HalfFits(h, kind) && StartedAt(h, kind) <= at.sec && Canonical(at.sec)
    ensures var h' := if kind == Maintaining then PublishHalf(h, false, checkedAt, at) else h;
            && HalfKept(h, h') == RetryPolicy.Valid(h.policy) && h'.policy == h.policy && h'.blocked == h.blocked
            && HalfValid(h', true, false, checkedAt, at.sec)
  {
  }

  // A half with nothing pending is indifferent to later outcomes and checks.
  lemma IdleHalfStaysValid(h: Half, settled: bool, settled': bool, checkedAt: Stamp, checkedAt': Stamp,
      outcomeAt: Stamp, outcomeAt': Stamp)
    requires HalfValid(h, false, settled, checkedAt, outcomeAt)
    requires checkedAt <= checkedAt' && (settled ==> settled')
    ensures HalfValid(h, false, settled', checkedAt', outcomeAt')
    ensures settled ==> LatestRead(h) <= Max(checkedAt, NONE)
    ensures !settled ==> LatestRead(h) == NONE && HalfValid(h, true, false, checkedAt', outcomeAt')
  {
  }

  lemma ActiveStartIsLatest(h: Half, kind: Kind, checkedAt: Stamp, outcomeAt: Stamp)
    requires HalfValid(h, true, false, checkedAt, outcomeAt) && HalfFits(h, kind) && RetryPolicy.Valid(h.policy)
    ensures Max(h.policy.lastAt, LatestRead(h)) == StartedAt(h, kind)
  {
  }

  /** A granted start leaves an acceptable record, and a lease that fits it. */
  lemma BeginKeepsAccepted(r: Record, mode: Mode, at: Instant, jitter: int, scope: Scope)
    requires Accepted(r, scope.prepared, false) && Canonical(scope.prepared)
    requires Begin(r, mode, at, jitter, scope).Some?
    ensures var (r', l) := Begin(r, mode, at, jitter, scope).value;
            && Accepted(r', scope.prepared, false) && Fits(r', l)
            && StartedAt(HalfOf(r', l.cleanup), l.kind) == at.Floor()
  {
    hide MaintenanceFloor, ValidMaintenance, ValidRecovery, BeginHalf;
    var cleanup := IsCleanup(r, mode);
    var h := HalfOf(r, cleanup);
    var pending := Pending(r, cleanup);
    if !pending && !cleanup {
      IdleHalfStaysValid(h, false, false, r.checkedAt, r.checkedAt, r.outcomeAt, r.outcomeAt);
    }
    BeginHalfKeepsValid(h, KindOf(mode), Max(r.outcomeAt, r.checkedAt), at, jitter, pending, r.checkedAt, r.outcomeAt);
    IdleHalfStaysValid(HalfOf(r, !cleanup), if cleanup then MakingSettled(r) else false, if cleanup then true
        else false, r.checkedAt, r.checkedAt, r.outcomeAt, NONE);
  }

  /** A failed provider call changes nothing but its outcome's stamp and the wait of its own kind, which
      becomes what the provider asked for; the record stays acceptable exactly when that stamp is before the
      year 2101 and a blocking answer to a maintenance read still fits the calendar. */
  lemma FailureKeepsAccepted(r: Record, l: Lease, h: Hint, prepared: Stamp, entry: Instant, at: Instant,
      deadline: Stamp)
    requires Accepted(r, prepared, false) && Fits(r, l)
    requires Allowed(r, l, entry, deadline) && entry.sec <= at.sec
    ensures Accepted(AfterFailure(r, l, h, at), prepared, false) <==>
            at.sec < YEAR_2101 && (l.kind == Maintaining ==> FitsCalendar(HalfOf(r, l.cleanup), h))
    ensures var r' := AfterFailure(r, l, h, at);
            var before, after := WaitOf(HalfOf(r, l.cleanup), l.kind), WaitOf(HalfOf(r', l.cleanup), l.kind);
            && OnlyWaits(r, r', l) && r'.outcomeAt == at.sec
            && before.Some? && after.Some? && Honours(before.value, h, l.kind, after.value)
  {
    hide MaintenanceFloor, ValidMaintenance, ValidRecovery, FailHalf, FitsCalendar, StartedAt, HalfFits, WaitOf,
        Honours, OnlyWaits;
    FailureChangesWaitsOnly(r, l, h, at);
    var active := HalfOf(r, l.cleanup);
    ActiveStartIsLatest(active, l.kind, r.checkedAt, r.outcomeAt);
    FailHalfKeepsValid(active, l.kind, h, at, r.checkedAt);
    IdleHalfStaysValid(HalfOf(r, !l.cleanup), l.cleanup, l.cleanup, r.checkedAt, r.checkedAt, NONE, at.sec);
  }

  /** A recorded observation leaves an acceptable record exactly when its outcome is stamped before 2101. */
  lemma SuccessKeepsAccepted(r: Record, l: Lease, seen: Observed, checkpointed: bool, prepared: Stamp, c: Readings,
      deadline: Stamp)
    requires Accepted(r, prepared, false) && Fits(r, l)
    requires Ordered(c) && Allowed(r, l, c.entry, deadline) && Allowed(r, l, c.last, deadline)
    requires AfterSuccess(r, l, seen, checkpointed, c).Some?
    ensures Accepted(AfterSuccess(r, l, seen, checkpointed, c).value, prepared, false) <==> c.outcome.sec < YEAR_2101
  {
    hide MaintenanceFloor, ValidMaintenance, ValidRecovery, StartedAt, HalfFits, Hex32, LatestRead, PublishHalf;
    var active := HalfOf(r, l.cleanup);
    ActiveStartIsLatest(active, l.kind, r.checkedAt, r.outcomeAt);
    var other := HalfOf(r, !l.cleanup);
    var r' := AfterSuccess(r, l, seen, checkpointed, c).value;
    if r'.state == r.state {
      IdleHalfStaysValid(other, l.cleanup, l.cleanup, r.checkedAt, r.checkedAt, NONE, c.outcome.sec);
      if c.outcome.sec < YEAR_2101 {
        UnsettledReadKeepsValid(active, l.kind, r.checkedAt, c.outcome);
      }
    } else {
      assert r.checkedAt <= c.checked.sec;
      IdleHalfStaysValid(other, l.cleanup, l.cleanup, r.checkedAt, c.checked.sec, NONE, c.outcome.sec);
      SettleHalfKeepsValid(active, l.kind, r.checkedAt, c.checked.sec, c.outcome);
    }
  }
}
