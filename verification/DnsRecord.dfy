/**
 One record of the durable DNS plan and the conditions under which it is accepted
 (internal/inventorystore/dns_plan.go, dns_operation.go, dns_maintenance.go).
 */
module DnsRecord {
  import opened Common
  import opened RetryPolicy

  const MAX_MAINTENANCE := 65535

  datatype Phase = New | Creating | Created | Borrowed | Deleting | Deleted

  datatype Recovery = Recovery(retry: Retry, blocked: bool)

  datatype Maintenance = Maintenance(
    attempts: int, lastAt: Stamp, notBefore: Stamp, outcomeAt: Stamp, blocked: bool, resolved: bool)

  // The policies of one half of a record's life: making the provider record, or removing it.
  // A FRESH policy in the removal half is the source's absent cleanup pointer.
  datatype Half = Half(policy: Retry, blocked: bool, recovery: Option<Recovery>, maintenance: Option<Maintenance>)

  // Only the fields that change; domain, name, value and owner marker are fixed at preparation.
  datatype Record = Record(
    state: Phase, id: string, checkedAt: Stamp, outcomeAt: Stamp, making: Half, removal: Half)

  const IDLE := Half(FRESH, false, None, None)
  const PREPARED := Record(New, "", NONE, NONE, IDLE, IDLE)

  function Max(a: int, b: int): int { if a < b then b else a }

  predicate Hex32(s: string) {
    |s| == 32 && forall c | c in s :: '0' <= c <= '9' || 'a' <= c <= 'f'
  }

  // ---- Maintenance ----

  datatype Floor = NotTerminal | Floor(at: Stamp, blocked: bool)

  predicate Terminal(h: Half) {
    && h.policy.attempts != 0
    && (h.blocked
        || (h.policy.attempts == MAX_ATTEMPTS && h.recovery.Some?
            && (h.recovery.value.blocked || h.recovery.value.retry.attempts == MAX_ATTEMPTS)))
  }

  // When a half's policies are exhausted, the earliest maintenance read and whether a provider blocked them.
  function MaintenanceFloor(h: Half): Floor {
    if !Terminal(h) then NotTerminal else
    var recovery := if h.recovery.Some? then h.recovery.value.retry else h.policy;
    var stuck := h.blocked || (h.recovery.Some? && h.recovery.value.blocked);
    var floor := Max(h.policy.lastAt, recovery.lastAt) + (if stuck then MAX_PROVIDER_WAIT else DAY);
    if floor >= YEAR_2101 then NotTerminal
    else Floor(Max(Max(h.policy.notBefore, recovery.notBefore), floor), stuck)
  }

  predicate Resolved(h: Half, checkedAt: Stamp) {
    h.maintenance.Some? && var m := h.maintenance.value; m.resolved && m.outcomeAt != NONE && checkedAt >= m.lastAt
  }

  // The dates of a maintenance read, whatever the record around it.
  predicate MaintenanceDated(m: Maintenance, floor: Stamp) {
    && 1 <= m.attempts <= MAX_MAINTENANCE
    && Canonical(m.lastAt) && Canonical(m.notBefore)
    && m.lastAt >= floor
    && DAY <= m.notBefore - m.lastAt <= MAX_PROVIDER_WAIT
    && (m.blocked ==> m.notBefore - m.lastAt >= MAX_PROVIDER_WAIT)
    && (m.outcomeAt != NONE ==> Canonical(m.outcomeAt) && m.outcomeAt >= m.lastAt)
  }

  // pending: this half's provider operation is unsettled; settled: it is known to have happened.
  predicate ValidMaintenance(h: Half, pending: bool, settled: bool, checkedAt: Stamp, outcomeAt: Stamp) {
    h.maintenance.Some? ==>
      var m := h.maintenance.value;
      var floor := MaintenanceFloor(h);
      && floor.Floor? && MaintenanceDated(m, floor.at)
      && if m.resolved then settled && !m.blocked && m.outcomeAt != NONE && checkedAt >= m.outcomeAt
         else pending && m.outcomeAt == outcomeAt
  }

  predicate ValidRecovery(h: Half, pending: bool, settled: bool, checkedAt: Stamp) {
    h.recovery.Some? ==>
      var recovery := h.recovery.value;
      && (pending || settled)
      && RetryPolicy.Valid(recovery.retry) && recovery.retry.attempts >= 1
      && h.policy.attempts == MAX_ATTEMPTS
      && recovery.retry.lastAt >= h.policy.notBefore
      && !h.blocked
      && (pending || ((recovery.blocked ==> Resolved(h, checkedAt)) && checkedAt >= recovery.retry.lastAt))
  }

  // ---- The record as a whole ----

  predicate MakingSettled(r: Record) { r.state in {Created, Deleting, Deleted} }

  predicate ValidHalves(r: Record) {
    && ValidMaintenance(r.making, r.state == Creating, MakingSettled(r), r.checkedAt, r.outcomeAt)
    && ValidMaintenance(r.removal, r.state == Deleting, r.state == Deleted, r.checkedAt, r.outcomeAt)
    && ValidRecovery(r.making, r.state == Creating, MakingSettled(r), r.checkedAt)
    && ValidRecovery(r.removal, r.state == Deleting, r.state == Deleted, r.checkedAt)
  }

  function LatestRead(h: Half): Stamp {
    Max(if h.recovery.Some? then h.recovery.value.retry.lastAt else NONE,
        if h.maintenance.Some? then h.maintenance.value.lastAt else NONE)
  }

  // The latest start of any attempt on record.
  function LatestStart(r: Record): Stamp {
    var base := if r.removal.policy == FRESH then r.making.policy.lastAt else r.removal.policy.lastAt;
    Max(base, Max(LatestRead(r.making), LatestRead(r.removal)))
  }

  predicate Checked(r: Record) {
    Canonical(r.checkedAt) && r.checkedAt >= r.making.policy.lastAt
  }

  predicate RemovalUntouched(r: Record) {
    r.removal.policy == FRESH && !r.removal.blocked
  }

  predicate RemovalStarted(r: Record, prepared: Stamp) {
    && Checked(r) && (r.making.blocked ==> Resolved(r.making, r.checkedAt)) && Hex32(r.id)
    && RetryPolicy.Valid(r.removal.policy) && r.removal.policy.attempts >= 1
    && r.removal.policy.lastAt >= r.making.policy.lastAt && r.removal.policy.lastAt >= prepared
  }

  predicate ValidPhase(r: Record, prepared: Stamp, historical: bool) {
    if r.state == New then
      && r.making.policy.attempts == 0 && !r.making.blocked && r.id == "" && RemovalUntouched(r)
      && r.checkedAt == NONE && r.outcomeAt == NONE
    else
      && r.making.policy.attempts >= 1 && r.making.policy.lastAt >= prepared
      && match r.state
         case Creating =>
           !historical && r.id == "" && RemovalUntouched(r) && r.checkedAt == NONE
         case Borrowed =>
           && Checked(r) && r.outcomeAt >= r.checkedAt
           && !r.making.blocked && r.id == "" && RemovalUntouched(r)
         case Created =>
           && !historical && Checked(r) && r.outcomeAt >= r.checkedAt
           && (r.making.blocked ==> Resolved(r.making, r.checkedAt))
           && Hex32(r.id) && RemovalUntouched(r)
         case Deleting =>
           RemovalStarted(r, prepared) && !historical && r.checkedAt <= r.removal.policy.lastAt
         case Deleted =>
           && RemovalStarted(r, prepared)
           && (r.removal.blocked ==> Resolved(r.removal, r.checkedAt))
           && r.checkedAt >= r.removal.policy.lastAt && r.outcomeAt >= r.checkedAt
  }

  /** What opening the plan demands of each record: a valid retry policy and validDNSPlanRecord. */
  predicate Accepted(r: Record, prepared: Stamp, historical: bool) {
    && RetryPolicy.Valid(r.making.policy)
    && ValidHalves(r)
    && (r.outcomeAt != NONE ==> Canonical(r.outcomeAt) && r.outcomeAt >= LatestStart(r))
    && ValidPhase(r, prepared, historical)
  }

  // ---- What an accepted record says ----

  // An attempt of a policy that was made, and the wait after it.
  predicate Dated(p: Retry, from: Stamp) {
    && 1 <= p.attempts <= 6 && from <= p.lastAt < p.notBefore <= p.lastAt + 7 * 86400
    && YEAR_2020 <= p.lastAt && p.notBefore < YEAR_2101
  }

  /** An accepted record tells its own story. It names a provider record exactly from creation on, was looked at
      exactly from then or from being borrowed on, has attempts at making it unless it is new and at removing
      it exactly once that began, each dated in order and none after the outcome on record; as history it is
      new, borrowed or gone. */
  lemma RecordsTellTheirStory(r: Record, prepared: Stamp, historical: bool)
    requires Accepted(r, prepared, historical)
    ensures r.state in {Created, Deleting, Deleted} <==> r.id != ""
    ensures r.id != "" ==> Hex32(r.id)
    ensures r.state in {Borrowed, Created, Deleting, Deleted} <==> r.checkedAt != NONE
    ensures r.checkedAt != NONE ==> r.making.policy.lastAt <= r.checkedAt
    ensures if r.state == New then r.making.policy == FRESH else Dated(r.making.policy, prepared)
    ensures if r.state in {Deleting, Deleted} then Dated(r.removal.policy, prepared) else r.removal.policy == FRESH
    ensures r.state in {Deleting, Deleted} ==> r.making.policy.lastAt <= r.removal.policy.lastAt
    ensures r.state == Deleting ==> r.checkedAt <= r.removal.policy.lastAt
    ensures r.state == Deleted ==> r.removal.policy.lastAt <= r.checkedAt <= r.outcomeAt
    ensures r.state in {Borrowed, Created} ==> r.checkedAt <= r.outcomeAt
    ensures r.outcomeAt != NONE ==>
              && (r.removal.policy == FRESH ==> r.making.policy.lastAt <= r.outcomeAt)
              && r.removal.policy.lastAt <= r.outcomeAt
              && LatestRead(r.making) <= r.outcomeAt && LatestRead(r.removal) <= r.outcomeAt
    ensures historical ==> r.state in {New, Borrowed, Deleted}
  {
    hide ValidMaintenance, ValidRecovery, Hex32;
    HexIsSomething(r.id);
  }

  lemma HexIsSomething(id: string)
    ensures Hex32(id) ==> id != ""
  {
  }

  /** Recovery begins only after six ordinary attempts none of which was refused, and maintenance only when
      nothing else is left; neither starts before the attempts it follows. */
  lemma ReadsFollowAttempts(r: Record, prepared: Stamp, historical: bool, cleanup: bool)
    requires Accepted(r, prepared, historical)
    ensures var h := if cleanup then r.removal else r.making;
            && (h.recovery.Some? ==>
                  && h.policy.attempts == 6 && !h.blocked && h.policy.notBefore <= h.recovery.value.retry.lastAt
                  && Dated(h.recovery.value.retry, h.policy.notBefore))
            && (h.maintenance.Some? ==>
                  && (h.blocked || (h.recovery.Some?
                        && (h.recovery.value.blocked || h.recovery.value.retry.attempts == 6)))
                  && 1 <= h.maintenance.value.attempts <= 65535
                  && h.policy.lastAt + 86400 <= h.maintenance.value.lastAt
                  && (h.recovery.Some? ==> h.recovery.value.retry.lastAt + 86400 <= h.maintenance.value.lastAt)
                  && 86400 <= h.maintenance.value.notBefore - h.maintenance.value.lastAt <= 7 * 86400
                  && (h.maintenance.value.blocked ==>
                        h.maintenance.value.notBefore == h.maintenance.value.lastAt + 7 * 86400))
  {
    hide Hex32, LatestStart;
  }
}
