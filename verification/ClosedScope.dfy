/**
 One request's sealed scope and when it may be closed (internal/inventorystore/orders.go,
 certificate_requests.go, issuance.go, completion.go, closed_requests.go).

 Sealing is symbolic: an item is its payload together with the generation it was sealed under,
 and a closed item's identity, a hash of its order's address, is that address.
 */
module ClosedScope {
  import opened Common
  import DnsRecord
  import StoreReserve

  // The registered account: its key fingerprint and the later of preparation and registration.
  datatype Account = Account(fingerprint: string, since: Stamp)

  datatype Order = Order(
    sealed: nat, state: StoreReserve.OrderState, url: string, started: Stamp, expires: Stamp,
    checkedAt: Stamp, account: string, names: seq<string>, source: Option<string>)

  // transferredTo: the certificate that took the key over, and when the key had been prepared.
  datatype Request = Request(
    sealed: nat, order: string, preparedAt: Stamp, account: string, names: seq<string>, key: string,
    transferredTo: Option<string>, preparedGeneration: nat)

  datatype Completion = Completion(fingerprint: string, savedAt: Stamp, generation: nat, deletedAt: Stamp)

  datatype Issuance = Issuance(
    sealed: nat, startedAt: Stamp, startedGeneration: nat, account: string, key: string, order: string,
    names: seq<string>, checkedAt: Stamp, expires: Stamp, completion: Option<Completion>)

  datatype Plan = Plan(
    sealed: nat, order: string, account: string, preparedAt: Stamp, preparedGeneration: nat,
    expires: Stamp, records: seq<DnsRecord.Record>)

  datatype Scope = Scope(
    order: Option<Order>, request: Option<Request>, issuance: Option<Issuance>, plan: Option<Plan>)

  const EMPTY := Scope(None, None, None, None)

  // A saved certificate record with its private key.
  datatype Stored = Stored(importedAt: Stamp, generation: nat, key: string)

  // What every scope of one store is read against.
  datatype Context = Context(generation: nat, account: Account, records: map<string, Stored>)

  // ---- Opening a scope ----

  predicate ValidOrder(o: Order, c: Context) {
    && 3 <= o.sealed <= c.generation
    && IsTime(o.started) && o.account == c.account.fingerprint && o.started >= c.account.since
    && match o.state
       case NotStarted => false
       case RequestPending => o.url == "" && o.expires == NONE && o.checkedAt == NONE
       case OrderKnown => o.url != "" && o.expires == NONE && o.checkedAt == NONE
       case DnsReady | DnsAcknowledged | ValidationPending =>
         o.url != "" && IsTime(o.expires) && o.expires > o.started && o.checkedAt == NONE
       case ValidationWaiting | ValidationFailed | DomainVerified =>
         && o.url != "" && IsTime(o.expires) && o.expires > o.started
         && IsTime(o.checkedAt) && o.started <= o.checkedAt < o.expires
  }

  predicate ValidRequest(q: Request, s: Scope, c: Context) {
    && 4 <= q.sealed <= c.generation && IsTime(q.preparedAt)
    && s.order.Some? && var o := s.order.value;
    && StoreReserve.ValidationStarted(o.state) && o.url == q.order && o.names == q.names && q.account == o.account
    && o.started <= q.preparedAt < o.expires
    && q.key != "" && q.key != q.account
    && match q.transferredTo
       case None => q.preparedGeneration == 0
       case Some(fp) =>
         s.issuance.Some? && 4 <= q.preparedGeneration < q.sealed && fp in c.records && c.records[fp].key == q.key
  }

  predicate ValidCompletion(i: Issuance, d: Completion, s: Scope, c: Context) {
    && IsTime(d.savedAt) && d.savedAt >= i.startedAt && i.startedGeneration < d.generation <= i.sealed
    && i.checkedAt == NONE
    && s.order.Some? && var o := s.order.value;
    && o.state == StoreReserve.DomainVerified && o.account == i.account && o.url == i.order && o.names == i.names
    && i.startedAt >= o.checkedAt && d.savedAt < o.expires
    && if d.deletedAt != NONE then
         i.sealed > d.generation && IsTime(d.deletedAt) && d.deletedAt >= d.savedAt && s.request.None?
         && d.fingerprint !in c.records
       else
         && s.request.Some? && var q := s.request.value;
         && q.transferredTo == Some(d.fingerprint) && q.preparedGeneration < i.startedGeneration
         && q.key == i.key && i.startedAt >= q.preparedAt && q.sealed == d.generation
         && d.fingerprint in c.records && c.records[d.fingerprint] == Stored(d.savedAt, d.generation, i.key)
  }

  predicate ValidIntent(i: Issuance, s: Scope) {
    && s.request.Some? && s.order.Some?
    && var q, o := s.request.value, s.order.value;
    && q.sealed < i.startedGeneration && q.transferredTo.None?
    && o.state == StoreReserve.DomainVerified
    && q.preparedAt <= i.startedAt && o.checkedAt <= i.startedAt < o.expires
    && i.account == o.account && i.order == o.url && i.names == o.names && i.key == q.key
    && (i.checkedAt != NONE ==> IsTime(i.checkedAt) && i.startedAt <= i.checkedAt < o.expires)
  }

  predicate ValidIssuance(i: Issuance, s: Scope, c: Context) {
    && i.sealed <= c.generation && IsTime(i.startedAt) && i.startedGeneration <= i.sealed
    && (i.expires != NONE ==>
          && s.order.Some? && IsTime(i.expires) && i.startedAt < i.expires <= s.order.value.expires
          && (i.checkedAt != NONE ==> i.checkedAt < i.expires)
          && (i.completion.Some? ==> i.completion.value.savedAt < i.expires))
    && match i.completion
       case Some(d) => ValidCompletion(i, d, s, c)
       case None => ValidIntent(i, s)
  }

  predicate ValidPlan(p: Plan, s: Scope, c: Context, historical: bool) {
    && 4 <= p.preparedGeneration <= p.sealed <= c.generation
    && IsTime(p.preparedAt) && IsTime(p.expires) && p.preparedAt < p.expires && p.preparedAt < YEAR_2101
    && s.order.Some? && var o := s.order.value;
    && o.url != "" && p.order == o.url && p.account == o.account
    && o.expires != NONE && p.expires >= o.expires && p.preparedAt >= o.started
    && 1 <= |p.records| <= 8
    && forall k | 0 <= k < |p.records| :: DnsRecord.Accepted(p.records[k], p.preparedAt, historical)
  }

  predicate ValidScope(s: Scope, c: Context, historical: bool) {
    && (s.order.Some? ==> ValidOrder(s.order.value, c))
    && (s.request.Some? ==> ValidRequest(s.request.value, s, c))
    && (s.issuance.Some? ==> ValidIssuance(s.issuance.value, s, c))
    && (s.plan.Some? ==> ValidPlan(s.plan.value, s, c, historical))
  }

  // ---- What an accepted scope says ----

  /** The parts of an accepted scope tell one story. Every part is of the order's account and address, and for
      its names where it names any; nothing is sealed under a generation to come. */
  lemma PartsAgree(s: Scope, c: Context, historical: bool)
    requires ValidScope(s, c, historical)
    ensures s.request.Some? || s.issuance.Some? || s.plan.Some? ==> s.order.Some? && s.order.value.url != ""
    ensures s.order.Some? ==>
              var o := s.order.value;
              && o.account == c.account.fingerprint && c.account.since <= o.started && o.sealed <= c.generation
              && (s.request.Some? ==>
                    var q := s.request.value;
                    q.order == o.url && q.account == o.account && q.names == o.names && q.sealed <= c.generation
                    && q.key != "" && q.key != q.account)
              && (s.issuance.Some? ==>
                    var i := s.issuance.value;
                    i.order == o.url && i.account == o.account && i.names == o.names && i.sealed <= c.generation
                    && (s.request.Some? ==> i.key == s.request.value.key))
              && (s.plan.Some? ==>
                    s.plan.value.order == o.url && s.plan.value.account == o.account
                    && s.plan.value.sealed <= c.generation)
  {
    hide DnsRecord.Accepted;
  }

  /** And in order: the account, the order, the request's key, the issuance, its certificate, its deletion; all of
      it before the order's deadline and any earlier one of the issuance, and the issuance only once every
      name was verified. */
  lemma PartsAreInOrder(s: Scope, c: Context, historical: bool)
    requires ValidScope(s, c, historical) && s.order.Some?
    ensures var o := s.order.value;
            && (o.expires != NONE ==> YEAR_2020 <= o.started < o.expires < YEAR_10000)
            && (o.checkedAt != NONE ==> o.started <= o.checkedAt < o.expires)
            && (s.request.Some? ==> o.started <= s.request.value.preparedAt < o.expires)
            && (s.plan.Some? ==> o.started <= s.plan.value.preparedAt && o.expires <= s.plan.value.expires)
            && (s.issuance.Some? ==>
                  var i := s.issuance.value;
                  && o.state == StoreReserve.DomainVerified && o.checkedAt <= i.startedAt < o.expires
                  && (s.request.Some? ==> s.request.value.preparedAt <= i.startedAt)
                  && (i.expires != NONE ==> i.startedAt < i.expires <= o.expires && i.checkedAt < i.expires)
                  && (i.completion.Some? ==>
                        var d := i.completion.value;
                        && i.startedAt <= d.savedAt < o.expires && (i.expires != NONE ==> d.savedAt < i.expires)
                        && i.startedGeneration < d.generation <= i.sealed
                        && (d.deletedAt != NONE ==> d.savedAt <= d.deletedAt)))
  {
    hide DnsRecord.Accepted;
  }

  /** A saved certificate is among the records under the key of its request, as it was saved; once deleted it is
      gone, and so is the request. */
  lemma CertificatesAreWhereTheyBelong(s: Scope, c: Context, historical: bool)
    requires ValidScope(s, c, historical) && s.issuance.Some? && s.issuance.value.completion.Some?
    ensures var i, d := s.issuance.value, s.issuance.value.completion.value;
            if d.deletedAt == NONE then
              && d.fingerprint in c.records && c.records[d.fingerprint] == Stored(d.savedAt, d.generation, i.key)
              && s.request.Some? && s.request.value.transferredTo == Some(d.fingerprint)
            else d.fingerprint !in c.records && s.request.None?
  {
    hide DnsRecord.Accepted;
  }

  // ---- Closing ----

  datatype Reason =
    | DnsCleanupNeeded | ClockUnavailable | NotOrdered | UnknownOrder | Complete | Expired | Active | Capacity

  function Completed(s: Scope): Option<Completion> {
    if s.issuance.Some? then s.issuance.value.completion else None
  }

  function PlanReserve(s: Scope): nat {
    if s.plan.Some? then StoreReserve.PlanReserve(s.plan.value.records) else 0
  }

  function Earlier(a: Stamp, b: Stamp): Stamp { if b < a then b else a }

  function Eligibility(s: Scope, historical: bool, at: Stamp): Reason {
    if !historical && PlanReserve(s) > 0 then DnsCleanupNeeded
    else if !IsTime(at) || (s.order.Some? && at < s.order.value.started) then ClockUnavailable
    else if s.order.None? then NotOrdered
    else if s.order.value.url == "" || s.order.value.expires == NONE then UnknownOrder
    else if (s.issuance.Some? && (at < s.issuance.value.startedAt || at < s.issuance.value.checkedAt))
            || at < s.order.value.checkedAt then ClockUnavailable
    else if Completed(s).Some? then
      if at < Completed(s).value.savedAt || at < Completed(s).value.deletedAt then ClockUnavailable else Complete
    else
      var deadline :=
        if s.issuance.Some? && s.issuance.value.expires != NONE
        then Earlier(s.order.value.expires, s.issuance.value.expires) else s.order.value.expires;
      if deadline <= at then Expired else Active
  }

  // No record of the plan is still to be made, settled or removed.
  predicate OwesNothing(s: Scope) {
    s.plan.Some? ==>
      forall r | r in s.plan.value.records :: r.state in {DnsRecord.New, DnsRecord.Borrowed, DnsRecord.Deleted}
  }

  // The order has an address and a deadline.
  predicate TermsKnown(s: Scope) {
    s.order.Some? && s.order.value.url != "" && s.order.value.expires != NONE
  }

  // The clock is behind nothing the request has on record.
  predicate BehindNothing(s: Scope, at: Stamp) {
    && IsTime(at)
    && (s.order.Some? ==> s.order.value.started <= at && s.order.value.checkedAt <= at)
    && (s.issuance.Some? ==>
          && s.issuance.value.startedAt <= at && s.issuance.value.checkedAt <= at
          && (s.issuance.value.completion.Some? ==>
                && s.issuance.value.completion.value.savedAt <= at
                && s.issuance.value.completion.value.deletedAt <= at))
  }

  predicate HasCertificate(s: Scope) { s.issuance.Some? && s.issuance.value.completion.Some? }

  // The order's deadline has come, or an earlier one of the issuance.
  predicate Overdue(s: Scope, at: Stamp)
    requires s.order.Some?
  {
    || s.order.value.expires <= at
    || (s.issuance.Some? && s.issuance.value.expires != NONE && s.issuance.value.expires <= at)
  }

  lemma {:induction false} NothingReserved(records: seq<DnsRecord.Record>)
    ensures StoreReserve.PlanReserve(records) == 0 <==>
            forall r | r in records :: r.state in {DnsRecord.New, DnsRecord.Borrowed, DnsRecord.Deleted}
  {
    if records != [] {
      var front, last := records[..|records| - 1], records[|records| - 1];
      NothingReserved(front);
      assert forall r :: r in records <==> r in front || r == last;
      assert StoreReserve.RecordReserve(last) == 0 <==>
             last.state in {DnsRecord.New, DnsRecord.Borrowed, DnsRecord.Deleted};
    }
  }

  /** What each verdict that lets a request be closed means; for history the plan is not looked at. */
  lemma EligibilityIsExact(s: Scope, historical: bool, at: Stamp)
    ensures Eligibility(s, historical, at) == Complete <==>
              && (historical || OwesNothing(s)) && TermsKnown(s) && BehindNothing(s, at) && HasCertificate(s)
    ensures Eligibility(s, historical, at) == Expired <==>
              && (historical || OwesNothing(s)) && TermsKnown(s) && BehindNothing(s, at) && !HasCertificate(s)
              && Overdue(s, at)
  {
    if s.plan.Some? { NothingReserved(s.plan.value.records); }
  }

  datatype Closed = Closed(sealed: nat, id: string, closedAt: Stamp, closedGeneration: nat, reason: Reason,
      scope: Scope)

  predicate SealedBefore(s: Scope, generation: nat) {
    && (s.order.Some? ==> s.order.value.sealed < generation)
    && (s.request.Some? ==> s.request.value.sealed < generation)
    && (s.plan.Some? ==> s.plan.value.sealed < generation)
  }

  predicate ClosedComplete(e: Closed) {
    && Completed(e.scope).Some?
    && var i, d := e.scope.issuance.value, Completed(e.scope).value;
    && e.closedAt >= d.savedAt && (i.sealed < e.closedGeneration ==> d.deletedAt <= e.closedAt)
  }

  // A pair deleted after closure is tombstoned under the outer item's own generation.
  predicate DeletionOrdered(e: Closed) {
    e.scope.issuance.Some? && e.scope.issuance.value.sealed >= e.closedGeneration ==>
      && e.reason == Complete && e.scope.issuance.value.sealed == e.sealed > e.closedGeneration
      && Completed(e.scope).Some? && Completed(e.scope).value.deletedAt != NONE
      && Completed(e.scope).value.deletedAt >= e.closedAt
  }

  /** openClosedRequest: what makes one closed item acceptable in a store. */
  predicate ValidClosed(e: Closed, c: Context) {
    && 4 <= e.closedGeneration <= e.sealed <= c.generation && IsTime(e.closedAt)
    && SealedBefore(e.scope, e.closedGeneration) && DeletionOrdered(e)
    && ValidScope(e.scope, c, true)
    && e.scope.order.Some? && e.id == e.scope.order.value.url
    && if e.reason == Complete then ClosedComplete(e)
       else e.reason == Expired && Eligibility(e.scope, true, e.closedAt) == Expired
  }

  // ---- Facts about one scope ----

  lemma {:induction false} NoReserveMeansHistory(records: seq<DnsRecord.Record>, prepared: Stamp)
    requires StoreReserve.PlanReserve(records) == 0
    requires forall k | 0 <= k < |records| :: DnsRecord.Accepted(records[k], prepared, false)
    ensures forall k | 0 <= k < |records| :: DnsRecord.Accepted(records[k], prepared, true)
  {
    if records != [] {
      NoReserveMeansHistory(records[..|records| - 1], prepared);
      SettledRecordIsHistory(records[|records| - 1], prepared);
      forall k | 0 <= k < |records| ensures DnsRecord.Accepted(records[k], prepared, true) {
        if k < |records| - 1 { assert records[k] == records[..|records| - 1][k]; }
      }
    }
  }

  lemma SettledRecordIsHistory(r: DnsRecord.Record, prepared: Stamp)
    requires DnsRecord.Accepted(r, prepared, false) && StoreReserve.RecordReserve(r) == 0
    ensures DnsRecord.Accepted(r, prepared, true)
  {
    hide DnsRecord.ValidHalves, DnsRecord.LatestStart, DnsRecord.RemovalStarted;
  }

  /** A scope whose plan owes nothing reads back as history, and is as closable then as it was: nothing the
      plan still owes is lost by closing. */
  lemma ClosableScopeIsHistory(s: Scope, c: Context, at: Stamp)
    requires ValidScope(s, c, false) && OwesNothing(s)
    ensures ValidScope(s, c, true) && Eligibility(s, true, at) == Eligibility(s, false, at)
  {
    hide DnsRecord.Accepted, ValidOrder, ValidRequest, ValidIssuance;
    if s.plan.Some? {
      NothingReserved(s.plan.value.records);
      NoReserveMeansHistory(s.plan.value.records, s.plan.value.preparedAt);
    }
  }

  /** An order whose address was lost cannot be closed, and neither can one whose terms are unknown. */
  lemma UnknownOrdersStayOpen(s: Scope, c: Context, historical: bool, at: Stamp)
    requires s.order.Some? && ValidScope(s, c, historical)
    requires s.order.value.state in {StoreReserve.RequestPending, StoreReserve.OrderKnown}
    ensures Eligibility(s, historical, at) in {DnsCleanupNeeded, ClockUnavailable, UnknownOrder}
  {
  }

  // A later store with the same account and the same certificates.
  lemma LaterContextKeepsScope(s: Scope, c: Context, c': Context, historical: bool)
    requires ValidScope(s, c, historical)
    requires c.generation <= c'.generation && c.account == c'.account && c.records == c'.records
    ensures ValidScope(s, c', historical)
  {
    hide DnsRecord.Accepted;
  }

  lemma LaterContextKeepsClosed(e: Closed, c: Context, c': Context)
    requires ValidClosed(e, c)
    requires c.generation <= c'.generation && c.account == c'.account && c.records == c'.records
    ensures ValidClosed(e, c')
  {
    hide ValidScope, ClosedComplete, DeletionOrdered, SealedBefore, Eligibility;
    LaterContextKeepsScope(e.scope, c, c', true);
  }

  // ---- Deleting a saved pair ----

  predicate Saved(s: Scope, fp: string) {
    Completed(s).Some? && Completed(s).value.fingerprint == fp
  }

  // deleteCompletion: the tombstone a scope keeps in place of its saved pair.
  function Tombstone(s: Scope, fp: string, now: Stamp, generation: nat): Scope {
    if !Saved(s, fp) then s else
    s.(request := None,
       issuance := Some(s.issuance.value.(
         sealed := generation, completion := Some(s.issuance.value.completion.value.(deletedAt := now)))))
  }

  predicate Deletable(s: Scope, fp: string, now: Stamp) {
    Saved(s, fp) ==> IsTime(now) && now >= Completed(s).value.savedAt
  }

  function Without(c: Context, fp: string): Context {
    c.(generation := c.generation + 1, records := c.records - {fp})
  }

  lemma TombstoneKeepsScope(s: Scope, c: Context, fp: string, now: Stamp, historical: bool)
    requires ValidScope(s, c, historical) && Deletable(s, fp, now) && fp in c.records
    ensures ValidScope(Tombstone(s, fp, now, c.generation + 1), Without(c, fp), historical)
  {
    hide DnsRecord.Accepted;
  }

  /** A closed item survives the deletion of a certificate exactly when it did not save that
      certificate, or the clock has not fallen behind its own close time. */
  lemma TombstoneKeepsClosed(e: Closed, c: Context, fp: string, now: Stamp)
    requires ValidClosed(e, c) && Deletable(e.scope, fp, now) && fp in c.records
    ensures var e' := e.(scope := Tombstone(e.scope, fp, now, c.generation + 1),
                         sealed := if Saved(e.scope, fp) then c.generation + 1 else e.sealed);
            ValidClosed(e', Without(c, fp)) <==> (Saved(e.scope, fp) ==> now >= e.closedAt)
  {
    hide ValidOrder, ValidRequest, ValidIssuance, ValidPlan;
    TombstoneKeepsScope(e.scope, c, fp, now, true);
  }
}
