/**
 Reserved completion slots of the encrypted store (internal/inventorystore/history.go,
 account_registration.go, orders.go, issuance.go, completion.go, dns_plan.go, ca_operation_wait.go,
 history_archive.go): whatever was begun irreversibly can still be recorded.

 A store is reduced to what its writers count: generation, event log, records, and the
 state of each pending operation. Byte limits are not part of this model.
 */
module StoreReserve {
  import opened Common
  import opened RetryPolicy
  import opened DnsRecord
  import opened DnsTransitions

  const MAX_GENERATION: nat := 1000000
  const MAX_HISTORY: nat := 1024
  const MAX_RECORDS: nat := 500
  const MAX_RESERVE: nat := 256
  const MAX_PAGES: nat := 4
  const MIN_PAGE: nat := 512

  datatype RegistrationState = Unregistered | RegistrationPending | Registered

  datatype OrderState =
    | NotStarted | RequestPending | OrderKnown | DnsReady | DnsAcknowledged
    | ValidationPending | ValidationWaiting | ValidationFailed | DomainVerified

  datatype IssuanceState = NotIssuing | IssuancePending | IssuanceComplete

  // Events are represented by the generation they carry.
  datatype Store = Store(
    generation: nat, history: seq<nat>, pages: seq<seq<nat>>, archiveStart: nat, records: nat,
    registration: RegistrationState, order: OrderState, issuance: IssuanceState,
    plan: seq<Record>, timing: nat)

  // ---- Reserves ----

  function Left(attempts: int): nat { if 0 <= attempts <= MAX_ATTEMPTS then 2 * (MAX_ATTEMPTS - attempts) else 0 }

  function RecordReserve(r: Record): nat {
    var outcome := if r.outcomeAt == NONE then 1 else 0;
    match r.state
    case Creating =>
      outcome + Left(r.making.policy.attempts) + 2 * MAX_ATTEMPTS + 1
      + (if r.making.recovery.Some? then Left(r.making.recovery.value.retry.attempts) else 0)
    case Created => 2 * MAX_ATTEMPTS + 1
    case Deleting =>
      outcome + Left(r.removal.policy.attempts) + 1
      + (if r.removal.recovery.Some? then Left(r.removal.recovery.value.retry.attempts) else 0)
    case _ => 0
  }

  function PlanReserve(plan: seq<Record>): nat {
    if plan == [] then 0 else PlanReserve(plan[..|plan| - 1]) + RecordReserve(plan[|plan| - 1])
  }

  function RegistrationReserve(s: Store): nat { if s.registration == RegistrationPending then 1 else 0 }

  function OrderReserve(s: Store): nat {
    if s.order == RequestPending then 2
    else if s.order in {OrderKnown, ValidationPending} then 1 else 0
  }

  function IssuanceReserve(s: Store): nat { if s.issuance == IssuancePending then 1 else 0 }

  function PlanAndTiming(s: Store): nat { PlanReserve(s.plan) + s.timing }

  // dnsTotalReserve: the joint reserve, counted only while DNS or timing work is outstanding.
  function TotalReserve(s: Store): nat {
    if PlanAndTiming(s) == 0 then 0
    else PlanAndTiming(s) + RegistrationReserve(s) + OrderReserve(s) + IssuanceReserve(s)
  }

  // Everything that was begun and must still be recorded.
  function Outstanding(s: Store): nat {
    PlanAndTiming(s) + RegistrationReserve(s) + OrderReserve(s) + IssuanceReserve(s)
  }

  // ---- One event ----

  // addEvent, called with the generation already advanced and the change already made.
  predicate Admits(s: Store) {
    && |s.history| < MAX_HISTORY
    && (s.registration == RegistrationPending ==> |s.history| < MAX_HISTORY - 1 && s.generation < MAX_GENERATION)
    && (OrderReserve(s) > 0 ==>
          |s.history| < MAX_HISTORY - OrderReserve(s) && s.generation <= MAX_GENERATION - OrderReserve(s))
    && (s.issuance == IssuancePending ==>
          |s.history| < MAX_HISTORY - 1 && s.generation < MAX_GENERATION && s.records < MAX_RECORDS)
    && TotalReserve(s) <= MAX_RESERVE
    && (TotalReserve(s) > 0 ==>
          |s.history| < MAX_HISTORY - TotalReserve(s) && s.generation <= MAX_GENERATION - TotalReserve(s))
  }

  // A writer: advance the generation, change the contents, append the event; or refuse.
  function Commit(s: Store, changed: Store): (r: Option<Store>)
  {
    if s.generation >= MAX_GENERATION then None else
    var next := changed.(generation := s.generation + 1);
    if Admits(next) then Some(next.(history := next.history + [next.generation])) else None
  }

  class Manifest {
    var store: Store

    constructor (s: Store)
      ensures store == s
    { store := s; }

    method AddEvent() returns (ok: bool)
      modifies this
      ensures ok == Admits(old(store))
      ensures store == if ok then old(store).(history := old(store).history + [old(store).generation]) else old(store)
    {
      var n := |store.history|;
      if n >= MAX_HISTORY { return false; }
      if store.registration == RegistrationPending && (n >= MAX_HISTORY - 1 || store.generation >= MAX_GENERATION) {
        return false;
      }
      var reserve := 0;
      if store.order == RequestPending { reserve := 2; }
      if store.order == OrderKnown || store.order == ValidationPending { reserve := 1; }
      if reserve > 0 && (n >= MAX_HISTORY - reserve || store.generation > MAX_GENERATION - reserve) { return false; }
      if store.issuance == IssuancePending
          && (n >= MAX_HISTORY - 1 || store.generation >= MAX_GENERATION || store.records >= MAX_RECORDS) {
        return false;
      }
      var total := TotalReserve(store);
      if total > MAX_RESERVE { return false; }
      if total > 0 && (n >= MAX_HISTORY - total || store.generation > MAX_GENERATION - total) { return false; }
      store := store.(history := store.history + [store.generation]);
      ok := true;
    }

    /** A writer: its own checks, one generation on, its change, one event; a refusal at any point leaves
        the stored image as it was. */
    method Save(w: Write) returns (ok: bool)
      modifies this
      ensures ok == Perform(old(store), w).Some?
      ensures store == if ok then Perform(old(store), w).value else old(store)
    {
      hide Change, Admits;
      var image, changed := store, Change(store, w);
      if changed.None? || store.generation >= MAX_GENERATION { return false; }
      store := changed.value.(generation := image.generation + 1);
      ok := AddEvent();
      if !ok { store := image; }
    }
  }

  // ---- The writers ----

  datatype Write =
    | Other(records: nat, dropped: nat)   // imports, notes, keys, configuration; a deletion may drop pending timings
    | SaveProviderWait
    | BeginRegistration | FinishRegistration(absent: bool)
    | BeginOrder | LocateOrder | SaveInstructions | Acknowledge
    | BeginValidation(refresh: bool) | FinishValidation(verdict: OrderState)
    | BeginIssuance | ObserveIssuance | FinishIssuance
    | PreparePlan(count: nat)
    | BeginDns(index: nat, mode: Mode, at: Instant, jitter: int, scope: DnsTransitions.Scope)
    | FailDns(index: nat, lease: Lease, hint: Hint, at: Instant)
    | SettleDns(index: nat, lease: Lease, seen: Observed, checkpointed: bool, readings: Readings)
    | BeginTiming | FinishTiming
    | ArchiveHistory
    | CloseRequest

  predicate ValidationStarted(o: OrderState) {
    o in {ValidationPending, ValidationWaiting, ValidationFailed, DomainVerified}
  }

  function ReplaceRow(s: Store, index: nat, r: Record): Store
    requires index < |s.plan|
  { s.(plan := s.plan[index := r]) }

  // What a writer would install, or None when its own preconditions refuse.
  function Change(s: Store, w: Write): Option<Store> {
    match w
    case Other(records, dropped) =>
      if records > MAX_RECORDS || dropped > s.timing then None
      else Some(s.(records := records, timing := s.timing - dropped))
    case SaveProviderWait => if s.order == NotStarted then None else Some(s)
    case BeginRegistration =>
      if s.registration != Unregistered || s.generation > MAX_GENERATION - 2 || |s.history| > MAX_HISTORY - 2 then None
      else Some(s.(registration := RegistrationPending))
    case FinishRegistration(absent) =>
      if s.registration != RegistrationPending || |s.history| >= MAX_HISTORY then None
      else Some(s.(registration := if absent then Unregistered else Registered))
    case BeginOrder =>
      if s.registration != Registered || s.order != NotStarted
         || s.generation > MAX_GENERATION - 3 || |s.history| > MAX_HISTORY - 3 then None
      else Some(s.(order := RequestPending))
    case LocateOrder =>
      if s.order != RequestPending || |s.history| >= MAX_HISTORY then None else Some(s.(order := OrderKnown))
    case SaveInstructions =>
      if s.order !in {OrderKnown, DnsReady, DnsAcknowledged} || |s.history| >= MAX_HISTORY then None
      else Some(s.(order := DnsReady))
    case Acknowledge =>
      if s.order != DnsReady || |s.history| >= MAX_HISTORY then None else Some(s.(order := DnsAcknowledged))
    case BeginValidation(refresh) =>
      if s.issuance != NotIssuing || (if refresh then !ValidationStarted(s.order) else s.order != DnsAcknowledged)
         || s.generation > MAX_GENERATION - 2 || |s.history| > MAX_HISTORY - 2 then None
      else Some(s.(order := ValidationPending))
    case FinishValidation(verdict) =>
      if s.order != ValidationPending || verdict !in {ValidationWaiting, ValidationFailed, DomainVerified}
         || |s.history| >= MAX_HISTORY then None
      else Some(s.(order := verdict))
    case BeginIssuance =>
      if s.order != DomainVerified || s.issuance != NotIssuing
         || s.generation > MAX_GENERATION - 2 || |s.history| > MAX_HISTORY - 2 || s.records >= MAX_RECORDS then None
      else Some(s.(issuance := IssuancePending))
    case ObserveIssuance =>
      if s.issuance != IssuancePending || s.generation >= MAX_GENERATION - 1 || |s.history| >= MAX_HISTORY - 1
         || s.records >= MAX_RECORDS then None
      else Some(s)
    case FinishIssuance =>
      if s.issuance != IssuancePending || |s.history| >= MAX_HISTORY || s.records >= MAX_RECORDS then None
      else Some(s.(issuance := IssuanceComplete, records := s.records + 1))
    case PreparePlan(count) =>
      if s.plan != [] || s.order !in {DnsReady, DnsAcknowledged} || !(1 <= count <= 8)
          || |s.history| >= MAX_HISTORY then None
      else Some(s.(plan := seq(count, _ => PREPARED)))
    case BeginDns(index, mode, at, jitter, scope) =>
      if index >= |s.plan| then None else
      var b := DnsTransitions.Begin(s.plan[index], mode, at, jitter, scope);
      if b.None? then None else
      var s' := ReplaceRow(s, index, b.value.0);
      var reserve := TotalReserve(s');
      if reserve > MAX_RESERVE || s.generation + reserve + 1 > MAX_GENERATION
          || |s.history| + reserve + 1 > MAX_HISTORY then None
      else Some(s')
    case FailDns(index, lease, hint, at) =>
      if index >= |s.plan| || !Admitted(s.plan[index], lease) || |s.history| >= MAX_HISTORY then None
      else Some(ReplaceRow(s, index, AfterFailure(s.plan[index], lease, hint, at)))
    case SettleDns(index, lease, seen, checkpointed, readings) =>
      if index >= |s.plan| || !Admitted(s.plan[index], lease) || |s.history| >= MAX_HISTORY then None else
      var r := AfterSuccess(s.plan[index], lease, seen, checkpointed, readings);
      if r.None? then None else Some(ReplaceRow(s, index, r.value))
    case BeginTiming => Some(s.(timing := s.timing + 1))
    case FinishTiming => if s.timing == 0 then None else Some(s.(timing := s.timing - 1))
    case ArchiveHistory =>
      if |s.history| < MIN_PAGE || |s.pages| >= MAX_PAGES then None
      else Some(s.(pages := s.pages + [s.history], history := [],
                   archiveStart := if |s.pages| == 0 then s.history[0] else s.archiveStart))
    case CloseRequest =>
      if PlanReserve(s.plan) > 0 || s.order in {NotStarted, RequestPending, OrderKnown}
          || |s.history| >= MAX_HISTORY then None
      else Some(s.(order := NotStarted, issuance := NotIssuing, plan := []))
  }

  function Perform(s: Store, w: Write): Option<Store> {
    var changed := Change(s, w);
    if changed.None? then None else Commit(s, changed.value)
  }

  // The authenticated empty image: generation 1 is reserved for creation.
  predicate Created(s: Store) {
    && s.generation == 1 && |s.history| == 0 && |s.pages| == 0 && s.archiveStart == 0 && s.records == 0
    && s.registration == Unregistered && s.order == NotStarted && s.issuance == NotIssuing
    && |s.plan| == 0 && s.timing == 0
  }

  function Run(created: Store, writes: seq<Write>): Store {
    if writes == [] then created else
    var s := Run(created, writes[..|writes| - 1]);
    var next := Perform(s, writes[|writes| - 1]);
    if next.Some? then next.value else s
  }

  // ---- What every reachable store keeps ----

  function Flat(pages: seq<seq<nat>>): seq<nat> {
    if pages == [] then [] else Flat(pages[..|pages| - 1]) + pages[|pages| - 1]
  }

  function Events(s: Store): seq<nat> { Flat(s.pages) + s.history }

  // One event for every generation since the first, the last one current.
  predicate Contiguous(s: Store) {
    var e := Events(s);
    && |e| == s.generation - 1
    && forall i | 0 <= i < |e| :: e[i] == i + 2
  }

  predicate PagesFit(s: Store) {
    && |s.pages| <= MAX_PAGES
    && (|s.pages| > 0 ==> |s.history| > 0)
    && (forall i | 0 <= i < |s.pages| :: MIN_PAGE <= |s.pages[i]| <= MAX_HISTORY)
    && (|s.pages| == 0 ==> s.archiveStart == 0)
    && (|s.pages| > 0 ==> s.archiveStart == s.pages[0][0])
  }

  // Two reserves of the request's own phases are never held at once.
  predicate Phased(s: Store) {
    && (s.order != NotStarted ==> s.registration == Registered)
    && (s.issuance != NotIssuing ==> s.order == DomainVerified)
    && (s.plan != [] ==> s.order !in {NotStarted, RequestPending, OrderKnown})
  }

  predicate Funded(s: Store) {
    && |s.history| + Outstanding(s) <= MAX_HISTORY
    && 1 <= s.generation && s.generation + Outstanding(s) <= MAX_GENERATION
    && (s.issuance == IssuancePending ==> s.records < MAX_RECORDS)
    && s.records <= MAX_RECORDS
    && TotalReserve(s) <= MAX_RESERVE
  }

  predicate Sound(s: Store) { Phased(s) && Funded(s) && Contiguous(s) && PagesFit(s) }

  // ---- Every write keeps the store sound ----

  lemma FlatAppends(pages: seq<seq<nat>>, page: seq<nat>)
    ensures Flat(pages + [page]) == Flat(pages) + page
  {
    assert (pages + [page])[..|pages|] == pages;
  }

  lemma CommitKeepsFunded(s: Store, changed: Store)
    requires Phased(changed) && changed.records <= MAX_RECORDS && Commit(s, changed).Some?
    ensures Funded(Commit(s, changed).value) && Phased(Commit(s, changed).value)
  {
    hide PlanReserve;
  }

  lemma CommitKeepsLog(s: Store, changed: Store)
    requires Contiguous(s) && PagesFit(s) && |s.history| <= MAX_HISTORY && s.generation >= 1
    requires Rearranged(s, changed) && Commit(s, changed).Some?
    ensures Contiguous(Commit(s, changed).value) && PagesFit(Commit(s, changed).value)
  {
    hide Admits;
    var next := Commit(s, changed).value;
    FlatAppends(s.pages, s.history);
    assert Events(next) == Events(s) + [next.generation];
  }

  // Archiving moves the active page aside and starts a new one.
  predicate Rearranged(s: Store, changed: Store) {
    || (changed.history == s.history && changed.pages == s.pages && changed.archiveStart == s.archiveStart)
    || (&& MIN_PAGE <= |s.history| && |s.pages| < MAX_PAGES
        && |changed.history| == 0 && changed.pages == s.pages + [s.history]
        && changed.archiveStart == if |s.pages| == 0 then s.history[0] else s.archiveStart)
  }

  lemma ChangeKeepsPhased(s: Store, w: Write)
    requires Phased(s) && s.records <= MAX_RECORDS && Change(s, w).Some?
    ensures var changed := Change(s, w).value;
            Phased(changed) && changed.records <= MAX_RECORDS && Rearranged(s, changed)
  {
    hide PlanReserve, TotalReserve, DnsTransitions.Begin, AfterFailure, AfterSuccess, Admitted;
  }

  lemma PerformKeepsSound(s: Store, w: Write)
    requires Sound(s) && Perform(s, w).Some?
    ensures Sound(Perform(s, w).value)
  {
    hide Change, Commit, Contiguous, PagesFit;
    ChangeKeepsPhased(s, w);
    CommitKeepsFunded(s, Change(s, w).value);
    CommitKeepsLog(s, Change(s, w).value);
  }

  lemma CreatedStoreIsSound(s: Store)
    requires Created(s)
    ensures Sound(s)
  {
    assert s.plan == [] && s.pages == [];
  }

  /** In every reachable store the outstanding reserve still fits the event log and the generation
      counter, a pending issuance still has a record slot, and the log numbers every generation once. */
  lemma {:induction false} EveryStoreIsSound(created: Store, writes: seq<Write>)
    requires Created(created)
    ensures Sound(Run(created, writes))
  {
    hide Perform, Sound, Created;
    if writes == [] {
      CreatedStoreIsSound(created);
    } else {
      EveryStoreIsSound(created, writes[..|writes| - 1]);
      var s := Run(created, writes[..|writes| - 1]);
      if Perform(s, writes[|writes| - 1]).Some? {
        PerformKeepsSound(s, writes[|writes| - 1]);
      }
    }
  }

  // ---- Reading the log back ----

  // What opening the log demands: page sizes, the recorded start, one event a generation, the last current.
  predicate Readable(s: Store) {
    && |s.history| <= MAX_HISTORY && |s.pages| <= MAX_PAGES && (|s.pages| > 0 ==> |s.history| > 0)
    && (|s.pages| == 0 ==> s.archiveStart == 0)
    && (forall i | 0 <= i < |s.pages| :: MIN_PAGE <= |s.pages[i]| <= MAX_HISTORY)
    && (|s.pages| > 0 ==> s.archiveStart >= 2 && s.pages[0][0] == s.archiveStart)
    && Numbered(Events(s), s.generation)
    && (Events(s) != [] ==> Events(s)[|Events(s)| - 1] == s.generation)
  }

  predicate Numbered(e: seq<nat>, generation: nat) {
    && (forall i | 0 <= i < |e| :: 2 <= e[i] <= generation)
    && (forall i | 0 <= i < |e| - 1 :: e[i + 1] == e[i] + 1)
  }

  method Join(s: Store) returns (sealed: Option<seq<nat>>)
    ensures sealed.Some? <==> forall k | 0 <= k < |s.pages| :: MIN_PAGE <= |s.pages[k]| <= MAX_HISTORY
    ensures sealed.Some? ==> sealed.value == Events(s)
  {
    var joined: seq<nat> := [];
    for i := 0 to |s.pages|
      invariant joined == Flat(s.pages[..i])
      invariant forall k | 0 <= k < i :: MIN_PAGE <= |s.pages[k]| <= MAX_HISTORY
    {
      if |s.pages[i]| < MIN_PAGE || |s.pages[i]| > MAX_HISTORY { return None; }
      assert s.pages[..i + 1] == s.pages[..i] + [s.pages[i]];
      FlatAppends(s.pages[..i], s.pages[i]);
      joined := joined + s.pages[i];
    }
    assert s.pages[..|s.pages|] == s.pages;
    sealed := Some(joined + s.history);
  }

  // The numbering loop: one event after another, none beyond the current generation.
  method CheckNumbers(sealed: seq<nat>, generation: nat) returns (previous: Option<nat>)
    ensures previous.Some? <==> Numbered(sealed, generation)
    ensures previous.Some? ==> previous.value == if sealed == [] then 0 else sealed[|sealed| - 1]
  {
    var last := 0;
    for i := 0 to |sealed|
      invariant forall k | 0 <= k < i :: 2 <= sealed[k] <= generation
      invariant forall k | 0 <= k < i - 1 :: sealed[k + 1] == sealed[k] + 1
      invariant last == if i == 0 then 0 else sealed[i - 1]
    {
      if sealed[i] < 2 || sealed[i] > generation || (last != 0 && sealed[i] != last + 1) {
        assert i > 0 ==> sealed[i - 1] >= 2;
        assert last != 0 ==> sealed[i - 1 + 1] == sealed[i];
        return None;
      }
      last := sealed[i];
    }
    previous := Some(last);
  }

  /** openHistory: joins the archive pages and the active page and accepts exactly a readable log. */
  method OpenHistory(s: Store) returns (events: Option<seq<nat>>)
    ensures events == if Readable(s) then Some(Events(s)) else None
  {
    hide Events, Numbered;
    if |s.history| > MAX_HISTORY || |s.pages| > MAX_PAGES || (|s.pages| > 0 && |s.history| == 0) { return None; }
    if (|s.pages| == 0 && s.archiveStart != 0)
       || (|s.pages| > 0 && (|s.pages[0]| == 0 || s.archiveStart < 2 || s.pages[0][0] != s.archiveStart)) {
      return None;
    }
    var joined := Join(s);
    if joined.None? { return None; }
    var sealed := joined.value;
    var previous := CheckNumbers(sealed, s.generation);
    if previous.None? || (|sealed| > 0 && previous.value != s.generation) { return None; }
    events := Some(sealed);
  }

  lemma {:induction false} FlatStartsWithFirstPage(pages: seq<seq<nat>>)
    requires |pages| > 0
    ensures |Flat(pages)| >= |pages[0]| && Flat(pages)[..|pages[0]|] == pages[0]
  {
    if |pages| > 1 {
      FlatStartsWithFirstPage(pages[..|pages| - 1]);
    }
  }

  /** Every reachable store's log reads back whole: one event for every generation after the first. */
  lemma EveryLogIsReadable(created: Store, writes: seq<Write>)
    requires Created(created)
    ensures var s := Run(created, writes);
            s.generation >= 1 && Readable(s) && Events(s) == seq(s.generation - 1, i requires i >= 0 => i + 2)
  {
    hide Run, Created, Phased, Funded;
    EveryStoreIsSound(created, writes);
    var s := Run(created, writes);
    LogFits(created, writes);
    if |s.pages| > 0 {
      FlatStartsWithFirstPage(s.pages);
      assert Events(s)[0] == s.pages[0][0];
    }
  }

  lemma LogFits(created: Store, writes: seq<Write>)
    requires Created(created)
    ensures |Run(created, writes).history| <= MAX_HISTORY && 1 <= Run(created, writes).generation
  {
    hide Run, Created, Phased, Contiguous, PagesFit;
    EveryStoreIsSound(created, writes);
  }

  // ---- What was begun can always be recorded ----

  lemma {:induction false} PlanReserveUpdates(plan: seq<Record>, index: nat, r: Record)
    requires index < |plan|
    ensures PlanReserve(plan[index := r]) == PlanReserve(plan) - RecordReserve(plan[index]) + RecordReserve(r)
    ensures PlanReserve(plan) >= RecordReserve(plan[index])
  {
    var last := |plan| - 1;
    if index == last {
      assert plan[index := r][..last] == plan[..last];
    } else {
      PlanReserveUpdates(plan[..last], index, r);
      assert plan[index := r][..last] == plan[..last][index := r];
    }
  }

  // A lease on a record whose policies are within their limits.
  predicate Leased(r: Record, l: Lease) {
    && Fits(r, l)
    && RetryPolicy.Valid(r.making.policy) && RetryPolicy.Valid(r.removal.policy)
  }

  lemma OutcomesFreeASlot(r: Record, l: Lease, hint: Hint, at: Instant, seen: Observed, checkpointed: bool, c: Readings)
    requires Leased(r, l)
    ensures at.sec != NONE ==> RecordReserve(AfterFailure(r, l, hint, at)) + 1 <= RecordReserve(r)
    ensures AfterSuccess(r, l, seen, checkpointed, c).Some? && c.outcome.sec != NONE ==>
              RecordReserve(AfterSuccess(r, l, seen, checkpointed, c).value) + 1 <= RecordReserve(r)
  {
  }

  // The write that records how something irreversible ended.
  predicate Discharges(s: Store, w: Write) {
    match w
    case FinishRegistration(_) => s.registration == RegistrationPending
    case LocateOrder => s.order == RequestPending
    case SaveInstructions => s.order == OrderKnown
    case FinishValidation(verdict) =>
      s.order == ValidationPending && verdict in {ValidationWaiting, ValidationFailed, DomainVerified}
    case FinishIssuance => s.issuance == IssuancePending
    case FailDns(index, lease, hint, at) => index < |s.plan| && Leased(s.plan[index], lease) && at.sec != NONE
    case SettleDns(index, lease, seen, checkpointed, c) =>
      && index < |s.plan| && Leased(s.plan[index], lease) && c.outcome.sec != NONE
      && AfterSuccess(s.plan[index], lease, seen, checkpointed, c).Some?
    case FinishTiming => s.timing > 0
    case _ => false
  }

  lemma CommitHasRoom(s: Store, changed: Store)
    requires Sound(s) && Phased(changed) && changed.history == s.history && changed.generation == s.generation
    requires Outstanding(changed) + 1 <= Outstanding(s)
    requires PlanAndTiming(changed) <= PlanAndTiming(s)
    requires changed.issuance == IssuancePending ==> s.issuance == IssuancePending && changed.records == s.records
    ensures Commit(s, changed).Some?
    ensures Outstanding(Commit(s, changed).value) < Outstanding(s)
  {
  }

  lemma DnsOutcomeHasRoom(s: Store, index: nat, l: Lease, r: Record, hint: Hint, at: Instant, seen: Observed,
      checkpointed: bool, c: Readings)
    requires Sound(s) && index < |s.plan| && Leased(s.plan[index], l) && at.sec != NONE
    requires r == AfterFailure(s.plan[index], l, hint, at)
             || (AfterSuccess(s.plan[index], l, seen, checkpointed, c) == Some(r) && c.outcome.sec != NONE)
    ensures Commit(s, ReplaceRow(s, index, r)).Some?
    ensures Outstanding(Commit(s, ReplaceRow(s, index, r)).value) < Outstanding(s)
  {
    hide RecordReserve, AfterFailure, AfterSuccess, Leased, PlanReserve;
    OutcomesFreeASlot(s.plan[index], l, hint, at, seen, checkpointed, c);
    PlanReserveUpdates(s.plan, index, r);
    CommitHasRoom(s, ReplaceRow(s, index, r));
  }

  lemma AccountDischargeHasRoom(s: Store, w: Write)
    requires Sound(s) && Discharges(s, w) && !w.FailDns? && !w.SettleDns?
    ensures Change(s, w).Some? && Commit(s, Change(s, w).value).Some?
    ensures Outstanding(Commit(s, Change(s, w).value).value) < Outstanding(s)
  {
    hide Commit, Admits, Contiguous, PagesFit, PlanReserve, AfterFailure, AfterSuccess;
    CommitHasRoom(s, Change(s, w).value);
  }

  lemma DnsDischargeHasRoom(s: Store, w: Write)
    requires Sound(s) && Discharges(s, w) && (w.FailDns? || w.SettleDns?)
    ensures Change(s, w).Some? && Commit(s, Change(s, w).value).Some?
    ensures Outstanding(Commit(s, Change(s, w).value).value) < Outstanding(s)
  {
    hide Commit, Outstanding, Contiguous, PagesFit, AfterFailure, AfterSuccess, HalfFits, HalfAdmitted;
    match w
    case FailDns(index, lease, hint, at) =>
      DnsOutcomeHasRoom(s, index, lease, AfterFailure(s.plan[index], lease, hint, at), hint, at, Observed(New, ""),
          false, Readings(at, at, at, at));
    case SettleDns(index, lease, seen, checkpointed, c) =>
      DnsOutcomeHasRoom(s, index, lease, AfterSuccess(s.plan[index], lease, seen, checkpointed, c).value,
                        Hint(None, false), c.outcome, seen, checkpointed, c);
  }

  /** In every reachable store, whatever writes came between: recording the end of a registration, order
      request, validation, issuance, DNS attempt or timing read is never refused for lack of room, and
      it releases the reserve it was promised. */
  lemma DischargeIsNeverRefused(created: Store, writes: seq<Write>, w: Write)
    requires Created(created) && Discharges(Run(created, writes), w)
    ensures Perform(Run(created, writes), w).Some?
    ensures Outstanding(Perform(Run(created, writes), w).value) < Outstanding(Run(created, writes))
  {
    hide Change, Commit, Sound, Created, Run, Discharges, Outstanding;
    EveryStoreIsSound(created, writes);
    if w.FailDns? || w.SettleDns? {
      DnsDischargeHasRoom(Run(created, writes), w);
    } else {
      AccountDischargeHasRoom(Run(created, writes), w);
    }
  }

  // A further attempt on a record whose reserve was taken when it left New: any retry, the first
  // cleanup, and any recovery read after the first.
  predicate Retries(r: Record, mode: Mode) {
    && r.state != New && mode != Maintain
    && (mode == Recover ==> HalfOf(r, IsCleanup(r, mode)).recovery.Some?)
  }

  lemma RetryFreesASlot(r: Record, mode: Mode, at: Instant, jitter: int, scope: DnsTransitions.Scope)
    requires Accepted(r, scope.prepared, false) && Retries(r, mode)
    requires DnsTransitions.Begin(r, mode, at, jitter, scope).Some?
    ensures RecordReserve(DnsTransitions.Begin(r, mode, at, jitter, scope).value.0) + 1 <= RecordReserve(r)
  {
    hide MaintenanceFloor, ValidMaintenance, LatestStart;
  }

  /** In every reachable store a further attempt that the retry policy grants is never refused for lack
      of room: the slots of all six attempts and of every recovery were set aside by the first one. */
  lemma RetriesHaveRoom(created: Store, writes: seq<Write>, w: Write)
    requires Created(created) && w.BeginDns?
    requires var s := Run(created, writes);
             && w.index < |s.plan| && Accepted(s.plan[w.index], w.scope.prepared, false)
                 && Retries(s.plan[w.index], w.mode)
             && DnsTransitions.Begin(s.plan[w.index], w.mode, w.at, w.jitter, w.scope).Some?
    ensures Perform(Run(created, writes), w).Some?
  {
    hide RecordReserve, PlanReserve, Accepted, DnsTransitions.Begin, Run, Created, Admits, Commit, Contiguous,
        PagesFit, Retries;
    EveryStoreIsSound(created, writes);
    var s := Run(created, writes);
    var r := DnsTransitions.Begin(s.plan[w.index], w.mode, w.at, w.jitter, w.scope).value.0;
    RetryFreesASlot(s.plan[w.index], w.mode, w.at, w.jitter, w.scope);
    PlanReserveUpdates(s.plan, w.index, r);
    CommitHasRoom(s, ReplaceRow(s, w.index, r));
  }

  // ---- How a request moves ----

  // The one step of its life a writer makes of an order, if any.
  predicate OrderMoves(before: OrderState, w: Write, after: OrderState) {
    match w
    case BeginOrder => before == NotStarted && after == RequestPending
    case LocateOrder => before == RequestPending && after == OrderKnown
    case SaveInstructions => before in {OrderKnown, DnsReady, DnsAcknowledged} && after == DnsReady
    case Acknowledge => before == DnsReady && after == DnsAcknowledged
    case BeginValidation(refresh) =>
      && after == ValidationPending
      && if refresh then before in {ValidationPending, ValidationWaiting, ValidationFailed, DomainVerified}
         else before == DnsAcknowledged
    case FinishValidation(verdict) =>
      before == ValidationPending && after == verdict
          && verdict in {ValidationWaiting, ValidationFailed, DomainVerified}
    case CloseRequest => before !in {NotStarted, RequestPending, OrderKnown} && after == NotStarted
    case _ => after == before
  }

  predicate IssuanceMoves(before: IssuanceState, w: Write, after: IssuanceState) {
    match w
    case BeginIssuance => before == NotIssuing && after == IssuancePending
    case ObserveIssuance => before == IssuancePending && after == IssuancePending
    case FinishIssuance => before == IssuancePending && after == IssuanceComplete
    case CloseRequest => after == NotIssuing
    case _ => after == before
  }

  predicate RegistrationMoves(before: RegistrationState, w: Write, after: RegistrationState) {
    match w
    case BeginRegistration => before == Unregistered && after == RegistrationPending
    case FinishRegistration(absent) =>
      before == RegistrationPending && after == if absent then Unregistered else Registered
    case _ => after == before
  }

  // The plan is prepared once, its records change one at a time, and it goes only when they are all settled.
  predicate PlanMoves(before: seq<Record>, w: Write, after: seq<Record>) {
    match w
    case PreparePlan(count) =>
      before == [] && 1 <= count <= 8 && |after| == count && forall r | r in after :: r == PREPARED
    case BeginDns(_, _, _, _, _) | FailDns(_, _, _, _) | SettleDns(_, _, _, _, _) =>
      w.index < |before| && |after| == |before| && after == before[w.index := after[w.index]]
    case CloseRequest => after == [] && forall r | r in before :: r.state in {New, Borrowed, Deleted}
    case _ => after == before
  }

  lemma {:induction false} SettledPlan(plan: seq<Record>)
    requires PlanReserve(plan) == 0
    ensures forall r | r in plan :: r.state in {New, Borrowed, Deleted}
  {
    if plan != [] {
      var front, last := plan[..|plan| - 1], plan[|plan| - 1];
      SettledPlan(front);
      assert forall r | r in plan :: r in front || r == last;
    }
  }

  /** Every write moves each part of a request one step along its life or not at all, and its own part only:
      an order is asked for once the account is registered, a certificate once the names are verified, and a
      request ends only with its plan settled. */
  lemma RequestsMoveStepByStep(s: Store, w: Write)
    requires Perform(s, w).Some?
    ensures var s' := Perform(s, w).value;
            && s'.generation == s.generation + 1
            && OrderMoves(s.order, w, s'.order) && IssuanceMoves(s.issuance, w, s'.issuance)
            && RegistrationMoves(s.registration, w, s'.registration) && PlanMoves(s.plan, w, s'.plan)
            && (w.BeginOrder? ==> s.registration == Registered)
            && (w.BeginIssuance? ==> s.order == DomainVerified) && (w.BeginValidation? ==> s.issuance == NotIssuing)
            && (w.PreparePlan? ==> s.order in {DnsReady, DnsAcknowledged})
            && s'.timing == (match w
                             case BeginTiming => s.timing + 1
                             case FinishTiming => s.timing - 1
                             case Other(_, dropped) => s.timing - dropped
                             case _ => s.timing)
            && s'.records == (match w
                              case FinishIssuance => s.records + 1
                              case Other(records, _) => records
                              case _ => s.records)
  {
    hide DnsTransitions.Begin, AfterFailure, AfterSuccess, Admitted, Admits, PlanReserve, TotalReserve;
    if w.CloseRequest? { SettledPlan(s.plan); }
  }
}
