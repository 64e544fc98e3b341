/**
 One DNS operation as it runs (executeStagingDNSAttemptAt in internal/inventorystore/dns_operation.go,
 runStagingDNS in internal/instanceaccess/dns_operation_linux.go): the intent is durable before
 anything is sent, the lease is used once, and what is saved is what DnsLife says of it.
 */
module DnsOperation {
  import opened Common
  import opened RetryPolicy
  import opened DnsRecord
  import opened DnsTransitions
  import opened CloudflareSession
  import DnsLife

  // A replacement of the stored file: not made, made but reported as uncertain, or made.
  datatype Replacement = NotReplaced | Uncertain | Replaced

  // Everything outside one execution: whether the lease's image, order and configuration are the stored
  // ones, permission and clock at each check, and the provider's side of the conversation.
  datatype World = World(
    current: bool, permits: bool, first: Instant, second: Instant, script: seq<Exchange>,
    stillPermits: bool, lastPermits: bool, readings: Readings, deadline: Stamp)

  // One operation: what is asked for, what becomes of its two saves, and the world in between.
  datatype Operation = Operation(mode: Mode, at: Instant, jitter: int, scope: Scope, begun: Replacement, world: World,
      ended: Replacement)

  // ---- What an execution comes to ----

  predicate Admits(r: Record, l: Lease, w: World) {
    w.current && Admitted(r, l) && w.permits && Allowed(r, l, w.first, w.deadline)
        && Allowed(r, l, w.second, w.deadline)
  }

  function Conversation(r: Record, l: Lease, t: Target, w: World): Session {
    Drive(Start(Prior(r, l), l.cleanup, l.readOnly, true), t, w.script)
  }

  predicate Wrote(sent: seq<Request>) { exists q | q in sent :: Writes(q) }

  // The event of the record's life an execution amounts to.
  function Outcome(r: Record, l: Lease, t: Target, w: World): DnsLife.Event {
    if !Admits(r, l, w) then DnsLife.Lose else
    var end := Conversation(r, l, t, w);
    if !end.stage.Done? || !w.stillPermits || !Allowed(r, l, w.readings.entry, w.deadline) then DnsLife.Lose
    else match end.stage.result
      case Failed(hint) => DnsLife.Fail(hint, w.readings.outcome)
      case Seen(o) =>
        if !w.lastPermits || !Allowed(r, l, w.readings.last, w.deadline) then DnsLife.Lose
        else DnsLife.Succeed(o, Wrote(end.sent), w.readings)
  }

  function Requests(r: Record, l: Lease, t: Target, w: World): seq<Request> {
    if Admits(r, l, w) then Conversation(r, l, t, w).sent else []
  }

  // The record to be saved; None when nothing is.
  function Saved(prepared: Stamp, r: Record, l: Lease, e: DnsLife.Event): Option<Record> {
    var next :=
      if e.Fail? then Some(AfterFailure(r, l, e.hint, e.at))
      else if e.Succeed? then AfterSuccess(r, l, e.seen, e.checkpointed, e.readings)
      else None;
    if next.Some? && Accepted(next.value, prepared, false) then next else None
  }

  // ---- The record as the operation changes it ----

  class Row {
    var state: Phase
    var id: string
    var checkedAt: Stamp
    var outcomeAt: Stamp
    var making: Half
    var removal: Half

    function Value(): Record
      reads this
    { Record(state, id, checkedAt, outcomeAt, making, removal) }

    constructor (r: Record)
      ensures Value() == r
    {
      state, id, checkedAt, outcomeAt, making, removal := r.state, r.id, r.checkedAt, r.outcomeAt, r.making, r.removal;
    }

    method SetHalf(cleanup: bool, h: Half)
      modifies this
      ensures Value() == WithHalf(old(Value()), cleanup, h)
    {
      if cleanup { removal := h; } else { making := h; }
    }

    /** beginDNSOperationAt: the durable intent and the lease it mints. */
    method Begin(mode: Mode, at: Instant, jitter: int, scope: Scope) returns (lease: Option<Lease>)
      modifies this
      ensures match DnsTransitions.Begin(old(Value()), mode, at, jitter, scope)
              case None => lease.None? && Value() == old(Value())
              case Some(b) => Value() == b.0 && lease == Some(b.1)
    {
      hide BeginHalf, ModeFits, ClockFits;
      if !ModeFits(Value(), mode) || !ClockFits(Value(), at, scope) { return None; }
      var cleanup, readOnly := IsCleanup(Value(), mode), state in {Creating, Deleting};
      var half := BeginHalf(HalfOf(Value(), cleanup), KindOf(mode), Max(outcomeAt, checkedAt), at, jitter);
      if half.None? { return None; }
      SetHalf(cleanup, half.value);
      state, outcomeAt := if cleanup then Deleting else Creating, NONE;
      lease := Some(Lease(readOnly, cleanup, KindOf(mode)));
    }

    /** A failed provider call: only the wait is kept. */
    method Defer(l: Lease, hint: Hint, at: Instant)
      modifies this
      ensures Value() == AfterFailure(old(Value()), l, hint, at)
    {
      hide FailHalf;
      SetHalf(l.cleanup, FailHalf(HalfOf(Value(), l.cleanup), l.kind, hint, at));
      outcomeAt := at.Floor();
    }

    /** A provider observation; one that does not fit the lease is refused. */
    method Settle(l: Lease, seen: Observed, checkpointed: bool, c: Readings) returns (ok: bool)
      modifies this
      ensures ok == AfterSuccess(old(Value()), l, seen, checkpointed, c).Some?
      ensures Value() == if ok then AfterSuccess(old(Value()), l, seen, checkpointed, c).value else old(Value())
    {
      hide PublishHalf, Hex32;
      if l.cleanup {
        if seen.id != "" && seen.id != id { return false; }
        if seen.state == Deleted && seen.id == "" {
          state, checkedAt := Deleted, c.checked.Floor();
        } else if !l.readOnly || seen != Prior(Value(), l) {
          return false;
        }
      } else if seen.state == Borrowed && seen.id == "" && !l.readOnly && !checkpointed {
        state, checkedAt := Borrowed, c.checked.Floor();
      } else if seen.state == Created && Hex32(seen.id) && (l.readOnly || checkpointed) {
        state, id, checkedAt := Created, seen.id, c.checked.Floor();
      } else if !l.readOnly || seen != Prior(Value(), l) {
        return false;
      }
      outcomeAt := c.outcome.Floor();
      if l.kind == Maintaining {
        SetHalf(l.cleanup, PublishHalf(HalfOf(Value(), l.cleanup), state == (if l.cleanup then Deleted else Created),
            checkedAt, c.outcome));
      }
      ok := true;
    }
  }

  // A lease as the process holds it: used at most once.
  class Attempt {
    const lease: Lease
    var used: bool

    constructor (l: Lease)
      ensures lease == l && !used
    {
      lease, used := l, false;
    }
  }

  // ---- The transaction ----

  class Store {
    const target: Target
    const prepared: Stamp
    var record: Record   // durable

    constructor (t: Target, prepared: Stamp)
      ensures target == t && this.prepared == prepared && record == PREPARED
    {
      target, this.prepared, record := t, prepared, PREPARED;
    }

    /** Uses a lease: nothing is sent for a used one, and what is to be saved is the outcome of exactly one
        conversation with the provider. */
    method Execute(attempt: Attempt, connector: Connector, w: World) returns (next: Option<Record>)
      requires connector.target == target && connector.calls == 0 && connector.sent == [] && |w.script| >= MAX_CALLS
      modifies attempt, connector
      ensures attempt.used
      ensures old(attempt.used) ==> next.None? && connector.sent == []
      ensures !old(attempt.used) ==>
                && connector.sent == Requests(record, attempt.lease, target, w)
                && next == Saved(prepared, record, attempt.lease, Outcome(record, attempt.lease, target, w))
    {
      hide Accepted, Admitted, Allowed, AfterFailure, AfterSuccess, Drive, Start, Prior;
      next := None;
      if attempt.used { return; }
      attempt.used := true;
      var l := attempt.lease;
      if !w.current || !Admitted(record, l) || !w.permits || !Allowed(record, l, w.first, w.deadline)
         || !Allowed(record, l, w.second, w.deadline) {
        return;
      }
      var result := connector.Record(Prior(record, l), l.cleanup, l.readOnly, true, w.script);
      if !w.stillPermits || !Allowed(record, l, w.readings.entry, w.deadline) { return; }
      var row := new Row(record);
      match result {
        case Failed(hint) =>
          row.Defer(l, hint, w.readings.outcome);
        case Seen(o) =>
          var ok := row.Settle(l, o, exists q | q in connector.sent :: Writes(q), w.readings);
          if !ok || !w.lastPermits || !Allowed(record, l, w.readings.last, w.deadline) { return; }
      }
      if Accepted(row.Value(), prepared, false) { next := Some(row.Value()); }
    }

    /** runStagingDNS: intent, execution and outcome under one lock. Nothing is sent before the intent is
        durable, and what the store then holds is the record one intent and one outcome on. */
    method Run(o: Operation, connector: Connector)
      requires connector.target == target && connector.calls == 0 && connector.sent == []
                && |o.world.script| >= MAX_CALLS
      modifies this, connector
      ensures record == Ran(prepared, old(record), target, o)
      ensures connector.sent != [] ==> o.begun == Replaced && Granted(prepared, old(record), o).Some?
      ensures Granted(prepared, old(record), o).Some? && o.begun == Replaced ==>
                var b := Granted(prepared, old(record), o).value;
                connector.sent == Requests(b.0, b.1, target, o.world)
    {
      hide DnsTransitions.Begin, Requests, Outcome, Saved;
      var row := new Row(record);
      var lease := row.Begin(o.mode, o.at, o.jitter, o.scope.(prepared := prepared));
      if lease.None? || o.begun == NotReplaced { return; }
      record := row.Value();
      if o.begun == Uncertain { return; }
      var attempt := new Attempt(lease.value);
      var next := Execute(attempt, connector, o.world);
      if next.None? || o.ended == NotReplaced { return; }
      record := next.value;
    }
  }

  // The intent and lease of an operation on the plan prepared then.
  function Granted(prepared: Stamp, r: Record, o: Operation): Option<(Record, Lease)> {
    DnsTransitions.Begin(r, o.mode, o.at, o.jitter, o.scope.(prepared := prepared))
  }

  // The record on file after one operation, and after a history of them.
  function Ran(prepared: Stamp, r: Record, t: Target, o: Operation): Record {
    var b := Granted(prepared, r, o);
    if b.None? || o.begun == NotReplaced then r
    else if o.begun == Uncertain then b.value.0
    else
      var next := Saved(prepared, b.value.0, b.value.1, Outcome(b.value.0, b.value.1, t, o.world));
      if next.None? || o.ended == NotReplaced then b.value.0 else next.value
  }

  function History(prepared: Stamp, t: Target, operations: seq<Operation>): Record {
    if operations == [] then PREPARED
    else Ran(prepared, History(prepared, t, operations[..|operations| - 1]), t, operations[|operations| - 1])
  }

  // The events of a record's life one operation stands for.
  function EventsOf(prepared: Stamp, r: Record, t: Target, o: Operation): seq<DnsLife.Event> {
    var b := Granted(prepared, r, o);
    if b.None? || o.begun == NotReplaced then []
    else
      [DnsLife.Start(o.mode, o.at, o.jitter, o.scope),
       if o.begun == Uncertain || o.ended == NotReplaced then DnsLife.Lose
       else Outcome(b.value.0, b.value.1, t, o.world)]
  }

  lemma OperationIsPartOfALife(prepared: Stamp, t: Target, before: seq<DnsLife.Event>, o: Operation)
    requires DnsLife.Run(prepared, before).lease.None? && DnsLife.Run(prepared, before).prepared == prepared
    ensures var r := DnsLife.Run(prepared, before).record;
            var after := DnsLife.Run(prepared, before + EventsOf(prepared, r, t, o));
            after.record == Ran(prepared, r, t, o) && after.lease.None?
  {
    hide DnsTransitions.Begin, Outcome, Saved, DnsLife.Run, DnsLife.Step;
    var s := DnsLife.Run(prepared, before);
    var events := EventsOf(prepared, s.record, t, o);
    if events == [] {
      assert before + events == before;
    } else {
      DnsLife.LastStep(prepared, before, events);
      assert events[..1] == [events[0]] && [events[0]][..0] == [];
      DnsLife.LastStep(prepared, before, [events[0]]);
      assert before + [] == before;
      StartIsBegun(s, o);
      OutcomeIsAStep(DnsLife.Step(s, events[0]), t, o.world, o.begun == Uncertain || o.ended == NotReplaced);
    }
  }

  lemma StartIsBegun(s: DnsLife.Life, o: Operation)
    requires Granted(s.prepared, s.record, o).Some?
    ensures var s', b := DnsLife.Step(s, DnsLife.Start(o.mode, o.at, o.jitter, o.scope)),
              Granted(s.prepared, s.record, o).value;
            s'.record == b.0 && s'.lease == Some(b.1) && s'.prepared == s.prepared
  {
    hide DnsTransitions.Begin;
  }

  // The event that closes an operation leaves what is saved, and no lease.
  lemma OutcomeIsAStep(s: DnsLife.Life, t: Target, w: World, lost: bool)
    requires s.lease.Some?
    ensures var outcome := Outcome(s.record, s.lease.value, t, w);
            var after, next := DnsLife.Step(s, if lost then DnsLife.Lose else outcome),
                Saved(s.prepared, s.record, s.lease.value, outcome);
            && after.lease.None?
            && after.record == (if lost || next.None? then s.record else next.value)
  {
    hide AfterFailure, AfterSuccess, Accepted, Allowed, Admitted, Drive, Start, Prior;
  }

  /** Whatever operations a plan record goes through, with any permission, clocks, provider, interruption
      and uncertain saves, its stored form is that of a life DnsLife describes, and is always acceptable:
      every theorem about lives is a theorem about the stored record. */
  lemma {:induction false} HistoriesAreLives(prepared: Stamp, t: Target, operations: seq<Operation>)
      returns (events: seq<DnsLife.Event>)
    requires Canonical(prepared)
    ensures var s := DnsLife.Run(prepared, events);
            && s.record == History(prepared, t, operations) && s.lease.None? && s.prepared == prepared
            && Accepted(History(prepared, t, operations), prepared, false)
  {
    hide Ran, EventsOf, Accepted, DnsLife.Step;
    events := [];
    if operations != [] {
      var o := operations[|operations| - 1];
      events := HistoriesAreLives(prepared, t, operations[..|operations| - 1]);
      OperationIsPartOfALife(prepared, t, events, o);
      events := events + EventsOf(prepared, DnsLife.Run(prepared, events).record, t, o);
    }
    DnsLife.LivesStayAccepted(prepared, events);
  }

  // ---- What the stored state rests on ----

  predicate Removal(r: Record) { r.state == Created || r.state == Deleting }

  predicate Resumed(r: Record) { r.state == Creating || r.state == Deleting }

  // The provider showed this, to an operation on this record.
  predicate Shown(r: Record, t: Target, script: seq<Exchange>, seen: Observed)
    requires |script| >= MAX_CALLS
  {
    Evident(Observed(r.state, if Removal(r) then r.id else ""), Removal(r), Resumed(r), true, t, script, seen)
  }

  // The intent is durable, permission and clocks hold throughout, and the outcome can be recorded and is.
  predicate Unhindered(prepared: Stamp, r: Record, o: Operation) {
    && o.begun == Replaced && o.ended == Replaced && Granted(prepared, r, o).Some?
    && var (r', l) := Granted(prepared, r, o).value;
    && var w := o.world;
    && w.current && w.permits && w.stillPermits && w.lastPermits
    && Ordered(w.readings) && w.readings.outcome.sec < YEAR_2101
    && forall i | i in {w.first, w.second, w.readings.entry, w.readings.last} :: Allowed(r', l, i, w.deadline)
  }

  // What the connector is told, and that it is told what the record was before the attempt.
  lemma ToldAsItWas(prepared: Stamp, r: Record, o: Operation)
    requires Granted(prepared, r, o).Some?
    ensures var (r', l) := Granted(prepared, r, o).value;
            && l.cleanup == Removal(r) && l.readOnly == Resumed(r)
            && (r.state == New || Removal(r) || r.state == Creating)
            && Prior(r', l) == Observed(r.state, if Removal(r) then r.id else "")
            && r'.id == r.id && r'.state == (if Removal(r) then Deleting else Creating)
  {
    hide BeginHalf, ClockFits;
  }

  // What the conversation came to, in terms of its replies.
  lemma ConversationShows(prepared: Stamp, r: Record, t: Target, o: Operation, seen: Observed)
    requires Granted(prepared, r, o).Some? && |o.world.script| >= MAX_CALLS
    ensures var (r', l) := Granted(prepared, r, o).value;
            var end := Conversation(r', l, t, o.world);
            && end.stage.Done?
            && (end.stage.result == Seen(seen) <==> Shown(r, t, o.world.script, seen))
            && Justified(Observed(r.state, if Removal(r) then r.id else ""), Removal(r), Resumed(r), true, t,
                         o.world.script, end.sent)
  {
    hide DnsTransitions.Begin, Drive, Start, Evident, Justified, Prior;
    ToldAsItWas(prepared, r, o);
    var told := Observed(r.state, if Removal(r) then r.id else "");
    WritesFollowTheirEvidence(told, Removal(r), Resumed(r), true, t, o.world.script);
    ResultsFollowTheirEvidence(told, Removal(r), Resumed(r), true, t, o.world.script, seen);
  }

  // What an observation that was recorded leaves of state and identifier.
  lemma RecordedAsSeen(r: Record, l: Lease, seen: Observed, checkpointed: bool, c: Readings)
    requires r.state == (if l.cleanup then Deleting else Creating)
    ensures var next := AfterSuccess(r, l, seen, checkpointed, c);
            && (next.Some? && next.value.state != r.state ==>
                  && next.value.state == seen.state
                  && (if seen.state == Created then next.value.id == seen.id && !l.cleanup
                      else next.value.id == r.id && seen.id == "")
                  && (if l.cleanup then seen.state == Deleted else seen.state in {Created, Borrowed}))
            && (next.Some? <==>
                  || (l.cleanup && seen == Observed(Deleted, ""))
                  || (l.readOnly && seen == Prior(r, l))
                  || (!l.cleanup && seen == Observed(Borrowed, "") && !l.readOnly && !checkpointed)
                  || (!l.cleanup && seen.state == Created && Hex32(seen.id) && (l.readOnly || checkpointed)))
            && (next.Some? && seen != Prior(r, l) ==> next.value.state == seen.state)
  {
    hide PublishHalf, Hex32;
  }

  /** Whatever operation is run on a record: it is stored as created under an identifier only if the
      provider showed exactly this owner's record under it, as borrowed only if another's stood in its
      place, as deleted only if its own was removed by name or found missing. */
  lemma StoredStateFollowsEvidence(prepared: Stamp, r: Record, t: Target, o: Operation)
    requires |o.world.script| >= MAX_CALLS
    ensures var r' := Ran(prepared, r, t, o);
            r'.state != r.state && r'.state in {Created, Borrowed, Deleted} ==>
              Shown(r, t, o.world.script, Observed(r'.state, if r'.state == Created then r'.id else ""))
  {
    hide DnsTransitions.Begin, Conversation, Shown, Justified, Accepted, Admits, Allowed, AfterSuccess, AfterFailure;
    if Granted(prepared, r, o).Some? {
      var (b, l) := Granted(prepared, r, o).value;
      ToldAsItWas(prepared, r, o);
      var e := Outcome(b, l, t, o.world);
      if e.Succeed? {
        RecordedAsSeen(b, l, e.seen, e.checkpointed, e.readings);
        ConversationShows(prepared, r, t, o, e.seen);
      } else if e.Fail? {
        FailuresSettleNothing(b, l, e.hint, e.at);
      }
    }
  }

  lemma FailuresSettleNothing(r: Record, l: Lease, hint: Hint, at: Instant)
    ensures AfterFailure(r, l, hint, at).state == r.state
  {
    hide FailHalf;
  }

  /** And where nothing hinders the operation it is stored so whenever the provider showed it. */
  lemma EvidenceIsStored(prepared: Stamp, r: Record, t: Target, o: Operation, seen: Observed)
    requires |o.world.script| >= MAX_CALLS && Canonical(prepared) && Accepted(r, prepared, false)
    requires Unhindered(prepared, r, o) && Shown(r, t, o.world.script, seen)
    requires seen.state in {Created, Borrowed, Deleted}
    ensures var r' := Ran(prepared, r, t, o);
            r'.state == seen.state && (seen.state == Created ==> r'.id == seen.id)
  {
    hide DnsTransitions.Begin, Conversation, Shown, Justified, Accepted, AfterSuccess, AfterFailure, Fits, Allowed;
    var (b, l) := Granted(prepared, r, o).value;
    ToldAsItWas(prepared, r, o);
    BeginKeepsAccepted(r, o.mode, o.at, o.jitter, o.scope.(prepared := prepared));
    AdmittedByFit(b, l);
    ConversationShows(prepared, r, t, o, seen);
    var wrote := Wrote(Conversation(b, l, t, o.world).sent);
    ShownIsRecordable(prepared, r, t, o, seen);
    RecordedAsSeen(b, l, seen, wrote, o.world.readings);
    SuccessKeepsAccepted(b, l, seen, wrote, prepared, o.world.readings, o.world.deadline);
  }

  lemma AdmittedByFit(r: Record, l: Lease)
    requires Fits(r, l)
    ensures Admitted(r, l)
  {
  }

  // What was shown is something the lease can record.
  lemma ShownIsRecordable(prepared: Stamp, r: Record, t: Target, o: Operation, seen: Observed)
    requires |o.world.script| >= MAX_CALLS && Granted(prepared, r, o).Some?
    requires Shown(r, t, o.world.script, seen) && seen.state in {Created, Borrowed, Deleted}
    ensures var (b, l) := Granted(prepared, r, o).value;
            var wrote := Wrote(Conversation(b, l, t, o.world).sent);
            && seen != Prior(b, l)
            && (seen.state == Created ==> !l.cleanup && Hex32(seen.id) && (l.readOnly || wrote))
            && (seen.state == Borrowed ==> !l.cleanup && seen.id == "" && !l.readOnly && !wrote)
            && (seen.state == Deleted ==> l.cleanup && seen.id == "")
  {
    hide DnsTransitions.Begin, Conversation, Prior, Hex32;
    ToldAsItWas(prepared, r, o);
    ConversationShows(prepared, r, t, o, seen);
  }

  /** Where nothing hinders an operation whose conversation failed, the stored record is its intent with
      nothing changed but the outcome's stamp and the wait of this kind of attempt, and that wait is what the
      provider's last reply asked for. */
  lemma FailedCallsKeepTheWait(prepared: Stamp, r: Record, t: Target, o: Operation)
    requires |o.world.script| >= MAX_CALLS && Canonical(prepared) && Accepted(r, prepared, false)
    requires Unhindered(prepared, r, o) && forall seen: Observed :: !Shown(r, t, o.world.script, seen)
    requires o.mode == Maintain ==> o.at.sec + MAX_PROVIDER_WAIT < YEAR_2101
    ensures var (b, l) := Granted(prepared, r, o).value;
            var r', sent := Ran(prepared, r, t, o), Requests(b, l, t, o.world);
            var before, after := WaitOf(HalfOf(b, l.cleanup), l.kind), WaitOf(HalfOf(r', l.cleanup), l.kind);
            && OnlyWaits(b, r', l) && r'.outcomeAt == o.world.readings.outcome.sec
            && |sent| <= MAX_CALLS && before.Some? && after.Some?
            && Honours(before.value, Asked(sent, o.world.script), l.kind, after.value)
  {
    hide DnsTransitions.Begin, Shown, Justified, Accepted, AfterSuccess, AfterFailure, Fits, Allowed, Drive, Evident,
        CloudflareSession.Start, OnlyWaits, Honours, WaitOf, Asked;
    var (b, l) := Granted(prepared, r, o).value;
    var w := o.world;
    ToldAsItWas(prepared, r, o);
    KindFollowsMode(r, o.mode, o.at, o.jitter, o.scope.(prepared := prepared));
    BeginKeepsAccepted(r, o.mode, o.at, o.jitter, o.scope.(prepared := prepared));
    AdmittedByFit(b, l);
    var end := Conversation(b, l, t, w);
    var told := Observed(r.state, if Removal(r) then r.id else "");
    ResultsFollowTheirEvidence(told, Removal(r), Resumed(r), true, t, w.script, told);
    if end.stage.result.Seen? {
      ConversationShows(prepared, r, t, o, end.stage.result.observed);
      assert false;
    }
    FailureKeepsAccepted(b, l, end.stage.result.hint, prepared, w.readings.entry, w.readings.outcome, w.deadline);
  }

  lemma KindFollowsMode(r: Record, mode: Mode, at: Instant, jitter: int, scope: Scope)
    requires DnsTransitions.Begin(r, mode, at, jitter, scope).Some?
    ensures DnsTransitions.Begin(r, mode, at, jitter, scope).value.1.kind == Maintaining <==> mode == Maintain
  {
    hide BeginHalf;
  }

  // A clock reading at which an attempt on this record may call the provider: within the years that can be
  // recorded, not before the attempt began, and for a new record before its order's deadline.
  predicate CallsAt(r: Record, o: Operation, i: Instant) {
    && YEAR_2020 <= i.sec < YEAR_2101 && o.at.sec <= i.sec
    && (r.state == New ==> i.sec < o.world.deadline)
  }

  /** Something is sent for an attempt that was granted if and only if its image and configuration are the
      stored ones, permission holds when it is asked for, and so do the clock readings made before. */
  lemma CallsAreMadeExactly(prepared: Stamp, r: Record, t: Target, o: Operation)
    requires |o.world.script| >= MAX_CALLS && Canonical(prepared) && Accepted(r, prepared, false)
    requires Granted(prepared, r, o).Some?
    ensures var (b, l) := Granted(prepared, r, o).value;
            Requests(b, l, t, o.world) != [] <==>
              && o.world.current && o.world.permits && o.world.script[0].permitted
              && CallsAt(r, o, o.world.first) && CallsAt(r, o, o.world.second)
  {
    hide DnsTransitions.Begin, Accepted, HalfFits, Drive, CloudflareSession.Start, Prior, Admitted, StartedAt;
    var (b, l) := Granted(prepared, r, o).value;
    var w := o.world;
    ToldAsItWas(prepared, r, o);
    BeginKeepsAccepted(r, o.mode, o.at, o.jitter, o.scope.(prepared := prepared));
    AdmittedByFit(b, l);
    RecordIsTellable(prepared, r, o);
    FirstCall(Observed(r.state, if Removal(r) then r.id else ""), Removal(r), Resumed(r), t, w.script);
  }

  lemma RecordIsTellable(prepared: Stamp, r: Record, o: Operation)
    requires Accepted(r, prepared, false) && Granted(prepared, r, o).Some?
    ensures Removal(r) ==> Hex32(r.id)
    ensures r.state == Creating || r.state == New || Removal(r)
  {
    hide BeginHalf, ClockFits, ValidHalves, LatestStart, Hex32;
  }

  // A conversation about a record that can be told begins by confirming the zone.
  lemma FirstCall(told: Observed, cleanup: bool, resumed: bool, t: Target, script: seq<Exchange>)
    requires |script| >= MAX_CALLS
    requires if cleanup then Hex32(told.id) && told.state == (if resumed then Deleting else Created)
             else told == Observed(if resumed then Creating else New, "")
    ensures Drive(CloudflareSession.Start(told, cleanup, resumed, true), t, script).sent != [] <==> script[0].permitted
  {
    hide Hex32;
    var s0 := CloudflareSession.Start(told, cleanup, resumed, true);
    DriveThrice(s0, t, script);
    hide Drive;
  }

  /** An outcome that comes back without permission, or at a clock reading at which no call may be made, is
      not saved: the intent stays. An observation needs both once more at the end. */
  lemma LateOutcomesAreNotSaved(prepared: Stamp, r: Record, t: Target, o: Operation)
    requires Canonical(prepared) && Accepted(r, prepared, false) && Granted(prepared, r, o).Some?
    requires o.begun == Replaced
    ensures var b, w := Granted(prepared, r, o).value.0, o.world;
            && (Ran(prepared, r, t, o) != b ==>
                  o.ended != NotReplaced && w.stillPermits && CallsAt(r, o, w.readings.entry))
            && (Ran(prepared, r, t, o).state != b.state ==> w.lastPermits && CallsAt(r, o, w.readings.last))
  {
    hide DnsTransitions.Begin, Accepted, HalfFits, Drive, CloudflareSession.Start, Prior, Admitted, StartedAt,
        AfterSuccess, AfterFailure;
    var (b, l) := Granted(prepared, r, o).value;
    ToldAsItWas(prepared, r, o);
    BeginKeepsAccepted(r, o.mode, o.at, o.jitter, o.scope.(prepared := prepared));
    var e := Outcome(b, l, t, o.world);
    if e.Fail? { FailuresSettleNothing(b, l, e.hint, e.at); }
  }
}
