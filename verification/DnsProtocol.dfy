/**
 The DNS ownership protocol: one durable plan record, the process that holds the writer lock, and a
 provider whose zone other parties also edit (runStagingDNS in
 internal/instanceaccess/dns_operation_linux.go around the modules this one imports).

 Every durable replacement, every send, every provider action and every reply is one step; a crash may
 fall between any two, and stands for every refusal to go on, a refused save included. Messages may be
 delayed without bound, applied at most once, or lost. Clocks are arbitrary. Assumed of the world: the
 provider answers reads truthfully and never reuses an identifier, and nobody else writes this owner's
 marker.
 */
module DnsProtocol {
  import opened Common
  import opened RetryPolicy
  import opened DnsRecord
  import opened DnsTransitions
  import opened CloudflareSession

  datatype Process =
    | Idle
    | Working(lease: Lease, session: Session, awaiting: bool)

  datatype System = System(
    record: Record,             // durable
    process: Process,           // lost in a crash
    zone: map<string, CfRecord>,
    used: set<string>,          // every identifier the provider ever issued
    posts: nat,                 // creations in flight
    deletes: set<string>,       // deletions in flight
    answer: Option<Reply>,      // the provider's reply to the write the process waits for
    made: Option<string>,       // the identifier a creation was applied under
    postsSent: nat, deletesSent: nat)

  datatype Step =
    | Begin(mode: Mode, at: Instant, jitter: int, scope: Scope, proceed: bool)
    | Read(exchange: Exchange)
    | Send
    | Stop
    | ApplyPost(id: string) | LosePost
    | ApplyDelete(id: string) | LoseDelete(id: string)
    | Receive(exchange: Exchange)
    | FinishFailed(at: Instant) | FinishSeen(readings: Readings)
    | Crash
    | Edit(id: string, record: CfRecord) | Erase(id: string)

  // What a truthful provider can answer a read.
  predicate Truthful(zone: map<string, CfRecord>, t: Target, q: Request, reply: Reply) {
    match q
    case GetRecord(id) =>
      && (reply.Missing? ==> id !in zone)
      && (reply.Single? ==> id in zone && zone[id] == reply.record)
    case ListMatching =>
      reply.Records? ==>
        && (forall r | r in reply.list :: r.id in zone && zone[r.id] == r)
        && (forall id | id in zone && zone[id].kind == "TXT" && zone[id].name == t.name
            && zone[id].content == t.value ::
              zone[id] in reply.list)
    case _ => true
  }

  predicate Reading(s: Session) { s.stage in {AtZone, AtList, AtGet, AtConfirm} }

  predicate Wrote(s: Session) { exists q | q in s.sent :: Writes(q) }

  function Written(t: Target, id: string): CfRecord {
    CfRecord(id, "TXT", t.name, t.value, Marker(t), false)
  }

  function Idled(s: System): System { s.(process := Idle, answer := None) }

  // ---- The steps of the process under the lock ----

  function DoBegin(s: System, mode: Mode, at: Instant, jitter: int, scope: Scope, proceed: bool): System {
    if !s.process.Idle? then s else
    var b := DnsTransitions.Begin(s.record, mode, at, jitter, scope);
    if b.None? then s else
    var (r, l) := b.value;
    if !proceed || !Admitted(r, l) then s.(record := r)
    else s.(record := r, process := Working(l, Start(Prior(r, l), l.cleanup, l.readOnly, true), false))
  }

  function DoRead(s: System, t: Target, x: Exchange): System {
    if s.process.Idle? || s.process.awaiting || !Reading(s.process.session) then s
    else if !Truthful(s.zone, t, Next(s.process.session), x.reply) then s
    else s.(process := s.process.(session := Advance(s.process.session, t, x)))
  }

  function DoSend(s: System): System {
    if s.process.Idle? || s.process.awaiting then s else
    var waiting := s.process.(awaiting := true);
    match s.process.session.stage
    case AtPost => s.(process := waiting, answer := None, posts := s.posts + 1, postsSent := s.postsSent + 1)
    case AtDelete =>
      s.(process := waiting, answer := None, deletes := s.deletes + {s.process.session.saved.id},
          deletesSent := s.deletesSent + 1)
    case _ => s
  }

  // Permission ends before the write leaves the process.
  function DoStop(s: System): System {
    if s.process.Idle? || s.process.awaiting then s
    else s.(process := s.process.(session := s.process.session.(stage := STOPPED)))
  }

  // The true answer, or any failure, at any time after the send.
  function DoReceive(s: System, t: Target, x: Exchange): System {
    if s.process.Idle? || !s.process.awaiting || s.process.session.stage.Done? then s
    else if (x.reply.Single? || x.reply.Removed?) && s.answer != Some(x.reply) then s
    else s.(process := s.process.(session := Advance(s.process.session, t, x.(permitted := true)), awaiting := false),
        answer := None)
  }

  function DoFinishFailed(s: System, at: Instant): System {
    if s.process.Idle? || !s.process.session.stage.Done? || !s.process.session.stage.result.Failed? then s
    else Idled(s.(record := AfterFailure(s.record, s.process.lease, s.process.session.stage.result.hint, at)))
  }

  function DoFinishSeen(s: System, c: Readings): System {
    if s.process.Idle? || !s.process.session.stage.Done? || !s.process.session.stage.result.Seen? then s else
    var p := s.process;
    var r := AfterSuccess(s.record, p.lease, p.session.stage.result.observed, Wrote(p.session), c);
    Idled(s.(record := if r.Some? then r.value else s.record))
  }

  // ---- The steps of the provider and of everybody else ----

  function DoApplyPost(s: System, t: Target, id: string): System {
    if s.posts == 0 || id in s.used then s else
    var r := Written(t, id);
    s.(posts := s.posts - 1, zone := s.zone[id := r], used := s.used + {id}, made := Some(id),
       answer := if s.process.Working? && s.process.awaiting && s.process.session.stage == AtPost then Some(Single(r))
           else s.answer)
  }

  function DoApplyDelete(s: System, id: string): System {
    if id !in s.deletes then s else
    s.(deletes := s.deletes - {id}, zone := s.zone - {id},
       answer := if s.process.Working? && s.process.awaiting
           && s.process.session.stage == AtDelete then Some(Removed(id)) else s.answer)
  }

  // Another party may write or change anything, except to introduce this owner's marker.
  predicate ForeignEdit(s: System, t: Target, id: string, r: CfRecord) {
    && r.id == id
    && (id in s.zone || id !in s.used)
    && (r.comment == Marker(t) ==> id in s.zone && s.zone[id].comment == Marker(t))
  }

  function Apply(s: System, t: Target, step: Step): System {
    match step
    case Begin(mode, at, jitter, scope, proceed) => DoBegin(s, mode, at, jitter, scope, proceed)
    case Read(x) => DoRead(s, t, x)
    case Send => DoSend(s)
    case Stop => DoStop(s)
    case ApplyPost(id) => DoApplyPost(s, t, id)
    case LosePost => if s.posts == 0 then s else s.(posts := s.posts - 1)
    case ApplyDelete(id) => DoApplyDelete(s, id)
    case LoseDelete(id) => s.(deletes := s.deletes - {id})
    case Receive(x) => DoReceive(s, t, x)
    case FinishFailed(at) => DoFinishFailed(s, at)
    case FinishSeen(c) => DoFinishSeen(s, c)
    case Crash => Idled(s)
    case Edit(id, r) => if ForeignEdit(s, t, id, r) then s.(zone := s.zone[id := r], used := s.used + {id}) else s
    case Erase(id) => s.(zone := s.zone - {id})
  }

  // A freshly prepared record, and a zone in which nobody has used its marker.
  predicate Initial(s: System, t: Target) {
    && s.record == PREPARED && s.process == Idle && s.posts == s.postsSent == s.deletesSent == 0
    && s.deletes == {} && s.answer.None? && s.made.None?
    && (forall id | id in s.zone :: id in s.used && s.zone[id].id == id && s.zone[id].comment != Marker(t))
  }

  function Run(s: System, t: Target, steps: seq<Step>): System {
    if steps == [] then s else Apply(Run(s, t, steps[..|steps| - 1]), t, steps[|steps| - 1])
  }

  // ---- The invariant ----

  predicate ZoneInv(s: System, t: Target) {
    && (forall id | id in s.zone ::
          id in s.used && s.zone[id].id == id && (s.zone[id].comment == Marker(t) ==> s.made == Some(id)))
    && (s.made.Some? ==> s.made.value in s.used)
    && s.posts + (if s.made.Some? then 1 else 0) <= s.postsSent <= 1
    && s.deletesSent <= 1
  }

  predicate RecordInv(s: System) {
    && (s.record.state in {New, Borrowed} ==> s.postsSent == 0)
    && (s.record.state !in {Deleting, Deleted} ==> s.deletesSent == 0 && s.deletes == {})
    && (s.record.state in {Created, Deleting, Deleted} ==> s.made == Some(s.record.id) && Hex32(s.record.id))
    && s.deletes <= {s.record.id}
    && (s.record.state == Deleted ==> s.record.id !in s.zone)
  }

  predicate ProcessInv(s: System) {
    match s.process
    case Idle => s.answer.None?
    case Working(l, session, awaiting) =>
      && Pending(s.record, l.cleanup)
      && session.saved == Prior(s.record, l) && session.cleanup == l.cleanup && session.readOnly == l.readOnly
      && OnPath(session) && Expected(session)
      && (!l.readOnly && !l.cleanup ==> s.postsSent == (if awaiting || Wrote(session) then 1 else 0))
      && (!l.readOnly && l.cleanup ==> s.deletesSent == (if awaiting || Wrote(session) then 1 else 0))
      && (awaiting ==> session.stage in {AtPost, AtDelete})
      && (session.stage == AtConfirm ==> s.record.id !in s.zone)
      && (s.answer.Some? ==> awaiting && if l.cleanup then s.answer.value == Removed(s.record.id)
          && s.record.id !in s.zone
                                         else s.answer.value.Single? && s.made == Some(s.answer.value.record.id))
      && (session.stage.Done? && session.stage.result.Seen? ==>
            var o := session.stage.result.observed;
            if l.cleanup then o.state == Deleted ==> s.record.id !in s.zone
            else o.state == Created ==> s.made == Some(o.id))
  }

  predicate Inv(s: System, t: Target) { ZoneInv(s, t) && RecordInv(s) && ProcessInv(s) }

  lemma BeginMoves(r: Record, mode: Mode, at: Instant, jitter: int, scope: Scope)
    requires DnsTransitions.Begin(r, mode, at, jitter, scope).Some?
    ensures var (r', l) := DnsTransitions.Begin(r, mode, at, jitter, scope).value;
            && r'.id == r.id && Pending(r', l.cleanup)
            && (l.cleanup ==> r.state in {Created, Deleting} && l.readOnly == (r.state == Deleting))
            && (!l.cleanup ==> r.state in {New, Creating} && l.readOnly == (r.state == Creating))
  {
    hide BeginHalf, ClockFits;
  }

  lemma FailureKeepsPlace(r: Record, l: Lease, hint: Hint, at: Instant)
    ensures var r' := AfterFailure(r, l, hint, at); r'.state == r.state && r'.id == r.id
  {
    hide FailHalf;
  }

  lemma SuccessFollowsObservation(r: Record, l: Lease, seen: Observed, checkpointed: bool, c: Readings)
    ensures var o := Observe(r, l, seen, checkpointed, c.checked);
            var r' := AfterSuccess(r, l, seen, checkpointed, c);
            && (o.None? <==> r'.None?)
            && (o.Some? ==> r'.value.state == o.value.state && r'.value.id == o.value.id)
  {
    hide PublishHalf, Observe;
  }

  lemma BeginKeepsInv(s: System, t: Target, mode: Mode, at: Instant, jitter: int, scope: Scope, proceed: bool)
    requires Inv(s, t)
    ensures Inv(DoBegin(s, mode, at, jitter, scope, proceed), t)
  {
    hide DnsTransitions.Begin, Admitted;
    if DnsTransitions.Begin(s.record, mode, at, jitter, scope).Some? {
      BeginMoves(s.record, mode, at, jitter, scope);
    }
  }

  lemma ReadKeepsInv(s: System, t: Target, x: Exchange)
    requires Inv(s, t)
    ensures Inv(DoRead(s, t, x), t)
  {
    if s.process.Working? && !s.process.awaiting && Reading(s.process.session) {
      AdvanceStaysOnPath(s.process.session, t, x);
    }
  }

  lemma SendKeepsInv(s: System, t: Target)
    requires Inv(s, t)
    ensures Inv(DoSend(s), t)
  {
  }

  lemma ReceiveKeepsInv(s: System, t: Target, x: Exchange)
    requires Inv(s, t)
    ensures Inv(DoReceive(s, t, x), t)
  {
    if s.process.Working? && s.process.awaiting {
      AdvanceStaysOnPath(s.process.session, t, x.(permitted := true));
      assert Next(s.process.session) in Advance(s.process.session, t, x.(permitted := true)).sent;
    }
  }

  lemma FinishKeepsInv(s: System, t: Target, at: Instant, c: Readings)
    requires Inv(s, t)
    ensures Inv(DoFinishFailed(s, at), t) && Inv(DoFinishSeen(s, c), t)
  {
    hide AfterFailure, AfterSuccess;
    if s.process.Working? && s.process.session.stage.Done? {
      var p := s.process;
      match p.session.stage.result
      case Failed(hint) => FailureKeepsPlace(s.record, p.lease, hint, at);
      case Seen(o) => SuccessFollowsObservation(s.record, p.lease, o, Wrote(p.session), c);
    }
  }

  lemma ProviderKeepsInv(s: System, t: Target, id: string)
    requires Inv(s, t)
    ensures Inv(DoApplyPost(s, t, id), t)
    ensures Inv(DoApplyDelete(s, id), t)
  {
    hide Expected, Prior, Wrote, Hex32;
  }

  lemma LossKeepsInv(s: System, t: Target, id: string)
    requires Inv(s, t)
    ensures Inv(s.(deletes := s.deletes - {id}), t)
    ensures s.posts > 0 ==> Inv(s.(posts := s.posts - 1), t)
    ensures Inv(Idled(s), t) && Inv(DoStop(s), t)
  {
    hide Prior, Hex32;
  }

  lemma OthersKeepInv(s: System, t: Target, id: string, r: CfRecord)
    requires Inv(s, t)
    ensures ForeignEdit(s, t, id, r) ==> Inv(s.(zone := s.zone[id := r], used := s.used + {id}), t)
    ensures Inv(s.(zone := s.zone - {id}), t)
  {
    hide Expected, Prior, Wrote, Hex32;
  }

  lemma StepKeepsInv(s: System, t: Target, step: Step)
    requires Inv(s, t)
    ensures Inv(Apply(s, t, step), t)
  {
    hide Inv, DoBegin, DoRead, DoSend, DoStop, DoReceive, DoFinishFailed, DoFinishSeen, DoApplyPost, DoApplyDelete,
        ForeignEdit, Idled;
    match step
    case Begin(mode, at, jitter, scope, proceed) => BeginKeepsInv(s, t, mode, at, jitter, scope, proceed);
    case Read(x) => ReadKeepsInv(s, t, x);
    case Send => SendKeepsInv(s, t);
    case ApplyPost(id) => ProviderKeepsInv(s, t, id);
    case ApplyDelete(id) => ProviderKeepsInv(s, t, id);
    case LosePost | Stop | Crash => LossKeepsInv(s, t, "");
    case LoseDelete(id) => LossKeepsInv(s, t, id);
    case Receive(x) => ReceiveKeepsInv(s, t, x);
    case FinishFailed(at) => FinishKeepsInv(s, t, at, Readings(at, at, at, at));
    case FinishSeen(c) => FinishKeepsInv(s, t, c.entry, c);
    case Edit(id, r) => OthersKeepInv(s, t, id, r);
    case Erase(id) => OthersKeepInv(s, t, id, Written(t, id));
  }

  lemma {:induction false} RunKeepsInv(s: System, t: Target, steps: seq<Step>)
    requires Initial(s, t)
    ensures Inv(Run(s, t, steps), t)
  {
    if steps != [] {
      RunKeepsInv(s, t, steps[..|steps| - 1]);
      StepKeepsInv(Run(s, t, steps[..|steps| - 1]), t, steps[|steps| - 1]);
    }
  }

  // ---- What holds of every run ----

  predicate Marked(s: System, t: Target) { exists id :: id in s.zone && s.zone[id].comment == Marker(t) }

  /** A provider record carrying this owner's marker exists only while the durable state says the
      creation is under way, done, or being undone; once the state is deleted no such record exists and
      no creation is left in flight that could still bring one about. */
  lemma MarkerIsAccountedFor(s: System, t: Target, steps: seq<Step>)
    requires Initial(s, t)
    ensures var now := Run(s, t, steps);
            && (Marked(now, t) ==> now.record.state in {Creating, Created, Deleting})
            && (now.record.state == Deleted ==> !Marked(now, t) && now.posts == 0)
  {
    RunKeepsInv(s, t, steps);
  }

  lemma RunAppends(s: System, t: Target, steps: seq<Step>, more: seq<Step>)
    requires more != []
    ensures Run(s, t, steps + more) == Apply(Run(s, t, steps + more[..|more| - 1]), t, more[|more| - 1])
  {
    var all := steps + more;
    assert all[..|all| - 1] == steps + more[..|more| - 1];
  }

  lemma SettledStatesStay(s: System, t: Target, step: Step)
    requires Inv(s, t) && s.record.state in {Borrowed, Deleted}
    ensures Apply(s, t, step).record == s.record
    ensures Apply(s, t, step).postsSent == s.postsSent && Apply(s, t, step).deletesSent == s.deletesSent
  {
    hide ZoneInv, RecordInv, BeginHalf, ClockFits;
  }

  /** Once the durable state is deleted it stays so, no marked record ever appears again and nothing
      further is sent, however the run goes on. */
  lemma {:induction false} DeletedIsForever(s: System, t: Target, steps: seq<Step>, more: seq<Step>)
    requires Initial(s, t) && Run(s, t, steps).record.state == Deleted
    ensures var later := Run(s, t, steps + more);
            && later.record.state == Deleted && !Marked(later, t) && later.posts == 0
            && later.postsSent == Run(s, t, steps).postsSent && later.deletesSent == Run(s, t, steps).deletesSent
    decreases |more|
  {
    if more == [] {
      assert steps + more == steps;
      MarkerIsAccountedFor(s, t, steps);
    } else {
      DeletedIsForever(s, t, steps, more[..|more| - 1]);
      RunAppends(s, t, steps, more);
      RunKeepsInv(s, t, steps + more[..|more| - 1]);
      SettledStatesStay(Run(s, t, steps + more[..|more| - 1]), t, more[|more| - 1]);
      MarkerIsAccountedFor(s, t, steps + more);
    }
  }

  /** Over a whole run at most one creation and at most one deletion leave the process; the deletion names
      the record that creation made, so a borrowed or foreign record is never deleted. */
  lemma WritesAreSentOnce(s: System, t: Target, steps: seq<Step>)
    requires Initial(s, t)
    ensures var now := Run(s, t, steps);
            && now.postsSent <= 1 && now.deletesSent <= 1
            && (forall id | id in now.deletes :: now.made == Some(id))
            && (now.record.state == Borrowed ==> now.postsSent == now.deletesSent == 0)
            && (now.deletesSent == 1 ==> now.postsSent == 1)
  {
    RunKeepsInv(s, t, steps);
  }

  /** No step of the system other than another party's removes or alters a record this owner did not make. */
  lemma ForeignRecordsAreUntouched(s: System, t: Target, steps: seq<Step>, step: Step, id: string)
    requires Initial(s, t) && !step.Edit? && !step.Erase?
    requires id in Run(s, t, steps).zone && Run(s, t, steps).made != Some(id)
    ensures var now := Run(s, t, steps);
            var next := Apply(now, t, step);
            id in next.zone && next.zone[id] == now.zone[id]
  {
    RunKeepsInv(s, t, steps);
  }

  // ---- A run that makes and removes ----

  const SOME_ID := "0123456789abcdef0123456789abcdef"
  const FIRST := YEAR_2020
  const MADE := Half(Retry(1, FIRST, FIRST + 30), false, None, None)
  const REMOVED := Half(Retry(1, FIRST + 2, FIRST + 32), false, None, None)

  function Clean(): System { System(PREPARED, Idle, map[], {}, 0, {}, None, None, 0, 0) }

  // The record made, and the system that made it.
  function Kept(): Record { Record(Created, SOME_ID, FIRST + 1, FIRST + 1, MADE, IDLE) }

  function Holding(t: Target): System {
    System(Kept(), Idle, map[SOME_ID := Written(t, SOME_ID)], {SOME_ID}, 0, {}, None, Some(SOME_ID), 1, 0)
  }

  function At(stamp: Stamp): Instant { Instant(stamp, false) }

  function Answered(reply: Reply): Exchange { Exchange(true, reply, true, true) }

  // One more step of a run.
  lemma OneMore(start: System, t: Target, steps: seq<Step>, s: System, e: Step)
      returns (steps': seq<Step>, s': System)
    requires Run(start, t, steps) == s
    ensures steps' == steps + [e] && s' == Apply(s, t, e) && Run(start, t, steps') == s'
  {
    steps', s' := steps + [e], Apply(s, t, e);
    assert steps'[..|steps|] == steps;
  }

  lemma NoSteps(s: System, t: Target)
    ensures Run(s, t, []) == s
  {
  }

  lemma SomeIdIsHex()
    ensures Hex32(SOME_ID)
  {
  }

  lemma FirstAttempt()
    ensures DnsTransitions.Begin(PREPARED, Add, At(FIRST), 0, Scope(FIRST, FIRST + 1, true, true))
            == Some((Record(Creating, "", NONE, NONE, MADE, IDLE), Lease(false, false, Policy)))
  {
    assert RetryPolicy.Begin(FRESH, At(FIRST), 0) == Some(MADE.policy);
  }

  lemma SecondAttempt()
    ensures DnsTransitions.Begin(Kept(), Cleanup, At(FIRST + 2), 0, Scope(FIRST, FIRST + 1, true, true))
            == Some((Record(Deleting, SOME_ID, FIRST + 1, NONE, MADE, REMOVED), Lease(false, true, Policy)))
  {
    assert RetryPolicy.Begin(FRESH, At(FIRST + 2), 0) == Some(REMOVED.policy);
  }

  lemma MakeIt(t: Target) returns (steps: seq<Step>)
    ensures Run(Clean(), t, steps) == Holding(t)
  {
    hide Run, DnsTransitions.Begin, Hex32;
    SomeIdIsHex();
    FirstAttempt();
    NoSteps(Clean(), t);
    var c := At(FIRST + 1);
    var s;
    steps, s := OneMore(Clean(), t, [], Clean(), Begin(Add, At(FIRST), 0, Scope(FIRST, FIRST + 1, true, true), true));
    steps, s := OneMore(Clean(), t, steps, s, Read(Answered(Zone(true))));
    assert s.process.session.stage == AtList;
    steps, s := OneMore(Clean(), t, steps, s, Read(Answered(Records([]))));
    assert s.process.session.stage == AtPost;
    steps, s := OneMore(Clean(), t, steps, s, Send);
    steps, s := OneMore(Clean(), t, steps, s, ApplyPost(SOME_ID));
    steps, s := OneMore(Clean(), t, steps, s, Receive(Answered(Single(Written(t, SOME_ID)))));
    assert s.process.session.stage == Done(Seen(Observed(Created, SOME_ID)));
    assert s.process.session.sent == [GetZone, ListMatching, PostRecord];
    assert PostRecord in s.process.session.sent && Wrote(s.process.session);
    steps, s := OneMore(Clean(), t, steps, s, FinishSeen(Readings(c, c, c, c)));
    assert s.zone == map[SOME_ID := Written(t, SOME_ID)] && s.used == {SOME_ID};
    assert s.record == Kept();
  }

  lemma RemoveIt(t: Target, made: seq<Step>) returns (steps: seq<Step>)
    requires Run(Clean(), t, made) == Holding(t)
    ensures made <= steps
    ensures var s := Run(Clean(), t, steps);
            && s.record.state == Deleted && s.process == Idle && s.zone == map[]
            && s.postsSent == 1 && s.deletesSent == 1
  {
    hide Run, DnsTransitions.Begin, Hex32;
    SomeIdIsHex();
    SecondAttempt();
    var c := At(FIRST + 3);
    var s;
    steps, s := OneMore(Clean(), t, made, Holding(t),
                        Begin(Cleanup, At(FIRST + 2), 0, Scope(FIRST, FIRST + 1, true, true), true));
    steps, s := OneMore(Clean(), t, steps, s, Read(Answered(Zone(true))));
    assert s.process.session.stage == AtGet;
    steps, s := OneMore(Clean(), t, steps, s, Read(Answered(Single(Written(t, SOME_ID)))));
    assert s.process.session.stage == AtDelete;
    steps, s := OneMore(Clean(), t, steps, s, Send);
    steps, s := OneMore(Clean(), t, steps, s, ApplyDelete(SOME_ID));
    steps, s := OneMore(Clean(), t, steps, s, Receive(Answered(Removed(SOME_ID))));
    assert s.process.session.stage == Done(Seen(Observed(Deleted, "")));
    steps, s := OneMore(Clean(), t, steps, s, FinishSeen(Readings(c, c, c, c)));
  }

  /** The protocol does not only stay out of trouble: for any reviewed place, from a zone with nothing of ours
      in it, a run makes the record, stores it as created, removes it again and stores that, with one creation
      and one deletion sent. */
  lemma MadeAndRemoved(t: Target) returns (made: seq<Step>, all: seq<Step>)
    ensures Initial(Clean(), t) && made <= all
    ensures var s := Run(Clean(), t, made);
            && s.record.state == Created && s.record.id == SOME_ID && s.process == Idle
            && s.zone == map[SOME_ID := Written(t, SOME_ID)] && s.postsSent == 1 && s.deletesSent == 0
    ensures var s := Run(Clean(), t, all);
            && s.record.state == Deleted && s.process == Idle && s.zone == map[]
            && s.postsSent == 1 && s.deletesSent == 1
  {
    hide Run;
    made := MakeIt(t);
    all := RemoveIt(t, made);
  }
}
